/**
 * The writing half of `group_records` in src/main.rs: one output file per
 * group, named after the group's key, holding the group's records in
 * order; the first file that cannot be written ends the whole operation.
 *
 * The file system is not modelled. What is written is the list of files
 * in the order they were written, each a path and the records encoded into
 * it; which paths cannot be written is given as the set `failing`.
 */
module Writer {
  import opened Results
  import opened Records
  import opened Grouping

  const Prefix := "apology."
  const Suffix := ".csv"

  /** `format!("apology.{}.csv", key)`: the output file of a group. */
  function OutputPath(key: string): (path: string)
    ensures |path| == |Prefix| + |key| + |Suffix|
  {
    Prefix + key + Suffix
  }

  /** The key whose output file `path` is, if it is one. */
  function KeyOfPath(path: string): (key: Option<string>)
    ensures key.Some? ==> |key.value| + |Prefix| + |Suffix| == |path|
  {
    if |path| >= |Prefix| + |Suffix| && path[..|Prefix|] == Prefix && path[|path| - |Suffix|..] == Suffix
    then Some(path[|Prefix|..|path| - |Suffix|])
    else None
  }

  /** The key can be read back from its output path. */
  lemma {:induction false} OutputPathRoundTrip(key: string)
    ensures KeyOfPath(OutputPath(key)) == Some(key)
  {
    var path := OutputPath(key);
    assert path[..|Prefix|] == Prefix;
    assert path[|path| - |Suffix|..] == Suffix;
    assert path[|Prefix|..|path| - |Suffix|] == key;
  }

  /** A path that reads back as a key is that key's output path. */
  lemma {:induction false} KeyOfPathRoundTrip(path: string)
    requires KeyOfPath(path).Some?
    ensures OutputPath(KeyOfPath(path).value) == path
  {
    var key := KeyOfPath(path).value;
    assert path == path[..|Prefix|] + key + path[|path| - |Suffix|..];
  }

  /** Distinct keys give distinct output paths. */
  lemma {:induction false} OutputPathInjective(a: string, b: string)
    requires a != b
    ensures OutputPath(a) != OutputPath(b)
  {
    OutputPathRoundTrip(a);
    OutputPathRoundTrip(b);
  }

  /**
   * A written record's row: its eleven fields in the order the struct
   * declares them, address2 included.
   */
  function Encode(r: Record): (row: seq<string>)
    ensures |row| == 11
  {
    [r.id, r.email, r.firstName, r.lastName, r.address1, r.address2,
     r.city, r.region, r.postalCode, r.country, r.phone]
  }

  /** The record a written row holds, if it has the eleven fields of one. */
  function RecordOfRow(row: seq<string>): (r: Option<Record>)
    ensures r.Some? <==> |row| == 11
  {
    if |row| == 11
    then Some(Record(row[0], row[1], row[2], row[3], row[4], row[5], row[6], row[7], row[8], row[9], row[10]))
    else None
  }

  /** Encoding loses nothing: a written row reads back as its record. */
  lemma {:induction false} EncodeRoundTrip(r: Record)
    ensures RecordOfRow(Encode(r)) == Some(r)
  {
  }

  /** A row that reads back as a record is that record's encoding. */
  lemma {:induction false} RecordOfRowRoundTrip(row: seq<string>)
    requires RecordOfRow(row).Some?
    ensures Encode(RecordOfRow(row).value) == row
  {
  }

  /** One output file: its path and the records written to it, in order. */
  datatype OutputFile = OutputFile(path: string, records: seq<Record>)

  /** Creating or writing the file at `path` failed. */
  datatype WriteError = CannotWrite(path: string)

  /**
   * The file holds the group whose key its path names.
   */
  predicate HoldsGroup(groups: Groups, file: OutputFile) {
    && KeyOfPath(file.path).Some?
    && KeyOfPath(file.path).value in groups
    && file.records == groups[KeyOfPath(file.path).value]
  }

  /**
   * `written` is the files of the groups of `keys`, in that order, at paths
   * that did not fail.
   */
  ghost predicate WrittenFor(groups: Groups, failing: set<string>, keys: seq<string>, written: seq<OutputFile>) {
    && |keys| == |written|
    && Distinct(keys)
    && (forall i | 0 <= i < |keys| :: keys[i] in groups)
    && (forall i | 0 <= i < |written| :: written[i] == OutputFile(OutputPath(keys[i]), groups[keys[i]]))
    && (forall i | 0 <= i < |written| :: written[i].path !in failing)
  }

  /** Files written for distinct keys each hold their group, at distinct paths. */
  lemma {:induction false} WrittenForDistinctGroups(
    groups: Groups, failing: set<string>, keys: seq<string>, written: seq<OutputFile>)
    requires WrittenFor(groups, failing, keys, written)
    ensures forall i | 0 <= i < |written| :: HoldsGroup(groups, written[i]) && written[i].path !in failing
    ensures forall i, j | 0 <= i < j < |written| :: written[i].path != written[j].path
  {
    forall i | 0 <= i < |written|
      ensures HoldsGroup(groups, written[i])
    {
      OutputPathRoundTrip(keys[i]);
    }
    forall i, j | 0 <= i < j < |written|
      ensures written[i].path != written[j].path
    {
      OutputPathInjective(keys[i], keys[j]);
    }
  }

  /** Writing one more group, at a path that did not fail, extends the record. */
  lemma {:induction false} WrittenForExtend(
    groups: Groups, failing: set<string>, keys: seq<string>, written: seq<OutputFile>, key: string)
    requires WrittenFor(groups, failing, keys, written)
    requires key in groups && key !in keys && OutputPath(key) !in failing
    ensures WrittenFor(groups, failing, keys + [key], written + [OutputFile(OutputPath(key), groups[key])])
  {
  }

  /**
   * What the write loop leaves behind: every file holds its own group at
   * a path that did not fail, no path is written twice, the loop succeeds
   * exactly when no group's path fails and then every group has its file,
   * and a failure names the path of a group, not written.
   */
  predicate WriteOutcome(groups: Groups, failing: set<string>, written: seq<OutputFile>, r: Result<(), WriteError>) {
    && (forall i | 0 <= i < |written| :: HoldsGroup(groups, written[i]) && written[i].path !in failing)
    && (forall i, j | 0 <= i < j < |written| :: written[i].path != written[j].path)
    && (r.Ok? <==> forall key | key in groups :: OutputPath(key) !in failing)
    && (r.Ok? ==> forall key | key in groups :: exists i | 0 <= i < |written| :: written[i].path == OutputPath(key))
    && (r.Err? ==>
          && r.error.path in failing
          && KeyOfPath(r.error.path).Some? && KeyOfPath(r.error.path).value in groups
          && forall i | 0 <= i < |written| :: written[i].path != r.error.path)
  }

  /** Stopping at a group whose path fails leaves a failed outcome. */
  lemma {:induction false} StoppedAt(
    groups: Groups, failing: set<string>, keys: seq<string>, written: seq<OutputFile>, key: string)
    requires WrittenFor(groups, failing, keys, written)
    requires key in groups && OutputPath(key) in failing
    ensures WriteOutcome(groups, failing, written, Err(CannotWrite(OutputPath(key))))
  {
    WrittenForDistinctGroups(groups, failing, keys, written);
    OutputPathRoundTrip(key);
  }

  /** Having written every group leaves a successful outcome. */
  lemma {:induction false} WrittenAll(
    groups: Groups, failing: set<string>, keys: seq<string>, written: seq<OutputFile>)
    requires WrittenFor(groups, failing, keys, written)
    requires forall key | key in groups :: key in keys
    ensures WriteOutcome(groups, failing, written, Ok(()))
  {
    WrittenForDistinctGroups(groups, failing, keys, written);
    forall key | key in groups
      ensures exists i | 0 <= i < |written| :: written[i].path == OutputPath(key)
    {
      var i :| 0 <= i < |keys| && keys[i] == key;
      assert written[i].path == OutputPath(key);
    }
  }

  /**
   * The write loop of `group_records`: visits the groups in an unspecified
   * order and writes each to its file, stopping at the first path that
   * cannot be written.
   */
  method WriteGroups(groups: Groups, failing: set<string>) returns (written: seq<OutputFile>, r: Result<(), WriteError>)
    ensures WriteOutcome(groups, failing, written, r)
  {
    written := [];
    var remaining := groups.Keys;
    ghost var done: seq<string> := [];
    while remaining != {}
      invariant remaining <= groups.Keys
      invariant WrittenFor(groups, failing, done, written)
      invariant forall i | 0 <= i < |done| :: done[i] !in remaining
      invariant forall key | key in groups && key !in remaining :: key in done
      decreases |remaining|
    {
      var key :| key in remaining;
      var path := OutputPath(key);
      if path in failing {
        StoppedAt(groups, failing, done, written, key);
        return written, Err(CannotWrite(path));
      }
      WrittenForExtend(groups, failing, done, written, key);
      written := written + [OutputFile(path, groups[key])];
      done := done + [key];
      remaining := remaining - {key};
    }
    WrittenAll(groups, failing, done, written);
    return written, Ok(());
  }

  /** The records of the files, file after file. */
  function AllRecords(files: seq<OutputFile>): seq<Record> {
    if files == [] then [] else files[0].records + AllRecords(files[1..])
  }

  /** The keys the files' paths name, file after file. */
  function PathKeys(files: seq<OutputFile>): (keys: seq<string>)
    requires forall i | 0 <= i < |files| :: KeyOfPath(files[i].path).Some?
    ensures |keys| == |files|
  {
    seq(|files|, i requires 0 <= i < |files| && KeyOfPath(files[i].path).Some? => KeyOfPath(files[i].path).value)
  }

  /** Files that each hold the filtered input of their key gather that input. */
  lemma {:induction false} AllRecordsGathered(records: seq<Record>, files: seq<OutputFile>)
    requires forall i | 0 <= i < |files| :: KeyOfPath(files[i].path).Some?
    requires forall i | 0 <= i < |files| :: files[i].records == WithKey(records, KeyOfPath(files[i].path).value)
    ensures AllRecords(files) == Gather(records, PathKeys(files))
  {
    if files != [] {
      AllRecordsGathered(records, files[1..]);
      assert PathKeys(files)[1..] == PathKeys(files[1..]);
    }
  }

  /** Files at distinct paths name distinct keys. */
  lemma {:induction false} PathKeysDistinct(files: seq<OutputFile>)
    requires forall i | 0 <= i < |files| :: KeyOfPath(files[i].path).Some?
    requires forall i, j | 0 <= i < j < |files| :: files[i].path != files[j].path
    ensures Distinct(PathKeys(files))
  {
    var keys := PathKeys(files);
    forall i, j | 0 <= i < j < |keys|
      ensures keys[i] != keys[j]
    {
      KeyOfPathRoundTrip(files[i].path);
      KeyOfPathRoundTrip(files[j].path);
    }
  }

  /** When every key has its file, every record's key is named by a file. */
  lemma {:induction false} PathKeysCover(records: seq<Record>, files: seq<OutputFile>)
    requires forall i | 0 <= i < |files| :: KeyOfPath(files[i].path).Some?
    requires forall key | key in KeysOf(records) :: exists i | 0 <= i < |files| :: files[i].path == OutputPath(key)
    ensures forall n | 0 <= n < |records| :: records[n].Key() in PathKeys(files)
  {
    var keys := PathKeys(files);
    forall n | 0 <= n < |records|
      ensures records[n].Key() in keys
    {
      var key := records[n].Key();
      KeysOfExactly(records, key);
      var i :| 0 <= i < |files| && files[i].path == OutputPath(key);
      OutputPathRoundTrip(key);
      assert keys[i] == key;
    }
  }

  /**
   * Files at distinct paths, one for each key of `records`, each holding
   * the records of its key, hold every input record exactly once.
   */
  lemma {:induction false} FilesPartition(records: seq<Record>, files: seq<OutputFile>)
    requires forall i | 0 <= i < |files| ::
      && KeyOfPath(files[i].path).Some?
      && files[i].records == WithKey(records, KeyOfPath(files[i].path).value)
    requires forall i, j | 0 <= i < j < |files| :: files[i].path != files[j].path
    requires forall key | key in KeysOf(records) :: exists i | 0 <= i < |files| :: files[i].path == OutputPath(key)
    ensures multiset(AllRecords(files)) == multiset(records)
  {
    AllRecordsGathered(records, files);
    PathKeysDistinct(files);
    PathKeysCover(records, files);
    Partition(records, PathKeys(files));
  }

  /**
   * What `group_records` leaves behind: every file holds, in input order,
   * exactly the records of the key its path names; no path is written
   * twice; the operation fails exactly when some key's path cannot be
   * written; and after a success the files together hold every input
   * record exactly once.
   */
  predicate GroupOutcome(records: seq<Record>, failing: set<string>, written: seq<OutputFile>, r: Result<(), WriteError>) {
    && (forall i | 0 <= i < |written| ::
          && KeyOfPath(written[i].path).Some?
          && KeyOfPath(written[i].path).value in KeysOf(records)
          && written[i].records == WithKey(records, KeyOfPath(written[i].path).value))
    && (forall i, j | 0 <= i < j < |written| :: written[i].path != written[j].path)
    && (r.Ok? <==> forall key | key in KeysOf(records) :: OutputPath(key) !in failing)
    && (r.Ok? ==> multiset(AllRecords(written)) == multiset(records))
  }

  /** Writing the groups of `records` leaves the outcome `group_records` promises. */
  lemma {:induction false} GroupedOutcome(
    records: seq<Record>, groups: Groups, failing: set<string>, written: seq<OutputFile>, r: Result<(), WriteError>)
    requires groups == GroupsOf(records)
    requires WriteOutcome(groups, failing, written, r)
    ensures GroupOutcome(records, failing, written, r)
  {
    if r.Ok? {
      FilesPartition(records, written);
    }
  }

  /**
   * `group_records`: groups the records by key, then writes each group to
   * its own file.
   */
  method GroupRecords(records: seq<Record>, failing: set<string>) returns (written: seq<OutputFile>, r: Result<(), WriteError>)
    ensures GroupOutcome(records, failing, written, r)
  {
    var groups := GroupByKey(records);
    written, r := WriteGroups(groups, failing);
    GroupedOutcome(records, groups, failing, written, r);
  }
}
