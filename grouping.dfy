/**
 * The fold of `group_records` in src/main.rs: records are appended, in
 * input order, to the group of their key, a group being created empty the
 * first time its key is seen.
 *
 * `WithKey` is the reference for one group: the input filtered by key.
 * The fold is proved to produce exactly those groups, and the groups are
 * proved to partition the input.
 */
module Grouping {
  import opened Records

  /** The grouping map: key to the records sharing it. */
  type Groups = map<string, seq<Record>>

  /** The keys of the records, collected from the end. */
  function KeysOf(records: seq<Record>): set<string> {
    if records == [] then {}
    else KeysOf(records[..|records| - 1]) + {records[|records| - 1].Key()}
  }

  /** The records whose key is `key`, in input order. */
  function WithKey(records: seq<Record>, key: string): (group: seq<Record>)
    ensures |group| <= |records|
    ensures forall r | r in group :: r in records && r.Key() == key
  {
    if records == [] then []
    else
      var last := records[|records| - 1];
      WithKey(records[..|records| - 1], key) + (if last.Key() == key then [last] else [])
  }

  /** A key is collected exactly when some record has it. */
  lemma {:induction false} KeysOfExactly(records: seq<Record>, key: string)
    ensures key in KeysOf(records) <==> exists i | 0 <= i < |records| :: records[i].Key() == key
  {
    if records != [] {
      var init := records[..|records| - 1];
      KeysOfExactly(init, key);
      if key in KeysOf(init) {
        var i :| 0 <= i < |init| && init[i].Key() == key;
        assert records[i] == init[i];
      }
      if exists i | 0 <= i < |records| :: records[i].Key() == key {
        var i :| 0 <= i < |records| && records[i].Key() == key;
        if i < |init| {
          assert init[i] == records[i];
        }
      }
    }
  }

  /** A group is empty exactly when no record has its key. */
  lemma {:induction false} WithKeyEmptyExactly(records: seq<Record>, key: string)
    ensures WithKey(records, key) == [] <==> key !in KeysOf(records)
  {
    if records != [] {
      WithKeyEmptyExactly(records[..|records| - 1], key);
    }
  }

  /**
   * Filtering distributes over concatenation: the group of a longer input
   * is the group of its first part followed by that of the rest, so records
   * keep their input order within a group.
   */
  lemma {:induction false} WithKeyConcat(a: seq<Record>, b: seq<Record>, key: string)
    ensures WithKey(a + b, key) == WithKey(a, key) + WithKey(b, key)
    decreases |b|
  {
    if b == [] {
      assert a + b == a;
    } else {
      var init, last := b[..|b| - 1], b[|b| - 1];
      var tail := if last.Key() == key then [last] else [];
      assert (a + b)[..|a + b| - 1] == a + init;
      assert (a + b)[|a + b| - 1] == last;
      calc {
        WithKey(a + b, key);
        WithKey(a + init, key) + tail;
        { WithKeyConcat(a, init, key); }
        WithKey(a, key) + WithKey(init, key) + tail;
        WithKey(a, key) + (WithKey(init, key) + tail);
        WithKey(a, key) + WithKey(b, key);
      }
    }
  }

  /** One more record joins the end of its own key's group and no other. */
  lemma {:induction false} WithKeyAppend(records: seq<Record>, r: Record, key: string)
    ensures WithKey(records + [r], key) == WithKey(records, key) + if r.Key() == key then [r] else []
  {
    assert (records + [r])[..|records|] == records;
  }

  /**
   * Every record is in the group of its own key, after the records of that
   * key that precede it and before those that follow it.
   */
  lemma {:induction false} EveryRecordInItsGroup(records: seq<Record>, i: nat)
    requires i < |records|
    ensures var key := records[i].Key();
      WithKey(records, key) == WithKey(records[..i], key) + [records[i]] + WithKey(records[i + 1..], key)
  {
    var key := records[i].Key();
    WithKeyAppend(records[..i], records[i], key);
    assert records[..i] + [records[i]] == records[..i + 1];
    assert records == records[..i + 1] + records[i + 1..];
    WithKeyConcat(records[..i + 1], records[i + 1..], key);
  }

  /** The grouping the fold is meant to build: each key seen, with its group. */
  function GroupsOf(records: seq<Record>): (groups: Groups)
    ensures groups.Keys == KeysOf(records)
    ensures forall key | key in groups :: groups[key] == WithKey(records, key)
  {
    map key | key in KeysOf(records) :: WithKey(records, key)
  }

  /**
   * Every group is non-empty, and every record is in the group of its own
   * key.
   */
  lemma GroupsOfCover(records: seq<Record>)
    ensures forall key | key in GroupsOf(records) :: GroupsOf(records)[key] != []
    ensures forall i | 0 <= i < |records| ::
      records[i].Key() in GroupsOf(records) && records[i] in GroupsOf(records)[records[i].Key()]
  {
    var groups := GroupsOf(records);
    forall key | key in groups
      ensures groups[key] != []
    {
      WithKeyEmptyExactly(records, key);
    }
    forall i | 0 <= i < |records|
      ensures records[i].Key() in groups && records[i] in groups[records[i].Key()]
    {
      KeysOfExactly(records, records[i].Key());
      EveryRecordInItsGroup(records, i);
    }
  }

  /**
   * One more record: its key is added if it was missing, its group gets
   * the record at the end, and every other group stays as it was.
   */
  lemma {:induction false} GroupsOfAppend(records: seq<Record>, r: Record)
    ensures var groups := GroupsOf(records);
      GroupsOf(records + [r])
        == groups[r.Key() := (if r.Key() in groups then groups[r.Key()] else []) + [r]]
  {
    var groups := GroupsOf(records);
    var key := r.Key();
    var updated := groups[key := (if key in groups then groups[key] else []) + [r]];
    var longer := GroupsOf(records + [r]);
    KeysOfAppend(records, r);
    assert longer.Keys == updated.Keys;
    forall k | k in updated
      ensures longer[k] == updated[k]
    {
      WithKeyAppend(records, r, k);
      if k == key && key !in groups {
        WithKeyEmptyExactly(records, key);
      }
    }
  }

  /** One more record adds its key to the keys seen. */
  lemma KeysOfAppend(records: seq<Record>, r: Record)
    ensures KeysOf(records + [r]) == KeysOf(records) + {r.Key()}
  {
    assert (records + [r])[..|records|] == records;
  }

  /**
   * `group_records`' fold: for each record in order, the group of its key
   * (created empty if missing) gets the record appended.
   */
  method GroupByKey(records: seq<Record>) returns (groups: Groups)
    ensures groups == GroupsOf(records)
  {
    groups := map[];
    for i := 0 to |records|
      invariant groups == GroupsOf(records[..i])
    {
      var record := records[i];
      var key := record.Key();
      var group := if key in groups then groups[key] else [];
      GroupsOfAppend(records[..i], record);
      assert records[..i + 1] == records[..i] + [record];
      groups := groups[key := group + [record]];
    }
    assert records[..|records|] == records;
  }

  /** The groups of `keys`, one after another. */
  function Gather(records: seq<Record>, keys: seq<string>): seq<Record> {
    if keys == [] then [] else WithKey(records, keys[0]) + Gather(records, keys[1..])
  }

  /** No key occurs twice. */
  predicate Distinct(keys: seq<string>) {
    forall i, j | 0 <= i < j < |keys| :: keys[i] != keys[j]
  }

  /** Gathering from no records gives nothing. */
  lemma {:induction false} GatherNothing(keys: seq<string>)
    ensures Gather([], keys) == []
  {
    if keys != [] {
      GatherNothing(keys[1..]);
    }
  }

  /** One more record lands in exactly one gathered group: that of its key, if listed. */
  lemma {:induction false} GatherAppend(records: seq<Record>, r: Record, keys: seq<string>)
    requires Distinct(keys)
    ensures multiset(Gather(records + [r], keys))
      == multiset(Gather(records, keys)) + if r.Key() in keys then multiset{r} else multiset{}
  {
    if keys != [] {
      GatherAppend(records, r, keys[1..]);
      assert (records + [r])[..|records + [r]| - 1] == records;
      assert r.Key() in keys <==> r.Key() == keys[0] || r.Key() in keys[1..];
      assert r.Key() == keys[0] ==> r.Key() !in keys[1..];
    }
  }

  /** A non-empty sequence is its front followed by its last element. */
  lemma InitAndLast(records: seq<Record>)
    requires records != []
    ensures records[..|records| - 1] + [records[|records| - 1]] == records
  {
  }

  /**
   * The groups of a list of distinct keys that covers every record's key,
   * taken one after another, hold each input record exactly once: their
   * sizes sum to the input's length.
   */
  lemma {:induction false} Partition(records: seq<Record>, keys: seq<string>)
    requires Distinct(keys)
    requires forall i | 0 <= i < |records| :: records[i].Key() in keys
    ensures multiset(Gather(records, keys)) == multiset(records)
    ensures |Gather(records, keys)| == |records|
  {
    if records == [] {
      GatherNothing(keys);
    } else {
      var init := records[..|records| - 1];
      var r := records[|records| - 1];
      InitAndLast(records);
      Partition(init, keys);
      GatherAppend(init, r, keys);
    }
    assert |multiset(Gather(records, keys))| == |Gather(records, keys)|;
  }
}
