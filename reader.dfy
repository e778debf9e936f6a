/**
 * `pull_records` of src/main.rs: walks the rows the CSV reader decodes,
 * counting lines, and either collects every record in row order or stops
 * at the first row that failed and reports its line.
 *
 * The CSV reader itself is not modelled: what it yields is given as a
 * sequence with one entry per row, each the row's fields or the reason the
 * row could not be read. Its first line is not among the entries; the line
 * counter starts at 1 for it, so the row at 0-based position i is reported
 * as line i + 2.
 */
module Reader {
  import opened Results
  import Translator
  import opened Records

  /** The raw fields of one row, as the CSV reader splits them. */
  type Row = seq<string>

  /** Why the reader yielded no record for a row. */
  datatype RowError =
    | Unreadable(reason: string)       // the CSV layer could not read the row
    | Undecodable(cause: DecodeError)  // `Record::decode` rejected the row

  /** `pull_records`' error: the line of the failing row and why it failed. */
  datatype PullError = PullError(line: nat, cause: RowError)

  /**
   * The items of `reader.decode()`: each row the reader could read is
   * decoded into a record with the program's table; a row it could not
   * read stays an error.
   */
  function DecodeRows(table: Translator.CountryTable, rows: seq<Result<Row, string>>)
    : (items: seq<Result<Record, RowError>>)
    ensures |items| == |rows|
  {
    seq(|rows|, i requires 0 <= i < |rows| =>
      match rows[i]
      case Err(reason) => Err(Unreadable(reason))
      case Ok(row) =>
        match Decode(table, row)
        case Err(cause) => Err(Undecodable(cause))
        case Ok(record) => Ok(record))
  }

  /** The position of the first failed item, if any. */
  function FirstFailure(items: seq<Result<Record, RowError>>): (r: Option<nat>)
    ensures r.Some? ==> r.value < |items| && items[r.value].Err?
    ensures r.Some? ==> forall j | 0 <= j < r.value :: items[j].Ok?
    ensures r.None? <==> forall j | 0 <= j < |items| :: items[j].Ok?
  {
    if items == [] then None
    else if items[0].Err? then Some(0)
    else
      match FirstFailure(items[1..])
      case None => None
      case Some(i) => Some(i + 1)
  }

  /** The records of items that all succeeded, in order. */
  function Values(items: seq<Result<Record, RowError>>): seq<Record>
    requires forall j | 0 <= j < |items| :: items[j].Ok?
  {
    seq(|items|, j requires 0 <= j < |items| => items[j].value)
  }

  /**
   * What `pull_records` returns: the error of the first failed item, at
   * line position + 2, or else every record.
   */
  function Pulled(items: seq<Result<Record, RowError>>): Result<seq<Record>, PullError> {
    match FirstFailure(items)
    case Some(i) => Err(PullError(i + 2, items[i].error))
    case None => Ok(Values(items))
  }

  /**
   * `pull_records`, after the reader is open: one pass over the items with
   * the line counter, returning at the first error.
   */
  method PullRecords(items: seq<Result<Record, RowError>>) returns (r: Result<seq<Record>, PullError>)
    ensures r == Pulled(items)
  {
    var results: seq<Record> := [];
    var line := 1;
    for k := 0 to |items|
      invariant line == k + 1
      invariant forall j | 0 <= j < k :: items[j].Ok?
      invariant |results| == k
      invariant forall j | 0 <= j < k :: results[j] == items[j].value
    {
      line := line + 1;
      match items[k]
      case Err(e) =>
        FirstFailureIsFirst(items, k);
        return Err(PullError(line, e));
      case Ok(record) =>
        results := results + [record];
    }
    assert results == Values(items);
    return Ok(results);
  }

  /** A failed item with only successes before it is the first failure. */
  lemma FirstFailureIsFirst(items: seq<Result<Record, RowError>>, i: nat)
    requires i < |items| && items[i].Err?
    requires forall j | 0 <= j < i :: items[j].Ok?
    ensures FirstFailure(items) == Some(i)
  {
  }

  /**
   * Success exactly when every item succeeded, and then one record per
   * item, in item order.
   */
  lemma PulledSucceeds(items: seq<Result<Record, RowError>>)
    ensures Pulled(items).Ok? <==> forall j | 0 <= j < |items| :: items[j].Ok?
    ensures Pulled(items).Ok? ==>
      |Pulled(items).value| == |items|
      && forall j | 0 <= j < |items| :: Pulled(items).value[j] == items[j].value
  {
  }

  /**
   * A failure names the line of the first failed item, position + 2, with
   * that item's error; every item before it succeeded.
   */
  lemma PulledFailure(items: seq<Result<Record, RowError>>)
    requires Pulled(items).Err?
    ensures var e := Pulled(items).error;
      && 2 <= e.line < |items| + 2
      && items[e.line - 2] == Err(e.cause)
      && forall j | 0 <= j < e.line - 2 :: items[j].Ok?
  {
  }

  /** Once an item has failed, the items after it change nothing. */
  lemma PulledIgnoresLaterItems(items: seq<Result<Record, RowError>>, later: seq<Result<Record, RowError>>)
    requires Pulled(items).Err?
    ensures Pulled(items + later) == Pulled(items)
  {
    var i := FirstFailure(items).value;
    FirstFailureIsFirst(items + later, i);
  }

  /**
   * Reading rows that all decode gives each row's record, in row order.
   */
  lemma PulledRowsAreDecoded(table: Translator.CountryTable, rows: seq<Result<Row, string>>)
    requires Pulled(DecodeRows(table, rows)).Ok?
    ensures var records := Pulled(DecodeRows(table, rows)).value;
      && |records| == |rows|
      && forall j | 0 <= j < |rows| :: rows[j].Ok? && Decode(table, rows[j].value) == Ok(records[j])
  {
    var items := DecodeRows(table, rows);
    PulledSucceeds(items);
    forall j | 0 <= j < |rows|
      ensures rows[j].Ok? && Decode(table, rows[j].value) == Ok(Pulled(items).value[j])
    {
      assert items[j].Ok?;
    }
  }

  /**
   * A row with too few fields, after rows that all decode, fails the read
   * at its own line with the index of the first field it lacks.
   */
  lemma ShortRowStopsRead(table: Translator.CountryTable, rows: seq<Result<Row, string>>, i: nat)
    requires i < |rows|
    requires forall j | 0 <= j < i :: rows[j].Ok? && |rows[j].value| >= FieldCount
    requires rows[i].Ok? && |rows[i].value| < FieldCount
    ensures Pulled(DecodeRows(table, rows)) == Err(PullError(i + 2, Undecodable(MissingField(|rows[i].value|))))
  {
    var items := DecodeRows(table, rows);
    forall j | 0 <= j < i
      ensures items[j].Ok?
    {
      assert Decode(table, rows[j].value).Ok?;
    }
    FirstFailureIsFirst(items, i);
  }
}
