# apology-segmenter in Dafny

apology-segmenter reads a CSV file of customer records and normalises each
row into a `Record`. It trims the text fields, gives the record an empty
second address line, zero-pads the numeric country code to four characters
and translates it to an alpha-3 code, and redacts phone numbers that
contain a `+`. It then groups the records by the key `<country>_<region>`
and writes each group to its own file, `apology.<key>.csv`.

This project models that core and proves what the code promises:

- `text.dfy` (module `Text`): Rust's `str::trim` and the right-aligned,
  zero-filled `format!("{:0>4}", …)`.
- `translator.dfy` (module `Translator`): the country-code table of
  `create_translator`, entry for entry and in insertion order. It is a
  constant map typed `map<Code, Alpha3>`, so every key has four characters
  and every entry three. This file also holds the lookup with fallback,
  `translate`.
- `records.dfy` (module `Records`): `Record`, `Record::key`,
  `clean_phone_number`, and `Record::decode` as a function over the row's
  fields. Decoding takes the country table as a parameter. The program
  always passes `Translator.Table`; every general fact is proved for any
  table, and the concrete scenarios use the program's table.
- `reader.dfy` (module `Reader`): the line-counting loop of
  `pull_records`, over the items the CSV reader yields.
- `grouping.dfy` (module `Grouping`): the fold of `group_records` into a
  map from key to records. It is proved to build exactly "the input
  filtered by key" for every key seen, and the groups are proved to
  partition the input.
- `writer.dfy` (module `Writer`): output file naming, record encoding, the
  write loop that stops at the first file that cannot be written, and the
  whole of `group_records`.
- `scenarios.dfy` (module `Scenarios`): concrete runs with the program's
  table. One row of the United States, region IL, is decoded, keyed
  `USA_IL` and written to `apology.USA_IL.csv`. The others show redaction,
  padding of a short code, an unknown code and a short row.
- `results.dfy` (module `Results`): the `Result` and `Option` types.

Three facts about the code shape the model:

- `Record::decode` makes ten `read_str` calls (src/record.rs:32-42), so a
  row needs ten fields; a row of fewer fails at the first missing one.
- A phone without `+` is kept verbatim, untrimmed (src/record.rs:42, 57).
- The country code `"1"` pads to `"0001"`, which the table maps to `CAN`
  (src/record.rs:101); `"0000"` is `USA` (src/record.rs:275).

## Model

| member | source | states |
|---|---|---|
| Records.Record.Key | src/record.rs:24-26 | the key's length is the country's, plus one for the underscore, plus the region's; `KeyParts` states its contents |
| Records.KeyParts | src/record.rs:24-26 | the key is the country, then one underscore, then the region, and nothing else |
| Records.KeyNotInjective | src/record.rs:24-26 | two records with different countries (`A_B`/`C` and `A`/`B_C`) share a key |
| Records.KeyInjectiveWithoutUnderscore | src/record.rs:24-26 | if neither country contains an underscore, equal keys mean equal countries and equal regions |
| Records.Decode | src/record.rs:30-44 | fails exactly when the row has fewer than ten fields, naming the first missing one; otherwise the record has eight trimmed fields read positionally, an empty address2, the padded and translated country, and the cleaned phone |
| Records.DecodedTextFieldTrimmed | src/record.rs:32-40 | each of the eight text fields is its raw field trimmed, has no whitespace at either end, and is unchanged by trimming again |
| Records.DecodedAddressLineTwoEmpty | src/record.rs:37 | address2 is empty whatever the row holds |
| Records.DecodedCountry | src/record.rs:41 | the country is the table's entry for the padded raw code, or else that padded code; it is never empty; a raw code of four or more characters is looked up untrimmed, as it stands |
| Records.DecodedPhone | src/record.rs:42 | the phone is empty when the raw field has a `+`, and otherwise is the raw field verbatim |
| Records.DecodeCleanRow | src/record.rs:30-44 | a ten-field row whose text fields are already trimmed and whose phone has no `+` decodes to its own fields, with only address2 and the country rewritten |
| Records.PaddedCountry | src/record.rs:41 | the padded code has length max(raw length, 4), ends with the raw code, and is all `'0'` before it |
| Records.CleanPhoneNumber | src/record.rs:51-59 | the result never contains `+`; it equals the input exactly when the input has no `+`; otherwise it is empty |
| Text.PadLeft | src/record.rs:41 | `{:0>width}`: the width is reached but never truncated, the input is kept at the right, and the fill is on the left |
| Text.Trim | src/record.rs:32-40 | `str::trim`: the result is no longer than the input; `TrimKeepsTheMiddle` and `TrimmedHasNoOuterWhitespace` state what it keeps and removes |
| Text.TrimmedHasNoOuterWhitespace | src/record.rs:32-40 | a trimmed string has no whitespace at either end |
| Text.TrimKeepsTheMiddle | src/record.rs:32-40 | trimming keeps one contiguous part of the input; everything removed before and after it is whitespace |
| Text.TrimFixesExactlyTrimmed | src/record.rs:32-40 | trimming leaves a string unchanged exactly when neither end is whitespace |
| Text.TrimIdempotent | src/record.rs:32-40 | trimming twice is trimming once |
| Translator.Table | src/record.rs:61-288 | `create_translator`: the 219 inserts in source order, as blocks joined so that a later insert wins; its type makes every key four characters and every entry three |
| Translator.Translate | src/record.rs:47-49 | a known code gives its table entry, of three characters; the result equals the code exactly when the code is unknown |
| Translator.TranslateIdempotent | src/record.rs:47-49 | translating a translation changes nothing, since an entry is never a key |
| Translator.TableShape | src/record.rs:61-288 | every key of the table has four characters and every entry has three |
| Translator.KnownTranslations | src/record.rs:47-49 | with the program's table: `0000`→USA, `0001`→CAN, `1101`→KOR, `1152`→KOR, and `9999` stays `9999` |
| Translator.TranslateNotInjective | src/record.rs:167-171 | two different codes, `1101` and `1152`, translate to the same country |
| Translator.TableHasUnitedStates | src/record.rs:275 | the table maps `0000` to USA |
| Translator.TableHasCanada | src/record.rs:101 | the table maps `0001` to CAN, since no later insert overrides it |
| Translator.TableHasKorea | src/record.rs:167-171 | the table maps both `1101` and `1152` to KOR |
| Translator.TableLacks9999 | src/record.rs:64-286 | no insert has the key `9999` |
| Reader.DecodeRows | src/main.rs:49 | `reader.decode()` yields one item per row |
| Reader.FirstFailure | src/main.rs:49-55 | the position found is a failed item with only successes before it; none is found exactly when every item succeeded |
| Reader.PullRecords | src/main.rs:44-57 | the loop with the line counter returns exactly `Pulled`: the first failure at line position + 2, or every record |
| Reader.FirstFailureIsFirst | src/main.rs:49-52 | a failed item with only successes before it is the one reported |
| Reader.PulledSucceeds | src/main.rs:53-57 | success exactly when every item succeeded; the records are then one per item, in item order |
| Reader.PulledFailure | src/main.rs:48-52 | a failure reports line position + 2 of a failed item with that item's error; every item before it succeeded |
| Reader.PulledIgnoresLaterItems | src/main.rs:52 | items after the first failure change nothing |
| Reader.PulledRowsAreDecoded | src/main.rs:49-57 | on success each record is the decoding of its row, in row order, one per row |
| Reader.ShortRowStopsRead | src/main.rs:48-52 | a row with too few fields after rows that decode fails the read at its own line, naming the first missing field |
| Grouping.WithKey | src/main.rs:27-28 | a group holds only input records, all of that key, and is no longer than the input |
| Grouping.KeysOfExactly | src/main.rs:28 | a key is seen exactly when some record has it |
| Grouping.WithKeyEmptyExactly | src/main.rs:28 | a group is empty exactly when no record has its key |
| Grouping.WithKeyConcat | src/main.rs:26-30 | the group of a concatenation is the group of the first part followed by that of the second, so input order is kept |
| Grouping.WithKeyAppend | src/main.rs:28 | one more record joins the end of its own key's group and changes no other group |
| Grouping.EveryRecordInItsGroup | src/main.rs:26-30 | every record sits in its key's group, after the records of that key before it and before those after it |
| Grouping.GroupsOf | src/main.rs:26-30 | the map's keys are exactly the keys seen, and each maps to the input filtered by that key |
| Grouping.GroupsOfCover | src/main.rs:26-30 | every group is non-empty, and every record is in the group of its own key |
| Grouping.KeysOfAppend | src/main.rs:28 | one more record adds its key to the keys seen |
| Grouping.GroupsOfAppend | src/main.rs:28 | one step of the fold: the record's group gets the record at its end, created empty if missing; every other group is unchanged |
| Grouping.GroupByKey | src/main.rs:26-30 | the fold builds exactly `GroupsOf(records)` |
| Grouping.Partition | src/main.rs:26-30 | the groups of distinct keys covering every record together hold each record exactly once; their sizes sum to the input length |
| Writer.OutputPath | src/main.rs:33 | the path is `apology.`, the key and `.csv` |
| Writer.OutputPathRoundTrip | src/main.rs:33 | the key can be read back from its path |
| Writer.KeyOfPathRoundTrip | src/main.rs:33 | a path that reads back as a key is that key's path |
| Writer.OutputPathInjective | src/main.rs:33 | distinct keys give distinct paths |
| Writer.Encode | src/main.rs:37 | a written row has the record's eleven fields |
| Writer.EncodeRoundTrip | src/main.rs:37 | a written row reads back as its record |
| Writer.RecordOfRowRoundTrip | src/main.rs:37 | an eleven-field row is the encoding of the record it reads as |
| Writer.WrittenForDistinctGroups | src/main.rs:32-39 | the files written so far each hold their own group at a path that did not fail, and no two share a path |
| Writer.StoppedAt | src/main.rs:34 | stopping at a group whose path cannot be written reports that path, which was not written |
| Writer.WrittenAll | src/main.rs:32-41 | having written every group succeeds, with a file for every key |
| Writer.WriteGroups | src/main.rs:32-41 | each file holds its own group at a path that did not fail, with no path written twice; it succeeds exactly when no group's path fails, and then every group has its file; a failure names an unwritten path of a group |
| Writer.AllRecordsGathered | src/main.rs:32-38 | files that each hold their key's filtered input together hold the groups of their keys, in file order |
| Writer.PathKeysDistinct | src/main.rs:33 | files at distinct paths name distinct keys |
| Writer.PathKeysCover | src/main.rs:32-33 | when every key has its file, every record's key is named by a file |
| Writer.FilesPartition | src/main.rs:23-42 | distinct files, one for each key, each holding its key's records, together hold each input record exactly once |
| Writer.GroupedOutcome | src/main.rs:23-42 | writing the groups of the records leaves the outcome `group_records` promises |
| Writer.GroupRecords | src/main.rs:23-42 | each file holds, in input order, exactly the records of the key its path names, and no path is written twice; it fails exactly when some key's path cannot be written; after a success the files hold every input record exactly once |
| Scenarios.ExampleRowDecodesWith | src/record.rs:30-44 | the example row decodes to the expected record with any table that maps `0000` to USA |
| Scenarios.ExampleRowOutputFile | src/main.rs:26-33 | with the program's table the example row decodes to a USA record of region IL, keyed `USA_IL` and written to `apology.USA_IL.csv` |
| Scenarios.PhoneRedaction | src/record.rs:51-59 | `+44 20 7946 0958` is redacted; ` 217-555-0100` is kept with its leading space |
| Scenarios.ShortCountryCodePadded | src/record.rs:41 | `1` pads to `0001` |
| Scenarios.ShortCountryCode | src/record.rs:41 | `1` translates to CAN |
| Scenarios.UnknownCountryCode | src/record.rs:47-49 | `9999` stays `9999` |
| Scenarios.UntrimmedCountryCode | src/record.rs:41 | ` 1` pads to `00 1`: the raw country is not trimmed |
| Scenarios.NineFieldRowFails | src/record.rs:30-42 | a row of nine fields fails at field 9, the phone |

## Left out

- `main` is not modelled: argument handling and the printed messages (src/main.rs:10-21).
- Reading the CSV file is not modelled: opening it, the `.unwrap()` panic when it cannot be opened, parsing and quoting. The reader's output is a parameter, one item per row, each the row's fields or the reason it could not be read.
- Reader.PullError: the error is the structured pair (line, cause), not the formatted message `"<line>: <error>"`.
- Records.Decode: a row with more than ten fields decodes from its first ten. Whether the CSV decoder accepts such a row is decided in code that is not part of this model.
- Text.IsWhitespace is the Unicode White_Space set that Rust's `char::is_whitespace` uses. No general fact depends on which characters are in it; the example-row scenarios rely on its letters, digits and punctuation not being whitespace.
- Reader.PullRecords: the line counter is an unbounded natural number, while the source's `line` is an `i32` (src/main.rs:48); overflow after 2^31 - 2 rows is not modelled.
- `lazy_static` initialisation is not modelled. The table is a constant map, and decoding takes it as a parameter that the program fixes to `Translator.Table`.
- The file system is not modelled. A write is the record of a path and its records. Which paths cannot be created or written is given as the parameter `failing`.
- Writer.WriteGroups: the source returns the csv or I/O error of the failed file creation or record encoding (src/main.rs:34, 37), and that error carries no path. `CannotWrite(path)` is the model's own label for the group whose file failed; the program reports no file name.
- Writer.WriteGroups: the order in which groups are written is not stated, because `HashMap` iteration order is unspecified. The loop picks any remaining key.
- Writer.WriteGroups: a failure part-way through a file's records, and the partial file it leaves on disk, are not modelled. A path either fails before anything is written to it or takes the whole group.
- Writer.Encode: the CSV quoting of written fields is not modelled. A row is the record's eleven fields.
