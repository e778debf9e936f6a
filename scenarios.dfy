/**
 * Whole runs on concrete input, with the program's own table: one row
 * followed from decoding to its output file, and the edge cases of the
 * country and phone fields.
 */
module Scenarios {
  import opened Results
  import opened Text
  import Translator
  import opened Records
  import Writer

  /** A record of the United States, region IL, with a local phone number. */
  const ExampleRow: seq<string> :=
    ["1", "a@b.com", "Jo", "Doe", "1 Main St", "Springfield", "IL", "62704", "0000", "217-555-0100"]

  /** The fields of the example row, one by one. */
  lemma ExampleRowFields()
    ensures |ExampleRow| == FieldCount
    ensures ExampleRow[0] == "1" && ExampleRow[1] == "a@b.com" && ExampleRow[2] == "Jo"
    ensures ExampleRow[3] == "Doe" && ExampleRow[4] == "1 Main St" && ExampleRow[5] == "Springfield"
    ensures ExampleRow[6] == "IL" && ExampleRow[7] == "62704" && ExampleRow[8] == "0000"
    ensures ExampleRow[9] == "217-555-0100"
  {
  }

  /**
   * Every field of the example row is already clean: no text field has
   * whitespace at an end, the phone has no '+', and the country code needs
   * no padding.
   */
  lemma ExampleRowIsClean()
    ensures forall i | 0 <= i < 8 :: IsTrimmed(ExampleRow[i])
    ensures '+' !in ExampleRow[9]
    ensures PaddedCountry(ExampleRow[8]) == "0000"
  {
    ExampleRowFields();
  }

  /** The row as decoded with any table that has the entry "0000" -> "USA". */
  lemma ExampleRowDecodesWith(table: Translator.CountryTable)
    requires "0000" in table && table["0000"] == "USA"
    ensures Decode(table, ExampleRow)
      == Ok(Record("1", "a@b.com", "Jo", "Doe", "1 Main St", "", "Springfield", "IL", "62704", "USA", "217-555-0100"))
  {
    ExampleRowFields();
    ExampleRowIsClean();
    DecodeCleanRow(table, ExampleRow);
  }

  /** "USA", an underscore and "IL" make the key USA_IL. */
  lemma UnitedStatesIllinoisKey()
    ensures "USA" + "_" + "IL" == "USA_IL"
    ensures Writer.OutputPath("USA_IL") == "apology.USA_IL.csv"
  {
  }

  /**
   * The row as the program decodes it: grouped under USA_IL and written to
   * apology.USA_IL.csv.
   */
  lemma ExampleRowOutputFile()
    ensures Decode(Translator.Table, ExampleRow)
      == Ok(Record("1", "a@b.com", "Jo", "Doe", "1 Main St", "", "Springfield", "IL", "62704", "USA", "217-555-0100"))
    ensures Decode(Translator.Table, ExampleRow).value.Key() == "USA_IL"
    ensures Writer.OutputPath(Decode(Translator.Table, ExampleRow).value.Key()) == "apology.USA_IL.csv"
  {
    Translator.TableHasUnitedStates();
    ExampleRowDecodesWith(Translator.Table);
    UnitedStatesIllinoisKey();
  }

  /** A phone number with a '+' is redacted; one without is kept as given. */
  lemma PhoneRedaction()
    ensures CleanPhoneNumber("+44 20 7946 0958") == ""
    ensures CleanPhoneNumber(" 217-555-0100") == " 217-555-0100"
  {
    assert "+44 20 7946 0958"[0] == '+';
  }

  /**
   * A short country code is padded before the lookup: "1" is "0001", which
   * is Canada.
   */
  lemma ShortCountryCode()
    ensures Translator.Translate(Translator.Table, PaddedCountry("1")) == "CAN"
  {
    ShortCountryCodePadded();
    Translator.TableHasCanada();
  }

  /** "1" is padded to "0001". */
  lemma ShortCountryCodePadded()
    ensures PaddedCountry("1") == "0001"
  {
  }

  /** A code the table lacks stays as it is, padded. */
  lemma UnknownCountryCode()
    ensures Translator.Translate(Translator.Table, PaddedCountry("9999")) == "9999"
  {
    Translator.TableLacks9999();
  }

  /** The raw country field is not trimmed first: " 1" pads to "00 1". */
  lemma UntrimmedCountryCode()
    ensures PaddedCountry(" 1") == "00 1"
  {
  }

  /** A row of nine fields lacks the phone: decoding fails at field 9. */
  lemma NineFieldRowFails()
    ensures Decode(Translator.Table, ExampleRow[..9]) == Err(MissingField(9))
  {
  }
}
