/**
 * The `Record` of src/record.rs: what one input row decodes to, its
 * grouping key, and the normalisation applied while decoding (trimming,
 * zero-padding and translating the country code, redacting phone numbers).
 */
module Records {
  import opened Results
  import opened Text
  import Translator

  /** One normalised row. Field order is the order the struct declares. */
  datatype Record = Record(
    id: string,
    email: string,
    firstName: string,
    lastName: string,
    address1: string,
    address2: string,
    city: string,
    region: string,
    postalCode: string,
    country: string,
    phone: string)
  {
    /** `Record::key`: the country and the region joined by an underscore. */
    function Key(): (k: string)
      ensures |k| == |country| + 1 + |region|
    {
      country + "_" + region
    }
  }

  /**
   * The key is the country, an underscore and the region, in that order and
   * nothing else.
   */
  lemma KeyParts(r: Record)
    ensures var k := r.Key();
      && |k| == |r.country| + 1 + |r.region|
      && k[..|r.country|] == r.country && k[|r.country|] == '_' && k[|r.country| + 1..] == r.region
  {
  }

  /** The number of input fields a row must have: address2 has no column. */
  const FieldCount := 10

  /** The decoder ran out of fields when it asked for the one at `index`. */
  datatype DecodeError = MissingField(index: nat)

  /** One `read_str` call of the decoder: the field at `index`, if the row has one. */
  function ReadField(row: seq<string>, index: nat): Result<string, DecodeError> {
    if index < |row| then Ok(row[index]) else Err(MissingField(index))
  }

  /** `clean_phone_number`: a number with a '+' anywhere is redacted to "". */
  function CleanPhoneNumber(phone: string): (r: string)
    ensures '+' !in r
    ensures r == phone <==> '+' !in phone
    ensures r != phone ==> r == ""
  {
    if '+' in phone then "" else phone
  }

  /** The country code as formatted with `{:0>4}`, before translation. */
  function PaddedCountry(raw: string): (r: string)
    ensures |r| == if |raw| < 4 then 4 else |raw|
    ensures r[|r| - |raw|..] == raw
    ensures forall i | 0 <= i < |r| - |raw| :: r[i] == '0'
  {
    PadLeft(raw, 4, '0')
  }

  /**
   * `Record::decode`: reads the fields positionally (id, email, first name,
   * last name, address1, city, region, postal code, country, phone) and
   * stops at the first read that finds no field. Eight fields are trimmed,
   * address2 is synthesised empty, the country is padded and translated and
   * the phone is cleaned, all as the row gave them. The program's table
   * is `Translator.Table`; `table` stands for it.
   */
  function Decode(table: Translator.CountryTable, row: seq<string>): (r: Result<Record, DecodeError>)
    ensures r.Err? <==> |row| < FieldCount
    ensures r.Err? ==> r.error == MissingField(|row|)
    ensures r.Ok? ==> r.value == Record(
      Trim(row[0]), Trim(row[1]), Trim(row[2]), Trim(row[3]), Trim(row[4]), "",
      Trim(row[5]), Trim(row[6]), Trim(row[7]),
      Translator.Translate(table, PaddedCountry(row[8])), CleanPhoneNumber(row[9]))
  {
    var id :- ReadField(row, 0);
    var email :- ReadField(row, 1);
    var firstName :- ReadField(row, 2);
    var lastName :- ReadField(row, 3);
    var address1 :- ReadField(row, 4);
    var city :- ReadField(row, 5);
    var region :- ReadField(row, 6);
    var postalCode :- ReadField(row, 7);
    var country :- ReadField(row, 8);
    var phone :- ReadField(row, 9);
    Ok(Record(
      Trim(id), Trim(email), Trim(firstName), Trim(lastName), Trim(address1), "",
      Trim(city), Trim(region), Trim(postalCode),
      Translator.Translate(table, PaddedCountry(country)), CleanPhoneNumber(phone)))
  }

  /**
   * The eight text fields of a record, in the order they are read; since
   * address2 has no column, the i-th of them comes from input column i.
   */
  function TextFields(r: Record): (fields: seq<string>)
    ensures |fields| == 8
  {
    [r.id, r.email, r.firstName, r.lastName, r.address1, r.city, r.region, r.postalCode]
  }

  /**
   * Each text field of a decoded record is its raw field trimmed: it has no
   * whitespace at either end and trimming it again changes nothing.
   */
  lemma DecodedTextFieldTrimmed(table: Translator.CountryTable, row: seq<string>, i: nat)
    requires Decode(table, row).Ok?
    requires i < 8
    ensures TextFields(Decode(table, row).value)[i] == Trim(row[i])
    ensures IsTrimmed(TextFields(Decode(table, row).value)[i])
    ensures Trim(TextFields(Decode(table, row).value)[i]) == TextFields(Decode(table, row).value)[i]
  {
    var fields := TextFields(Decode(table, row).value);
    assert fields[i] == Trim(row[i]);
    TrimmedHasNoOuterWhitespace(row[i]);
    TrimIdempotent(row[i]);
  }

  /**
   * A row whose text fields are already trimmed and whose phone has no '+'
   * decodes to its own fields, in order, with address2 empty and only the
   * country rewritten.
   */
  lemma DecodeCleanRow(table: Translator.CountryTable, row: seq<string>)
    requires |row| == FieldCount
    requires forall i | 0 <= i < 8 :: IsTrimmed(row[i])
    requires '+' !in row[9]
    ensures Decode(table, row) == Ok(Record(
      row[0], row[1], row[2], row[3], row[4], "", row[5], row[6], row[7],
      Translator.Translate(table, PaddedCountry(row[8])), row[9]))
  {
    forall i | 0 <= i < 8
      ensures Trim(row[i]) == row[i]
    {
      TrimFixesExactlyTrimmed(row[i]);
    }
  }

  /** address2 is empty whatever the row holds. */
  lemma DecodedAddressLineTwoEmpty(table: Translator.CountryTable, row: seq<string>)
    requires Decode(table, row).Ok?
    ensures Decode(table, row).value.address2 == ""
  {
  }

  /**
   * The country is the table's entry for the zero-padded raw code, or the
   * padded code itself; it is never empty, and a raw code of four or more
   * characters is looked up as it stands, untrimmed.
   */
  lemma DecodedCountry(table: Translator.CountryTable, row: seq<string>)
    requires Decode(table, row).Ok?
    ensures var padded := PaddedCountry(row[8]);
      && (padded in table ==> Decode(table, row).value.country == table[padded])
      && (padded !in table ==> Decode(table, row).value.country == padded)
      && (|row[8]| >= 4 ==> padded == row[8])
      && Decode(table, row).value.country != ""
  {
  }

  /** The phone is "" when the raw field has a '+', else the raw field verbatim. */
  lemma DecodedPhone(table: Translator.CountryTable, row: seq<string>)
    requires Decode(table, row).Ok?
    ensures '+' in row[9] ==> Decode(table, row).value.phone == ""
    ensures '+' !in row[9] ==> Decode(table, row).value.phone == row[9]
  {
  }

  /**
   * The key is plain concatenation, so different (country, region) pairs
   * can share a key when an underscore sits in the country or the region.
   */
  lemma KeyNotInjective()
    ensures var blank := Record("", "", "", "", "", "", "", "", "", "", "");
      var a := blank.(country := "A_B", region := "C");
      var b := blank.(country := "A", region := "B_C");
      a.country != b.country && a.Key() == b.Key()
  {
    var blank := Record("", "", "", "", "", "", "", "", "", "", "");
    assert blank.(country := "A_B", region := "C").Key() == "A_B_C";
    assert blank.(country := "A", region := "B_C").Key() == "A_B_C";
  }

  /**
   * When neither country has an underscore, equal keys mean equal
   * countries and equal regions: the first underscore of the key ends the
   * country.
   */
  lemma KeyInjectiveWithoutUnderscore(a: Record, b: Record)
    requires '_' !in a.country && '_' !in b.country
    requires a.Key() == b.Key()
    ensures a.country == b.country && a.region == b.region
  {
    KeyParts(a);
    KeyParts(b);
  }
}
