/** Hungarian VAT codes (src/vat.rs): the three exempt categories and the three
    percentage rates, with their textual form. */
module Vat {
  import opened Util

  /** `VAT`: AAM, FAD and TAM are exemption categories; `_5`, `_18` and `_27`
      are the 5%, 18% and 27% rates. */
  datatype Vat = AAM | FAD | TAM | Rate5 | Rate18 | Rate27

  /** `Default for VAT`: the standard 27% rate. */
  function Default(): Vat {
    Rate27
  }

  /** The error `from_str` returns for any other text. */
  const FORMAT_ERROR: string := "Nem megfelelő Áfa formátum! 5, 18, 27, AAM, TAM, FAD"

  /** Every text `from_str` accepts: each code in its canonical form, and the
      three letter codes in lower case as well. */
  const ACCEPTED: set<string> := {"AAM", "aam", "FAD", "fad", "TAM", "tam", "5", "18", "27"}

  /** ASCII lower-casing of one character. */
  function LowerChar(c: char): char {
    if 'A' <= c <= 'Z' then (c as int + 32) as char else c
  }

  /** ASCII upper-casing of one character. */
  function UpperChar(c: char): char {
    if 'a' <= c <= 'z' then (c as int - 32) as char else c
  }

  /** ASCII lower-casing of a text, character by character. */
  function AsciiLower(s: string): string {
    seq(|s|, i requires 0 <= i < |s| => LowerChar(s[i]))
  }

  /** ASCII upper-casing of a text, character by character. */
  function AsciiUpper(s: string): string {
    seq(|s|, i requires 0 <= i < |s| => UpperChar(s[i]))
  }

  /** `VAT::from_str`: accepts exactly the texts of ACCEPTED; a lower-case
      letter code parses to the same rate as its upper-case form, so printing
      the parsed rate gives the input in upper case. Anything else, mixed case
      and the empty text included, is the format error. */
  function FromStr(s: string): (r: Result<Vat, string>)
    ensures r.Ok? <==> s in ACCEPTED
    ensures r.Ok? ==> ToString(r.value) == AsciiUpper(s)
    ensures r.Err? ==> r.error == FORMAT_ERROR
  {
    match s
    case "AAM" => Ok(AAM)
    case "aam" => Ok(AAM)
    case "FAD" => Ok(FAD)
    case "fad" => Ok(FAD)
    case "TAM" => Ok(TAM)
    case "tam" => Ok(TAM)
    case "5" => Ok(Rate5)
    case "18" => Ok(Rate18)
    case "27" => Ok(Rate27)
    case _ => Err(FORMAT_ERROR)
  }

  /** `ToString for VAT`: the canonical upper-case or numeric code. */
  function ToString(v: Vat): string {
    match v
    case AAM => "AAM"
    case FAD => "FAD"
    case TAM => "TAM"
    case Rate5 => "5"
    case Rate18 => "18"
    case Rate27 => "27"
  }

  /** Printing then parsing gives the rate back. */
  lemma RoundTrip(v: Vat)
    ensures FromStr(ToString(v)) == Ok(v)
  {
  }

  /** The lower-case form of every printed code parses to the same rate. */
  lemma LowerCaseParses(v: Vat)
    ensures FromStr(AsciiLower(ToString(v))) == Ok(v)
  {
    match v
    case AAM => assert AsciiLower("AAM") == "aam";
    case FAD => assert AsciiLower("FAD") == "fad";
    case TAM => assert AsciiLower("TAM") == "tam";
    case Rate5 => assert AsciiLower("5") == "5";
    case Rate18 => assert AsciiLower("18") == "18";
    case Rate27 => assert AsciiLower("27") == "27";
  }

  /** Parsing is followed by printing in canonical form: the canonical text of
      a parsed code parses to the same rate. */
  lemma ParseNormalises(s: string)
    requires FromStr(s).Ok?
    ensures FromStr(ToString(FromStr(s).value)) == FromStr(s)
  {
    RoundTrip(FromStr(s).value);
  }

  /** Distinct rates print distinctly. */
  lemma ToStringInjective(v: Vat, w: Vat)
    requires ToString(v) == ToString(w)
    ensures v == w
  {
    RoundTrip(v);
    RoundTrip(w);
  }

  /** Mixed case and the empty text are refused. */
  lemma RejectsMixedCaseAndEmpty()
    ensures FromStr("Aam") == Err(FORMAT_ERROR)
    ensures FromStr("Tam") == Err(FORMAT_ERROR)
    ensures FromStr("") == Err(FORMAT_ERROR)
  {
    assert "Aam" !in ACCEPTED;
    assert "Tam" !in ACCEPTED;
    assert "" !in ACCEPTED;
  }

  /** The default rate is 27% and prints as "27". */
  lemma DefaultIsStandardRate()
    ensures Default() == Rate27
    ensures ToString(Default()) == "27"
    ensures FromStr("27") == Ok(Default())
  {
  }
}
