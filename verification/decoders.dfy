/**
 * Stand-ins for the two library parsers the rules call: `json.Unmarshal`'s
 * syntax check (RFC 8259) and `strconv.ParseFloat`. Their grammars are not
 * modelled; each is a function the rules take as a parameter, and a soundness
 * predicate states the few facts about it that the rules' properties need.
 */
module Decoders {
  import opened Values
  import opened Patterns

  /** The result of scanning a text as JSON: malformed, or well formed with the kind of its top-level value. */
  datatype JsonScan = IllFormed | WellFormed(top: JsonKind)

  /** `json.Unmarshal`'s syntax check followed by classifying the top-level value. */
  type JsonScanner = string -> JsonScan

  /** The result of `strconv.ParseFloat(s, 64)`: a value, or a `*NumError` with its reason. */
  datatype FloatScan = Parsed | Failed(reason: NumReason)

  type FloatParser = string -> FloatScan

  /** Insignificant whitespace of RFC 8259. */
  predicate IsJsonSpace(c: char) {
    c == ' ' || c == '\t' || c == '\n' || c == '\r'
  }

  datatype Option = None | Some(c: char)

  /** The first character that is not JSON whitespace, if any. */
  function Lead(s: string): (r: Option)
    decreases |s|
  {
    if s == [] then None
    else if IsJsonSpace(s[0]) then Lead(s[1..])
    else Some(s[0])
  }

  /** `s` with JSON whitespace removed from both ends. */
  function Trim(s: string): string
    decreases |s|
  {
    if s == [] then []
    else if IsJsonSpace(s[0]) then Trim(s[1..])
    else if IsJsonSpace(s[|s| - 1]) then Trim(s[..|s| - 1])
    else s
  }

  /** What a well-formed JSON text of the given kind looks like from outside. */
  predicate Shaped(s: string, k: JsonKind) {
    match k
    case JsonObject => Lead(s) == Some('{')
    case JsonArray => Lead(s) == Some('[')
    case JsonString => Lead(s) == Some('"')
    case JsonNumber => Lead(s).Some? && (Lead(s).c == '-' || IsAsciiDigit(Lead(s).c))
    case JsonBool => Trim(s) == "true" || Trim(s) == "false"
    case JsonNull => Trim(s) == "null"
  }

  /** A scanner is sound when the kind it reports agrees with the text's shape. */
  ghost predicate SoundScanner(scan: JsonScanner) {
    forall s :: scan(s).WellFormed? ==> Shaped(s, scan(s).top)
  }

  /** Lower-cases ASCII letters (ParseFloat compares its special spellings without case). */
  function Lower(s: string): string {
    seq(|s|, i requires 0 <= i < |s| => if 'A' <= s[i] <= 'Z' then (s[i] as int + 32) as char else s[i])
  }

  /** The spellings of infinity and not-a-number, with an optional sign. */
  predicate IsSpecialFloat(s: string) {
    var body := if s != [] && (s[0] == '+' || s[0] == '-') then s[1..] else s;
    Lower(body) in {"inf", "infinity", "nan"}
  }

  predicate HasDigit(s: string) {
    exists i :: 0 <= i < |s| && IsAsciiDigit(s[i])
  }

  /** A parser is sound when every text it accepts holds a digit or spells infinity or NaN. */
  ghost predicate SoundParser(parse: FloatParser) {
    forall s :: parse(s) == Parsed ==> HasDigit(s) || IsSpecialFloat(s)
  }
}
