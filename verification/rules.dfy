/** The scalar validation rules: each maps one dynamic value to success or an error. */
module Rules {
  import opened Values
  import opened Patterns
  import opened Format
  import opened Decoders

  /** `isString`: the string and no error, or the empty string and "must be a string". */
  function IsString(value: Value): (r: (string, Outcome))
    ensures r.1 == Ok <==> value.Str?
    ensures value.Str? ==> r.0 == value.s
    ensures !value.Str? ==> r == ("", Err(MustBeString))
  {
    match value
    case Str(s) => (s, Ok)
    case _ => ("", Err(MustBeString))
  }

  /**
   * `isValidString`: nil first, then the type, then emptiness, and only then the
   * pattern; so a non-nil non-string never reaches the pattern.
   */
  function IsValidString(value: Value, regex: Pattern): (r: Outcome)
    ensures value.Nil? ==> r == Ok
    ensures !value.Nil? && !value.Str? ==> r == Err(MustBeString)
    ensures value == Str("") ==> r == Ok
    ensures value.Str? && value.s != "" && regex == Malformed ==> r == Err(InvalidRegex)
    ensures value.Str? && value.s != "" && regex != Malformed ==>
      (r == Ok <==> Denotes(regex, value.s)) && (r != Ok ==> r == Err(NotValidInput))
  {
    if value.Nil? then Ok
    else
      var (str, err) := IsString(value);
      if err != Ok then err
      else if str == "" then Ok
      else MatchRegex(str, regex)
  }

  /**
   * `IsUUID`: nil and "" succeed, another string succeeds exactly when it is 14
   * ASCII letters or digits and otherwise is "not a valid input", and any other
   * value is "must be a string".
   */
  function IsUUID(value: Value): (r: Outcome)
    ensures r == Ok <==>
      value.Nil? || (value.Str? && (value.s == "" ||
        (|value.s| == 14 && forall i :: 0 <= i < |value.s| ==> IsAsciiAlnum(value.s[i]))))
    ensures !value.Nil? && !value.Str? ==> r == Err(MustBeString)
    ensures value.Str? && r != Ok ==> r == Err(NotValidInput)
  {
    IsValidString(value, ID)
  }

  /**
   * `IsBasicString`: nil succeeds; a string succeeds exactly when every character is
   * an ASCII letter or digit, `_`, `-` or RE2 whitespace (so "" succeeds) and
   * otherwise is "not a valid input"; any other value is "must be a string".
   */
  function IsBasicString(value: Value): (r: Outcome)
    ensures r == Ok <==>
      value.Nil? || (value.Str? && forall i :: 0 <= i < |value.s| ==>
        IsAsciiAlnum(value.s[i]) || value.s[i] == '_' || value.s[i] == '-' || IsRe2Space(value.s[i]))
    ensures !value.Nil? && !value.Str? ==> r == Err(MustBeString)
    ensures value.Str? && r != Ok ==> r == Err(NotValidInput)
  {
    IsValidString(value, BasicString)
  }

  /**
   * What the `%v` rendering means for the timestamp pattern: an int64 renders as ten
   * digits or "0" exactly for 0 and 1 000 000 000 ..= 9 999 999 999 (a negative one
   * starts with `-`); a bool renders as a word and a nulls wrapper starts with `{`.
   */
  lemma TimestampRendering(value: Value)
    ensures value.Int64? ==>
      (Denotes(UnixTimestamp, Render(value)) <==> value.i == 0 || 1_000_000_000 <= value.i <= 9_999_999_999)
    ensures value.Bool? || value.NullInt64? || value.NullString? ==> !Denotes(UnixTimestamp, Render(value))
  {
    var text := Render(value);
    match value {
      case Int64(i) =>
        if i < 0 {
          assert text[0] == '-' && !InClass(text[0], Digit);
        } else {
          DecimalDigits(i);
          DecimalIsZero(i);
          TenDigits(i);
        }
      case Bool(_) =>
      case NullInt64(_, _) =>
        assert text[0] == '{' && !InClass(text[0], Digit);
      case NullString(_, _) =>
        assert text[0] == '{' && !InClass(text[0], Digit);
      case _ =>
    }
  }

  /**
   * `IsTimestamp`: nil succeeds; every other value is rendered with `%v` and the
   * text must be ten ASCII digits or exactly "0"; there is no exemption for "",
   * and the only error is "not a valid input". For an int64 this means 0 or a
   * value from 1 000 000 000 to 9 999 999 999; a bool or a nulls wrapper never
   * passes.
   */
  function IsTimestamp(value: Value): (r: Outcome)
    ensures value.Nil? ==> r == Ok
    ensures r != Ok ==> r == Err(NotValidInput)
    ensures value.Str? ==>
      (r == Ok <==> (|value.s| == 10 && forall i :: 0 <= i < 10 ==> IsAsciiDigit(value.s[i])) || value.s == "0")
    ensures value.Int64? ==> (r == Ok <==> value.i == 0 || 1_000_000_000 <= value.i <= 9_999_999_999)
    ensures value.Bool? || value.NullInt64? || value.NullString? ==> r == Err(NotValidInput)
    ensures value.Other? ==> (r == Ok <==> Denotes(UnixTimestamp, value.rendered))
  {
    if value.Nil? then Ok
    else
      TimestampRendering(value);
      MatchRegex(Render(value), UnixTimestamp)
  }

  /** `IsInt64`: success exactly for an int64; everything else, nil included, is "must be an int64 integer". */
  function IsInt64(value: Value): (r: Outcome)
    ensures r == Ok <==> value.Int64?
    ensures r != Ok ==> r == Err(MustBeInt64)
  {
    if value.Int64? then Ok else Err(MustBeInt64)
  }

  /**
   * `IsJson`: nil succeeds; a non-string is "must be a string"; a string is decoded
   * into `struct{}`, so it succeeds exactly when it is a well-formed object or
   * `null`, fails with the syntax error when malformed, and fails with a type error
   * naming the kind for any other well-formed value.
   */
  function IsJson(scan: JsonScanner, value: Value): (r: Outcome)
    ensures value.Nil? ==> r == Ok
    ensures !value.Nil? && !value.Str? ==> r == Err(MustBeString)
    ensures value.Str? ==>
      (r == Ok <==> scan(value.s) == WellFormed(JsonObject) || scan(value.s) == WellFormed(JsonNull))
    ensures value.Str? && scan(value.s) == IllFormed ==> r == Err(JsonFailure(SyntaxError))
    ensures value.Str? && scan(value.s).WellFormed? && r != Ok ==> r == Err(JsonFailure(TypeError(scan(value.s).top)))
  {
    if value.Nil? then Ok
    else
      var (str, err) := IsString(value);
      if err != Ok then err
      else
        match scan(str)
        case IllFormed => Err(JsonFailure(SyntaxError))
        case WellFormed(top) =>
          if top == JsonObject || top == JsonNull then Ok else Err(JsonFailure(TypeError(top)))
  }

  /**
   * `IsNumeric`: there is no nil exemption, so nil and every other non-string are
   * "must be a string"; a string succeeds exactly when ParseFloat accepts it, and
   * otherwise fails with ParseFloat's error, which carries the text and the reason.
   */
  function IsNumeric(parse: FloatParser, value: Value): (r: Outcome)
    ensures !value.Str? ==> r == Err(MustBeString)
    ensures value.Str? ==> (r == Ok <==> parse(value.s) == Parsed)
    ensures value.Str? && parse(value.s).Failed? ==> r == Err(ParseFloatFailure(value.s, parse(value.s).reason))
  {
    var (valueStr, err) := IsString(value);
    if err != Ok then err
    else
      match parse(valueStr)
      case Parsed => Ok
      case Failed(reason) => Err(ParseFloatFailure(valueStr, reason))
  }

  /** `IsBool`: success exactly for nil and a bool; anything else, the string "true" included, is "must be a boolean". */
  function IsBool(value: Value): (r: Outcome)
    ensures r == Ok <==> value.Nil? || value.Bool?
    ensures r != Ok ==> r == Err(MustBeBoolean)
  {
    match value
    case Nil => Ok
    case Bool(_) => Ok
    case _ => Err(MustBeBoolean)
  }

  /** With a sound scanner, `IsJson` accepts a string only if it is shaped as an object or is `null`. */
  lemma JsonObjectOrNull(scan: JsonScanner, s: string)
    requires SoundScanner(scan)
    requires IsJson(scan, Str(s)) == Ok
    ensures Lead(s) == Some('{') || Trim(s) == "null"
  {
  }

  /** With a sound parser, a string holding no digit and no spelling of infinity or NaN is rejected. */
  lemma NumericNeedsDigit(parse: FloatParser, s: string)
    requires SoundParser(parse)
    requires !HasDigit(s) && !IsSpecialFloat(s)
    ensures IsNumeric(parse, Str(s)).Err?
    ensures IsNumeric(parse, Str(s)).kind.ParseFloatFailure?
  {
  }
}
