/** Concrete behaviour of the rules and combinators on sample inputs. */
module Examples {
  import opened Values
  import opened Patterns
  import opened Decoders
  import opened Rules
  import opened Chains

  /** A 14-character alphanumeric identifier passes. */
  lemma UUIDAccepts()
    ensures IsUUID(Str("ABCDEFGHIJ1234")) == Ok
  {
    var s := "ABCDEFGHIJ1234";
    assert AllIn(s, Alnum) by {
      forall i | 0 <= i < |s| ensures InClass(s[i], Alnum) {}
    }
    assert Denotes(ID, s);
  }

  /** Short, long or punctuated identifiers fail with "not a valid input"; a number is not a string. */
  lemma UUIDRejects()
    ensures IsUUID(Str("short")) == Err(NotValidInput)
    ensures IsUUID(Str("14-chars-with-!")) == Err(NotValidInput)
    ensures IsUUID(Int64(12345678901234)) == Err(MustBeString)
  {
  }

  /** One character outside the class is enough to fail. */
  lemma UUIDRejectsPunctuation()
    ensures IsUUID(Str("ABCDEFGHIJ123!")) == Err(NotValidInput)
  {
    var s := "ABCDEFGHIJ123!";
    assert !InClass(s[13], Alnum);
    assert !Denotes(ID, s);
  }

  /** Letters, digits, `_`, `-` and RE2 whitespace pass. */
  lemma BasicStringAccepts()
    ensures IsBasicString(Str("Order_123 ok")) == Ok
    ensures IsBasicString(Str("tab\there-\r\n")) == Ok
  {
    var s, t := "Order_123 ok", "tab\there-\r\n";
    forall i | 0 <= i < |s| ensures InClass(s[i], Basic) {}
    forall i | 0 <= i < |t| ensures InClass(t[i], Basic) {}
  }

  /** Any other character fails; a bool is not a string. */
  lemma BasicStringRejects()
    ensures IsBasicString(Str("bad@char")) == Err(NotValidInput)
    ensures IsBasicString(Bool(true)) == Err(MustBeString)
  {
    var s := "bad@char";
    assert !InClass(s[3], Basic);
  }

  /** Ten digits (leading zeros included) or "0" pass. */
  lemma TimestampAcceptsStrings()
    ensures IsTimestamp(Str("1700000000")) == Ok
    ensures IsTimestamp(Str("0000000000")) == Ok
    ensures IsTimestamp(Str("0")) == Ok
  {
    var s, t := "1700000000", "0000000000";
    forall i | 0 <= i < 10 ensures IsAsciiDigit(s[i]) {}
    forall i | 0 <= i < 10 ensures IsAsciiDigit(t[i]) {}
  }

  /** There is no exemption for ""; "00" and eleven digits fail. */
  lemma TimestampRejectsStrings()
    ensures IsTimestamp(Str("")) == Err(NotValidInput)
    ensures IsTimestamp(Str("00")) == Err(NotValidInput)
    ensures IsTimestamp(Str("17000000001")) == Err(NotValidInput)
  {
  }

  /** Integers are judged by their decimal rendering; a bool never passes. */
  lemma TimestampNonStrings()
    ensures IsTimestamp(Int64(1_700_000_000)) == Ok
    ensures IsTimestamp(Int64(999_999_999)) == Err(NotValidInput)
    ensures IsTimestamp(Int64(-1_700_000_000)) == Err(NotValidInput)
    ensures IsTimestamp(Bool(false)) == Err(NotValidInput)
  {
  }

  /** Decoding into `struct{}`: a well-formed object passes; nil passes before any type check; an int64 is not a string. */
  lemma JsonAccepts(scan: JsonScanner)
    requires SoundScanner(scan)
    ensures scan("{\"a\":1}").WellFormed? ==> IsJson(scan, Str("{\"a\":1}")) == Ok
    ensures IsJson(scan, Nil) == Ok
    ensures IsJson(scan, Int64(1)) == Err(MustBeString)
  {
    assert Lead("{\"a\":1}") == Some('{');
  }

  /** Other well-formed values than an object or `null`, and text that is not JSON, fail. */
  lemma JsonRejects(scan: JsonScanner)
    requires SoundScanner(scan)
    ensures IsJson(scan, Str("[1]")).Err?
    ensures IsJson(scan, Str("1")).Err?
    ensures IsJson(scan, Str("\"s\"")).Err?
    ensures IsJson(scan, Str("not json")).Err?
  {
    assert Lead("[1]") == Some('[');
    assert Lead("1") == Some('1');
    assert Lead("\"s\"") == Some('"');
    assert Lead("not json") == Some('n') && Trim("not json") == "not json";
    if IsJson(scan, Str("[1]")) == Ok { JsonObjectOrNull(scan, "[1]"); }
    if IsJson(scan, Str("1")) == Ok { JsonObjectOrNull(scan, "1"); }
    if IsJson(scan, Str("\"s\"")) == Ok { JsonObjectOrNull(scan, "\"s\""); }
    if IsJson(scan, Str("not json")) == Ok { JsonObjectOrNull(scan, "not json"); }
  }

  /** Numeric samples: nil and non-strings are "must be a string"; "abc" is rejected by any sound parser. */
  lemma NumericSamples(parse: FloatParser)
    requires SoundParser(parse)
    ensures IsNumeric(parse, Nil) == Err(MustBeString)
    ensures IsNumeric(parse, Int64(42)) == Err(MustBeString)
    ensures IsNumeric(parse, Str("abc")).Err?
  {
    assert !HasDigit("abc");
    assert Lower("abc") == "abc";
    NumericNeedsDigit(parse, "abc");
  }

  /** Boolean samples: nil and both bools pass; the string "true" does not. */
  lemma BoolSamples()
    ensures IsBool(Nil) == Ok && IsBool(Bool(true)) == Ok && IsBool(Bool(false)) == Ok
    ensures IsBool(Str("true")) == Err(MustBeBoolean)
    ensures IsInt64(Nil) == Err(MustBeInt64)
  {
  }

  /**
   * A null wrapper is validated with its zero payload: a null nulls.String fails the
   * timestamp rule (its payload "" is not a timestamp), while a null nulls.Int64
   * passes it (its payload 0 is).
   */
  lemma NullPayloadChecked(si: NullStringValue, ii: NullInt64Value)
    ensures ValidateNullableString(si, [IsTimestamp])(NullString(false, "")) == Err(NotValidInput)
    ensures ValidateNullableString(si, [IsUUID, IsBasicString])(NullString(false, "")) == Ok
    ensures ValidateNullableInt64(ii, [IsInt64, IsTimestamp])(NullInt64(false, 0)) == Ok
  {
    var two: seq<Rule> := [IsUUID, IsBasicString];
    assert AllPass(two, Str(""));
    var three: seq<Rule> := [IsInt64, IsTimestamp];
    assert AllPass(three, Int64(0));
  }
}
