/**
 * The three regular expressions of the validation library and `MatchRegex`.
 * Go's general regex engine is replaced by one hand-written recogniser per
 * pattern; a `Malformed` pattern stands for any text `regexp.Compile` rejects.
 */
module Patterns {
  import opened Values

  /** The pattern constants, plus a pattern that does not compile. */
  datatype Pattern =
    | ID             // anchored: exactly 14 characters of [a-zA-Z0-9]
    | UnixTimestamp  // anchored: ten \d characters, or the literal 0
    | BasicString    // anchored: any number of [a-zA-Z0-9_\-\s]
    | Malformed

  predicate IsAsciiLetter(c: char) {
    ('a' <= c <= 'z') || ('A' <= c <= 'Z')
  }

  /** RE2's `\d`: ASCII digits only. */
  predicate IsAsciiDigit(c: char) {
    '0' <= c <= '9'
  }

  predicate IsAsciiAlnum(c: char) {
    IsAsciiLetter(c) || IsAsciiDigit(c)
  }

  /** RE2's `\s`: tab, newline, form feed, carriage return and space (not vertical tab). */
  predicate IsRe2Space(c: char) {
    c == '\t' || c == '\n' || c == '\U{C}' || c == '\r' || c == ' '
  }

  /** The bracket classes the three patterns use. */
  datatype CharClass = Alnum | Digit | Basic

  predicate InClass(c: char, k: CharClass) {
    match k
    case Alnum => IsAsciiAlnum(c)
    case Digit => IsAsciiDigit(c)
    case Basic => IsAsciiAlnum(c) || c == '_' || c == '-' || IsRe2Space(c)
  }

  /** Recogniser for `^[k]{n}$`: consumes one class character per repetition, then expects the end of text. */
  function Repeat(s: string, k: CharClass, n: nat): bool
    decreases n
  {
    if n == 0 then s == []
    else s != [] && InClass(s[0], k) && Repeat(s[1..], k, n - 1)
  }

  /** Recogniser for `^[k]*$`: consumes class characters until the end of text. */
  function Star(s: string, k: CharClass): bool
    decreases |s|
  {
    s == [] || (InClass(s[0], k) && Star(s[1..], k))
  }

  /** Runs the recogniser of a compiled pattern on the whole text (`$` without the m flag is end of text). */
  function Recognise(p: Pattern, s: string): bool
    requires p != Malformed
  {
    match p
    case ID => Repeat(s, Alnum, 14)
    case UnixTimestamp => Repeat(s, Digit, 10) || s == "0"
    case BasicString => Star(s, Basic)
  }

  /** Every character of `s` is in class `k`. */
  predicate AllIn(s: string, k: CharClass) {
    forall i :: 0 <= i < |s| ==> InClass(s[i], k)
  }

  /** The language of each compiled pattern, stated independently of the recognisers. */
  predicate Denotes(p: Pattern, s: string)
    requires p != Malformed
  {
    match p
    case ID => |s| == 14 && AllIn(s, Alnum)
    case UnixTimestamp => (|s| == 10 && AllIn(s, Digit)) || s == "0"
    case BasicString => AllIn(s, Basic)
  }

  /** A bounded repetition matches exactly the texts of that length drawn from the class. */
  lemma {:induction false} RepeatExactly(s: string, k: CharClass, n: nat)
    ensures Repeat(s, k, n) <==> |s| == n && AllIn(s, k)
    decreases n
  {
    if n > 0 && s != [] {
      RepeatExactly(s[1..], k, n - 1);
      if InClass(s[0], k) && AllIn(s[1..], k) {
        forall i | 0 <= i < |s| ensures InClass(s[i], k) {
          if i > 0 { assert s[i] == s[1..][i - 1]; }
        }
      }
    }
  }

  /** A starred class matches exactly the texts drawn from the class, the empty text included. */
  lemma {:induction false} StarExactly(s: string, k: CharClass)
    ensures Star(s, k) <==> AllIn(s, k)
    decreases |s|
  {
    if s != [] {
      StarExactly(s[1..], k);
      if InClass(s[0], k) && AllIn(s[1..], k) {
        forall i | 0 <= i < |s| ensures InClass(s[i], k) {
          if i > 0 { assert s[i] == s[1..][i - 1]; }
        }
      }
    }
  }

  /** Each recogniser accepts exactly the language of its pattern. */
  lemma RecogniseCorrect(p: Pattern, s: string)
    requires p != Malformed
    ensures Recognise(p, s) <==> Denotes(p, s)
  {
    match p
    case ID => RepeatExactly(s, Alnum, 14);
    case UnixTimestamp => RepeatExactly(s, Digit, 10);
    case BasicString => StarExactly(s, Basic);
  }

  /**
   * `MatchRegex`: compiling comes first, so a malformed pattern gives "invalid regex"
   * whatever the text; a compiled pattern gives success exactly for the texts in its
   * language and "not a valid input" for every other text.
   */
  function MatchRegex(value: string, regex: Pattern): (r: Outcome)
    ensures regex == Malformed ==> r == Err(InvalidRegex)
    ensures regex != Malformed ==> (r == Ok <==> Denotes(regex, value))
    ensures regex != Malformed && r != Ok ==> r == Err(NotValidInput)
  {
    if regex == Malformed then Err(InvalidRegex)
    else
      RecogniseCorrect(regex, value);
      if Recognise(regex, value) then Ok else Err(NotValidInput)
  }
}
