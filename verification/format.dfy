/** The part of `fmt.Sprintf("%v", value)` that `IsTimestamp` relies on. */
module Format {
  import opened Values
  import opened Patterns

  function DigitChar(d: nat): (c: char)
    requires d < 10
    ensures IsAsciiDigit(c)
    ensures d == 0 <==> c == '0'
  {
    ('0' as int + d) as char
  }

  /** Decimal digits of a natural number, most significant first, without leading zeros. */
  function Decimal(n: nat): string
    decreases n
  {
    if n < 10 then [DigitChar(n)] else Decimal(n / 10) + [DigitChar(n % 10)]
  }

  /** `%v` of an integer: its decimal digits, preceded by `-` when negative. */
  function FormatInt(i: int): string {
    if i < 0 then "-" + Decimal(-i) else Decimal(i)
  }

  /** `%v` of a bool. */
  function FormatBool(b: bool): string {
    if b then "true" else "false"
  }

  /**
   * `%v` of a dynamic value. A nulls wrapper has no String method, so Go prints it
   * as a struct: its fields in declaration order (payload, then `Valid`) in braces.
   */
  function Render(v: Value): string {
    match v
    case Nil => "<nil>"
    case Str(s) => s
    case Int64(i) => FormatInt(i)
    case Bool(b) => FormatBool(b)
    case NullInt64(valid, i) => "{" + FormatInt(i) + " " + FormatBool(valid) + "}"
    case NullString(valid, s) => "{" + s + " " + FormatBool(valid) + "}"
    case Other(text) => text
  }

  function Pow10(k: nat): (p: nat)
    ensures p >= 1
  {
    if k == 0 then 1 else 10 * Pow10(k - 1)
  }

  lemma {:induction false} Pow10Monotone(a: nat, b: nat)
    requires a <= b
    ensures Pow10(a) <= Pow10(b)
    decreases b - a
  {
    if a < b { Pow10Monotone(a + 1, b); }
  }

  /** Every character of a decimal rendering is a digit. */
  lemma {:induction false} DecimalDigits(n: nat)
    ensures |Decimal(n)| >= 1 && AllIn(Decimal(n), Digit)
    decreases n
  {
    if n >= 10 {
      DecimalDigits(n / 10);
      var d := Decimal(n / 10);
      forall i | 0 <= i < |Decimal(n)| ensures InClass(Decimal(n)[i], Digit) {
        if i < |d| { assert Decimal(n)[i] == d[i]; }
      }
    }
  }

  /** A rendering of `k` digits stands for a number in [10^(k-1), 10^k), or for 0. */
  lemma {:induction false} DecimalBounds(n: nat)
    ensures |Decimal(n)| >= 1
    ensures n < Pow10(|Decimal(n)|)
    ensures n >= 1 ==> Pow10(|Decimal(n)| - 1) <= n
    decreases n
  {
    if n >= 10 {
      DecimalBounds(n / 10);
      var len := |Decimal(n / 10)|;
      assert |Decimal(n)| == len + 1;
      assert n == 10 * (n / 10) + n % 10;
      assert Pow10(len + 1) == 10 * Pow10(len);
    }
  }

  /** The only number rendered as "0" is 0. */
  lemma DecimalIsZero(n: nat)
    ensures Decimal(n) == "0" <==> n == 0
  {
  }

  /** Exactly the numbers from 1 000 000 000 to 9 999 999 999 have ten decimal digits. */
  lemma TenDigits(n: nat)
    ensures |Decimal(n)| == 10 <==> 1_000_000_000 <= n <= 9_999_999_999
  {
    DecimalBounds(n);
    var len := |Decimal(n)|;
    assert Pow10(9) == 1_000_000_000 && Pow10(10) == 10_000_000_000;
    if n == 0 {
      assert len == 1;
    } else if len < 10 {
      Pow10Monotone(len, 9);
    } else if len > 10 {
      Pow10Monotone(10, len - 1);
    }
  }
}
