/**
 * The rule loop of the nullable combinators, and `ValidateNullableInt64` /
 * `ValidateNullableString`, which hand the wrapper's payload to that loop.
 */
module Chains {
  import opened Values

  /** All rules accept `x`. */
  predicate AllPass(rules: seq<Rule>, x: Value) {
    forall k :: 0 <= k < |rules| ==> rules[k](x) == Ok
  }

  /**
   * The `for _, f := range rules` loop: applies the rules left to right and returns
   * the first error unchanged, or success when every rule (possibly none) accepts.
   */
  function ApplyRules(rules: seq<Rule>, x: Value): (r: Outcome)
    ensures r == Ok <==> AllPass(rules, x)
    ensures r != Ok ==> exists k :: 0 <= k < |rules| && AllPass(rules[..k], x) && rules[k](x) == r
    decreases |rules|
  {
    if rules == [] then Ok
    else
      var o := rules[0](x);
      if o != Ok then
        assert AllPass(rules[..0], x);
        o
      else
        var rest := ApplyRules(rules[1..], x);
        if rest != Ok then
          var k :| 0 <= k < |rules[1..]| && AllPass(rules[1..][..k], x) && rules[1..][k](x) == rest;
          assert AllPass(rules[..k + 1], x) by {
            forall j | 0 <= j < k + 1 ensures rules[j](x) == Ok {
              if j > 0 { assert rules[j] == rules[1..][..k][j - 1]; }
            }
          }
          assert rules[k + 1] == rules[1..][k];
          rest
        else
          assert forall j :: 1 <= j < |rules| ==> rules[j] == rules[1..][j - 1];
          rest
  }

  /**
   * Fail-fast: once a rule fails after rules that all pass, the result is that
   * rule's error, whatever rules follow it; later rules cannot change the outcome.
   */
  lemma {:induction false} StopsAtFirstFailure(passed: seq<Rule>, failing: Rule, later: seq<Rule>, x: Value)
    requires AllPass(passed, x)
    requires failing(x) != Ok
    ensures ApplyRules(passed + [failing] + later, x) == failing(x)
    decreases |passed|
  {
    var rules := passed + [failing] + later;
    if passed == [] {
      assert rules[0] == failing;
    } else {
      assert rules[0] == passed[0];
      assert rules[1..] == passed[1..] + [failing] + later;
      StopsAtFirstFailure(passed[1..], failing, later, x);
    }
  }

  /** Chaining two rule lists runs the second only when the first accepts; the empty list is the identity. */
  lemma {:induction false} ApplyConcat(first: seq<Rule>, second: seq<Rule>, x: Value)
    ensures ApplyRules(first + second, x) ==
      if ApplyRules(first, x) == Ok then ApplyRules(second, x) else ApplyRules(first, x)
    decreases |first|
  {
    if first == [] {
      assert first + second == second;
    } else {
      assert (first + second)[0] == first[0];
      assert (first + second)[1..] == first[1..] + second;
      ApplyConcat(first[1..], second, x);
    }
  }

  /** The Go types of the combinators' first parameters. */
  type NullInt64Value = v: Value | v.NullInt64? witness NullInt64(false, 0)
  type NullStringValue = v: Value | v.NullString? witness NullString(false, "")

  /**
   * `ValidateNullableInt64`: the returned rule needs a nulls.Int64 (any other value
   * makes Go's type assertion panic) and runs the rules on its int64 payload. It
   * reads neither the `Valid` flag nor its own `value` argument, which the
   * closure's parameter shadows.
   */
  function ValidateNullableInt64(value: NullInt64Value, rules: seq<Rule>): (rule: Value --> Outcome)
    ensures forall w: Value :: w.NullInt64? ==> rule.requires(w)
    ensures forall w: Value | w.NullInt64? :: rule(w) == Ok <==> AllPass(rules, Int64(w.i))
    ensures forall w: Value | w.NullInt64? :: rule(w) == ApplyRules(rules, Int64(w.i))
  {
    (w: Value) requires w.NullInt64? => ApplyRules(rules, Int64(w.i))
  }

  /** `ValidateNullableString`: as `ValidateNullableInt64`, for a nulls.String and its string payload. */
  function ValidateNullableString(value: NullStringValue, rules: seq<Rule>): (rule: Value --> Outcome)
    ensures forall w: Value :: w.NullString? ==> rule.requires(w)
    ensures forall w: Value | w.NullString? :: rule(w) == Ok <==> AllPass(rules, Str(w.s))
    ensures forall w: Value | w.NullString? :: rule(w) == ApplyRules(rules, Str(w.s))
  {
    (w: Value) requires w.NullString? => ApplyRules(rules, Str(w.s))
  }

  /** The int64 combinator's outcome depends only on the rules and the payload. */
  lemma NullableInt64Ignores(value1: NullInt64Value, value2: NullInt64Value, rules: seq<Rule>,
                             valid1: bool, valid2: bool, i: int64)
    ensures ValidateNullableInt64(value1, rules)(NullInt64(valid1, i)) ==
            ValidateNullableInt64(value2, rules)(NullInt64(valid2, i))
    ensures ValidateNullableInt64(value1, rules)(NullInt64(valid1, i)) == ApplyRules(rules, Int64(i))
  {
  }

  /** The string combinator's outcome depends only on the rules and the payload. */
  lemma NullableStringIgnores(value1: NullStringValue, value2: NullStringValue, rules: seq<Rule>,
                              valid1: bool, valid2: bool, s: string)
    ensures ValidateNullableString(value1, rules)(NullString(valid1, s)) ==
            ValidateNullableString(value2, rules)(NullString(valid2, s))
    ensures ValidateNullableString(value1, rules)(NullString(valid1, s)) == ApplyRules(rules, Str(s))
  {
  }
}
