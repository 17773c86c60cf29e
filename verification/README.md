# Field-validation rules of transaction-server, in Dafny

This project models the validation rule library of the transaction server
(`internal/common/db/datatype/validation.go`): the rules that check one field
value of a record and return either nil (success) or an error. The rules are
`IsUUID`, `IsTimestamp`, `IsBasicString`, `IsInt64`, `IsJson`, `IsNumeric`
and `IsBool`. Underneath them sit `MatchRegex`, `isString` and
`isValidString` with the three pattern constants. Above them sit the
combinators `ValidateNullableInt64` and `ValidateNullableString`, which run a
list of rules, stopping at the first failure, on the payload of a
gobuffalo/nulls wrapper.

The library is pure, so the model is datatypes, functions and lemmas:

- `values.dfy` (`Values`): the dynamically typed input `Value` (nil, string,
  int64, bool, the two nulls wrappers with their `Valid` flag, and any other
  type, carried with the text `%v` prints for it), one `ErrorKind` per
  distinct error, `Outcome` (Go's `error`) and `Rule` (ozzo-validation's `RuleFunc`).
- `patterns.dfy` (`Patterns`): the three pattern constants as a `Pattern` tag
  with a `Malformed` case for a pattern that does not compile. Each pattern
  gets a hand-written recogniser and a separate declarative language. Lemmas
  show that each recogniser accepts exactly its language. `MatchRegex` is
  built on top.
- `format.dfy` (`Format`): the part of `fmt.Sprintf("%v", …)` that
  `IsTimestamp` sees, and the arithmetic of decimal renderings.
- `decoders.dfy` (`Decoders`): stand-ins for `json.Unmarshal` and
  `strconv.ParseFloat`. Each is a function the rule takes as a parameter. A
  soundness predicate states what any faithful implementation satisfies.
- `rules.dfy` (`Rules`): the scalar rules.
- `chains.dfy` (`Chains`): the rule loop as a fail-fast fold, and the two
  nullable combinators.
- `examples.dfy` (`Examples`): the documented sample inputs.

In three places the code does something other than its names and comments suggest; the model follows the code:

- The combinators never read the `Valid` flag. A null wrapper is still
  validated, using its zero payload (`""` or `0`). So
  `ValidateNullableString(_, IsTimestamp)` rejects a null nulls.String, while
  `ValidateNullableInt64(_, IsTimestamp)` accepts a null nulls.Int64.
- `IsJson` decodes into `struct{}`. It therefore accepts only an object or
  `null` at the top level. Any other well-formed JSON value is a type error.
- `IsTimestamp` has no exemption for the empty string.

## Model

| member | source | states |
|---|---|---|
| Values.TextInjective | internal/common/db/datatype/validation.go:69-159 | the five fixed error messages are pairwise distinct, so each kind is told apart by its text |
| Patterns.RepeatExactly | internal/common/db/datatype/validation.go:16-19 | the recogniser for an anchored `[class]{n}` accepts exactly the texts of length n drawn from the class |
| Patterns.StarExactly | internal/common/db/datatype/validation.go:23 | the recogniser for an anchored `[class]*` accepts exactly the texts drawn from the class, the empty text included |
| Patterns.RecogniseCorrect | internal/common/db/datatype/validation.go:14-24 | each pattern's recogniser accepts exactly its language: 14 ASCII alphanumerics; ten ASCII digits or "0"; letters, digits, `_`, `-` and RE2 whitespace |
| Patterns.MatchRegex | internal/common/db/datatype/validation.go:68-77 | a pattern that does not compile gives "invalid regex" whatever the text; a compiled one gives success exactly for texts in its language and "not a valid input" otherwise |
| Format.DecimalDigits | internal/common/db/datatype/validation.go:65 | the `%v` rendering of a natural number is non-empty and consists of ASCII digits only |
| Format.DecimalBounds | internal/common/db/datatype/validation.go:65 | a number rendered with k digits lies below 10^k and, unless it is 0, at or above 10^(k-1) |
| Format.DecimalIsZero | internal/common/db/datatype/validation.go:65 | the rendering is "0" exactly for 0 |
| Format.TenDigits | internal/common/db/datatype/validation.go:65 | the rendering has ten digits exactly for 1 000 000 000 ..= 9 999 999 999 |
| Rules.IsString | internal/common/db/datatype/validation.go:95-102 | success exactly for a string, returning that string; otherwise the empty string with "must be a string" |
| Rules.IsValidString | internal/common/db/datatype/validation.go:79-93 | checks nil, then type, then emptiness, then the pattern: nil and "" succeed; a non-nil non-string gives "must be a string" even for a malformed pattern; another string gets MatchRegex's verdict |
| Rules.IsUUID | internal/common/db/datatype/validation.go:54-57 | success exactly for nil, "" and 14-character ASCII alphanumeric strings; any other string gives "not a valid input"; a non-string gives "must be a string" |
| Rules.IsBasicString | internal/common/db/datatype/validation.go:104-108 | success exactly for nil and strings of ASCII letters, digits, `_`, `-`, tab, newline, form feed, carriage return and space; any other string gives "not a valid input"; a non-string gives "must be a string" |
| Rules.TimestampRendering | internal/common/db/datatype/validation.go:59-66 | an int64's rendering matches the timestamp pattern exactly for 0 and 1 000 000 000 ..= 9 999 999 999; a bool's or a nulls wrapper's never does |
| Rules.IsTimestamp | internal/common/db/datatype/validation.go:59-66 | nil succeeds; a string succeeds exactly when it is ten ASCII digits or "0" ("" fails); an int64 exactly when it is 0 or in 1 000 000 000 ..= 9 999 999 999; bools and wrappers never; the only error is "not a valid input" |
| Rules.IsInt64 | internal/common/db/datatype/validation.go:110-116 | success exactly for an int64 value (nil included among the failures), else "must be an int64 integer" |
| Rules.IsJson | internal/common/db/datatype/validation.go:118-135 | nil succeeds before any type check; a non-string gives "must be a string"; a string succeeds exactly when it scans as a JSON object or `null`, fails with the syntax error when malformed and with a type error naming the kind otherwise |
| Rules.IsNumeric | internal/common/db/datatype/validation.go:137-147 | no nil exemption: nil and every non-string give "must be a string"; a string succeeds exactly when ParseFloat accepts it, else fails with ParseFloat's error carrying the text and reason |
| Rules.IsBool | internal/common/db/datatype/validation.go:149-159 | success exactly for nil and bools; anything else, the string "true" included, gives "must be a boolean" |
| Rules.JsonObjectOrNull | internal/common/db/datatype/validation.go:127-131 | with a sound JSON scanner, an accepted string begins (after whitespace) with `{` or is `null` up to whitespace |
| Rules.NumericNeedsDigit | internal/common/db/datatype/validation.go:144-146 | with a sound ParseFloat, a string with no digit and no spelling of infinity or NaN is rejected with a ParseFloat error |
| Chains.ApplyRules | internal/common/db/datatype/validation.go:30-36 | success exactly when every rule accepts the value (so the empty list succeeds); otherwise the result is the error of some rule all of whose predecessors accept |
| Chains.StopsAtFirstFailure | internal/common/db/datatype/validation.go:30-34 | after passing rules, a failing rule's error is the result whatever rules follow it |
| Chains.ApplyConcat | internal/common/db/datatype/validation.go:30-36 | chaining two rule lists runs the second only when the first succeeds; the empty list is the identity |
| Chains.ValidateNullableInt64 | internal/common/db/datatype/validation.go:26-38 | the returned rule accepts any nulls.Int64, succeeds exactly when every rule accepts its int64 payload, and otherwise returns the rule loop's first error on that payload unchanged |
| Chains.ValidateNullableString | internal/common/db/datatype/validation.go:40-52 | the returned rule accepts any nulls.String, succeeds exactly when every rule accepts its string payload, and otherwise returns the rule loop's first error on that payload unchanged |
| Chains.NullableInt64Ignores | internal/common/db/datatype/validation.go:27-31 | the outcome is the rule chain on the payload, whatever the `Valid` flag and the combinator's own `value` argument |
| Chains.NullableStringIgnores | internal/common/db/datatype/validation.go:41-45 | the outcome is the rule chain on the payload, whatever the `Valid` flag and the combinator's own `value` argument |
| Examples.UUIDAccepts | internal/common/db/datatype/validation.go:54-57 | "ABCDEFGHIJ1234" is a valid ID |
| Examples.UUIDRejects | internal/common/db/datatype/validation.go:54-57 | "short" and "14-chars-with-!" are "not a valid input"; an int64 is "must be a string" |
| Examples.UUIDRejectsPunctuation | internal/common/db/datatype/validation.go:54-57 | a 14-character text ending in `!` is "not a valid input" |
| Examples.BasicStringAccepts | internal/common/db/datatype/validation.go:104-108 | "Order_123 ok" and a text with tab, CR and LF pass |
| Examples.BasicStringRejects | internal/common/db/datatype/validation.go:104-108 | "bad@char" is "not a valid input"; a bool is "must be a string" |
| Examples.TimestampAcceptsStrings | internal/common/db/datatype/validation.go:59-66 | "1700000000", "0000000000" and "0" pass |
| Examples.TimestampRejectsStrings | internal/common/db/datatype/validation.go:59-66 | "", "00" and an eleven-digit string fail |
| Examples.TimestampNonStrings | internal/common/db/datatype/validation.go:59-66 | int64 1 700 000 000 passes; 999 999 999, -1 700 000 000 and false fail |
| Examples.JsonAccepts | internal/common/db/datatype/validation.go:118-135 | a well-formed object passes, nil passes, and an int64 is "must be a string" |
| Examples.JsonRejects | internal/common/db/datatype/validation.go:118-135 | with a sound scanner, "[1]", "1", "\"s\"" and "not json" all fail |
| Examples.NumericSamples | internal/common/db/datatype/validation.go:137-147 | nil and an int64 are "must be a string"; "abc" fails with any sound ParseFloat |
| Examples.BoolSamples | internal/common/db/datatype/validation.go:110-159 | nil, true and false pass IsBool and the string "true" does not; nil fails IsInt64 |
| Examples.NullPayloadChecked | internal/common/db/datatype/validation.go:26-52 | a null nulls.String fails a timestamp chain, passes an ID and basic-string chain; a null nulls.Int64 passes an int64 and timestamp chain |

## Left out

- Go's general regular-expression engine (`regexp.Compile`, `MatchString`) is not modelled. The three constant patterns get hand-written recognisers, and `Malformed` stands for every pattern that fails to compile.
- The JSON grammar (RFC 8259) behind `json.Unmarshal` is not modelled. `IsJson` takes the scan as a parameter. `SoundScanner` states only how a well-formed text's top-level kind shows in its first significant character or trimmed text.
- Go's nesting-depth limit in the JSON scanner is part of that grammar, so it is left out too.
- The float grammar behind `strconv.ParseFloat` is not modelled. This includes range errors, hex floats, and the inf/NaN spellings in detail. `IsNumeric` takes the parser as a parameter. `SoundParser` states only that an accepted text holds a digit or spells infinity or NaN.
- The exact text of the JSON and ParseFloat errors is not modelled. The error kinds keep what the code relies on: syntax versus type error, and the parsed text with the reason.
- `fmt.Sprintf("%v")` is modelled only for strings, int64, bools and the two nulls wrappers. For any other dynamic type, `Value.Other` carries the text `%v` produces.
- The nulls wrappers are rendered as Go's default struct format: the payload, a space, then the flag, in braces. Only the leading brace affects the timestamp result.
- Go strings are byte sequences; the model works on Unicode scalar values. The patterns are ASCII-only, so this changes nothing for valid UTF-8. An invalid byte matches no class in either view.
- A combinator applied to a value that is not the right wrapper panics in Go's type assertion. In the model, the returned rule has a precondition instead.
- Chains.ValidateNullableInt64: states that the returned rule is defined on every nulls.Int64, but not that it is defined on nothing else, because Dafny does not expose that direction of a lambda's precondition.
- Chains.ValidateNullableString: the same one-directional statement of the returned rule's precondition, for nulls.String.
- How ozzo-validation attaches rules to struct fields is not modelled, since it is framework code.
- The nulls types are not modelled beyond their payload and `Valid` flag.
- Rules are pure functions here, so applying a rule twice trivially gives the same result. No separate lemma states this.
- cmd/migration/main.go is not part of this model. It only parses arguments, boots the database and calls the external migration tool.
