/** The dynamically typed values a validation rule receives, and what a rule returns. */
module Values {

  /** Go's `int64`. */
  type int64 = x: int | -0x8000_0000_0000_0000 <= x < 0x8000_0000_0000_0000

  /**
   * A Go `interface{}` value as the rules see it: the dynamic types the rules
   * distinguish, the two gobuffalo/nulls wrappers (a payload and a `Valid` flag),
   * and every other dynamic type, carried with the text `fmt.Sprintf("%v", …)`
   * renders it as (the only thing any rule ever observes of such a value).
   */
  datatype Value =
    | Nil
    | Str(s: string)
    | Int64(i: int64)
    | Bool(b: bool)
    | NullInt64(valid: bool, i: int64)
    | NullString(valid: bool, s: string)
    | Other(rendered: string)

  /** The top-level kind of a well-formed JSON text. */
  datatype JsonKind = JsonObject | JsonArray | JsonString | JsonNumber | JsonBool | JsonNull

  /** What `json.Unmarshal` reports: malformed text, or a value that cannot be stored in `struct{}`. */
  datatype JsonError = SyntaxError | TypeError(found: JsonKind)

  /** The two reasons `strconv.ParseFloat` gives in its `*NumError`. */
  datatype NumReason = InvalidSyntax | OutOfRange

  /** One kind per distinct error a rule can return. */
  datatype ErrorKind =
    | MustBeString
    | InvalidRegex
    | NotValidInput
    | MustBeInt64
    | MustBeBoolean
    | JsonFailure(json: JsonError)
    | ParseFloatFailure(num: string, reason: NumReason)

  /** A Go `error`: nil (success) or an error of some kind. */
  datatype Outcome = Ok | Err(kind: ErrorKind)

  /** ozzo-validation's `RuleFunc`. */
  type Rule = Value -> Outcome

  /** True for the kinds whose message is a fixed string built with `errors.New`. */
  predicate HasFixedText(k: ErrorKind) {
    !k.JsonFailure? && !k.ParseFloatFailure?
  }

  /** The message of each fixed-text error. */
  function Text(k: ErrorKind): string
    requires HasFixedText(k)
  {
    match k
    case MustBeString => "must be a string"
    case InvalidRegex => "invalid regex"
    case NotValidInput => "not a valid input"
    case MustBeInt64 => "must be an int64 integer"
    case MustBeBoolean => "must be a boolean"
  }

  /** Distinct fixed-text kinds carry distinct messages, so a caller can tell them apart by text. */
  lemma TextInjective(k1: ErrorKind, k2: ErrorKind)
    requires HasFixedText(k1) && HasFixedText(k2)
    ensures Text(k1) == Text(k2) ==> k1 == k2
  {
  }
}
