/**
 * Runtime values of the interpreter and the errors evaluation can raise.
 */
module Values {
  import opened Tokens

  /**
   * A function value. Its class and body are not part of this model: it has an identity
   * (`serial`), an arity, and the text `String(f)` gives for it.
   */
  datatype Callable = Callable(serial: nat, arity: nat, text: string)

  datatype Value = Nil | Bool(b: bool) | Num(n: real) | Str(s: string) | Fn(f: Callable)

  /**
   * What can escape evaluation: a `RuntimeError` carries the token it blames; a host error
   * is a plain JavaScript `Error` (an unknown operator, a call stack overflow, a bad cast).
   */
  datatype Failure = RuntimeError(token: Token, message: string) | HostError(message: string)

  datatype Result<T> = Ok(value: T) | Err(failure: Failure)

  /** The runtime value of a literal token's payload (`null` is nil). */
  function FromLiteral(v: LitValue): (r: Value)
    ensures v.NilLit? <==> r.Nil?
    ensures v.BoolLit? <==> r.Bool?
    ensures v.NumLit? <==> r.Num?
    ensures v.StrLit? <==> r.Str?
  {
    match v
    case NilLit => Nil
    case BoolLit(b) => Bool(b)
    case NumLit(n) => Num(n)
    case StrLit(s) => Str(s)
  }

  /** What a template string writes for a value: `null` for nil, `String(n)` for a number. */
  function TemplateText(v: Value, showNumber: NumberFormat): string
  {
    match v
    case Nil => "null"
    case Bool(b) => if b then "true" else "false"
    case Num(n) => showNumber(n)
    case Str(s) => s
    case Fn(f) => f.text
  }

  /** A literal's value is written by a template string exactly as the literal itself is. */
  lemma TemplateOfLiteral(v: LitValue, showNumber: NumberFormat)
    ensures TemplateText(FromLiteral(v), showNumber) == LiteralText(v, showNumber)
  {
  }
}
