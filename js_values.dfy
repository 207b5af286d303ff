/** The few JavaScript value semantics the adapter depends on: primitive values,
    truthiness, the short-circuit `||`, property lookup on plain objects and
    environment maps, and the string conversion done by a template literal. */
module JsValues {

  datatype Option<+T> = None | Some(value: T)

  /** A JavaScript primitive as it can appear in a settings object or a message.
      Numbers are modelled as integers (no NaN, no fractions). */
  datatype Value = Undefined | Null | Bool(b: bool) | Num(n: int) | Str(s: string)

  /** A plain settings object: a missing key reads as `undefined`. */
  type Settings = map<string, Value>

  /** `process.env`: every value present is a string. */
  type Env = map<string, string>

  /** JavaScript truthiness for primitives. */
  predicate Truthy(v: Value)
  {
    match v
    case Undefined => false
    case Null => false
    case Bool(b) => b
    case Num(n) => n != 0
    case Str(s) => s != ""
  }

  /** `a || b`: the left operand when it is truthy, otherwise the right one. */
  function Or(a: Value, b: Value): (r: Value)
    ensures Truthy(a) ==> r == a
    ensures !Truthy(a) ==> r == b
  {
    if Truthy(a) then a else b
  }

  /** `obj[key]` on a plain object. */
  function Get(obj: Settings, key: string): (r: Value)
    ensures key !in obj ==> r == Undefined
    ensures key in obj ==> r == obj[key]
  {
    if key in obj then obj[key] else Undefined
  }

  /** `process.env[key]`: a string, or `undefined` when the variable is unset. */
  function EnvGet(env: Env, key: string): (r: Value)
    ensures key in env <==> r.Str?
    ensures key in env ==> r.s == env[key]
    ensures key !in env ==> r == Undefined
  {
    if key in env then Str(env[key]) else Undefined
  }

  /** `obj || {}` for an optional settings object. */
  function OrEmpty(obj: Option<Settings>): Settings
  {
    match obj
    case Some(m) => m
    case None => map[]
  }

  function DigitChar(d: nat): char
    requires d < 10
  {
    "0123456789"[d]
  }

  function Decimal(n: nat): (r: string)
    ensures |r| > 0
    decreases n
  {
    if n < 10 then [DigitChar(n)] else Decimal(n / 10) + [DigitChar(n % 10)]
  }

  /** The text `${v}` produces inside a template literal. */
  function Display(v: Value): string
  {
    match v
    case Undefined => "undefined"
    case Null => "null"
    case Bool(b) => if b then "true" else "false"
    case Num(n) => if n < 0 then "-" + Decimal(-n) else Decimal(n)
    case Str(s) => s
  }
}
