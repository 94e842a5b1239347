/// The Ruby values the plugin handles: configuration hashes and Notion
/// property values (JSON-like, with `nil`), the exceptions its code raises
/// or rescues, and the two Ruby rules it relies on: `nil`/`false` are the
/// only falsy values, and string interpolation calls `to_s`.
module RubyValues {
  import Decimal

  datatype Option<+T> = None | Some(value: T)

  datatype Result<+T, +E> = Ok(value: T) | Err(error: E)

  /** A value read from YAML configuration or from a Notion page; `Null` is `nil`. */
  datatype Json =
    | Null
    | Bool(b: bool)
    | Int(i: int)
    | Str(s: string)
    | Arr(items: seq<Json>)
    | Obj(fields: map<string, Json>)

  /** A Ruby `Hash` with string keys, such as one database entry of the configuration. */
  type Hash = map<string, Json>

  /** `hash[key]`: `nil` when the key is absent. */
  function Lookup(h: Hash, key: string): Json {
    if key in h then h[key] else Null
  }

  /** Ruby truthiness: everything except `nil` and `false`. */
  predicate Truthy(v: Json) {
    v != Null && v != Bool(false)
  }

  /** The decimal form of an integer, as `Integer#to_s` prints it. */
  function IntToS(n: int): string {
    if n >= 0 then Decimal.ZeroPad(n, 1) else "-" + Decimal.ZeroPad(-n, 1)
  }

  /** `"#{v}"`. Arrays and hashes print in Ruby's `inspect` form, which is
      taken as the given function. */
  function ToS(v: Json, inspect: Json -> string): string {
    match v
    case Null => ""
    case Bool(b) => if b then "true" else "false"
    case Int(n) => IntToS(n)
    case Str(s) => s
    case Arr(_) => inspect(v)
    case Obj(_) => inspect(v)
  }

  /** The exception classes the plugin's code distinguishes. */
  datatype RubyError = TypeError | NoMethodError | ArgumentError | OtherError(name: string)

  /** How a call ended: normally, or by an exception propagating out of it. */
  datatype Outcome = Done | Raised(error: RubyError)
}
