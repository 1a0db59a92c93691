/** Ruby's dynamic values as the engine uses them: nil, booleans, integers,
    strings and hashes keyed by symbols (symbols are written as strings). */
module Values {

  datatype Option<+T> = None | Some(value: T)

  type Key = string

  datatype Value =
    | Nil
    | Bool(b: bool)
    | Int(i: int)
    | Str(s: string)
    | Hash(h: map<Key, Value>)

  /** How a Ruby call ends: with a value, or with an exception propagating out of it. */
  datatype Outcome = Returned(value: Value) | Raised

  /** The arguments a `define_method` wrapper forwards to a plugin block
      (`plugin_block.call(*args, **kwargs, &block)`): positional ones and keywords. */
  datatype Args = Args(positional: seq<Value>, keywords: map<Key, Value>)

  /** What a block declared `|value, &block|` binds `value` to. A block is lenient about
      its arguments: extra ones are dropped, a missing one is nil, and keywords it does not
      declare arrive as one trailing hash. */
  function BindPositional(args: Args): Value {
    if |args.positional| > 0 then args.positional[0]
    else if args.keywords != map[] then Hash(args.keywords)
    else Nil
  }

  /** What a block declared `|value: true, &block|` binds `value` to: the `value:` keyword,
      else `true`. Positional arguments are dropped; any other keyword raises
      `ArgumentError` (None). */
  function BindFlag(args: Args): Option<Value> {
    if args.keywords.Keys <= {"value"} then
      Some(if "value" in args.keywords then args.keywords["value"] else Bool(true))
    else None
  }

  /** Ruby truthiness: everything except nil and false. */
  predicate Truthy(v: Value) {
    !(v.Nil? || v == Bool(false))
  }

  /** `hash[key]`: nil when the key is absent. */
  function At(m: map<Key, Value>, k: Key): Value {
    if k in m then m[k] else Nil
  }

  /** Values whose `to_s` the model renders (a hash's `inspect` form is not modelled). */
  type Scalar = v: Value | !v.Hash? witness Nil

  /** Ruby's `to_s` on a scalar value. */
  function ToS(v: Scalar): string {
    match v
    case Nil => ""
    case Bool(b) => if b then "true" else "false"
    case Int(i) => IntToString(i)
    case Str(s) => s
  }

  function DigitChar(d: nat): char
    requires d < 10
  {
    "0123456789"[d]
  }

  /** Decimal rendering of a natural number, most significant digit first. */
  function NatToString(n: nat): (s: string)
    ensures |s| > 0
    ensures forall k :: 0 <= k < |s| ==> '0' <= s[k] <= '9'
    decreases n
  {
    if n < 10 then [DigitChar(n)] else NatToString(n / 10) + [DigitChar(n % 10)]
  }

  /** Decimal rendering of an integer (Ruby `Integer#to_s`). */
  function IntToString(i: int): (s: string)
    ensures |s| > 0
  {
    if i < 0 then "-" + NatToString(-i) else NatToString(i)
  }

  /** `n` copies of `x`, in a sequence. */
  function Repeat<T>(x: T, n: nat): (r: seq<T>)
    ensures |r| == n && forall k :: 0 <= k < n ==> r[k] == x
  {
    if n == 0 then [] else Repeat(x, n - 1) + [x]
  }
}
