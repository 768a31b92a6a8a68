/** Python values as the poller sees them: the untyped attribute bag the quote
    provider returns, and the rows written to the store. */
module PyValues {

  datatype Option<+T> = None | Some(value: T)

  /** A Python float: finite, an infinity, or NaN. */
  datatype PyFloat = Finite(x: real) | Infinity(negative: bool) | NaN

  /** One value of an attribute bag or of a row's column. `bool` is listed apart
      from `int` although Python makes it a subclass of `int`; the conversions
      below treat it as an `int` where Python does. */
  datatype Value =
    | Null                               // None
    | Str(s: string)
    | Int(i: int)
    | Bool(b: bool)
    | Float(f: PyFloat)
    | Other(text: string, truthy: bool)  // any other object: what str() and bool() give for it

  /** A dictionary from column (or attribute) name to value. */
  type Row = map<string, Value>

  /** `d.get(k)`: the value under `k`, or None when `k` is absent. */
  function Get(d: Row, k: string): Value {
    if k in d then d[k] else Null
  }

  /** `d.get(k, default)`: the value under `k`, or `default` when `k` is absent
      (a present None stays None). */
  function GetOr(d: Row, k: string, default: Value): Value {
    if k in d then d[k] else default
  }
}
