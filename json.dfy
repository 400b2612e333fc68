/** Failure-compatible wrappers used across the model. */
module Wrappers {
  datatype Option<+T> = None | Some(value: T)

  datatype Result<+T, +E> = Success(value: T) | Failure(error: E)
}

/** The JSON values that the provider returns and that the store keeps as `jsonb`. */
module JsonModel {

  /** A JSON number with a fractional part or an exponent. No arithmetic is ever done on one,
      so it stays opaque: `literal` is its text, and `whole` is the integer that Python's
      `int()` truncates it to (towards zero). */
  datatype Num = Num(literal: string, whole: int)

  datatype Json =
    | JNull
    | JBool(b: bool)
    | JInt(n: int)
    | JNum(num: Num)
    | JStr(s: string)
    | JList(items: seq<Json>)
    | JObj(fields: map<string, Json>)

  /** Python's `d.get(k)` on a dict: the value under `k`, or null when `k` is absent. */
  function Get(d: map<string, Json>, k: string): Json
  {
    if k in d then d[k] else JNull
  }
}
