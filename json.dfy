/**
 * Decoded JSON values: what a Python `dict` built by pydantic's `model_dump`
 * holds, what aiohttp sends as a query string or JSON body, and what
 * `resp.json()` hands back.
 */
module Json {

  /**
   * A Python `int` or `float` that the client passes through unchanged.
   * The model never computes with it, so a float is kept as its literal.
   */
  datatype Number = Int(i: int) | Float(literal: string)

  datatype Value =
    | Null                  // Python `None`
    | Bool(b: bool)
    | Num(n: Number)
    | Str(s: string)
    | Arr(items: seq<Value>)
    | Obj(fields: map<string, Value>)

  /** A Python `dict` with string keys. */
  type Dict = map<string, Value>
}
