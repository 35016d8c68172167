/** Dynamically typed values as they occur in the engine's Python dictionaries:
    equipment parameters, event parameters and notification payloads. */
module Values {

  /** A Python value stored in a dictionary. Only the scalar shapes the engine
      produces or forwards are distinguished; `Null` is Python's `None`. */
  datatype Value = Null | Bool(b: bool) | Int(i: int) | Float(x: real) | Str(s: string)

  /** A free-form dictionary with string keys. */
  type Params = map<string, Value>

  /** Python's `d.get(key)`: the stored value, or `None` when the key is absent. */
  function Get(p: Params, key: string): Value {
    if key in p then p[key] else Null
  }
}
