/** JSON trees: the values that task states, tool arguments and trace payloads are made of.
    An object is a finite map, so two objects are equal regardless of key order, as in Python.
    Python's `True` and `1` are equal and hash alike, so one value stands for both. */
module Json {

  datatype Option<+T> = None | Some(value: T)

  datatype Json =
    | Null
    | Num(n: int)
    | Str(s: string)
    | Arr(items: seq<Json>)
    | Obj(fields: Dict)

  type Dict = map<string, Json>

  function Truth(b: bool): Json {
    Num(if b then 1 else 0)
  }

  /** `d.get(key)`: a missing key reads as null. */
  function Get(d: Dict, key: string): Json {
    if key in d then d[key] else Null
  }
}
