/** JSON-like values as the program holds them: dictionaries remember insertion order. */
module Values {
  datatype Dict = Dict(keys: seq<string>, vals: map<string, Value>)

  datatype Value =
    | VNull
    | VBool(b: bool)
    | VInt(i: int)
    | VFloat(r: real)
    | VStr(s: string)
    | VList(items: seq<Value>)
    | VDict(d: Dict)

  const EmptyDict := Dict([], map[])

  predicate Has(d: Dict, k: string) { k in d.vals }

  /** `d.get(k)`: null when absent. */
  function Get(d: Dict, k: string): Value {
    if k in d.vals then d.vals[k] else VNull
  }

  /** `d[k] = v`: an existing key keeps its place, a new one goes last. */
  function Put(d: Dict, k: string, v: Value): (r: Dict)
    ensures Get(r, k) == v
    ensures forall other :: other != k ==> Get(r, other) == Get(d, other) && Has(r, other) == Has(d, other)
  {
    Dict(if k in d.vals then d.keys else d.keys + [k], d.vals[k := v])
  }

  /** The value with key order forgotten: what `==` and canonical JSON see. */
  function Content(v: Value): Value {
    match v
    case VDict(d) => VDict(Dict([], map k | k in d.vals :: Content(d.vals[k])))
    case VList(items) => VList(seq(|items|, i requires 0 <= i < |items| => Content(items[i])))
    case _ => v
  }
}
