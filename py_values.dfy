/** The Python values the replay formatter and formatable fields handle, with Python's
    truthiness. `repr()` of a value is not modelled: the operations that print values
    take it as a function parameter. */
module PyValues {

  datatype Value =
    | VNone
    | VBool(b: bool)
    | VInt(i: int)
    | VStr(s: string)
    | VTuple(items: seq<Value>)
    | VList(elems: seq<Value>)
    | VDict(entries: seq<(string, Value)>)
    | VObject(id: nat)

  /** `bool(v)`: None, False, zero and empty strings, tuples, lists and dicts are false;
      every other value (in particular every object) is true. */
  predicate Truthy(v: Value) {
    match v
    case VNone => false
    case VBool(b) => b
    case VInt(i) => i != 0
    case VStr(s) => s != ""
    case VTuple(items) => items != []
    case VList(elems) => elems != []
    case VDict(entries) => entries != []
    case VObject(_) => true
  }

  /** `a or b`. */
  function Or(a: Value, b: Value): (r: Value)
    ensures Truthy(a) ==> r == a
    ensures !Truthy(a) ==> r == b
  {
    if Truthy(a) then a else b
  }

  /** `str(v)`: a string is itself, anything else prints as its repr. */
  function Str(v: Value, repr: Value -> string): string {
    if v.VStr? then v.s else repr(v)
  }

  /** Dictionary equality of two item lists with distinct keys: the same items, in any order. */
  predicate SameItems(a: seq<(string, Value)>, b: seq<(string, Value)>) {
    (forall p :: p in a ==> p in b) && (forall p :: p in b ==> p in a)
  }

  /** `sep.join(parts)`. */
  function Join(sep: string, parts: seq<string>): (r: string)
    ensures parts == [] ==> r == ""
    ensures |parts| == 1 ==> r == parts[0]
  {
    if parts == [] then ""
    else if |parts| == 1 then parts[0]
    else Join(sep, parts[..|parts| - 1]) + sep + parts[|parts| - 1]
  }
}
