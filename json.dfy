/** The values `json.loads` produces, with the two Python built-ins the
    pipeline applies to them: truth testing and `type(x).__name__`. */
module JsonData {

  /** A decoded JSON document. An object keeps its members in document
      order, as a Python dict does; `Float` carries a real number only so
      that truth testing can tell 0.0 from the rest. */
  datatype Json =
    | Null
    | Bool(b: bool)
    | Int(i: int)
    | Float(r: real)
    | Str(s: string)
    | Arr(items: seq<Json>)
    | Obj(members: seq<(string, Json)>)

  /** Python truth testing (`if x:`): None, False, zero and empty
      containers are false. */
  predicate Truthy(j: Json) {
    match j
    case Null => false
    case Bool(b) => b
    case Int(i) => i != 0
    case Float(r) => r != 0.0
    case Str(s) => |s| > 0
    case Arr(xs) => |xs| > 0
    case Obj(ms) => |ms| > 0
  }

  /** `type(x).__name__` for each kind of decoded value. */
  function TypeName(j: Json): (r: string)
    ensures r in ["NoneType", "bool", "int", "float", "str", "list", "dict"]
  {
    match j
    case Null => "NoneType"
    case Bool(_) => "bool"
    case Int(_) => "int"
    case Float(_) => "float"
    case Str(_) => "str"
    case Arr(_) => "list"
    case Obj(_) => "dict"
  }

  /** The member names of an object, in document order. */
  function Keys(ms: seq<(string, Json)>): (r: seq<string>)
    ensures |r| == |ms|
    ensures forall i :: 0 <= i < |ms| ==> r[i] == ms[i].0
  {
    seq(|ms|, i requires 0 <= i < |ms| => ms[i].0)
  }

  /** A decoded object never repeats a member name. */
  predicate DistinctKeys(ms: seq<(string, Json)>) {
    forall i, j :: 0 <= i < j < |ms| ==> ms[i].0 != ms[j].0
  }
}
