/** `OASParser`: the schema a decoded JSON sample implies. */
module Parser {
  import opened Wrappers
  import opened Strings
  import opened JsonData
  import opened Models

  /** `OASParser.gettype`: "float" becomes "number"; any other name picks
      the first of "string", "boolean", "integer" that contains it. */
  function GetType(name: string): (r: Option<string>)
    ensures r == Some("number") <==> name == "float"
    ensures r.Some? ==> r.value in ["number", "string", "boolean", "integer"]
    ensures r == Some("boolean") ==> !IsSubstring(name, "string")
    ensures r == Some("integer") ==> !IsSubstring(name, "string") && !IsSubstring(name, "boolean")
    ensures r.Some? && r.value != "number" ==> IsSubstring(name, r.value)
    ensures r.None? <==> name != "float" && !IsSubstring(name, "string")
                         && !IsSubstring(name, "boolean") && !IsSubstring(name, "integer")
  {
    if name == "float" then Some("number")
    else if IsSubstring(name, "string") then Some("string")
    else if IsSubstring(name, "boolean") then Some("boolean")
    else if IsSubstring(name, "integer") then Some("integer")
    else None
  }

  /** A needle one of whose characters never lines up in the haystack is
      not a substring of it. */
  lemma NotSubstringAt(needle: string, hay: string, k: int)
    requires 0 <= k < |needle|
    requires forall i :: k <= i <= |hay| - |needle| + k ==> hay[i] != needle[k]
    ensures !IsSubstring(needle, hay)
  {
    forall i | 0 <= i <= |hay| ensures !OccursAt(needle, hay, i) {
      if i <= |hay| - |needle| {
        assert hay[i..i + |needle|][k] == hay[i + k] != needle[k];
      }
    }
  }

  /** The JSON type each decoded scalar maps to: text is "string", booleans
      "boolean", integers "integer", floats "number"; null, lists and
      dicts have no scalar type. */
  lemma {:induction false} ScalarTypes(j: Json)
    ensures GetType(TypeName(j)) == match j
      case Str(_) => Some("string")
      case Bool(_) => Some("boolean")
      case Int(_) => Some("integer")
      case Float(_) => Some("number")
      case _ => None
  {
    match j
    case Null =>
    case Str(_) =>
      assert OccursAt("str", "string", 0);
    case Bool(_) =>
      NotSubstringAt("bool", "string", 0);
      assert OccursAt("bool", "boolean", 0);
    case Int(_) =>
      NotSubstringAt("int", "string", 2);
      NotSubstringAt("int", "boolean", 0);
      assert OccursAt("int", "integer", 0);
    case Float(_) =>
    case Arr(_) =>
      NotSubstringAt("list", "string", 0);
      NotSubstringAt("list", "boolean", 1);
      NotSubstringAt("list", "integer", 0);
    case Obj(_) =>
      NotSubstringAt("dict", "string", 0);
      NotSubstringAt("dict", "boolean", 0);
      NotSubstringAt("dict", "integer", 0);
  }

  function ObjectSchema(props: map<string, Value>): Value {
    VMap(map["type" := VStr("object"), "properties" := VMap(props)])
  }

  /** An array schema; an element that has no schema is written as null. */
  function ArraySchema(items: Option<Value>): Value {
    VMap(map["type" := VStr("array"), "items" := match items case Some(v) => v case None => VNull])
  }

  /** A scalar schema; a number also carries `format: float`. */
  function ScalarSchema(t: string): Value {
    if t == "number" then VMap(map["type" := VStr(t), "format" := VStr("float")])
    else VMap(map["type" := VStr(t)])
  }

  /** `OASParser.parse`. Only null and the empty list have no schema: every
      schema is a mapping with a "type" and never a "required" list. A
      non-empty list is an array whose items are the schema of its first
      element (null when that has none). Scalars: see `ParseScalar`. */
  function Parse(j: Json): (r: Option<Value>)
    ensures r.None? <==> j.Null? || (j.Arr? && |j.items| == 0)
    ensures r.Some? ==> r.value.VMap? && "type" in r.value.entries && "required" !in r.value.entries
    ensures j.Arr? && |j.items| > 0 ==>
              r.value.entries.Keys == {"type", "items"} && r.value.entries["type"] == VStr("array")
              && r.value.entries["items"] == (if Parse(j.items[0]).Some? then Parse(j.items[0]).value else VNull)
    decreases j, 1
  {
    match j
    case Obj(ms) =>
      var props := Properties(j, |ms|);
      ObjectSchemaShape(props);
      Some(ObjectSchema(props))
    case Arr(xs) =>
      if |xs| == 0 then None
      else
        var items := Parse(xs[0]);
        ArraySchemaShape(items);
        Some(ArraySchema(items))
    case _ =>
      ScalarTypes(j);
      match GetType(TypeName(j))
      case None => None
      case Some(t) =>
        ScalarSchemaShape(t);
        Some(ScalarSchema(t))
  }

  /** A scalar has the type `gettype` gives its Python type name, and
      `format: float` exactly when that name is "float". */
  lemma ParseScalar(j: Json)
    requires !j.Null? && !j.Arr? && !j.Obj?
    ensures Parse(j).Some? && GetType(TypeName(j)).Some?
    ensures Parse(j).value.entries["type"] == VStr(GetType(TypeName(j)).value)
    ensures Parse(j).value.entries.Keys == (if TypeName(j) == "float" then {"type", "format"} else {"type"})
    ensures TypeName(j) == "float" ==> Parse(j).value.entries["format"] == VStr("float")
  {
    ScalarTypes(j);
    ScalarSchemaShape(GetType(TypeName(j)).value);
  }

  lemma ObjectSchemaShape(props: map<string, Value>)
    ensures ObjectSchema(props).VMap? && ObjectSchema(props).entries.Keys == {"type", "properties"}
    ensures ObjectSchema(props).entries["type"] == VStr("object")
  {
  }

  lemma ArraySchemaShape(items: Option<Value>)
    ensures ArraySchema(items).VMap? && ArraySchema(items).entries.Keys == {"type", "items"}
    ensures ArraySchema(items).entries["type"] == VStr("array")
    ensures ArraySchema(items).entries["items"] == (if items.Some? then items.value else VNull)
  {
  }

  lemma ScalarSchemaShape(t: string)
    ensures ScalarSchema(t).VMap? && ScalarSchema(t).entries["type"] == VStr(t)
    ensures ScalarSchema(t).entries.Keys == (if t == "number" then {"type", "format"} else {"type"})
    ensures t == "number" ==> ScalarSchema(t).entries["format"] == VStr("float")
  {
  }

  /** The "properties" of an object after its first `n` members: each
      member with a schema is added, the others are skipped. */
  function Properties(obj: Json, n: nat): map<string, Value>
    requires obj.Obj? && n <= |obj.members|
    decreases obj, 0, n
  {
    if n == 0 then map[]
    else
      var acc := Properties(obj, n - 1);
      var k := obj.members[n - 1].0;
      match Parse(obj.members[n - 1].1)
      case None => acc
      case Some(c) => acc[k := c]
  }

  /** The values the parser gives a schema: all but null and the empty
      list (see the first ensures of `Parse`). */
  predicate HasSchema(v: Json) {
    !v.Null? && !(v.Arr? && |v.items| == 0)
  }

  /** Every property is named after a member of the object whose value has
      a schema, and every such member gives a property. */
  lemma {:induction false} PropertiesKeys(obj: Json, n: nat)
    requires obj.Obj? && n <= |obj.members|
    ensures forall k :: k in Properties(obj, n) ==>
              exists i :: 0 <= i < n && obj.members[i].0 == k && HasSchema(obj.members[i].1)
    ensures forall i :: 0 <= i < n && HasSchema(obj.members[i].1) ==> obj.members[i].0 in Properties(obj, n)
  {
    if n > 0 {
      PropertiesKeys(obj, n - 1);
      forall k | k in Properties(obj, n)
        ensures exists i :: 0 <= i < n && obj.members[i].0 == k && HasSchema(obj.members[i].1)
      {
        PropertiesKeyStep(obj, n, k);
        if k in Properties(obj, n - 1) {
          var i :| 0 <= i < n - 1 && obj.members[i].0 == k && HasSchema(obj.members[i].1);
          assert 0 <= i < n;
        } else {
          assert 0 <= n - 1 < n && obj.members[n - 1].0 == k && HasSchema(obj.members[n - 1].1);
        }
      }
      forall i | 0 <= i < n && HasSchema(obj.members[i].1)
        ensures obj.members[i].0 in Properties(obj, n)
      {
        PropertiesKeyStep(obj, n, obj.members[i].0);
      }
    }
  }

  /** One more member adds its own name, when its value has a schema, and
      no other. */
  lemma PropertiesKeyStep(obj: Json, n: nat, key: string)
    requires obj.Obj? && 0 < n <= |obj.members|
    ensures key in Properties(obj, n) <==>
              key in Properties(obj, n - 1) || (key == obj.members[n - 1].0 && HasSchema(obj.members[n - 1].1))
  {
  }

  /** With distinct member names (as `json.loads` gives), each member whose
      value has a schema appears under its own name with that schema. */
  lemma {:induction false} PropertiesValues(obj: Json, n: nat)
    requires obj.Obj? && n <= |obj.members| && DistinctKeys(obj.members)
    ensures forall i :: 0 <= i < n && HasSchema(obj.members[i].1) ==>
              obj.members[i].0 in Properties(obj, n)
              && Properties(obj, n)[obj.members[i].0] == Parse(obj.members[i].1).value
  {
    if n > 0 {
      PropertiesValues(obj, n - 1);
      var p := Properties(obj, n);
      forall i | 0 <= i < n && HasSchema(obj.members[i].1)
        ensures obj.members[i].0 in p && p[obj.members[i].0] == Parse(obj.members[i].1).value
      {
        if i < n - 1 {
          PropertiesStep(obj, n, obj.members[i].0);
        } else {
          PropertiesLast(obj, n);
        }
      }
    }
  }

  /** One more member changes the properties under its own name only. */
  lemma PropertiesStep(obj: Json, n: nat, key: string)
    requires obj.Obj? && 0 < n <= |obj.members| && key != obj.members[n - 1].0
    ensures key in Properties(obj, n) <==> key in Properties(obj, n - 1)
    ensures key in Properties(obj, n) ==> Properties(obj, n)[key] == Properties(obj, n - 1)[key]
  {
  }

  /** The last member, when it has a schema, is stored under its name. */
  lemma PropertiesLast(obj: Json, n: nat)
    requires obj.Obj? && 0 < n <= |obj.members| && HasSchema(obj.members[n - 1].1)
    ensures obj.members[n - 1].0 in Properties(obj, n)
    ensures Properties(obj, n)[obj.members[n - 1].0] == Parse(obj.members[n - 1].1).value
  {
  }

  /** The schema of an object: its properties are exactly the members
      whose values have a schema, each with that schema; members with
      null or empty-list values are dropped. */
  lemma ParseObject(ms: seq<(string, Json)>)
    requires DistinctKeys(ms)
    ensures Parse(Obj(ms)).Some?
    ensures var s := Parse(Obj(ms)).value;
            s.entries.Keys == {"type", "properties"} && s.entries["type"] == VStr("object")
            && s.entries["properties"].VMap?
    ensures var p := Parse(Obj(ms)).value.entries["properties"].entries;
            (forall k :: k in p <==> exists i :: 0 <= i < |ms| && ms[i].0 == k && HasSchema(ms[i].1))
            && (forall i :: 0 <= i < |ms| && HasSchema(ms[i].1) ==> p[ms[i].0] == Parse(ms[i].1).value)
  {
    PropertiesKeys(Obj(ms), |ms|);
    PropertiesValues(Obj(ms), |ms|);
  }

  /** Only the first element of a list is sampled. */
  lemma FirstElementOnly(x: Json, rest: seq<Json>)
    ensures Parse(Arr([x] + rest)) == Parse(Arr([x]))
  {
  }

  /** The case of the parser's test: a nested object whose null and
      empty-list members are dropped. */
  lemma NestedObjectExample()
    ensures Parse(Obj([("user", Obj([("id", Int(1)), ("name", Null), ("posts", Arr([]))]))]))
            == Some(ObjectSchema(map["user" := ObjectSchema(map["id" := VMap(map["type" := VStr("integer")])])]))
  {
    var inner := Obj([("id", Int(1)), ("name", Null), ("posts", Arr([]))]);
    ScalarTypes(Int(1));
    assert Properties(inner, 1) == map["id" := VMap(map["type" := VStr("integer")])];
    assert Properties(inner, 3) == Properties(inner, 1);
  }
}
