/** oasbuilder/writer/request_schema.py: the schemas of a request's query
    and of its body, under components/schemas/. */
module RequestSchema {
  import opened Wrappers
  import opened Strings
  import opened JsonData
  import opened Models
  import opened Parser
  import opened Paths
  import opened DocTree

  /** `OASRequestParamsSchemaWriter.dest`. */
  function ParamsDest(path: string, m: HTTPMethod): Path {
    EndpointSchemaDir(path) + [MethodValue(m), "request_params.yml"]
  }

  /** `OASRequestBodySchemaWriter.dest`. */
  function BodyDest(path: string, m: HTTPMethod): Path {
    EndpointSchemaDir(path) + [MethodValue(m), "request_body.yml"]
  }

  /** `OASRequestParamsSchemaWriter._build`: the schema the query implies,
      written as null when there is none. */
  function ParamsSchema(query: Json): (v: Value)
    ensures Parse(query).Some? ==> v == Parse(query).value && "required" !in v.entries
    ensures Parse(query).None? <==> v == VNull
  {
    match Parse(query)
    case Some(s) => s
    case None => VNull
  }

  /** The names of a decoded object as `sorted(list(d.keys()))` lists them. */
  function RequiredNames(ms: seq<(string, Json)>): (r: seq<string>)
    ensures Sorted(r) && multiset(r) == multiset(Keys(ms))
    ensures forall k :: k in r <==> exists i :: 0 <= i < |ms| && ms[i].0 == k
    ensures DistinctKeys(ms) ==> Distinct(r)
  {
    var r := SortStrings(Keys(ms));
    forall k ensures k in r <==> k in Keys(ms) {
      assert k in r <==> k in multiset(r);
    }
    assert DistinctKeys(ms) ==> Distinct(r) by {
      if DistinctKeys(ms) {
        SortedDistinct(Keys(ms));
      }
    }
    r
  }

  function StrList(xs: seq<string>): (v: Value)
    ensures v.VList? && |v.items| == |xs|
    ensures forall i :: 0 <= i < |xs| ==> v.items[i] == VStr(xs[i])
  {
    VList(seq(|xs|, i requires 0 <= i < |xs| => VStr(xs[i])))
  }

  /** The `_build` shared by the request-body and response-body writers:
      the parsed schema with a "required" list of every top-level name,
      sorted. Only a dict has `.keys()`; anything else raises
      AttributeError. */
  function BodySchema(content: Json): (r: Result<Value>)
    ensures r.Ok? <==> content.Obj?
    ensures r.Err? ==> r.error == AttributeError
    ensures r.Ok? ==> r.value.VMap? && r.value.entries.Keys == {"type", "properties", "required"}
                      && r.value.entries["type"] == VStr("object")
                      && r.value.entries["properties"] == Parse(content).value.entries["properties"]
                      && r.value.entries["required"] == StrList(RequiredNames(content.members))
  {
    match content
    case Obj(ms) =>
      var s := Parse(content).value;
      Ok(VMap(s.entries["required" := StrList(RequiredNames(ms))]))
    case _ => Err(AttributeError)
  }

  /** "required" lists the raw names, so a member whose value has no
      schema is required without being among the properties. */
  lemma RequiredBeyondProperties()
    ensures var v := BodySchema(Obj([("deletedAt", Null)])).value;
            v.entries["properties"] == VMap(map[])
            && v.entries["required"] == VList([VStr("deletedAt")])
  {
    var ms := [("deletedAt", Null)];
    assert Properties(Obj(ms), 1) == map[];
    assert Keys(ms) == ["deletedAt"];
    assert SortStrings(["deletedAt"]) == ["deletedAt"];
  }

  /** The test case of the body writer: names sorted, each with its type. */
  lemma BodyExample(ms: seq<(string, Json)>)
    requires ms == [("title", Str("foo")), ("body", Str("bar")), ("userId", Int(1))]
    ensures BodySchema(Obj(ms))
            == Ok(VMap(map[
                 "type" := VStr("object"),
                 "properties" := VMap(map["title" := VMap(map["type" := VStr("string")]),
                                          "body" := VMap(map["type" := VStr("string")]),
                                          "userId" := VMap(map["type" := VStr("integer")])]),
                 "required" := VList([VStr("body"), VStr("title"), VStr("userId")])]))
  {
    var str := VMap(map["type" := VStr("string")]);
    var integer := VMap(map["type" := VStr("integer")]);
    var props := map["title" := str, "body" := str, "userId" := integer];
    ExampleProperties(ms);
    ExampleNames(ms);
    ExampleRequired();
    var v := BodySchema(Obj(ms)).value;
    assert v.entries["properties"] == VMap(props);
  }

  lemma ExampleRequired()
    ensures StrList(["body", "title", "userId"]) == VList([VStr("body"), VStr("title"), VStr("userId")])
  {
  }

  lemma ExampleProperties(ms: seq<(string, Json)>)
    requires ms == [("title", Str("foo")), ("body", Str("bar")), ("userId", Int(1))]
    ensures Parse(Obj(ms)) == Some(ObjectSchema(map["title" := VMap(map["type" := VStr("string")]),
                                                    "body" := VMap(map["type" := VStr("string")]),
                                                    "userId" := VMap(map["type" := VStr("integer")])]))
  {
    var obj := Obj(ms);
    ScalarTypes(Str("foo"));
    ScalarTypes(Str("bar"));
    ScalarTypes(Int(1));
    var str := VMap(map["type" := VStr("string")]);
    var integer := VMap(map["type" := VStr("integer")]);
    assert Properties(obj, 1) == map["title" := str];
    assert Properties(obj, 2) == map["title" := str, "body" := str];
    assert Properties(obj, 3) == map["title" := str, "body" := str, "userId" := integer];
    assert Parse(obj) == Some(ObjectSchema(Properties(obj, 3)));
  }

  lemma ExampleNames(ms: seq<(string, Json)>)
    requires ms == [("title", Str("foo")), ("body", Str("bar")), ("userId", Int(1))]
    ensures RequiredNames(ms) == ["body", "title", "userId"]
  {
    var want := ["body", "title", "userId"];
    assert Keys(ms) == ["title", "body", "userId"];
    ExampleSorted();
    assert multiset(want) == multiset(Keys(ms)) by {
      ExampleMultiset();
    }
    SortedUnique(RequiredNames(ms), want);
  }

  lemma ExampleSorted()
    ensures Sorted(["body", "title", "userId"])
  {
    assert Below("body", "title") && Below("title", "userId") && Below("body", "userId");
  }

  lemma ExampleMultiset()
    ensures multiset(["body", "title", "userId"]) == multiset(["title", "body", "userId"])
  {
    assert ["title", "body", "userId"] == ["title"] + ["body"] + ["userId"];
    assert ["body", "title", "userId"] == ["body"] + ["title"] + ["userId"];
  }

  /** Two sorted orderings of the same names are the same list. */
  lemma {:induction false} SortedUnique(a: seq<string>, b: seq<string>)
    requires Sorted(a) && Sorted(b) && multiset(a) == multiset(b)
    ensures a == b
    decreases |a|
  {
    if |a| > 0 {
      SortedHeads(a, b);
      SortedUnique(a[1..], b[1..]);
      assert a == [a[0]] + a[1..] && b == [b[0]] + b[1..];
    } else {
      assert |b| == |multiset(b)|;
    }
  }

  /** Two sorted lists with the same elements start alike, and what
      follows has the same elements again. */
  lemma SortedHeads(a: seq<string>, b: seq<string>)
    requires |a| > 0 && Sorted(a) && Sorted(b) && multiset(a) == multiset(b)
    ensures |b| > 0 && a[0] == b[0] && multiset(a[1..]) == multiset(b[1..])
  {
    assert |b| > 0 by {
      assert a[0] in multiset(b);
    }
    assert a[0] in multiset(b) && b[0] in multiset(a);
    var i :| 0 <= i < |b| && b[i] == a[0];
    var j :| 0 <= j < |a| && a[j] == b[0];
    assert Below(b[0], a[0]) by {
      if i == 0 { BelowTotal(b[0], a[0]); }
    }
    assert Below(a[0], b[0]) by {
      if j == 0 { BelowTotal(a[0], b[0]); }
    }
    BelowAntisymmetric(a[0], b[0]);
    assert multiset(a) == multiset([a[0]]) + multiset(a[1..]) by {
      assert a == [a[0]] + a[1..];
    }
    assert multiset(b) == multiset([b[0]]) + multiset(b[1..]) by {
      assert b == [b[0]] + b[1..];
    }
    assert multiset(a[1..]) == multiset(a) - multiset([a[0]]);
    assert multiset(b[1..]) == multiset(b) - multiset([b[0]]);
  }

  /** `OASRequestParamsSchemaWriter.write`, behind `ensure_dest_exists`. */
  method WriteParams(tree: Tree, path: string, m: HTTPMethod, query: Json) returns (r: Result<()>)
    requires tree.Valid()
    modifies tree
    ensures tree.Valid()
    ensures Outcome(r, tree.files, tree.dirs)
            == EnsuredWritten(old(tree.files), old(tree.dirs), ParamsDest(path, m), Ok(ParamsSchema(query)))
  {
    var dest := ParamsDest(path, m);
    EnsuredFrame(tree.files, tree.dirs, dest, Ok(ParamsSchema(query)));
    r := tree.MakeDirs(Parent(dest));
    if r.Err? {
      return;
    }
    r := tree.WriteText(dest, ParamsSchema(query));
  }

  /** `OASRequestBodySchemaWriter.write`: the directories are made before
      the build, which fails on anything but a dict. */
  method WriteBody(tree: Tree, path: string, m: HTTPMethod, content: Json) returns (r: Result<()>)
    requires tree.Valid()
    modifies tree
    ensures tree.Valid()
    ensures Outcome(r, tree.files, tree.dirs)
            == EnsuredWritten(old(tree.files), old(tree.dirs), BodyDest(path, m), BodySchema(content))
  {
    var dest := BodyDest(path, m);
    EnsuredFrame(tree.files, tree.dirs, dest, BodySchema(content));
    r := tree.MakeDirs(Parent(dest));
    if r.Err? {
      return;
    }
    var built := BodySchema(content);
    if built.Err? {
      return Err(built.error);
    }
    r := tree.WriteText(dest, built.value);
  }
}
