/** oasbuilder/writer/method.py: the operation fragment of one method of
    an endpoint, with its parameters. */
module EndpointMethod {
  import opened Wrappers
  import opened Strings
  import opened JsonData
  import opened Models
  import opened Parser
  import opened Paths
  import opened Identifiers
  import opened DocTree
  import opened ResponseContent

  /** `OASEndpointMethodWriter.dest`. */
  function MethodDest(path: string, m: HTTPMethod): Path {
    EndpointDir(path) + [MethodValue(m), "_index.yml"]
  }

  /** One `OASParameter` per path parameter, typed from its `int` value. */
  function PathParameters(pp: seq<(string, int)>): (ps: seq<Parameter>)
    ensures |ps| == |pp|
    ensures forall i :: 0 <= i < |pp| ==> ps[i] == Parameter("path", pp[i].0, true, ParameterSchema(Some("integer")))
  {
    ScalarTypes(Int(0));
    seq(|pp|, i requires 0 <= i < |pp| => Parameter("path", pp[i].0, true, ParameterSchema(GetType(TypeName(Int(pp[i].1))))))
  }

  /** One `OASParameter` per query member, in query order, typed by
      `gettype` of the name of its value's type. */
  function QueryParameters(ms: seq<(string, Json)>): (ps: seq<Parameter>)
    ensures |ps| == |ms|
    ensures forall i :: 0 <= i < |ms| ==> ps[i] == Parameter("query", ms[i].0, false, ParameterSchema(GetType(TypeName(ms[i].1))))
  {
    seq(|ms|, i requires 0 <= i < |ms| => Parameter("query", ms[i].0, false, ParameterSchema(GetType(TypeName(ms[i].1)))))
  }

  function Dumped(ps: seq<Parameter>): (v: Value)
    ensures v.VList? && |v.items| == |ps|
    ensures forall i :: 0 <= i < |ps| ==> v.items[i] == BuildOasJson(ps[i])
  {
    VList(seq(|ps|, i requires 0 <= i < |ps| => BuildOasJson(ps[i])))
  }

  /** The error `_build` raises first: the operation id (no version
      prefix), then `build_path_params` (placeholder text where `int`
      expects digits), then `.items()` of a query that is not a dict. */
  function MethodError(m: HTTPMethod, path: string, query: Json): Option<Error> {
    if OperationId(m, path).Err? then Some(AttributeError)
    else if PathParams(path).Err? then Some(ValueError)
    else if Truthy(query) && !query.Obj? then Some(AttributeError)
    else None
  }

  /** `OASEndpointMethodWriter._build`. */
  function MethodFragment(m: HTTPMethod, path: string, query: Json, content: Json): (r: Result<Value>)
    ensures r.Err? <==> MethodError(m, path, query).Some?
    ensures r.Err? ==> r.error == MethodError(m, path, query).value
  {
    match OperationId(m, path)
    case Err(e) => Err(e)
    case Ok(opid) =>
      var body := if Truthy(content) then Some(SchemaId(m, path, RequestBody).value) else None;
      match PathParams(path)
      case Err(e) => Err(e)
      case Ok(pp) =>
        if Truthy(query) && !query.Obj? then Err(AttributeError)
        else Ok(Assemble(opid, body, PathParameters(pp) + QueryParameters(if Truthy(query) then query.members else [])))
  }

  /** A fragment that builds has the fixed keys, the operation id of the
      path, a request body exactly when there is request content, and
      the path parameters (typed integer) followed by the query members
      exactly when there are any. */
  lemma MethodFragmentShape(m: HTTPMethod, path: string, query: Json, content: Json)
    requires MethodFragment(m, path, query, content).Ok?
    ensures OperationId(m, path).Ok? && PathParams(path).Ok? && (Truthy(query) ==> query.Obj?)
    ensures var e := MethodFragment(m, path, query, content).value.entries;
            MethodFragment(m, path, query, content).value.VMap?
            && {"summary", "operationId", "responses"} <= e.Keys
            && e.Keys <= {"summary", "operationId", "responses", "requestBody", "parameters"}
            && e["summary"] == VStr("") && e["operationId"] == VStr(OperationId(m, path).value)
            && e["responses"] == Ref("responses/_index.yml")
    ensures var e := MethodFragment(m, path, query, content).value.entries;
            ("requestBody" in e <==> Truthy(content))
            && (Truthy(content) ==>
                  SchemaId(m, path, RequestBody).Ok?
                  && e["requestBody"] == VMap(map["content" := JsonContent(SchemaId(m, path, RequestBody).value)]))
    ensures var e := MethodFragment(m, path, query, content).value.entries;
            var pp := PathParams(path).value;
            var qs := if Truthy(query) then query.members else [];
            ("parameters" in e <==> |pp| + |qs| > 0)
            && ("parameters" in e ==> e["parameters"] == Dumped(PathParameters(pp) + QueryParameters(qs)))
  {
    var opid := OperationId(m, path).value;
    var body := if Truthy(content) then Some(SchemaId(m, path, RequestBody).value) else None;
    var pp := PathParams(path).value;
    var qs := if Truthy(query) then query.members else [];
    assert MethodFragment(m, path, query, content) == Ok(Assemble(opid, body, PathParameters(pp) + QueryParameters(qs)));
  }

  /** The dict `_build` fills: the three fixed keys, the request body when
      there is a schema to refer to, and the parameters when there are
      any. */
  function Assemble(opid: string, body: Option<string>, params: seq<Parameter>): (v: Value)
    ensures v.VMap? && {"summary", "operationId", "responses"} <= v.entries.Keys
    ensures v.entries.Keys <= {"summary", "operationId", "responses", "requestBody", "parameters"}
    ensures v.entries["summary"] == VStr("") && v.entries["operationId"] == VStr(opid)
    ensures v.entries["responses"] == Ref("responses/_index.yml")
    ensures "requestBody" in v.entries <==> body.Some?
    ensures body.Some? ==> v.entries["requestBody"] == VMap(map["content" := JsonContent(body.value)])
    ensures "parameters" in v.entries <==> |params| > 0
    ensures |params| > 0 ==> v.entries["parameters"] == Dumped(params)
  {
    var oas := map["summary" := VStr(""), "operationId" := VStr(opid), "responses" := Ref("responses/_index.yml")];
    var oas := if body.Some? then oas["requestBody" := VMap(map["content" := JsonContent(body.value)])] else oas;
    if |params| > 0 then VMap(oas["parameters" := Dumped(params)]) else VMap(oas)
  }

  /** The driver hands this writer the template, and a template with a
      placeholder fails: `int` of the placeholder text raises ValueError. */
  lemma TemplateFails(m: HTTPMethod, path: string, query: Json, content: Json)
    requires PathWithoutVersion(path).Some? && IsParameterized(path)
    ensures MethodFragment(m, path, query, content) == Err(ValueError)
  {
    PathParamsOk(path);
  }

  /** `OASEndpointMethodWriter.write`. */
  method WriteMethod(tree: Tree, path: string, m: HTTPMethod, query: Json, content: Json) returns (r: Result<()>)
    requires tree.Valid()
    modifies tree
    ensures tree.Valid()
    ensures Outcome(r, tree.files, tree.dirs)
            == EnsuredWritten(old(tree.files), old(tree.dirs), MethodDest(path, m), MethodFragment(m, path, query, content))
  {
    var dest := MethodDest(path, m);
    EnsuredFrame(tree.files, tree.dirs, dest, MethodFragment(m, path, query, content));
    r := tree.MakeDirs(Parent(dest));
    if r.Err? {
      return;
    }
    var built := MethodFragment(m, path, query, content);
    if built.Err? {
      return Err(built.error);
    }
    r := tree.WriteText(dest, built.value);
  }
}
