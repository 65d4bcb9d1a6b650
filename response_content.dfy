/** oasbuilder/writer/response_content.py: the response fragment under
    paths/, which describes the status and refers to the body schema. */
module ResponseContent {
  import opened Wrappers
  import opened Strings
  import opened JsonData
  import opened Models
  import opened Paths
  import opened Identifiers
  import opened DocTree

  /** The key of the references the fragments make into
      components/schemas/. It is `TEMPLATE_OAS_REF` of
      oasbuilder/constants, a module this model does not have; the value
      is the one the method writer's test expects, which the driver turns
      into "$ref" after bundling. */
  const TemplateRef: string := "$$ref"

  /** `{"application/json": {"schema": {TEMPLATE_OAS_REF: ...}}}`. */
  function JsonContent(schemaId: string): Value {
    VMap(map["application/json" :=
      VMap(map["schema" := VMap(map[TemplateRef := VStr("#/components/schemas/" + schemaId)])])])
  }

  /** The guard shared by the driver and this writer: a non-empty dict or
      list. */
  predicate HasBody(content: Json) {
    Truthy(content) && (content.Obj? || content.Arr?)
  }

  /** `OASResponseContentWriter.dest`. */
  function ResponseDest(path: string, m: HTTPMethod, status: int): Path {
    EndpointDir(path) + [MethodValue(m), "responses", IntToString(status), "_index.yml"]
  }

  /** `OASResponseContentWriter._build`: the description of the status,
      and a reference to the Response schema exactly when there is a body
      to describe. */
  function ResponseFragment(m: HTTPMethod, path: string, status: int, content: Json): (r: Result<Value>)
    ensures r.Err? <==> HasBody(content) && OperationId(m, path).Err?
    ensures r.Err? ==> r.error == AttributeError
    ensures r.Ok? ==> r.value.VMap? && "description" in r.value.entries
                      && r.value.entries.Keys <= {"description", "content"}
                      && r.value.entries["description"] == VStr(ResponseDescription(status))
                      && ("content" in r.value.entries <==> HasBody(content))
    ensures r.Ok? && HasBody(content) ==>
              SchemaId(m, path, ResponseBody).Ok?
              && r.value.entries["content"] == JsonContent(SchemaId(m, path, ResponseBody).value)
  {
    var oas := map["description" := VStr(ResponseDescription(status))];
    if HasBody(content) then
      match SchemaId(m, path, ResponseBody)
      case Err(e) => Err(e)
      case Ok(id) => Ok(VMap(oas["content" := JsonContent(id)]))
    else Ok(VMap(oas))
  }

  /** The second case of the writer's test: a 404 with no body. */
  lemma NotFoundExample(m: HTTPMethod, path: string)
    ensures ResponseFragment(m, path, 404, Null) == Ok(VMap(map["description" := VStr("Error response")]))
  {
  }

  /** `OASResponseContentWriter.write`. */
  method WriteResponseContent(tree: Tree, path: string, m: HTTPMethod, status: int, content: Json) returns (r: Result<()>)
    requires tree.Valid()
    modifies tree
    ensures tree.Valid()
    ensures Outcome(r, tree.files, tree.dirs)
            == EnsuredWritten(old(tree.files), old(tree.dirs), ResponseDest(path, m, status), ResponseFragment(m, path, status, content))
  {
    var dest := ResponseDest(path, m, status);
    EnsuredFrame(tree.files, tree.dirs, dest, ResponseFragment(m, path, status, content));
    r := tree.MakeDirs(Parent(dest));
    if r.Err? {
      return;
    }
    var built := ResponseFragment(m, path, status, content);
    if built.Err? {
      return Err(built.error);
    }
    r := tree.WriteText(dest, built.value);
  }
}
