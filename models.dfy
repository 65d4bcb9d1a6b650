/** The enums and records of oasbuilder/models, and the structured value a
    YAML fragment holds (mappings, sequences and scalars). */
module Models {
  import opened Wrappers

  /** A fragment of the document tree as `yaml.dump` would write it. A YAML
      mapping is unordered here because `yaml.dump` sorts mapping keys. */
  datatype Value =
    | VNull
    | VBool(b: bool)
    | VInt(i: int)
    | VStr(s: string)
    | VList(items: seq<Value>)
    | VMap(entries: map<string, Value>)

  /** The three kinds of schema fragment, each with its identifier suffix. */
  datatype SchemaType = RequestParams | RequestBody | ResponseBody

  function Label(t: SchemaType): (r: string)
  {
    match t
    case RequestParams => "RequestParams"
    case RequestBody => "RequestBody"
    case ResponseBody => "Response"
  }

  lemma LabelsDistinct(s: SchemaType, t: SchemaType)
    ensures Label(s) == Label(t) ==> s == t
  {
  }

  /** The HTTP methods the pipeline recognises. */
  datatype HTTPMethod = GET | POST | PUT | PATCH | DELETE

  /** `HTTPMethod.X.value`: the lower-case method name. */
  function MethodValue(m: HTTPMethod): (r: string)
    ensures r in MethodValues
    ensures |r| >= 3 && forall i :: 0 <= i < |r| ==> 'a' <= r[i] <= 'z'
  {
    match m
    case GET => "get"
    case POST => "post"
    case PUT => "put"
    case PATCH => "patch"
    case DELETE => "delete"
  }

  /** The values in declaration order, as the scanners' `get|post|...`
      alternation lists them. */
  const MethodValues: seq<string> := ["get", "post", "put", "patch", "delete"]

  /** `HTTPMethod(value)`: lookup by value, as the schema index does. */
  function MethodByValue(v: string): (r: Option<HTTPMethod>)
    ensures r.Some? <==> v in MethodValues
    ensures r.Some? ==> MethodValue(r.value) == v
  {
    if v == "get" then Some(GET)
    else if v == "post" then Some(POST)
    else if v == "put" then Some(PUT)
    else if v == "patch" then Some(PATCH)
    else if v == "delete" then Some(DELETE)
    else None
  }

  /** `HTTPMethod[name]`: lookup by member name, as main.py does with the
      recorded request method; any other name raises KeyError. */
  function MethodByName(name: string): (r: Result<HTTPMethod>)
    ensures r.Ok? <==> name in ["GET", "POST", "PUT", "PATCH", "DELETE"]
  {
    if name == "GET" then Ok(GET)
    else if name == "POST" then Ok(POST)
    else if name == "PUT" then Ok(PUT)
    else if name == "PATCH" then Ok(PATCH)
    else if name == "DELETE" then Ok(DELETE)
    else Err(KeyError)
  }

  /** The value of a method identifies the method, so the scanners recover
      exactly the method whose directory they read. */
  lemma MethodValueRoundTrip(m: HTTPMethod)
    ensures MethodByValue(MethodValue(m)) == Some(m)
  {
  }

  datatype ParameterSchema = ParameterSchema(typ: Option<string>)

  /** `OASParameter`; the field `_in` is named `location` here. */
  datatype Parameter = Parameter(location: string, name: string, required: bool, schema: ParameterSchema)

  /** `OASParameter.build_oas_json`: `asdict` with the first field renamed
      from "_in" to "in"; the nested schema keeps its single field "type"
      (a missing type is dumped as null). */
  function BuildOasJson(p: Parameter): (v: Value)
    ensures v.VMap? && v.entries.Keys == {"in", "name", "required", "schema"}
    ensures v.entries["in"] == VStr(p.location) && v.entries["name"] == VStr(p.name)
    ensures v.entries["required"] == VBool(p.required)
    ensures v.entries["schema"].VMap? && v.entries["schema"].entries.Keys == {"type"}
    ensures p.schema.typ.Some? ==> v.entries["schema"].entries["type"] == VStr(p.schema.typ.value)
    ensures p.schema.typ.None? ==> v.entries["schema"].entries["type"] == VNull
  {
    var t := match p.schema.typ case Some(s) => VStr(s) case None => VNull;
    VMap(map["in" := VStr(p.location), "name" := VStr(p.name), "required" := VBool(p.required),
             "schema" := VMap(map["type" := t])])
  }

  datatype Server = Server(url: string)

  datatype SpecInfo = SpecInfo(version: string, title: string, description: string)

  /** `OASIndexInfo`, the root record of the document. */
  datatype IndexInfo = IndexInfo(
    openapi: string,
    info: SpecInfo,
    servers: seq<Server>,
    paths: map<string, Value>,
    components: map<string, Value>)

  /** `dataclasses.asdict` of the root record. */
  function IndexInfoAsDict(x: IndexInfo): (v: Value)
    ensures v.VMap? && v.entries.Keys == {"openapi", "info", "servers", "paths", "components"}
    ensures v.entries["openapi"] == VStr(x.openapi)
    ensures v.entries["info"] == VMap(map["version" := VStr(x.info.version), "title" := VStr(x.info.title),
                                          "description" := VStr(x.info.description)])
    ensures v.entries["servers"].VList? && |v.entries["servers"].items| == |x.servers|
    ensures forall i :: 0 <= i < |x.servers| ==>
              v.entries["servers"].items[i] == VMap(map["url" := VStr(x.servers[i].url)])
    ensures v.entries["paths"] == VMap(x.paths) && v.entries["components"] == VMap(x.components)
  {
    VMap(map[
      "openapi" := VStr(x.openapi),
      "info" := VMap(map["version" := VStr(x.info.version), "title" := VStr(x.info.title),
                         "description" := VStr(x.info.description)]),
      "servers" := VList(seq(|x.servers|, i requires 0 <= i < |x.servers| => VMap(map["url" := VStr(x.servers[i].url)]))),
      "paths" := VMap(x.paths),
      "components" := VMap(x.components)])
  }
}
