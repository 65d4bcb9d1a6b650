/** oasbuilder/writer/response_schema.py: the schema of a response body,
    under components/schemas/. */
module ResponseSchema {
  import opened Wrappers
  import opened Strings
  import opened JsonData
  import opened Models
  import opened Paths
  import opened DocTree
  import opened RequestSchema

  /** `OASResponseSchemaWriter.dest`: one fragment per status code. */
  function ResponseSchemaDest(path: string, m: HTTPMethod, status: int): Path {
    EndpointSchemaDir(path) + [MethodValue(m), "responses", IntToString(status), "_index.yml"]
  }

  /** `OASResponseSchemaWriter.write`. Its `_build` is the request-body
      writer's: the parsed schema with the sorted names as "required", and
      AttributeError for anything but a dict, a non-empty list included. */
  method WriteResponseSchema(tree: Tree, path: string, m: HTTPMethod, status: int, content: Json) returns (r: Result<()>)
    requires tree.Valid()
    modifies tree
    ensures tree.Valid()
    ensures Outcome(r, tree.files, tree.dirs)
            == EnsuredWritten(old(tree.files), old(tree.dirs), ResponseSchemaDest(path, m, status), BodySchema(content))
  {
    var dest := ResponseSchemaDest(path, m, status);
    EnsuredFrame(tree.files, tree.dirs, dest, BodySchema(content));
    r := tree.MakeDirs(Parent(dest));
    if r.Err? {
      return;
    }
    var built := BodySchema(content);
    if built.Err? {
      return Err(built.error);
    }
    r := tree.WriteText(dest, built.value);
  }

  /** A list response gets past the guard of the driver but not past the
      build: the directories are made and no fragment is written. */
  lemma ListResponseFails(files: map<Path, Value>, dirs: set<Path>, path: string, m: HTTPMethod, status: int, items: seq<Json>)
    requires WellFormed(files, dirs)
    ensures var o := EnsuredWritten(files, dirs, ResponseSchemaDest(path, m, status), BodySchema(Arr(items)));
            o.result.Err? && o.files == files
            && (MkdirResult(files, Parent(ResponseSchemaDest(path, m, status))).Ok? ==> o.result == Err(AttributeError))
  {
    EnsuredFrame(files, dirs, ResponseSchemaDest(path, m, status), BodySchema(Arr(items)));
  }
}
