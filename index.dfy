/** oasbuilder/writer/index.py: the root document index.yml, which names
    the OpenAPI version, describes the API and refers to the path index. */
module IndexWriter {
  import opened Wrappers
  import opened Strings
  import opened Models
  import opened DocTree
  import opened EndpointPattern

  /** `OASIndexWriter.dest`: index.yml at the destination root. */
  const IndexDest: Path := ["index.yml"]

  /** The `paths` entry: a reference to `endpoint_root_dir() / "_index.yml"`. */
  const PathsRef: string := "paths/_index.yml"

  /** The `OASIndexInfo` record the constructor assembles. */
  function IndexRecord(openapi: string, version: string, title: string, description: string,
                       serverUrls: seq<string>, components: map<string, Value>): IndexInfo
  {
    IndexInfo(openapi, SpecInfo(version, title, description),
              seq(|serverUrls|, i requires 0 <= i < |serverUrls| => Server(serverUrls[i])),
              map["$ref" := VStr(PathsRef)], components)
  }

  /** `_build`: `asdict` of the record. */
  function IndexDocument(openapi: string, version: string, title: string, description: string,
                         serverUrls: seq<string>, components: map<string, Value>): (v: Value)
    ensures v.VMap? && v.entries.Keys == {"openapi", "info", "servers", "paths", "components"}
    ensures v.entries["openapi"] == VStr(openapi) && v.entries["components"] == VMap(components)
    ensures v.entries["info"] == VMap(map["version" := VStr(version), "title" := VStr(title), "description" := VStr(description)])
    ensures v.entries["servers"].VList? && |v.entries["servers"].items| == |serverUrls|
    ensures forall i :: 0 <= i < |serverUrls| ==> v.entries["servers"].items[i] == VMap(map["url" := VStr(serverUrls[i])])
    ensures v.entries["paths"] == Ref(PathsRef)
  {
    IndexInfoAsDict(IndexRecord(openapi, version, title, description, serverUrls, components))
  }

  /** The reference in `paths` names the file the path-index writer
      writes, relative to the root. */
  lemma PathsRefIsEndpointIndex()
    ensures PathsRef == Join(EndpointIndexDest, '/')
  {
    assert EndpointIndexDest == ["paths", "_index.yml"];
    assert Join(["paths", "_index.yml"], '/') == "paths" + ['/'] + Join(["_index.yml"], '/');
  }

  /** `OASIndexWriter.write`: no directory is made, but the root always
      exists, so only a directory named index.yml stops it. */
  method WriteIndex(tree: Tree, openapi: string, version: string, title: string, description: string,
                    serverUrls: seq<string>, components: map<string, Value>) returns (r: Result<()>)
    requires tree.Valid()
    modifies tree
    ensures tree.Valid()
    ensures Outcome(r, tree.files, tree.dirs)
            == Written(old(tree.files), old(tree.dirs), IndexDest,
                       Ok(IndexDocument(openapi, version, title, description, serverUrls, components)))
    ensures r.Ok? <==> IndexDest !in old(tree.dirs)
  {
    WrittenFrame(tree.files, tree.dirs, IndexDest, Ok(IndexDocument(openapi, version, title, description, serverUrls, components)));
    assert Parent(IndexDest) == [];
    r := tree.WriteText(IndexDest, IndexDocument(openapi, version, title, description, serverUrls, components));
  }
}
