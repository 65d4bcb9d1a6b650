/** oasbuilder/writer/response_pattern.py: the index of the responses of
    one method of one endpoint, with a reference for every status
    directory found below it. */
module ResponsePattern {
  import opened Wrappers
  import opened Strings
  import opened Models
  import opened Paths
  import opened DocTree
  import opened ResponseContent

  /** `OASResponsePatternWriter.dest.parent`: the directory the index sits
      in and the one it scans. */
  function ResponsesDir(path: string, m: HTTPMethod): Path {
    EndpointDir(path) + [MethodValue(m), "responses"]
  }

  /** `OASResponsePatternWriter.dest`. */
  function PatternDest(path: string, m: HTTPMethod): Path {
    ResponsesDir(path, m) + ["_index.yml"]
  }

  /** `rex_status_code` on an entry the glob yields: the scanned directory,
      one segment of digits, then `_index.yml` (the glob only yields names
      ending in ".yml", so `ya?ml` admits no other spelling). */
  predicate IsStatusEntry(dir: Path, p: Path) {
    |p| == |dir| + 2 && p[..|dir|] == dir && IsDigits(p[|dir|]) && p[|dir| + 1] == "_index.yml"
  }

  /** The `status_code` groups of the entries that match. */
  function StatusCodesIn(ps: set<Path>, dir: Path): set<string> {
    set p | p in ps && IsStatusEntry(dir, p) :: p[|dir|]
  }

  /** One `{"$ref": "<code>/_index.yml"}` per status code. */
  function StatusIndex(codes: set<string>): map<string, Value> {
    map c | c in codes :: Ref(c + "/_index.yml")
  }

  /** `_build` on the entries of the tree: the status codes whose
      `_index.yml` is below `dir`. */
  function ResponseIndex(entries: set<Path>, dir: Path): (r: Value)
    ensures r.VMap? && forall c :: c in r.entries ==> IsDigits(c) && r.entries[c] == Ref(c + "/_index.yml")
  {
    VMap(StatusIndex(StatusCodesIn(GlobYml(entries, dir), dir)))
  }

  /** A code is listed exactly when it is all digits and its `_index.yml`
      is present (as a file, or as a directory the glob also yields), and
      it refers to that file relative to the index. */
  lemma ResponseIndexEntries(entries: set<Path>, dir: Path, c: string)
    ensures ResponseIndex(entries, dir).VMap?
    ensures c in ResponseIndex(entries, dir).entries <==> IsDigits(c) && dir + [c, "_index.yml"] in entries
    ensures c in ResponseIndex(entries, dir).entries ==> ResponseIndex(entries, dir).entries[c] == Ref(c + "/_index.yml")
  {
    var codes := StatusCodesIn(GlobYml(entries, dir), dir);
    assert ResponseIndex(entries, dir).entries == StatusIndex(codes);
    if IsDigits(c) && dir + [c, "_index.yml"] in entries {
      StatusCodeFound(entries, dir, c);
    }
    if c in codes {
      StatusCodeSource(entries, dir, c);
    }
  }

  /** The `_index.yml` of a digits directory is yielded and matches. */
  lemma StatusCodeFound(entries: set<Path>, dir: Path, c: string)
    requires IsDigits(c) && dir + [c, "_index.yml"] in entries
    ensures c in StatusCodesIn(GlobYml(entries, dir), dir)
  {
    var p := dir + [c, "_index.yml"];
    assert p[..|dir|] == dir && p[|dir|] == c && p[|p| - 1] == "_index.yml";
    assert EndsWith("_index.yml", ".yml");
    assert p in GlobYml(entries, dir) && IsStatusEntry(dir, p);
  }

  /** A matched code comes from its own `_index.yml`. */
  lemma StatusCodeSource(entries: set<Path>, dir: Path, c: string)
    requires c in StatusCodesIn(GlobYml(entries, dir), dir)
    ensures dir + [c, "_index.yml"] in entries
  {
    var q :| q in GlobYml(entries, dir) && IsStatusEntry(dir, q) && q[|dir|] == c;
    var p := dir + [c, "_index.yml"];
    assert q[..|dir|] == p[..|dir|];
    assert q == p;
  }

  /** The status code the response-content writer used is listed when it
      is not negative; a negative one has a "-" and never matches. */
  lemma ListsWrittenStatus(entries: set<Path>, path: string, m: HTTPMethod, status: int)
    requires ResponseDest(path, m, status) in entries
    ensures IntToString(status) in ResponseIndex(entries, ResponsesDir(path, m)).entries <==> status >= 0
  {
    assert ResponseDest(path, m, status) == ResponsesDir(path, m) + [IntToString(status), "_index.yml"];
    ResponseIndexEntries(entries, ResponsesDir(path, m), IntToString(status));
  }

  /** The index's own file and the directories made for it are not status
      entries, so writing the index does not change what it lists. */
  lemma IndexIgnoresOwnWrite(entries: set<Path>, dir: Path)
    ensures ResponseIndex(entries + Prefixes(dir) + {dir + ["_index.yml"]}, dir) == ResponseIndex(entries, dir)
  {
    var more := entries + Prefixes(dir) + {dir + ["_index.yml"]};
    assert StatusCodesIn(GlobYml(more, dir), dir) == StatusCodesIn(GlobYml(entries, dir), dir) by {
      forall c | c in StatusCodesIn(GlobYml(more, dir), dir)
        ensures c in StatusCodesIn(GlobYml(entries, dir), dir)
      {
        var q :| q in GlobYml(more, dir) && IsStatusEntry(dir, q) && q[|dir|] == c;
        assert q in GlobYml(entries, dir);
      }
    }
  }

  /** Running the writer a second time leaves the tree as the first run
      left it. */
  lemma WriteResponseIndexIdempotent(files: map<Path, Value>, dirs: set<Path>, path: string, m: HTTPMethod)
    requires EnsuredWritten(files, dirs, PatternDest(path, m), Ok(ResponseIndex(files.Keys + dirs, ResponsesDir(path, m)))).result.Ok?
    ensures var o := EnsuredWritten(files, dirs, PatternDest(path, m), Ok(ResponseIndex(files.Keys + dirs, ResponsesDir(path, m))));
            EnsuredWritten(o.files, o.dirs, PatternDest(path, m), Ok(ResponseIndex(o.files.Keys + o.dirs, ResponsesDir(path, m)))) == o
  {
    var dir := ResponsesDir(path, m);
    var dest := PatternDest(path, m);
    var v := ResponseIndex(files.Keys + dirs, dir);
    assert Parent(dest) == dir;
    EnsuredEntries(files, dirs, dest, v);
    IndexIgnoresOwnWrite(files.Keys + dirs, dir);
    EnsuredIdempotent(files, dirs, dest, v);
  }

  /** One turn of the loop of `_build`: entry `p` is scanned. */
  lemma StatusIndexStep(done: set<Path>, p: Path, dir: Path)
    ensures StatusIndex(StatusCodesIn(done + {p}, dir))
            == if IsStatusEntry(dir, p) then StatusIndex(StatusCodesIn(done, dir))[p[|dir|] := Ref(p[|dir|] + "/_index.yml")]
               else StatusIndex(StatusCodesIn(done, dir))
  {
    var codes := StatusCodesIn(done, dir);
    if IsStatusEntry(dir, p) {
      assert StatusCodesIn(done + {p}, dir) == codes + {p[|dir|]};
    } else {
      assert StatusCodesIn(done + {p}, dir) == codes;
    }
  }

  /** `_build`: the loop over the glob, keeping each matching entry. */
  method BuildResponseIndex(tree: Tree, dir: Path) returns (v: Value)
    ensures v == ResponseIndex(tree.Entries(), dir)
  {
    var all := GlobYml(tree.Entries(), dir);
    var todo := all;
    ghost var done: set<Path> := {};
    var index: map<string, Value> := map[];
    while todo != {}
      invariant todo !! done && todo + done == all
      invariant index == StatusIndex(StatusCodesIn(done, dir))
      decreases |todo|
    {
      var p :| p in todo;
      StatusIndexStep(done, p, dir);
      if IsStatusEntry(dir, p) {
        var code := p[|dir|];
        index := index[code := Ref(code + "/_index.yml")];
      }
      MoveOne(todo, done, all, p);
      todo := todo - {p};
      done := done + {p};
    }
    assert done == all;
    v := VMap(index);
  }

  /** `OASResponsePatternWriter.write`: the directories are made first, and
      the scan sees the tree as it was before them. */
  method WriteResponseIndex(tree: Tree, path: string, m: HTTPMethod) returns (r: Result<()>)
    requires tree.Valid()
    modifies tree
    ensures tree.Valid()
    ensures Outcome(r, tree.files, tree.dirs)
            == EnsuredWritten(old(tree.files), old(tree.dirs), PatternDest(path, m),
                              Ok(ResponseIndex(old(tree.Entries()), ResponsesDir(path, m))))
  {
    var dir := ResponsesDir(path, m);
    var dest := PatternDest(path, m);
    ghost var before := tree.Entries();
    assert Parent(dest) == dir;
    r := tree.MakeDirs(Parent(dest));
    if r.Err? {
      return;
    }
    assert tree.Entries() == before + Prefixes(dir);
    GlobIgnoresPrefixes(before, dir);
    var v := BuildResponseIndex(tree, dir);
    r := tree.WriteText(dest, v);
  }
}
