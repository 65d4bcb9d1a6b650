/** oasbuilder/writer/method_pattern.py: the index of the methods of one
    endpoint, with a reference for every method that has a recorded
    response below the endpoint directory. */
module MethodPattern {
  import opened Wrappers
  import opened Strings
  import opened Models
  import opened Paths
  import opened DocTree
  import opened ResponseContent

  /** `OASEndpointMethodPatternWriter.dest`; its parent is the endpoint
      directory, which the writer scans. */
  function MethodPatternDest(path: string): Path {
    EndpointDir(path) + ["_index.yml"]
  }

  /** The regex of `_find_endpoint_methods` with its `method` group at
      segment `i`: a method value, "responses", three digits, and at
      least one segment after them (the glob yields only names ending in
      ".yml", which the trailing `.*.ya?ml$` accepts). */
  predicate MethodAt(p: Path, i: int) {
    0 <= i && i + 3 < |p| && p[i] in MethodValues && p[i + 1] == "responses"
    && |p[i + 2]| == 3 && IsDigits(p[i + 2])
  }

  /** The last position below `n` where the pattern fits. */
  function LastMethodAt(p: Path, n: int): (r: Option<nat>)
    requires n <= |p|
    ensures r.Some? ==> r.value < n && MethodAt(p, r.value)
    ensures r.Some? ==> forall j :: r.value < j < n ==> !MethodAt(p, j)
    ensures r.None? ==> forall j :: 0 <= j < n ==> !MethodAt(p, j)
    decreases n
  {
    if n <= 0 then None
    else if MethodAt(p, n - 1) then Some(n - 1)
    else LastMethodAt(p, n - 1)
  }

  /** The `method` group of a match: the greedy leading `.*` settles on
      the last position where the rest of the pattern fits. */
  function MethodGroup(p: Path): (r: Option<string>)
    ensures r.Some? ==> r.value in MethodValues
  {
    match LastMethodAt(p, |p|)
    case Some(i) => Some(p[i])
    case None => None
  }

  /** The methods found among the scanned entries. */
  function MethodsIn(ps: set<Path>): (r: set<string>)
    ensures r <= set x | x in MethodValues
  {
    set p | p in ps && MethodGroup(p).Some? :: MethodGroup(p).value
  }

  /** `_build`: one `{"$ref": "<method>/_index.yml"}` per method. */
  function MethodIndex(methods: set<string>): map<string, Value> {
    map x | x in methods :: Ref(x + "/_index.yml")
  }

  /** The fragment the writer dumps for the entries of the tree. */
  function EndpointMethodIndex(entries: set<Path>, dir: Path): (r: Value)
    ensures r.VMap? && forall x :: x in r.entries ==> x in MethodValues && r.entries[x] == Ref(x + "/_index.yml")
  {
    VMap(MethodIndex(MethodsIn(GlobYml(entries, dir))))
  }

  /** Python's `str` of a three-digit status code has three digits. */
  lemma ThreeDigitStatus(status: int)
    requires 100 <= status <= 999
    ensures |IntToString(status)| == 3
  {
    assert 1 <= status / 100 < 10;
    assert NatToString(status / 100) == [DigitChar(status / 100)];
    assert (status / 10) / 10 == status / 100;
    assert |NatToString(status / 10)| == 2;
  }

  /** Every method whose response-content file for a three-digit status
      is below the endpoint directory is listed, with a reference to its
      own directory. */
  lemma ListsRespondingMethod(entries: set<Path>, path: string, m: HTTPMethod, status: int)
    requires 100 <= status <= 999
    requires ResponseDest(path, m, status) in entries
    ensures MethodValue(m) in EndpointMethodIndex(entries, EndpointDir(path)).entries
    ensures EndpointMethodIndex(entries, EndpointDir(path)).entries[MethodValue(m)] == Ref(MethodValue(m) + "/_index.yml")
  {
    var dir := EndpointDir(path);
    var p := ResponseDest(path, m, status);
    var d := |dir|;
    ThreeDigitStatus(status);
    assert p[d] == MethodValue(m) && p[d + 1] == "responses" && p[d + 2] == IntToString(status);
    assert MethodAt(p, d);
    assert !MethodAt(p, d + 1) && !MethodAt(p, d + 2) && !MethodAt(p, d + 3);
    assert MethodGroup(p) == Some(MethodValue(m));
    assert p[..d] == dir && EndsWith(p[|p| - 1], ".yml");
    assert p in GlobYml(entries, dir);
  }

  /** The index's own file sits one level below the endpoint directory,
      too shallow to match, so a second run changes nothing. */
  lemma IndexIgnoresOwnWrite(entries: set<Path>, path: string)
    ensures var dir := EndpointDir(path);
            EndpointMethodIndex(entries + Prefixes(dir) + {dir + ["_index.yml"]}, dir)
            == EndpointMethodIndex(entries, dir)
  {
    var dir := EndpointDir(path);
    var own := dir + ["_index.yml"];
    assert |own| <= 3;
    assert LastMethodAt(own, |own|).None?;
    GlobIgnoresPrefixes(entries, dir);
    GlobAddOne(entries + Prefixes(dir), dir, own);
    MethodsInBetween(GlobYml(entries, dir), GlobYml(entries + Prefixes(dir) + {own}, dir), own);
  }

  /** Adding one entry adds at most that entry to the scan. */
  lemma GlobAddOne(entries: set<Path>, dir: Path, x: Path)
    ensures GlobYml(entries, dir) <= GlobYml(entries + {x}, dir) <= GlobYml(entries, dir) + {x}
  {
  }

  /** An entry without a method adds no method. */
  lemma MethodsInBetween(a: set<Path>, b: set<Path>, x: Path)
    requires a <= b <= a + {x} && MethodGroup(x).None?
    ensures MethodsIn(b) == MethodsIn(a)
  {
    forall m | m in MethodsIn(b) ensures m in MethodsIn(a) {
      var q :| q in b && MethodGroup(q).Some? && MethodGroup(q).value == m;
      assert q != x;
    }
  }

  lemma WriteMethodIndexIdempotent(files: map<Path, Value>, dirs: set<Path>, path: string)
    requires EnsuredWritten(files, dirs, MethodPatternDest(path), Ok(EndpointMethodIndex(files.Keys + dirs, EndpointDir(path)))).result.Ok?
    ensures var o := EnsuredWritten(files, dirs, MethodPatternDest(path), Ok(EndpointMethodIndex(files.Keys + dirs, EndpointDir(path))));
            EnsuredWritten(o.files, o.dirs, MethodPatternDest(path), Ok(EndpointMethodIndex(o.files.Keys + o.dirs, EndpointDir(path)))) == o
  {
    var dir := EndpointDir(path);
    var dest := MethodPatternDest(path);
    var v := EndpointMethodIndex(files.Keys + dirs, dir);
    assert Parent(dest) == dir;
    EnsuredEntries(files, dirs, dest, v);
    IndexIgnoresOwnWrite(files.Keys + dirs, path);
    EnsuredIdempotent(files, dirs, dest, v);
  }

  /** One turn of the loop of `_find_endpoint_methods`: entry `p` is
      scanned. */
  lemma MethodsInStep(done: set<Path>, p: Path)
    ensures MethodsIn(done + {p}) == if MethodGroup(p).Some? then MethodsIn(done) + {MethodGroup(p).value} else MethodsIn(done)
  {
  }

  /** `_find_endpoint_methods`: the loop over the glob, adding the method
      of each matching entry to the set. */
  method FindEndpointMethods(tree: Tree, dir: Path) returns (methods: set<string>)
    ensures methods == MethodsIn(GlobYml(tree.Entries(), dir))
  {
    var all := GlobYml(tree.Entries(), dir);
    var todo := all;
    ghost var done: set<Path> := {};
    methods := {};
    while todo != {}
      invariant todo !! done && todo + done == all
      invariant methods == MethodsIn(done)
      decreases |todo|
    {
      var p :| p in todo;
      MethodsInStep(done, p);
      var group := MethodGroup(p);
      if group.Some? {
        methods := methods + {group.value};
      }
      MoveOne(todo, done, all, p);
      todo := todo - {p};
      done := done + {p};
    }
    assert done == all;
  }

  /** `OASEndpointMethodPatternWriter.write`, behind `ensure_dest_exists`. */
  method WriteMethodIndex(tree: Tree, path: string) returns (r: Result<()>)
    requires tree.Valid()
    modifies tree
    ensures tree.Valid()
    ensures Outcome(r, tree.files, tree.dirs)
            == EnsuredWritten(old(tree.files), old(tree.dirs), MethodPatternDest(path),
                              Ok(EndpointMethodIndex(old(tree.Entries()), EndpointDir(path))))
  {
    var dir := EndpointDir(path);
    var dest := MethodPatternDest(path);
    ghost var before := tree.Entries();
    assert Parent(dest) == dir;
    r := tree.MakeDirs(Parent(dest));
    if r.Err? {
      return;
    }
    assert tree.Entries() == before + Prefixes(dir);
    GlobIgnoresPrefixes(before, dir);
    var methods := FindEndpointMethods(tree, dir);
    r := tree.WriteText(dest, VMap(MethodIndex(methods)));
  }
}
