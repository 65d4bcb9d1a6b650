/** oasbuilder/writer/schema_index.py: the index of components/schemas/,
    which gathers every schema fragment below it under the identifier the
    other fragments use to refer to it. */
module SchemaIndex {
  import opened Wrappers
  import opened Strings
  import opened Models
  import opened Paths
  import opened Identifiers
  import opened DocTree
  import opened MethodPattern
  import opened RequestSchema
  import opened ResponseSchema

  /** `OASSchemaIndexWriter.dest`: components/schemas/_index.yml. */
  const SchemaIndexDest: Path := SchemaRoot + ["_index.yml"]

  /** The `/components/schemas/` of the patterns, at segment `c`. */
  predicate RootAt(p: Path, c: int) {
    0 <= c && c + 2 <= |p| && p[c] == SchemaRoot[0] && p[c + 1] == SchemaRoot[1]
  }

  /** The last position below `n` where components/schemas/ starts. */
  function LastRootBelow(p: Path, n: int): (r: Option<nat>)
    requires n <= |p|
    ensures r.Some? ==> r.value < n && RootAt(p, r.value)
    ensures r.Some? ==> forall c :: r.value < c < n ==> !RootAt(p, c)
    ensures r.None? ==> forall c :: 0 <= c < n ==> !RootAt(p, c)
    decreases n
  {
    if n <= 0 then None
    else if RootAt(p, n - 1) then Some(n - 1)
    else LastRootBelow(p, n - 1)
  }

  /** What a pattern captures: the kind of schema it stands for, the
      `method` group and the `endpoint_dir` group. */
  datatype Capture = Capture(kind: SchemaType, methodValue: string, endpointDir: string)

  /** The `endpoint_dir` group when the method sits at segment `j`: the
      greedy leading `.*` takes the last components/schemas/ that leaves
      at least one segment before the method. */
  function DirBefore(p: Path, j: int): (r: Option<string>)
    requires j <= |p|
  {
    match LastRootBelow(p, j - 2)
    case Some(c) => Some(Join(p[c + 2..j], '/'))
    case None => None
  }

  /** `REX_REQUEST_PARAMS` and `REX_REQUEST_BODY`: the file name last, the
      method before it. */
  function RequestCapture(p: Path, kind: SchemaType, file: string): (r: Option<Capture>)
    ensures r.Some? ==> r.value.kind == kind && r.value.methodValue in MethodValues
    ensures r.Some? ==> |p| >= 2 && p[|p| - 1] == file && p[|p| - 2] == r.value.methodValue
  {
    if |p| >= 2 && p[|p| - 1] == file && p[|p| - 2] in MethodValues then
      match DirBefore(p, |p| - 2)
      case Some(d) => Some(Capture(kind, p[|p| - 2], d))
      case None => None
    else None
  }

  /** `REX_RESPONSE_BODY`: a method, "responses", three digits, then the
      file; the greedy groups take the last method that fits. */
  function ResponseCapture(p: Path): (r: Option<Capture>)
    ensures r.Some? ==> r.value.kind == ResponseBody && r.value.methodValue in MethodValues
  {
    match LastMethodAt(p, |p|)
    case Some(j) =>
      (match DirBefore(p, j)
       case Some(d) => Some(Capture(ResponseBody, p[j], d))
       case None => None)
    case None => None
  }

  /** The inner loop of `_extract_schemas`: the three patterns in turn,
      the first that matches wins. */
  function Classify(p: Path): (r: Option<Capture>)
    ensures r.Some? ==> r.value.methodValue in MethodValues
    ensures r.Some? && r.value.kind == RequestParams ==> |p| >= 2 && p[|p| - 1] == "request_params.yml"
    ensures r.Some? && r.value.kind == RequestBody ==> |p| >= 2 && p[|p| - 1] == "request_body.yml"
  {
    var params := RequestCapture(p, RequestParams, "request_params.yml");
    if params.Some? then params
    else
      var body := RequestCapture(p, RequestBody, "request_body.yml");
      if body.Some? then body
      else ResponseCapture(p)
  }

  /** The identifier of a captured path: `to_endpoint_path` raising
      StopIteration inside the generator surfaces as RuntimeError (PEP
      479); `build_schema_identifier` may raise AttributeError. */
  function CaptureId(cap: Capture): (r: Result<string>)
    requires cap.methodValue in MethodValues
    ensures r.Err? ==> r.error in {RuntimeError, AttributeError}
  {
    match ToEndpointPath(cap.endpointDir)
    case Err(_) => Err(RuntimeError)
    case Ok(endpoint) => SchemaId(MethodByValue(cap.methodValue).value, endpoint, cap.kind)
  }

  /** What one entry of the glob contributes: nothing when no pattern
      matches, else its identifier and the fragment `read_text` loads.
      Every entry the glob yields exists, so one that is not a file is a
      directory, and reading it raises IsADirectoryError. */
  function Entry(files: map<Path, Value>, p: Path): (r: Result<Option<(string, Value)>>)
    ensures r.Ok? && r.value.Some? ==> p in files && r.value.value.1 == files[p]
  {
    match Classify(p)
    case None => Ok(None)
    case Some(cap) =>
      assert cap.methodValue in MethodValues;
      match CaptureId(cap)
      case Err(e) => Err(e)
      case Ok(id) =>
        if p in files then Ok(Some((id, files[p]))) else Err(IsADirectory)
  }

  /** What each entry of the glob contributes, in glob order. */
  function Contributions(files: map<Path, Value>, order: seq<Path>): (cs: seq<Result<Option<(string, Value)>>>)
    ensures |cs| == |order| && forall i :: 0 <= i < |order| ==> cs[i] == Entry(files, order[i])
  {
    seq(|order|, i requires 0 <= i < |order| => Entry(files, order[i]))
  }

  /** The loop of `_build` over the contributions: the first error stops
      it, and a later identifier replaces an earlier equal one. */
  function Fold(cs: seq<Result<Option<(string, Value)>>>): Result<map<string, Value>>
    decreases |cs|
  {
    if |cs| == 0 then Ok(map[])
    else
      match Fold(cs[..|cs| - 1])
      case Err(e) => Err(e)
      case Ok(index) =>
        match cs[|cs| - 1]
        case Err(e) => Err(e)
        case Ok(None) => Ok(index)
        case Ok(Some(kv)) => Ok(index[kv.0 := kv.1])
  }

  /** Contribution `c` puts `id` in the index. */
  predicate Yields(c: Result<Option<(string, Value)>>, id: string) {
    c.Ok? && c.value.Some? && c.value.value.0 == id
  }

  /** `_build` over the entries in the order the glob gives them. */
  function BuildFrom(files: map<Path, Value>, order: seq<Path>): Result<map<string, Value>> {
    Fold(Contributions(files, order))
  }

  /** The fragment `_build` dumps. */
  function SchemaIndexValue(files: map<Path, Value>, order: seq<Path>): Result<Value> {
    match BuildFrom(files, order)
    case Err(e) => Err(e)
    case Ok(index) => Ok(VMap(index))
  }

  /** The build fails exactly when some contribution is an error, and then
      with the first such error. */
  lemma {:induction false} FoldErrors(cs: seq<Result<Option<(string, Value)>>>)
    ensures Fold(cs).Err? <==> exists i :: 0 <= i < |cs| && cs[i].Err?
    ensures Fold(cs).Err? ==>
              exists i :: 0 <= i < |cs| && cs[i] == Err(Fold(cs).error) && forall j :: 0 <= j < i ==> cs[j].Ok?
    decreases |cs|
  {
    if |cs| > 0 {
      var init := cs[..|cs| - 1];
      FoldErrors(init);
      assert forall i :: 0 <= i < |init| ==> init[i] == cs[i];
    }
  }

  /** A build that succeeds lists exactly the identifiers contributed. */
  lemma {:induction false} FoldKeys(cs: seq<Result<Option<(string, Value)>>>)
    requires Fold(cs).Ok?
    ensures forall id :: id in Fold(cs).value <==> exists i :: 0 <= i < |cs| && Yields(cs[i], id)
    decreases |cs|
  {
    if |cs| > 0 {
      var init := cs[..|cs| - 1];
      FoldKeys(init);
      assert forall i :: 0 <= i < |init| ==> init[i] == cs[i];
    }
  }

  /** Each identifier holds the fragment of the last entry that has it. */
  lemma {:induction false} FoldValues(cs: seq<Result<Option<(string, Value)>>>, id: string)
    requires Fold(cs).Ok? && id in Fold(cs).value
    ensures exists i :: 0 <= i < |cs| && Yields(cs[i], id) && Fold(cs).value[id] == cs[i].value.value.1
                        && forall j :: i < j < |cs| ==> !Yields(cs[j], id)
    decreases |cs|
  {
    assert |cs| > 0;
    var init := cs[..|cs| - 1];
    var last := cs[|cs| - 1];
    FoldStep(cs, id);
    if Yields(last, id) {
      assert 0 <= |cs| - 1 < |cs| && Yields(cs[|cs| - 1], id);
    } else {
      FoldValues(init, id);
      var i :| 0 <= i < |init| && Yields(init[i], id) && Fold(init).value[id] == init[i].value.value.1
               && forall j :: i < j < |init| ==> !Yields(init[j], id);
      assert cs[i] == init[i];
      forall j | i < j < |cs| ensures !Yields(cs[j], id) {
        if j < |init| {
          assert cs[j] == init[j];
        }
      }
    }
  }

  /** The last contribution of a successful fold: the fold before it
      succeeded, and `id` is the last one's when it yields `id`, else as
      before. */
  lemma FoldStep(cs: seq<Result<Option<(string, Value)>>>, id: string)
    requires |cs| > 0 && Fold(cs).Ok?
    ensures Fold(cs[..|cs| - 1]).Ok?
    ensures Yields(cs[|cs| - 1], id) ==> id in Fold(cs).value && Fold(cs).value[id] == cs[|cs| - 1].value.value.1
    ensures !Yields(cs[|cs| - 1], id) ==>
              (id in Fold(cs).value <==> id in Fold(cs[..|cs| - 1]).value)
              && (id in Fold(cs).value ==> Fold(cs).value[id] == Fold(cs[..|cs| - 1]).value[id])
  {
  }

  /** One more turn of the loop, on a prefix of the contributions. */
  lemma FoldNext(cs: seq<Result<Option<(string, Value)>>>, i: nat)
    requires i < |cs|
    ensures Fold(cs[..i + 1])
            == match Fold(cs[..i])
               case Err(e) => Err(e)
               case Ok(index) =>
                 (match cs[i]
                  case Err(e) => Err(e)
                  case Ok(None) => Ok(index)
                  case Ok(Some(kv)) => Ok(index[kv.0 := kv.1]))
  {
    assert cs[..i + 1][..i] == cs[..i];
  }

  lemma InsertSlices<T>(cs: seq<T>, k: nat, x: T)
    requires k < |cs|
    ensures var longer := cs[..k] + [x] + cs[k..];
            var init := cs[..|cs| - 1];
            longer[..|longer| - 1] == init[..k] + [x] + init[k..] && longer[|longer| - 1] == cs[|cs| - 1]
  {
  }

  /** A contribution of nothing can sit anywhere without changing the
      build. */
  lemma {:induction false} FoldSkips(cs: seq<Result<Option<(string, Value)>>>, k: nat)
    requires k <= |cs|
    ensures Fold(cs[..k] + [Ok(None)] + cs[k..]) == Fold(cs)
    decreases |cs|
  {
    var longer := cs[..k] + [Ok(None)] + cs[k..];
    if k == |cs| {
      assert longer[..|longer| - 1] == cs;
    } else {
      var init := cs[..|cs| - 1];
      FoldSkips(init, k);
      InsertSlices(cs, k, Ok(None));
    }
  }

  /** Once a prefix fails, the whole build fails the same way. */
  lemma {:induction false} FoldErrorStays(cs: seq<Result<Option<(string, Value)>>>, n: nat)
    requires n <= |cs| && Fold(cs[..n]).Err?
    ensures Fold(cs) == Fold(cs[..n])
    decreases |cs| - n
  {
    if n < |cs| {
      assert cs[..n + 1][..n] == cs[..n];
      FoldErrorStays(cs, n + 1);
    } else {
      assert cs[..n] == cs;
    }
  }

  /** In terms of the tree: the index fails exactly when an entry fails;
      otherwise it holds the identifier of every matching file, each with
      the fragment of the last such file in glob order. */
  lemma BuildContents(files: map<Path, Value>, order: seq<Path>, id: string)
    ensures BuildFrom(files, order).Err? <==> exists i :: 0 <= i < |order| && Entry(files, order[i]).Err?
    ensures BuildFrom(files, order).Ok? ==>
              (id in BuildFrom(files, order).value <==> exists i :: 0 <= i < |order| && Yields(Entry(files, order[i]), id))
    ensures BuildFrom(files, order).Ok? && id in BuildFrom(files, order).value ==>
              exists i :: 0 <= i < |order| && Yields(Entry(files, order[i]), id)
                          && order[i] in files && BuildFrom(files, order).value[id] == files[order[i]]
  {
    var cs := Contributions(files, order);
    FoldErrors(cs);
    if Fold(cs).Ok? {
      FoldKeys(cs);
      if id in Fold(cs).value {
        FoldValues(cs, id);
      }
    }
  }

  /** The index's own file matches no pattern. */
  lemma OwnDestUnclassified()
    ensures Classify(SchemaIndexDest).None?
  {
    assert LastMethodAt(SchemaIndexDest, 3).None?;
  }

  /** A second run, whose glob also yields the index written by the first
      (anywhere in the order), builds the same index and leaves the tree
      as the first run left it. */
  lemma WriteSchemaIndexIdempotent(files: map<Path, Value>, dirs: set<Path>, order: seq<Path>, k: nat)
    requires WellFormed(files, dirs) && k <= |order| && SchemaIndexDest !in order
    requires EnsuredWritten(files, dirs, SchemaIndexDest, SchemaIndexValue(files, order)).result.Ok?
    ensures var o := EnsuredWritten(files, dirs, SchemaIndexDest, SchemaIndexValue(files, order));
            EnsuredWritten(o.files, o.dirs, SchemaIndexDest,
                           SchemaIndexValue(o.files, order[..k] + [SchemaIndexDest] + order[k..])) == o
  {
    var v := SchemaIndexValue(files, order);
    EnsuredFrame(files, dirs, SchemaIndexDest, v);
    BuildIgnoresOwnIndex(files, order, k, v.value);
    EnsuredIdempotent(files, dirs, SchemaIndexDest, v.value);
  }

  /** An entry reads its own file and no other. */
  lemma EntryFrame(files: map<Path, Value>, p: Path, k: Path, v: Value)
    requires p != k
    ensures Entry(files[k := v], p) == Entry(files, p)
  {
  }

  /** Writing the index changes no entry the build reads, and the index
      itself contributes nothing wherever the glob puts it. */
  lemma BuildIgnoresOwnIndex(files: map<Path, Value>, order: seq<Path>, k: nat, v: Value)
    requires k <= |order| && SchemaIndexDest !in order
    ensures BuildFrom(files[SchemaIndexDest := v], order[..k] + [SchemaIndexDest] + order[k..]) == BuildFrom(files, order)
  {
    var cs := Contributions(files, order);
    ContributionsWithIndex(files, order, k, v);
    FoldSkips(cs, k);
  }

  /** The contributions once the index is written and globbed at place
      `k`: the old ones, with nothing at `k`. */
  lemma ContributionsWithIndex(files: map<Path, Value>, order: seq<Path>, k: nat, v: Value)
    requires k <= |order| && SchemaIndexDest !in order
    ensures Contributions(files[SchemaIndexDest := v], order[..k] + [SchemaIndexDest] + order[k..])
            == Contributions(files, order)[..k] + [Ok(None)] + Contributions(files, order)[k..]
  {
    var files' := files[SchemaIndexDest := v];
    var longer := order[..k] + [SchemaIndexDest] + order[k..];
    var cs := Contributions(files, order);
    var cs' := Contributions(files', longer);
    OwnDestUnclassified();
    forall i | 0 <= i < k ensures cs'[i] == cs[i] {
      assert longer[i] == order[i];
      EntryFrame(files, order[i], SchemaIndexDest, v);
    }
    forall i | k < i < |longer| ensures cs'[i] == cs[i - 1] {
      assert longer[i] == order[i - 1];
      EntryFrame(files, order[i - 1], SchemaIndexDest, v);
    }
    assert longer[k] == SchemaIndexDest;
    InsertedAt(cs', cs, k, Ok(None));
  }

  /** A list that agrees with `b` before `k`, holds `x` at `k` and agrees
      with `b` one place later after it is `b` with `x` put in at `k`. */
  lemma InsertedAt<T>(a: seq<T>, b: seq<T>, k: nat, x: T)
    requires |a| == |b| + 1 && k <= |b| && a[k] == x
    requires forall i :: 0 <= i < k ==> a[i] == b[i]
    requires forall i :: k < i < |a| ==> a[i] == b[i - 1]
    ensures a == b[..k] + [x] + b[k..]
  {
  }

  /** The endpoint directory of a template, when it is a single segment
      below components/schemas/. */
  predicate PlainDir(t: string) {
    ToEndpointDir(t) != "" && ToEndpointDir(t) != "."
  }

  /** The identifier of a captured writer path is the one the method and
      response fragments refer to, for every template whose directory
      name leads back to it. */
  lemma CaptureIdOfTemplate(m: HTTPMethod, t: string, kind: SchemaType)
    requires RoundTripSafe(t)
    ensures CaptureId(Capture(kind, MethodValue(m), ToEndpointDir(t))) == SchemaId(m, t, kind)
  {
    RoundTrip(t);
    MethodValueRoundTrip(m);
  }

  /** The request-parameter schema of a template is indexed under its
      RequestParams identifier. */
  lemma ClassifiesParams(t: string, m: HTTPMethod)
    requires ParameterizedPath(t) == t && PlainDir(t)
    ensures Classify(ParamsDest(t, m)) == Some(Capture(RequestParams, MethodValue(m), ToEndpointDir(t)))
  {
    var p := ParamsDest(t, m);
    assert p == SchemaRoot + [ToEndpointDir(t), MethodValue(m), "request_params.yml"];
    assert LastRootBelow(p, 1) == Some(0);
    assert p[2..3] == [ToEndpointDir(t)];
  }

  /** The same for the request-body schema. */
  lemma ClassifiesBody(t: string, m: HTTPMethod)
    requires ParameterizedPath(t) == t && PlainDir(t)
    ensures Classify(BodyDest(t, m)) == Some(Capture(RequestBody, MethodValue(m), ToEndpointDir(t)))
  {
    var p := BodyDest(t, m);
    assert p == SchemaRoot + [ToEndpointDir(t), MethodValue(m), "request_body.yml"];
    assert LastRootBelow(p, 1) == Some(0);
    assert p[2..3] == [ToEndpointDir(t)];
  }

  /** The same for the response schema of a three-digit status. */
  lemma ClassifiesResponse(t: string, m: HTTPMethod, status: int)
    requires ParameterizedPath(t) == t && PlainDir(t) && 100 <= status <= 999
    ensures Classify(ResponseSchemaDest(t, m, status)) == Some(Capture(ResponseBody, MethodValue(m), ToEndpointDir(t)))
  {
    ThreeDigitStatus(status);
    var dir := ToEndpointDir(t);
    assert EndpointSchemaDir(t) == SchemaRoot + [dir];
    var st := IntToString(status);
    assert ResponseSchemaDest(t, m, status) == SchemaRoot + [dir] + [MethodValue(m), "responses", st, "_index.yml"];
    assert SchemaRoot + [dir] + [MethodValue(m), "responses", st, "_index.yml"]
           == SchemaRoot + [dir, MethodValue(m), "responses", st, "_index.yml"];
    ClassifiesResponseFile(ToEndpointDir(t), MethodValue(m), IntToString(status));
  }

  /** A response-content file below components/schemas/ is classified by
      its segments alone. */
  lemma ClassifiesResponseFile(dir: string, mv: string, st: string)
    requires mv in MethodValues && |st| == 3 && IsDigits(st)
    ensures Classify(SchemaRoot + [dir, mv, "responses", st, "_index.yml"]) == Some(Capture(ResponseBody, mv, dir))
  {
    var p := SchemaRoot + [dir, mv, "responses", st, "_index.yml"];
    assert MethodAt(p, 3);
    assert LastMethodAt(p, |p|) == Some(3);
    assert LastRootBelow(p, 1) == Some(0);
    assert p[2..3] == [dir];
  }

  /** Where the schema writers put the fragment of each kind. */
  function SchemaDest(t: string, m: HTTPMethod, kind: SchemaType, status: int): Path {
    match kind
    case RequestParams => ParamsDest(t, m)
    case RequestBody => BodyDest(t, m)
    case ResponseBody => ResponseSchemaDest(t, m, status)
  }

  /** A fragment the schema writers wrote for a template is indexed under
      `build_schema_identifier` of that template, the identifier the method
      and response fragments put in their references. */
  lemma IndexesWrittenSchema(files: map<Path, Value>, t: string, m: HTTPMethod, kind: SchemaType, status: int)
    requires ParameterizedPath(t) == t && PlainDir(t) && RoundTripSafe(t) && 100 <= status <= 999
    requires SchemaDest(t, m, kind, status) in files && SchemaId(m, t, kind).Ok?
    ensures Entry(files, SchemaDest(t, m, kind, status))
            == Ok(Some((SchemaId(m, t, kind).value, files[SchemaDest(t, m, kind, status)])))
  {
    var dest := SchemaDest(t, m, kind, status);
    var cap := Capture(kind, MethodValue(m), ToEndpointDir(t));
    CaptureIdOfTemplate(m, t, kind);
    match kind {
      case RequestParams => ClassifiesParams(t, m);
      case RequestBody => ClassifiesBody(t, m);
      case ResponseBody => ClassifiesResponse(t, m, status);
    }
    assert Classify(dest) == Some(cap);
    assert CaptureId(cap) == SchemaId(m, t, kind);
  }

  /** `_build` and `_extract_schemas`: the loop over the glob in its order,
      each entry tried against the three patterns. */
  method BuildSchemaIndex(tree: Tree, order: seq<Path>) returns (r: Result<Value>)
    ensures r == SchemaIndexValue(tree.files, order)
  {
    var index: map<string, Value> := map[];
    for i := 0 to |order|
      invariant Fold(Contributions(tree.files, order)[..i]) == Ok(index)
    {
      FoldNext(Contributions(tree.files, order), i);
      var entry := Entry(tree.files, order[i]);
      if entry.Err? {
        FoldErrorStays(Contributions(tree.files, order), i + 1);
        return Err(entry.error);
      }
      if entry.value.Some? {
        index := index[entry.value.value.0 := entry.value.value.1];
      }
    }
    assert Contributions(tree.files, order)[..|order|] == Contributions(tree.files, order);
    r := Ok(VMap(index));
  }

  /** `OASSchemaIndexWriter.write`: components/schemas/ is made, then the
      glob is read in the order it comes (returned as `order`), then the
      index is written. */
  method WriteSchemaIndex(tree: Tree) returns (r: Result<()>, order: seq<Path>)
    requires tree.Valid()
    modifies tree
    ensures tree.Valid()
    ensures MkdirResult(old(tree.files), SchemaRoot).Ok? ==> Enumerates(order, GlobYml(old(tree.Entries()), SchemaRoot))
    ensures Outcome(r, tree.files, tree.dirs)
            == EnsuredWritten(old(tree.files), old(tree.dirs), SchemaIndexDest, SchemaIndexValue(old(tree.files), order))
  {
    order := [];
    ghost var before := tree.Entries();
    r := tree.MakeDirs(SchemaRoot);
    assert Parent(SchemaIndexDest) == SchemaRoot;
    if r.Err? {
      return;
    }
    GlobIgnoresPrefixes(before, SchemaRoot);
    assert tree.Entries() == before + Prefixes(SchemaRoot);
    order := tree.Glob(SchemaRoot);
    EnsuredFrame(old(tree.files), old(tree.dirs), SchemaIndexDest, SchemaIndexValue(tree.files, order));
    var built := BuildSchemaIndex(tree, order);
    if built.Err? {
      return Err(built.error), order;
    }
    r := tree.WriteText(SchemaIndexDest, built.value);
  }
}
