/** main.py: the driver. The recorded request paths are grouped by
    template; for each template the hits are decoded, each (path, method,
    status) triple is handled once, and its leaf fragments and response
    and method indices are written; then the path index, the schema index
    and the root document are rebuilt. Elasticsearch is the function
    `search` from a template to its hits, `json.loads` is the function
    `decode`, and the environment is a `Settings` record. */
module Driver {
  import opened Wrappers
  import opened Strings
  import opened JsonData
  import opened Models
  import opened Paths
  import opened Identifiers
  import opened DocTree
  import opened RequestSchema
  import opened ResponseSchema
  import opened ResponseContent
  import opened EndpointMethod
  import opened ResponsePattern
  import opened MethodPattern
  import opened EndpointPattern
  import opened SchemaIndex
  import opened IndexWriter

  // ---------------------------------------------------------------------
  // Grouping the recorded paths by template

  /** `urlsplit` first deletes every tab, carriage return and line feed. */
  function WithoutUnsafe(s: string): (r: string)
    ensures |r| <= |s|
    ensures forall c :: c in r <==> c in s && c != '\t' && c != '\r' && c != '\n'
    ensures '\t' !in s && '\r' !in s && '\n' !in s ==> r == s
  {
    if |s| == 0 then ""
    else if s[0] == '\t' || s[0] == '\r' || s[0] == '\n' then WithoutUnsafe(s[1..])
    else [s[0]] + WithoutUnsafe(s[1..])
  }

  /** The text before the fragment and the query: `urlsplit` cuts at the
      first "#", then at the first "?". */
  function BeforeQuery(raw: string): (r: string)
    ensures |r| <= |raw| && r == raw[..|r|]
    ensures '?' !in r && '#' !in r
    ensures |r| < |raw| ==> raw[|r|] in {'?', '#'}
  {
    if |raw| == 0 || raw[0] == '?' || raw[0] == '#' then ""
    else [raw[0]] + BeforeQuery(raw[1..])
  }

  /** The index of the last `c` in `s`, or -1 (`str.rfind`). */
  function LastIndexOf(s: string, c: char): (k: int)
    ensures -1 <= k < |s|
    ensures k >= 0 ==> s[k] == c
    ensures forall i :: k < i < |s| ==> s[i] != c
  {
    if |s| == 0 then -1
    else if s[|s| - 1] == c then |s| - 1
    else LastIndexOf(s[..|s| - 1], c)
  }

  /** The index of the first `c` in `s` at or after `from`, or -1
      (`str.find` with a start). */
  function IndexFrom(s: string, c: char, from: nat): (k: int)
    ensures k == -1 || (from <= k < |s| && s[k] == c)
    ensures forall i :: from <= i < |s| && (k == -1 || i < k) ==> s[i] != c
    decreases |s| - from
  {
    if from >= |s| then -1
    else if s[from] == c then from
    else IndexFrom(s, c, from + 1)
  }

  /** `_splitparams`, which `urlparse` applies when the path holds a ";":
      the path ends at the first ";" after its last "/" (at its first ";"
      when it has no "/"). The result keeps every "/", its last segment
      holds no ";", and a cut falls on a ";". */
  function WithoutParams(u: string): (r: string)
    ensures |r| <= |u| && r == u[..|r|]
    ensures forall i :: |r| <= i < |u| ==> u[i] != '/'
    ensures forall i :: 0 <= i < |r| && r[i] == ';' ==> '/' in r[i..]
    ensures |r| < |u| ==> u[|r|] == ';'
  {
    if ';' !in u then u
    else
      var i := IndexFrom(u, ';', if '/' in u then LastIndexOf(u, '/') else 0);
      if i < 0 then u
      else
        SlashAfterEarlierParams(u, i);
        u[..i]
  }

  /** Every ";" before the cut comes before the last "/". */
  lemma SlashAfterEarlierParams(u: string, i: int)
    requires i == IndexFrom(u, ';', if '/' in u then LastIndexOf(u, '/') else 0) && i >= 0
    ensures forall j :: 0 <= j < i && u[..i][j] == ';' ==> '/' in u[..i][j..]
  {
    forall j | 0 <= j < i && u[..i][j] == ';' ensures '/' in u[..i][j..] {
      var k := LastIndexOf(u, '/');
      assert k >= 0;
      assert u[..i][j..][k - j] == '/';
    }
  }

  /** The path part of `urlparse` for a recorded request path: without
      tabs and line breaks, before the query or the fragment, and without
      the parameters of its last segment. */
  function UrlPath(raw: string): (r: string)
    ensures '?' !in r && '#' !in r
    ensures '\t' !in r && '\r' !in r && '\n' !in r
    ensures forall i :: 0 <= i < |r| && r[i] == ';' ==> '/' in r[i..]
    ensures PlainPath(raw) ==> r == raw
  {
    var w := WithoutUnsafe(raw);
    var q := BeforeQuery(w);
    var r := WithoutParams(q);
    PrefixChars(q, r);
    PrefixChars(w, q);
    if PlainPath(raw) then
      PlainUnchanged(raw);
      r
    else r
  }

  /** A prefix holds no character its text does not. */
  lemma PrefixChars(u: string, r: string)
    requires |r| <= |u| && r == u[..|r|]
    ensures forall c :: c in r ==> c in u
  {
    forall c | c in r ensures c in u {
      var i :| 0 <= i < |r| && r[i] == c;
      assert u[i] == c;
    }
  }

  /** A plain path passes each step unchanged. */
  lemma PlainUnchanged(raw: string)
    requires PlainPath(raw)
    ensures WithoutParams(BeforeQuery(WithoutUnsafe(raw))) == raw
  {
    var q := BeforeQuery(WithoutUnsafe(raw));
    assert q == raw;
    assert |WithoutParams(q)| == |q|;
  }

  /** A request path that `urlparse` leaves as it is: no tab, line break,
      query or fragment, and no ";" after its last "/". */
  predicate PlainPath(raw: string) {
    '?' !in raw && '#' !in raw && '\t' !in raw && '\r' !in raw && '\n' !in raw
    && forall i :: 0 <= i < |raw| && raw[i] == ';' ==> '/' in raw[i..]
  }

  /** The text before the first "?" or "#" is all `urlsplit` keeps. */
  lemma BeforeQueryAt(w: string, k: int)
    requires 0 <= k < |w| && w[k] in {'?', '#'}
    requires forall i :: 0 <= i < k ==> w[i] != '?' && w[i] != '#'
    ensures BeforeQuery(w) == w[..k]
  {
  }

  /** A ";" in the last segment, the first in the path, is where
      `_splitparams` cuts. */
  lemma ParamsAt(u: string, k: int)
    requires 0 <= k < |u| && u[k] == ';'
    requires forall i :: 0 <= i < k ==> u[i] != ';'
    requires forall i :: k <= i < |u| ==> u[i] != '/'
    ensures WithoutParams(u) == u[..k]
  {
  }

  /** A path parameter of the last segment is not part of the path. */
  lemma UrlPathDropsParams(raw: string)
    requires raw == "/v1/posts;jsessionid=7?page=2"
    ensures UrlPath(raw) == "/v1/posts"
  {
    ExampleQuery(raw);
    BeforeQueryAt(raw, 22);
    ExampleParams(raw[..22]);
    ParamsAt(raw[..22], 9);
  }

  /** The characters of the example request path that `urlsplit` looks at. */
  lemma ExampleQuery(raw: string)
    requires raw == "/v1/posts;jsessionid=7?page=2"
    ensures '\t' !in raw && '\r' !in raw && '\n' !in raw
    ensures 22 < |raw| && raw[22] == '?'
    ensures forall i :: 0 <= i < 22 ==> raw[i] != '?' && raw[i] != '#'
    ensures raw[..22] == "/v1/posts;jsessionid=7"
  {
  }

  /** The characters of the example path that `_splitparams` looks at. */
  lemma ExampleParams(q: string)
    requires q == "/v1/posts;jsessionid=7"
    ensures 9 < |q| && q[9] == ';'
    ensures forall i :: 0 <= i < 9 ==> q[i] != ';'
    ensures forall i :: 9 <= i < |q| ==> q[i] != '/'
    ensures q[..9] == "/v1/posts"
  {
  }

  /** The parsed path of each recorded request path, in order. */
  function RequestPaths(raws: seq<string>): (ps: seq<string>)
    ensures |ps| == |raws|
    ensures forall i :: 0 <= i < |raws| ==> '?' !in ps[i] && '#' !in ps[i]
  {
    if |raws| == 0 then []
    else RequestPaths(raws[..|raws| - 1]) + [UrlPath(raws[|raws| - 1])]
  }

  /** The keys of `path_query_map` in insertion order: the template of
      each parsed path, the first time it is seen. */
  function Templates(paths: seq<string>): seq<string>
    decreases |paths|
  {
    if |paths| == 0 then []
    else
      var before := Templates(paths[..|paths| - 1]);
      var t := ParameterizedPath(paths[|paths| - 1]);
      if t in before then before else before + [t]
  }

  /** Each template appears once. */
  lemma {:induction false} TemplatesDistinct(paths: seq<string>)
    ensures forall i, j :: 0 <= i < j < |Templates(paths)| ==> Templates(paths)[i] != Templates(paths)[j]
    decreases |paths|
  {
    if |paths| > 0 {
      TemplatesDistinct(paths[..|paths| - 1]);
    }
  }

  /** The templates are exactly the templates of the parsed paths, and
      each is its own template. */
  lemma {:induction false} TemplatesOfPaths(paths: seq<string>)
    ensures forall t :: t in Templates(paths) <==> t in TemplateList(paths)
    ensures forall t :: t in Templates(paths) ==> ParameterizedPath(t) == t
    decreases |paths|
  {
    if |paths| > 0 {
      var n := |paths| - 1;
      var init := paths[..n];
      TemplatesOfPaths(init);
      ParameterizeIdempotent(paths[n]);
      var ts := TemplateList(paths);
      assert ts[..n] == TemplateList(init);
      TemplatesStep(ts, Templates(init), Templates(paths));
    }
  }

  /** The template of each parsed path, in order. */
  function TemplateList(paths: seq<string>): (ts: seq<string>)
    ensures |ts| == |paths| && forall i :: 0 <= i < |paths| ==> ts[i] == ParameterizedPath(paths[i])
  {
    seq(|paths|, i requires 0 <= i < |paths| => ParameterizedPath(paths[i]))
  }

  /** One more template is added, if new, to those of the ones before. */
  lemma TemplatesStep(ts: seq<string>, before: seq<string>, after: seq<string>)
    requires |ts| > 0
    requires forall u :: u in before <==> u in ts[..|ts| - 1]
    requires var t := ts[|ts| - 1];
             after == if t in before then before else before + [t]
    ensures forall u :: u in after <==> u in ts
  {
    assert ts == ts[..|ts| - 1] + [ts[|ts| - 1]];
  }

  /** The loop of lines 85-90 that fills `path_query_map` (its parsed
      queries are never read, so only the keys are kept). */
  method GroupPaths(raws: seq<string>) returns (templates: seq<string>)
    ensures templates == Templates(RequestPaths(raws))
  {
    templates := [];
    for i := 0 to |raws|
      invariant templates == Templates(RequestPaths(raws[..i]))
    {
      assert raws[..i + 1][..i] == raws[..i];
      assert RequestPaths(raws[..i + 1])[..i] == RequestPaths(raws[..i]);
      var t := ParameterizeEndpointPath(UrlPath(raws[i]));
      if t !in templates {
        templates := templates + [t];
      }
    }
    assert raws[..|raws|] == raws;
  }

  // ---------------------------------------------------------------------
  // One hit

  /** The `_source` of a hit, its fields as recorded; a missing content is
      the empty text. */
  datatype Hit = Hit(methodName: string, query: string, requestContent: string, statusCode: int, responseContent: string)

  /** A hit once decoded. */
  datatype Decoded = Decoded(m: HTTPMethod, query: Json, request: Json, status: int, response: Json)

  /** Lines 111-128: the hit as `main` decodes it. The method must be a
      member name of `HTTPMethod` (KeyError) and the query must decode
      (JSONDecodeError); an empty request content is None and a non-empty
      one must decode; an empty or undecodable response content is None
      and never an error. */
  function DecodeHit(hit: Hit, decode: string -> Option<Json>): (r: Result<Decoded>)
    ensures r.Ok? <==> MethodByName(hit.methodName).Ok? && decode(hit.query).Some?
                       && (hit.requestContent != "" ==> decode(hit.requestContent).Some?)
    ensures r.Err? ==> r.error == if MethodByName(hit.methodName).Err? then KeyError else DecodeError
    ensures r.Ok? ==> r.value.m == MethodByName(hit.methodName).value && r.value.status == hit.statusCode
                      && r.value.query == decode(hit.query).value
    ensures r.Ok? ==> r.value.request == if hit.requestContent == "" then Null else decode(hit.requestContent).value
    ensures r.Ok? ==> r.value.response == if hit.responseContent != "" && decode(hit.responseContent).Some?
                                          then decode(hit.responseContent).value else Null
  {
    match MethodByName(hit.methodName)
    case Err(e) => Err(e)
    case Ok(m) =>
      match decode(hit.query)
      case None => Err(DecodeError)
      case Some(query) =>
        var request := if hit.requestContent == "" then Some(Null) else decode(hit.requestContent);
        if request.None? then Err(DecodeError)
        else
          var response := if hit.responseContent == "" then Null
                          else match decode(hit.responseContent) case Some(j) => j case None => Null;
          Ok(Decoded(m, query, request.value, hit.statusCode, response))
  }

  /** One writer behind `ensure_dest_exists`, run after `o` unless `o`
      failed: an exception stops the driver. */
  function Then(o: Outcome, k: Path, content: Result<Value>): Outcome
    requires |k| > 0
  {
    if o.result.Err? then o else EnsuredWritten(o.files, o.dirs, k, content)
  }

  /** The same for a writer the driver runs only when `guard` holds. */
  function ThenIf(o: Outcome, guard: bool, k: Path, content: Result<Value>): Outcome
    requires |k| > 0
  {
    if guard then Then(o, k, content) else o
  }

  /** `write_schemas`: the request-body schema when there is request
      content, then the response schema when the response is a non-empty
      dict or list. */
  function SchemasOutcome(files: map<Path, Value>, dirs: set<Path>, path: string, d: Decoded): Outcome {
    var o := ThenIf(Outcome(Ok(()), files, dirs), Truthy(d.request), BodyDest(path, d.m), BodySchema(d.request));
    ThenIf(o, HasBody(d.response), ResponseSchemaDest(path, d.m, d.status), BodySchema(d.response))
  }

  /** The writers that follow `write_schemas` for a new hit, on any
      destinations: a fragment at `k2`, the index at `k3` of what the tree
      then holds below `dir3`, and a fragment at `k4`. */
  function Steps(o1: Outcome, k2: Path, c2: Result<Value>, k3: Path, dir3: Path, k4: Path, c4: Result<Value>): Outcome
    requires |k2| > 0 && |k3| > 0 && |k4| > 0
  {
    var o2 := Then(o1, k2, c2);
    var o3 := Then(o2, k3, Ok(ResponseIndex(o2.files.Keys + o2.dirs, dir3)));
    Then(o3, k4, c4)
  }

  /** Lines 140-170: the schemas, the response fragment, the response
      index (scanning the tree as the response fragment left it) and the
      method fragment, in that order. */
  function HitOutcome(files: map<Path, Value>, dirs: set<Path>, path: string, d: Decoded): Outcome {
    Steps(SchemasOutcome(files, dirs, path, d),
          ResponseDest(path, d.m, d.status), ResponseFragment(d.m, path, d.status, d.response),
          PatternDest(path, d.m), ResponsesDir(path, d.m),
          MethodDest(path, d.m), MethodFragment(d.m, path, d.query, d.request))
  }

  /** The de-duplication key of a hit. */
  datatype Triple = Triple(path: string, methodValue: string, status: int)

  function TripleOf(path: string, d: Decoded): Triple {
    Triple(path, MethodValue(d.m), d.status)
  }

  /** Lines 110-170 for one hit: a triple already in `pattern_set` is
      skipped, otherwise it is added and the hit is written. */
  function HitStep(files: map<Path, Value>, dirs: set<Path>, seen: set<Triple>, path: string, hit: Hit,
                   decode: string -> Option<Json>): (r: (Outcome, set<Triple>))
    ensures DecodeHit(hit, decode).Err? ==> r == (Outcome(Err(DecodeHit(hit, decode).error), files, dirs), seen)
    ensures DecodeHit(hit, decode).Ok? ==> r.1 == seen + {TripleOf(path, DecodeHit(hit, decode).value)}
    ensures DecodeHit(hit, decode).Ok? && TripleOf(path, DecodeHit(hit, decode).value) in seen ==>
              r.0 == Outcome(Ok(()), files, dirs)
  {
    match DecodeHit(hit, decode)
    case Err(e) => (Outcome(Err(e), files, dirs), seen)
    case Ok(d) =>
      if TripleOf(path, d) in seen then (Outcome(Ok(()), files, dirs), seen)
      else (HitOutcome(files, dirs, path, d), seen + {TripleOf(path, d)})
  }

  /** The loop over the hits of one template, stopped by the first error. */
  function HitsFold(files: map<Path, Value>, dirs: set<Path>, seen: set<Triple>, path: string, hits: seq<Hit>,
                    decode: string -> Option<Json>): (r: (Outcome, set<Triple>))
    ensures forall t :: t in r.1 && t !in seen ==> t.path == path
    decreases |hits|
  {
    if |hits| == 0 then (Outcome(Ok(()), files, dirs), seen)
    else
      var (o, s) := HitsFold(files, dirs, seen, path, hits[..|hits| - 1], decode);
      if o.result.Err? then (o, s)
      else HitStep(o.files, o.dirs, s, path, hits[|hits| - 1], decode)
  }

  /** Lines 93-171 for one template: nothing when the search finds no
      hit; otherwise the hits, then the method index of the template. */
  function PathOutcome(files: map<Path, Value>, dirs: set<Path>, seen: set<Triple>, path: string, hits: seq<Hit>,
                       decode: string -> Option<Json>): (Outcome, set<Triple>)
  {
    if |hits| == 0 then (Outcome(Ok(()), files, dirs), seen)
    else
      var (o, s) := HitsFold(files, dirs, seen, path, hits, decode);
      (Then(o, MethodPatternDest(path), Ok(EndpointMethodIndex(o.files.Keys + o.dirs, EndpointDir(path)))), s)
  }

  /** The loop over the templates, stopped by the first error. */
  function PathsFold(files: map<Path, Value>, dirs: set<Path>, seen: set<Triple>, paths: seq<string>,
                     search: string -> seq<Hit>, decode: string -> Option<Json>): (r: (Outcome, set<Triple>))
    ensures forall t :: t in r.1 && t !in seen ==> t.path in paths
    decreases |paths|
  {
    if |paths| == 0 then (Outcome(Ok(()), files, dirs), seen)
    else
      var (o, s) := PathsFold(files, dirs, seen, paths[..|paths| - 1], search, decode);
      if o.result.Err? then (o, s)
      else PathOutcome(o.files, o.dirs, s, paths[|paths| - 1], search(paths[|paths| - 1]), decode)
  }

  /** Lines 92-172: the templates in turn, starting from an empty
      `pattern_set`, then the path index. */
  function PathsWritten(files: map<Path, Value>, dirs: set<Path>, raws: seq<string>,
                        search: string -> seq<Hit>, decode: string -> Option<Json>): Outcome
  {
    var (o, _) := PathsFold(files, dirs, {}, Templates(RequestPaths(raws)), search, decode);
    if o.result.Err? then o
    else Written(o.files, o.dirs, EndpointIndexDest, EndpointIndex(o.dirs))
  }

  /** The environment the root document is described from: `OAS_VERSION`,
      `OAS_TITLE`, `OAS_DESCRIPTION` and the comma-separated
      `OAS_SERVER_URLS`. */
  datatype Settings = Settings(version: string, title: string, description: string, serverUrls: string)

  /** Lines 174-188: the schema index (its glob read in `order`), then the
      root document, whose components hold the schema index read back
      from its file. */
  function RootWritten(files: map<Path, Value>, dirs: set<Path>, order: seq<Path>, env: Settings): Outcome {
    var schemas := SchemaIndexValue(files, order);
    var o := EnsuredWritten(files, dirs, SchemaIndexDest, schemas);
    if o.result.Err? then o
    else
      Written(o.files, o.dirs, IndexDest,
              Ok(IndexDocument("3.0.0", env.version, env.title, env.description, Split(env.serverUrls, ','),
                               map["schemas" := schemas.value])))
  }

  /** The whole run from the recorded paths to the root document. */
  function RunOutcome(files: map<Path, Value>, dirs: set<Path>, raws: seq<string>, search: string -> seq<Hit>,
                      decode: string -> Option<Json>, env: Settings, order: seq<Path>): (r: Outcome)
    ensures r.result.Ok? ==> IndexDest in r.files && EndpointIndexDest in r.files && SchemaIndexDest in r.files
  {
    var o := PathsWritten(files, dirs, raws, search, decode);
    if o.result.Err? then o else RootWritten(o.files, o.dirs, order, env)
  }

  // ---------------------------------------------------------------------
  // What a run promises

  /** The files after an operation: none removed, and none changed
      outside `ks`. */
  predicate Confined(files: map<Path, Value>, o: Outcome, ks: set<Path>) {
    files.Keys <= o.files.Keys && forall k :: k in o.files && k !in ks ==> k in files && o.files[k] == files[k]
  }

  lemma ConfinedTrans(files: map<Path, Value>, o1: Outcome, o2: Outcome, ks1: set<Path>, ks2: set<Path>)
    requires Confined(files, o1, ks1) && Confined(o1.files, o2, ks2)
    ensures Confined(files, o2, ks1 + ks2)
  {
  }

  /** A step of the driver is confined to its destination, which holds
      the content when the step succeeds; a step after a failure does
      nothing. */
  lemma ThenFrame(o: Outcome, k: Path, content: Result<Value>)
    requires |k| > 0
    ensures Confined(o.files, Then(o, k, content), {k})
    ensures Then(o, k, content).result.Ok? ==> o.result.Ok? && content.Ok? && k in Then(o, k, content).files
                                               && Then(o, k, content).files[k] == content.value
    ensures o.result.Err? ==> Then(o, k, content) == o
  {
  }

  /** The same for a guarded step, which does nothing when its guard is
      false. */
  lemma ThenIfFrame(o: Outcome, guard: bool, k: Path, content: Result<Value>)
    requires |k| > 0
    ensures Confined(o.files, ThenIf(o, guard, k, content), if guard then {k} else {})
    ensures ThenIf(o, guard, k, content).result.Ok? ==> o.result.Ok?
    ensures ThenIf(o, guard, k, content).result.Ok? && guard ==>
              content.Ok? && k in ThenIf(o, guard, k, content).files && ThenIf(o, guard, k, content).files[k] == content.value
    ensures !guard ==> ThenIf(o, guard, k, content) == o
  {
    ThenFrame(o, k, content);
  }

  /** Two guarded steps on different destinations: each is written
      exactly when its guard holds, and nothing else changes. */
  lemma GuardedPairFrame(o: Outcome, g1: bool, k1: Path, c1: Result<Value>, g2: bool, k2: Path, c2: Result<Value>)
    requires |k1| > 0 && |k2| > 0 && k1 != k2
    ensures var r := ThenIf(ThenIf(o, g1, k1, c1), g2, k2, c2);
            Confined(o.files, r, (if g1 then {k1} else {}) + (if g2 then {k2} else {}))
            && (!g1 && !g2 ==> r == o)
            && (r.result.Ok? ==> o.result.Ok?)
            && (r.result.Ok? && g1 ==> c1.Ok? && k1 in r.files && r.files[k1] == c1.value)
            && (r.result.Ok? && g2 ==> c2.Ok? && k2 in r.files && r.files[k2] == c2.value)
  {
    ThenIfFrame(o, g1, k1, c1);
    var o1 := ThenIf(o, g1, k1, c1);
    ThenIfFrame(o1, g2, k2, c2);
    ConfinedTrans(o.files, o1, ThenIf(o1, g2, k2, c2), if g1 then {k1} else {}, if g2 then {k2} else {});
  }

  /** The files `write_schemas` writes: the request-body schema exactly
      when there is request content, the response schema exactly when the
      response is a non-empty dict or list. */
  function SchemaDests(path: string, d: Decoded): set<Path> {
    (if Truthy(d.request) then {BodyDest(path, d.m)} else {})
    + (if HasBody(d.response) then {ResponseSchemaDest(path, d.m, d.status)} else {})
  }

  /** `write_schemas` changes only the schemas its guards select (and so
      nothing at all when neither guard holds), and when it succeeds they
      hold the schemas of the decoded content. */
  lemma SchemasEffect(files: map<Path, Value>, dirs: set<Path>, path: string, d: Decoded)
    ensures Confined(files, SchemasOutcome(files, dirs, path, d), SchemaDests(path, d))
    ensures !Truthy(d.request) && !HasBody(d.response) ==> SchemasOutcome(files, dirs, path, d) == Outcome(Ok(()), files, dirs)
    ensures var o := SchemasOutcome(files, dirs, path, d);
            (o.result.Ok? && Truthy(d.request) ==>
               BodyDest(path, d.m) in o.files && o.files[BodyDest(path, d.m)] == BodySchema(d.request).value)
            && (o.result.Ok? && HasBody(d.response) ==>
                  ResponseSchemaDest(path, d.m, d.status) in o.files
                  && o.files[ResponseSchemaDest(path, d.m, d.status)] == BodySchema(d.response).value)
  {
    assert |ResponseSchemaDest(path, d.m, d.status)| != |BodyDest(path, d.m)|;
    GuardedPairFrame(Outcome(Ok(()), files, dirs), Truthy(d.request), BodyDest(path, d.m), BodySchema(d.request),
                     HasBody(d.response), ResponseSchemaDest(path, d.m, d.status), BodySchema(d.response));
  }

  /** The steps after `write_schemas` are confined to their three
      destinations, which all exist once they succeed. */
  lemma StepsFrame(o1: Outcome, k2: Path, c2: Result<Value>, k3: Path, dir3: Path, k4: Path, c4: Result<Value>)
    requires |k2| > 0 && |k3| > 0 && |k4| > 0
    ensures Confined(o1.files, Steps(o1, k2, c2, k3, dir3, k4, c4), {k2, k3, k4})
    ensures Steps(o1, k2, c2, k3, dir3, k4, c4).result.Ok? ==>
              o1.result.Ok? && k2 in Steps(o1, k2, c2, k3, dir3, k4, c4).files
              && k3 in Steps(o1, k2, c2, k3, dir3, k4, c4).files && k4 in Steps(o1, k2, c2, k3, dir3, k4, c4).files
  {
    ThenFrame(o1, k2, c2);
    var o2 := Then(o1, k2, c2);
    var c3 := Ok(ResponseIndex(o2.files.Keys + o2.dirs, dir3));
    ThenFrame(o2, k3, c3);
    var o3 := Then(o2, k3, c3);
    ConfinedTrans(o1.files, o2, o3, {k2}, {k3});
    ThenFrame(o3, k4, c4);
    ConfinedTrans(o1.files, o3, Then(o3, k4, c4), {k2} + {k3}, {k4});
    assert {k2} + {k3} + {k4} == {k2, k3, k4};
  }

  /** The files one hit may write. */
  function HitDests(path: string, d: Decoded): set<Path> {
    SchemaDests(path, d) + {ResponseDest(path, d.m, d.status), PatternDest(path, d.m), MethodDest(path, d.m)}
  }

  /** A new hit writes its own fragments and nothing else, and after it
      succeeds its response, response index and method fragments
      exist. */
  lemma HitFrame(files: map<Path, Value>, dirs: set<Path>, path: string, d: Decoded)
    ensures Confined(files, HitOutcome(files, dirs, path, d), HitDests(path, d))
    ensures var o := HitOutcome(files, dirs, path, d);
            o.result.Ok? ==> ResponseDest(path, d.m, d.status) in o.files && PatternDest(path, d.m) in o.files
                             && MethodDest(path, d.m) in o.files
  {
    SchemasEffect(files, dirs, path, d);
    var o1 := SchemasOutcome(files, dirs, path, d);
    StepsFrame(o1, ResponseDest(path, d.m, d.status), ResponseFragment(d.m, path, d.status, d.response),
               PatternDest(path, d.m), ResponsesDir(path, d.m),
               MethodDest(path, d.m), MethodFragment(d.m, path, d.query, d.request));
    ConfinedTrans(files, o1, HitOutcome(files, dirs, path, d), SchemaDests(path, d),
                  {ResponseDest(path, d.m, d.status), PatternDest(path, d.m), MethodDest(path, d.m)});
  }

  /** The response-content file of a triple. */
  function TripleDest(t: Triple): Path {
    EndpointDir(t.path) + [t.methodValue, "responses", IntToString(t.status), "_index.yml"]
  }

  /** The hit decodes and its triple is recorded in `s`. */
  predicate Done(path: string, hit: Hit, decode: string -> Option<Json>, s: set<Triple>) {
    DecodeHit(hit, decode).Ok? && TripleOf(path, DecodeHit(hit, decode).value) in s
  }

  /** Every hit decoded, and its triple recorded in `s`. */
  predicate Handled(path: string, hits: seq<Hit>, decode: string -> Option<Json>, s: set<Triple>) {
    forall i :: 0 <= i < |hits| ==> Done(path, hits[i], decode, s)
  }

  /** Every triple recorded since `seen` has its response-content file. */
  predicate Recorded(seen: set<Triple>, s: set<Triple>, files: map<Path, Value>) {
    forall t :: t in s - seen ==> TripleDest(t) in files
  }

  /** One turn of the loop over the hits keeps the invariant of the loop:
      see `HitsFoldGrows`, `HitsFoldHandled` and `HitsFoldRecorded`. */
  lemma HitStepInvariant(files: map<Path, Value>, dirs: set<Path>, seen: set<Triple>, path: string, hit: Hit,
                         decode: string -> Option<Json>)
    ensures var (o, s) := HitStep(files, dirs, seen, path, hit, decode);
            seen <= s && files.Keys <= o.files.Keys
            && (o.result.Ok? ==> Done(path, hit, decode, s) && Recorded(seen, s, o.files))
  {
    match DecodeHit(hit, decode)
    case Err(_) =>
    case Ok(d) =>
      if TripleOf(path, d) !in seen {
        HitFresh(files, dirs, seen, path, d);
      }
  }

  /** A hit whose triple is new keeps every file and, when it succeeds,
      leaves the response-content file of its triple. */
  lemma HitFresh(files: map<Path, Value>, dirs: set<Path>, seen: set<Triple>, path: string, d: Decoded)
    requires TripleOf(path, d) !in seen
    ensures var o := HitOutcome(files, dirs, path, d);
            files.Keys <= o.files.Keys && (o.result.Ok? ==> Recorded(seen, seen + {TripleOf(path, d)}, o.files))
  {
    HitFrame(files, dirs, path, d);
    var o := HitOutcome(files, dirs, path, d);
    if o.result.Ok? {
      assert TripleDest(TripleOf(path, d)) == ResponseDest(path, d.m, d.status);
      RecordedOne(seen, TripleOf(path, d), o.files);
    }
  }

  lemma RecordedOne(seen: set<Triple>, t: Triple, files: map<Path, Value>)
    requires TripleDest(t) in files
    ensures Recorded(seen, seen + {t}, files)
  {
  }

  lemma HandledExtend(path: string, hits: seq<Hit>, decode: string -> Option<Json>, s: set<Triple>, s': set<Triple>)
    requires |hits| > 0 && Handled(path, hits[..|hits| - 1], decode, s) && s <= s' && Done(path, hits[|hits| - 1], decode, s')
    ensures Handled(path, hits, decode, s')
  {
    forall i | 0 <= i < |hits| - 1 ensures Done(path, hits[i], decode, s') {
      assert hits[..|hits| - 1][i] == hits[i];
    }
  }

  lemma RecordedExtend(seen: set<Triple>, s: set<Triple>, s': set<Triple>, files: map<Path, Value>, files': map<Path, Value>)
    requires Recorded(seen, s, files) && files.Keys <= files'.Keys && Recorded(s, s', files')
    ensures Recorded(seen, s', files')
  {
    forall t | t in s' - seen ensures TripleDest(t) in files' {
      if t in s {
        assert TripleDest(t) in files;
      }
    }
  }

  /** The loop over the hits removes no file and `pattern_set` only
      grows. */
  lemma {:induction false} HitsFoldGrows(files: map<Path, Value>, dirs: set<Path>, seen: set<Triple>, path: string,
                                         hits: seq<Hit>, decode: string -> Option<Json>)
    ensures var (o, s) := HitsFold(files, dirs, seen, path, hits, decode);
            seen <= s && files.Keys <= o.files.Keys
    decreases |hits|
  {
    if |hits| > 0 {
      var init := hits[..|hits| - 1];
      HitsFoldGrows(files, dirs, seen, path, init, decode);
      var (o, s) := HitsFold(files, dirs, seen, path, init, decode);
      HitStepInvariant(o.files, o.dirs, s, path, hits[|hits| - 1], decode);
    }
  }

  /** When the loop over the hits completes, every hit was decoded and
      its triple is in `pattern_set`. */
  lemma {:induction false} HitsFoldHandled(files: map<Path, Value>, dirs: set<Path>, seen: set<Triple>, path: string,
                                           hits: seq<Hit>, decode: string -> Option<Json>)
    ensures var (o, s) := HitsFold(files, dirs, seen, path, hits, decode);
            o.result.Ok? ==> Handled(path, hits, decode, s)
    decreases |hits|
  {
    if |hits| > 0 {
      var init, last := hits[..|hits| - 1], hits[|hits| - 1];
      HitsFoldHandled(files, dirs, seen, path, init, decode);
      var (o, s) := HitsFold(files, dirs, seen, path, init, decode);
      if o.result.Ok? {
        HitStepInvariant(o.files, o.dirs, s, path, last, decode);
        var (o', s') := HitStep(o.files, o.dirs, s, path, last, decode);
        if o'.result.Ok? {
          HandledExtend(path, hits, decode, s, s');
        }
      }
    }
  }

  /** When the loop over the hits completes, every triple it added to
      `pattern_set` has its response-content file. */
  lemma {:induction false} HitsFoldRecorded(files: map<Path, Value>, dirs: set<Path>, seen: set<Triple>, path: string,
                                            hits: seq<Hit>, decode: string -> Option<Json>)
    ensures var (o, s) := HitsFold(files, dirs, seen, path, hits, decode);
            o.result.Ok? ==> Recorded(seen, s, o.files)
    decreases |hits|
  {
    if |hits| > 0 {
      var init, last := hits[..|hits| - 1], hits[|hits| - 1];
      HitsFoldRecorded(files, dirs, seen, path, init, decode);
      var (o, s) := HitsFold(files, dirs, seen, path, init, decode);
      if o.result.Ok? {
        HitStepInvariant(o.files, o.dirs, s, path, last, decode);
        var (o', s') := HitStep(o.files, o.dirs, s, path, last, decode);
        if o'.result.Ok? {
          RecordedExtend(seen, s, s', o.files, o'.files);
        }
      }
    }
  }

  /** A hit whose triple was handled already changes nothing. */
  lemma HitStepSeen(o: Outcome, seen: set<Triple>, path: string, hit: Hit, decode: string -> Option<Json>)
    requires o.result.Ok? && Done(path, hit, decode, seen)
    ensures HitStep(o.files, o.dirs, seen, path, hit, decode) == (o, seen)
  {
    var d := DecodeHit(hit, decode).value;
    assert TripleOf(path, d) in seen;
    assert o.result.value == ();
  }

  lemma DoneInit(path: string, hits: seq<Hit>, init: seq<Hit>, n: nat, decode: string -> Option<Json>, s: set<Triple>)
    requires n < |hits| && init == hits[..|hits| - 1]
    requires forall i :: n <= i < |hits| ==> Done(path, hits[i], decode, s)
    ensures init[..n] == hits[..n]
    ensures forall i :: n <= i < |init| ==> Done(path, init[i], decode, s)
  {
  }

  /** At most once: once the first `n` hits are through, hits whose
      triples were all handled already leave the outcome of the loop as it
      was, so the first hit of a triple decides its fragments. */
  lemma {:induction false} DuplicatesChangeNothing(files: map<Path, Value>, dirs: set<Path>, seen: set<Triple>, path: string,
                                                   hits: seq<Hit>, n: nat, decode: string -> Option<Json>)
    requires n <= |hits| && HitsFold(files, dirs, seen, path, hits[..n], decode).0.result.Ok?
    requires forall i :: n <= i < |hits| ==> Done(path, hits[i], decode, HitsFold(files, dirs, seen, path, hits[..n], decode).1)
    ensures HitsFold(files, dirs, seen, path, hits, decode) == HitsFold(files, dirs, seen, path, hits[..n], decode)
    decreases |hits|
  {
    if n < |hits| {
      var (o, s) := HitsFold(files, dirs, seen, path, hits[..n], decode);
      var init := hits[..|hits| - 1];
      DoneInit(path, hits, init, n, decode, s);
      DuplicatesChangeNothing(files, dirs, seen, path, init, n, decode);
      HitStepSeen(o, s, path, hits[|hits| - 1], decode);
    } else {
      assert hits[..n] == hits;
    }
  }

  /** Replaying the hits of a template that was processed completely
      changes nothing. */
  lemma ReplayChangesNothing(files: map<Path, Value>, dirs: set<Path>, seen: set<Triple>, path: string,
                             hits: seq<Hit>, decode: string -> Option<Json>)
    requires HitsFold(files, dirs, seen, path, hits, decode).0.result.Ok?
    ensures HitsFold(files, dirs, seen, path, hits + hits, decode) == HitsFold(files, dirs, seen, path, hits, decode)
  {
    HitsFoldHandled(files, dirs, seen, path, hits, decode);
    var all := hits + hits;
    assert all[..|hits|] == hits;
    assert forall i :: |hits| <= i < |all| ==> all[i] == hits[i - |hits|];
    DuplicatesChangeNothing(files, dirs, seen, path, all, |hits|, decode);
  }

  /** After a template's hits, its method index lists every method that
      answered a hit with a three-digit status, each with a reference to
      its own fragment. */
  lemma MethodIndexListsHits(files: map<Path, Value>, dirs: set<Path>, seen: set<Triple>, path: string,
                             hits: seq<Hit>, decode: string -> Option<Json>, i: nat)
    requires forall t :: t in seen ==> t.path != path
    requires PathOutcome(files, dirs, seen, path, hits, decode).0.result.Ok?
    requires i < |hits| && DecodeHit(hits[i], decode).Ok? && 100 <= DecodeHit(hits[i], decode).value.status <= 999
    ensures var o := PathOutcome(files, dirs, seen, path, hits, decode).0;
            var m := DecodeHit(hits[i], decode).value.m;
            MethodPatternDest(path) in o.files
            && MethodValue(m) in o.files[MethodPatternDest(path)].entries
            && o.files[MethodPatternDest(path)].entries[MethodValue(m)] == Ref(MethodValue(m) + "/_index.yml")
  {
    HitsFoldHandled(files, dirs, seen, path, hits, decode);
    HitsFoldRecorded(files, dirs, seen, path, hits, decode);
    var (o, s) := HitsFold(files, dirs, seen, path, hits, decode);
    var d := DecodeHit(hits[i], decode).value;
    assert TripleOf(path, d) in s - seen;
    assert TripleDest(TripleOf(path, d)) == ResponseDest(path, d.m, d.status);
    ListsRespondingMethod(o.files.Keys + o.dirs, path, d.m, d.status);
    ThenFrame(o, MethodPatternDest(path), Ok(EndpointMethodIndex(o.files.Keys + o.dirs, EndpointDir(path))));
  }

  /** The driver hands the writers the template, so a new hit on a
      versioned template with a placeholder always fails: the method
      writer's `int` of the placeholder text raises ValueError, and the
      run stops there. */
  lemma TemplateHitFails(files: map<Path, Value>, dirs: set<Path>, path: string, d: Decoded)
    requires PathWithoutVersion(path).Some? && IsParameterized(path)
    ensures HitOutcome(files, dirs, path, d).result.Err?
  {
    var o1 := SchemasOutcome(files, dirs, path, d);
    var o2 := Then(o1, ResponseDest(path, d.m, d.status), ResponseFragment(d.m, path, d.status, d.response));
    var o3 := Then(o2, PatternDest(path, d.m), Ok(ResponseIndex(o2.files.Keys + o2.dirs, ResponsesDir(path, d.m))));
    TemplateFails(d.m, path, d.query, d.request);
    ThenFrame(o3, MethodDest(path, d.m), MethodFragment(d.m, path, d.query, d.request));
  }

  /** Across the templates `pattern_set` only grows and no file is
      removed. */
  lemma {:induction false} PathsFoldGrows(files: map<Path, Value>, dirs: set<Path>, seen: set<Triple>, paths: seq<string>,
                                          search: string -> seq<Hit>, decode: string -> Option<Json>)
    ensures var (o, s) := PathsFold(files, dirs, seen, paths, search, decode);
            seen <= s && files.Keys <= o.files.Keys
    decreases |paths|
  {
    if |paths| > 0 {
      var init, last := paths[..|paths| - 1], paths[|paths| - 1];
      PathsFoldGrows(files, dirs, seen, init, search, decode);
      var (o, s) := PathsFold(files, dirs, seen, init, search, decode);
      if o.result.Ok? && |search(last)| > 0 {
        HitsFoldGrows(o.files, o.dirs, s, last, search(last), decode);
        var (o', s') := HitsFold(o.files, o.dirs, s, last, search(last), decode);
        ThenFrame(o', MethodPatternDest(last), Ok(EndpointMethodIndex(o'.files.Keys + o'.dirs, EndpointDir(last))));
      }
    }
  }

  /** When the root document is written, it refers to the path index and
      embeds, under `components.schemas`, exactly what the schema-index
      file holds. */
  lemma RootEmbedsSchemaIndex(files: map<Path, Value>, dirs: set<Path>, order: seq<Path>, env: Settings)
    requires RootWritten(files, dirs, order, env).result.Ok?
    ensures var o := RootWritten(files, dirs, order, env);
            SchemaIndexDest in o.files && IndexDest in o.files
            && o.files[SchemaIndexDest] == SchemaIndexValue(files, order).value
            && o.files[IndexDest].entries["components"] == VMap(map["schemas" := o.files[SchemaIndexDest]])
            && o.files[IndexDest].entries["paths"] == Ref(Join(EndpointIndexDest, '/'))
  {
    assert IndexDest != SchemaIndexDest;
    PathsRefIsEndpointIndex();
  }

  // ---------------------------------------------------------------------
  // The driver's loops

  /** `write_schemas`. */
  method WriteSchemas(tree: Tree, path: string, d: Decoded) returns (r: Result<()>)
    requires tree.Valid()
    modifies tree
    ensures tree.Valid()
    ensures Outcome(r, tree.files, tree.dirs) == SchemasOutcome(old(tree.files), old(tree.dirs), path, d)
  {
    r := Ok(());
    if Truthy(d.request) {
      r := WriteBody(tree, path, d.m, d.request);
      if r.Err? {
        return;
      }
    }
    if HasBody(d.response) {
      r := WriteResponseSchema(tree, path, d.m, d.status, d.response);
    }
  }

  /** Lines 140-170: the writers run for a new triple. */
  method WriteHit(tree: Tree, path: string, d: Decoded) returns (r: Result<()>)
    requires tree.Valid()
    modifies tree
    ensures tree.Valid()
    ensures Outcome(r, tree.files, tree.dirs) == HitOutcome(old(tree.files), old(tree.dirs), path, d)
  {
    r := WriteSchemas(tree, path, d);
    if r.Err? {
      return;
    }
    r := WriteResponseContent(tree, path, d.m, d.status, d.response);
    if r.Err? {
      return;
    }
    r := WriteResponseIndex(tree, path, d.m);
    if r.Err? {
      return;
    }
    r := WriteMethod(tree, path, d.m, d.query, d.request);
  }

  /** The body of the loop over the hits (lines 110-170). */
  method ProcessHit(tree: Tree, seen: set<Triple>, path: string, hit: Hit, decode: string -> Option<Json>)
    returns (r: Result<()>, seen': set<Triple>)
    requires tree.Valid()
    modifies tree
    ensures tree.Valid()
    ensures (Outcome(r, tree.files, tree.dirs), seen') == HitStep(old(tree.files), old(tree.dirs), seen, path, hit, decode)
  {
    var decoded := DecodeHit(hit, decode);
    if decoded.Err? {
      return Err(decoded.error), seen;
    }
    var d := decoded.value;
    var pattern := Triple(path, MethodValue(d.m), d.status);
    if pattern in seen {
      return Ok(()), seen;
    }
    seen' := seen + {pattern};
    r := WriteHit(tree, path, d);
  }

  lemma {:induction false} HitsFoldErrStays(files: map<Path, Value>, dirs: set<Path>, seen: set<Triple>, path: string,
                                            hits: seq<Hit>, n: nat, decode: string -> Option<Json>)
    requires n <= |hits| && HitsFold(files, dirs, seen, path, hits[..n], decode).0.result.Err?
    ensures HitsFold(files, dirs, seen, path, hits, decode) == HitsFold(files, dirs, seen, path, hits[..n], decode)
    decreases |hits|
  {
    if n < |hits| {
      var init := hits[..|hits| - 1];
      assert init[..n] == hits[..n];
      HitsFoldErrStays(files, dirs, seen, path, init, n, decode);
    } else {
      assert hits[..n] == hits;
    }
  }

  /** Lines 93-171 for one template. */
  method ProcessPath(tree: Tree, seen: set<Triple>, path: string, hits: seq<Hit>, decode: string -> Option<Json>)
    returns (r: Result<()>, seen': set<Triple>)
    requires tree.Valid()
    modifies tree
    ensures tree.Valid()
    ensures (Outcome(r, tree.files, tree.dirs), seen') == PathOutcome(old(tree.files), old(tree.dirs), seen, path, hits, decode)
  {
    r, seen' := Ok(()), seen;
    if |hits| == 0 {
      return;
    }
    for i := 0 to |hits|
      invariant tree.Valid()
      invariant (Outcome(r, tree.files, tree.dirs), seen') == HitsFold(old(tree.files), old(tree.dirs), seen, path, hits[..i], decode)
      invariant r.Ok?
    {
      HitsFoldNext(old(tree.files), old(tree.dirs), seen, path, hits, i, decode);
      r, seen' := ProcessHit(tree, seen', path, hits[i], decode);
      if r.Err? {
        HitsFoldErrStays(old(tree.files), old(tree.dirs), seen, path, hits, i + 1, decode);
        return;
      }
    }
    assert hits[..|hits|] == hits;
    r := WriteMethodIndex(tree, path);
  }

  /** One more turn of the loop over the hits, on a prefix. */
  lemma HitsFoldNext(files: map<Path, Value>, dirs: set<Path>, seen: set<Triple>, path: string, hits: seq<Hit>,
                     i: nat, decode: string -> Option<Json>)
    requires i < |hits|
    ensures var (o, s) := HitsFold(files, dirs, seen, path, hits[..i], decode);
            HitsFold(files, dirs, seen, path, hits[..i + 1], decode)
            == if o.result.Err? then (o, s) else HitStep(o.files, o.dirs, s, path, hits[i], decode)
  {
    assert hits[..i + 1][..i] == hits[..i];
  }

  /** One more turn of the loop over the templates, on a prefix. */
  lemma PathsFoldNext(files: map<Path, Value>, dirs: set<Path>, seen: set<Triple>, paths: seq<string>,
                      i: nat, search: string -> seq<Hit>, decode: string -> Option<Json>)
    requires i < |paths|
    ensures var (o, s) := PathsFold(files, dirs, seen, paths[..i], search, decode);
            PathsFold(files, dirs, seen, paths[..i + 1], search, decode)
            == if o.result.Err? then (o, s) else PathOutcome(o.files, o.dirs, s, paths[i], search(paths[i]), decode)
  {
    assert paths[..i + 1][..i] == paths[..i];
  }

  lemma {:induction false} PathsFoldErrStays(files: map<Path, Value>, dirs: set<Path>, seen: set<Triple>, paths: seq<string>,
                                             n: nat, search: string -> seq<Hit>, decode: string -> Option<Json>)
    requires n <= |paths| && PathsFold(files, dirs, seen, paths[..n], search, decode).0.result.Err?
    ensures PathsFold(files, dirs, seen, paths, search, decode) == PathsFold(files, dirs, seen, paths[..n], search, decode)
    decreases |paths|
  {
    if n < |paths| {
      var init := paths[..|paths| - 1];
      assert init[..n] == paths[..n];
      PathsFoldErrStays(files, dirs, seen, init, n, search, decode);
    } else {
      assert paths[..n] == paths;
    }
  }

  /** The loop over the templates (lines 92-171). */
  method ProcessPaths(tree: Tree, paths: seq<string>, search: string -> seq<Hit>, decode: string -> Option<Json>)
    returns (r: Result<()>)
    requires tree.Valid()
    modifies tree
    ensures tree.Valid()
    ensures Outcome(r, tree.files, tree.dirs) == PathsFold(old(tree.files), old(tree.dirs), {}, paths, search, decode).0
  {
    var seen: set<Triple> := {};
    r := Ok(());
    for i := 0 to |paths|
      invariant tree.Valid()
      invariant (Outcome(r, tree.files, tree.dirs), seen) == PathsFold(old(tree.files), old(tree.dirs), {}, paths[..i], search, decode)
      invariant r.Ok?
    {
      PathsFoldNext(old(tree.files), old(tree.dirs), {}, paths, i, search, decode);
      r, seen := ProcessPath(tree, seen, paths[i], search(paths[i]), decode);
      if r.Err? {
        PathsFoldErrStays(old(tree.files), old(tree.dirs), {}, paths, i + 1, search, decode);
        return;
      }
    }
    assert paths[..|paths|] == paths;
  }

  /** Lines 174-188: the schema index, then the root document with the
      schema index read back from its file. */
  method WriteRoot(tree: Tree, env: Settings) returns (r: Result<()>, order: seq<Path>)
    requires tree.Valid()
    modifies tree
    ensures tree.Valid()
    ensures MkdirResult(old(tree.files), SchemaRoot).Ok? ==> Enumerates(order, GlobYml(old(tree.Entries()), SchemaRoot))
    ensures Outcome(r, tree.files, tree.dirs) == RootWritten(old(tree.files), old(tree.dirs), order, env)
  {
    ghost var files0, dirs0 := tree.files, tree.dirs;
    r, order := WriteSchemaIndex(tree);
    if r.Err? {
      return;
    }
    EnsuredFrame(files0, dirs0, SchemaIndexDest, SchemaIndexValue(files0, order));
    var schemas := tree.files[SchemaIndexDest];
    r := WriteIndex(tree, "3.0.0", env.version, env.title, env.description, Split(env.serverUrls, ','),
                    map["schemas" := schemas]);
  }

  /** `main` from the aggregation of recorded paths on: `order` is the
      order in which the schema-index glob yields the schema files. */
  method Run(tree: Tree, raws: seq<string>, search: string -> seq<Hit>, decode: string -> Option<Json>, env: Settings)
    returns (r: Result<()>, order: seq<Path>)
    requires tree.Valid()
    modifies tree
    ensures tree.Valid()
    ensures Outcome(r, tree.files, tree.dirs) == RunOutcome(old(tree.files), old(tree.dirs), raws, search, decode, env, order)
    ensures var o := PathsWritten(old(tree.files), old(tree.dirs), raws, search, decode);
            o.result.Ok? && MkdirResult(o.files, SchemaRoot).Ok? ==> Enumerates(order, GlobYml(o.files.Keys + o.dirs, SchemaRoot))
  {
    order := [];
    var paths := GroupPaths(raws);
    r := ProcessPaths(tree, paths, search, decode);
    if r.Err? {
      return;
    }
    r := WriteEndpointIndex(tree);
    if r.Err? {
      return;
    }
    r, order := WriteRoot(tree, env);
  }
}
