/** `build_operation_id` and `build_schema_identifier` of oasbuilder/utils:
    the camel-case names that tie the method fragments, the response
    fragments and the schema index together. */
module Identifiers {
  import opened Wrappers
  import opened Strings
  import opened Models
  import opened Paths

  // ---------------------------------------------------------------------
  // The version prefix `^/v[\d]+/`

  /** The length of the run of digits that starts `s`. */
  function DigitRunLen(s: string): (k: nat)
    ensures k <= |s|
    ensures forall j :: 0 <= j < k ==> IsDigit(s[j])
    ensures k < |s| ==> !IsDigit(s[k])
  {
    if |s| > 0 && IsDigit(s[0]) then 1 + DigitRunLen(s[1..]) else 0
  }

  /** "/v", digits, "/". */
  predicate IsVersionPrefix(p: string) {
    |p| >= 4 && p[0] == '/' && p[1] == 'v' && IsDigits(p[2..|p| - 1]) && p[|p| - 1] == '/'
  }

  /** The `path` group of `^/v[\d]+/(?P<path>.+)`, or None when the match
      fails (the source then raises AttributeError on `None.group`). */
  function PathWithoutVersion(path: string): (r: Option<string>)
    ensures r.Some? ==> 0 < |r.value| < |path| && EndsWith(path, r.value)
                        && IsVersionPrefix(path[..|path| - |r.value|])
  {
    if |path| >= 2 && path[0] == '/' && path[1] == 'v' then
      var k := DigitRunLen(path[2..]);
      if k >= 1 && 3 + k < |path| && path[2 + k] == '/' then
        assert path[..3 + k][2..2 + k] == path[2..][..k];
        assert path[|path| - |path[3 + k..]|..] == path[3 + k..];
        Some(path[3 + k..])
      else None
    else None
  }

  lemma {:induction false} DigitRunExact(d: string, c: char, b: string)
    requires forall j :: 0 <= j < |d| ==> IsDigit(d[j])
    requires !IsDigit(c)
    ensures DigitRunLen(d + [c] + b) == |d|
    decreases |d|
  {
    if |d| > 0 {
      assert (d + [c] + b)[1..] == d[1..] + [c] + b;
      DigitRunExact(d[1..], c, b);
    }
  }

  /** Every version prefix followed by text matches, and the group is that
      text: with the ensures above, the match succeeds exactly on such
      paths. */
  lemma VersionPrefixMatches(p: string, rest: string)
    requires IsVersionPrefix(p) && |rest| > 0
    ensures PathWithoutVersion(p + rest) == Some(rest)
  {
    var path := p + rest;
    var d := p[2..|p| - 1];
    assert path[2..] == d + ['/'] + rest;
    DigitRunExact(d, '/', rest);
    assert path[|p|..] == rest;
  }

  // ---------------------------------------------------------------------
  // The unanchored pattern `{(?P<res_id>.*_?id)}`

  /** The largest q with lo <= q <= hi at which "id}" occurs in `s`. */
  function LastIdClose(s: string, hi: int, lo: int): (r: Option<nat>)
    ensures r.Some? ==> lo <= r.value <= hi && OccursAt("id}", s, r.value)
    ensures r.Some? ==> forall q :: r.value < q <= hi ==> !OccursAt("id}", s, q)
    ensures r.None? ==> forall q :: lo <= q <= hi ==> !OccursAt("id}", s, q)
    decreases hi - lo
  {
    if hi < lo then None
    else if OccursAt("id}", s, hi) then Some(hi)
    else LastIdClose(s, hi - 1, lo)
  }

  /** The end of the match of `{(.*_?id)}` at the start of `s`: the greedy
      `.*` reaches the last "id}" of the text. */
  function ParamMatchAt(s: string): (r: Option<nat>)
    ensures r.Some? ==> |s| > 0 && s[0] == '{' && 1 <= r.value && OccursAt("id}", s, r.value)
  {
    if |s| > 0 && s[0] == '{' then LastIdClose(s, |s| - 3, 1) else None
  }

  /** `rex_path_param.match(s)` succeeds. */
  predicate StartsParam(s: string) {
    ParamMatchAt(s).Some?
  }

  /** `rex_path_param.findall(s)`: the `res_id` group of each match, left
      to right, scanning on after the end of each match. Every name ends
      in "id", and text without "{" has none. */
  function FindParamNames(s: string): (r: seq<string>)
    ensures forall i :: 0 <= i < |r| ==> EndsWith(r[i], "id")
    ensures '{' !in s ==> r == []
    decreases |s|
  {
    if |s| == 0 then []
    else
      match ParamMatchAt(s)
      case Some(q) =>
        var name := s[1..q + 2];
        NameEndsInId(s, q);
        [name] + FindParamNames(s[q + 3..])
      case None =>
        assert '{' !in s ==> '{' !in s[1..] by {
          forall i | 0 <= i < |s| - 1 ensures s[1..][i] == s[i + 1] { }
        }
        FindParamNames(s[1..])
  }

  /** The text from after "{" up to an "id}" at `q` ends in "id". */
  lemma NameEndsInId(s: string, q: nat)
    requires 1 <= q && OccursAt("id}", s, q)
    ensures EndsWith(s[1..q + 2], "id")
  {
    var name := s[1..q + 2];
    assert s[q..q + 3][0] == s[q] == 'i' && s[q..q + 3][1] == s[q + 1] == 'd';
    assert name[|name| - 2] == s[q] && name[|name| - 1] == s[q + 1];
    assert name[|name| - 2..] == ['i', 'd'];
  }

  /** Text without "{" in front of the rest adds no name. */
  lemma {:induction false} FindAfterNoBrace(a: string, b: string)
    requires '{' !in a
    ensures FindParamNames(a + b) == FindParamNames(b)
    decreases |a|
  {
    if |a| == 0 {
      assert a + b == b;
    } else {
      assert (a + b)[0] == a[0];
      assert (a + b)[1..] == a[1..] + b;
      FindAfterNoBrace(a[1..], b);
    }
  }

  /** One placeholder followed by text without braces gives its name. */
  lemma FindOneName(name: string, b: string)
    requires |name| >= 2 && EndsWith(name, "id") && '{' !in b && '}' !in b
    ensures FindParamNames("{" + name + "}" + b) == [name]
  {
    var s := "{" + name + "}" + b;
    assert s[1..|name| + 1] == name && s[|name| + 1] == '}' && s[|name| + 2..] == b;
    FindOneAt(s, |name|);
  }

  /** The same on the text itself: "{" at 0, a name ending in "id" up to
      `n`, "}" at n + 1, then no brace. */
  lemma FindOneAt(s: string, n: nat)
    requires 2 <= n && n + 2 <= |s| && s[0] == '{' && s[n + 1] == '}'
    requires s[n - 1] == 'i' && s[n] == 'd'
    requires forall i :: n + 2 <= i < |s| ==> s[i] != '{' && s[i] != '}'
    ensures FindParamNames(s) == [s[1..n + 1]]
  {
    OneMatchAt(s, n);
    var tail := s[n + 2..];
    assert '{' !in tail by {
      forall i | 0 <= i < |tail| ensures tail[i] != '{' {
        assert tail[i] == s[n + 2 + i];
      }
    }
  }

  /** Under the same conditions the match at the start ends at the "id}"
      that closes the name. */
  lemma OneMatchAt(s: string, n: nat)
    requires 2 <= n && n + 2 <= |s| && s[0] == '{' && s[n + 1] == '}'
    requires s[n - 1] == 'i' && s[n] == 'd'
    requires forall i :: n + 2 <= i < |s| ==> s[i] != '{' && s[i] != '}'
    ensures ParamMatchAt(s) == Some(n - 1)
  {
    var q0 := n - 1;
    assert OccursAt("id}", s, q0) by {
      assert s[q0..q0 + 3] == [s[n - 1], s[n], s[n + 1]];
    }
    forall q | q0 < q <= |s| - 3 ensures !OccursAt("id}", s, q) {
      assert s[q + 2] != '}';
      assert s[q..q + 3][2] == s[q + 2];
    }
    LastIdCloseAt(s, |s| - 3, 1, q0);
  }

  /** The search stops at the last "id}" in its range. */
  lemma {:induction false} LastIdCloseAt(s: string, hi: int, lo: int, q0: nat)
    requires lo <= q0 <= hi && OccursAt("id}", s, q0)
    requires forall q :: q0 < q <= hi ==> !OccursAt("id}", s, q)
    ensures LastIdClose(s, hi, lo) == Some(q0)
    decreases hi - lo
  {
    if hi > q0 {
      LastIdCloseAt(s, hi - 1, lo, q0);
    }
  }

  /** The greedy `.*` runs on to the last "id}": two placeholders, in one
      segment (`mid` empty, as in "{a_id}{b_id}") or in two, give a single
      name that spans both. */
  lemma FindMergedNames(n1: string, mid: string, n2: string, b: string)
    requires |n2| >= 2 && EndsWith(n2, "id") && '{' !in b && '}' !in b
    ensures FindParamNames("{" + n1 + "}" + mid + "{" + n2 + "}" + b) == [n1 + "}" + mid + "{" + n2]
  {
    var name := n1 + "}" + mid + "{" + n2;
    assert "{" + n1 + "}" + mid + "{" + n2 + "}" + b == "{" + name + "}" + b;
    assert name[|name| - 2..] == n2[|n2| - 2..];
    FindOneName(name, b);
  }

  // ---------------------------------------------------------------------
  // build_operation_id

  /** `[k for k in path_params if s[:-1] in k]` is not empty. */
  predicate NamesContain(names: seq<string>, t: string) {
    exists i :: 0 <= i < |names| && IsSubstring(t, names[i])
  }

  /** The word of one segment: capitalised, without its last character when
      the rest of it is part of a path-parameter name. */
  function Word(s: string, names: seq<string>): (r: string)
    ensures NamesContain(names, DropLast(s)) ==> r == DropLast(Capitalize(s))
    ensures !NamesContain(names, DropLast(s)) ==> r == Capitalize(s)
  {
    if NamesContain(names, DropLast(s)) then DropLast(Capitalize(s)) else Capitalize(s)
  }

  /** The word of each segment, in order. */
  function WordsOf(segs: seq<string>, names: seq<string>): (r: seq<string>)
    ensures |r| == |segs| && forall i :: 0 <= i < |segs| ==> r[i] == Word(segs[i], names)
  {
    if |segs| == 0 then [] else [Word(segs[0], names)] + WordsOf(segs[1..], names)
  }

  /** `"".join` of a list of words. */
  function Concat(ws: seq<string>): string {
    if |ws| == 0 then "" else ws[0] + Concat(ws[1..])
  }

  /** `"".join` of the words of the segments. */
  function Words(segs: seq<string>, names: seq<string>): string {
    Concat(WordsOf(segs, names))
  }

  /** Joining two lists of words joins their texts. */
  lemma {:induction false} ConcatAppend(xs: seq<string>, ys: seq<string>)
    ensures Concat(xs + ys) == Concat(xs) + Concat(ys)
    decreases |xs|
  {
    if |xs| == 0 {
      assert xs + ys == ys;
    } else {
      assert (xs + ys)[1..] == xs[1..] + ys;
      ConcatAppend(xs[1..], ys);
    }
  }

  /** The words of two runs of segments are the words of each, in order. */
  lemma WordsAppend(xs: seq<string>, ys: seq<string>, names: seq<string>)
    ensures Words(xs + ys, names) == Words(xs, names) + Words(ys, names)
  {
    assert WordsOf(xs + ys, names) == WordsOf(xs, names) + WordsOf(ys, names);
    ConcatAppend(WordsOf(xs, names), WordsOf(ys, names));
  }

  /** The words of a single segment are its word. */
  lemma WordsOne(a: string, names: seq<string>)
    ensures Words([a], names) == Word(a, names)
  {
    var ws := WordsOf([a], names);
    assert |ws| == 1 && ws[0] == Word(a, names);
    ConcatOne(ws);
  }

  /** The text of a one-word list is that word. */
  lemma ConcatOne(ws: seq<string>)
    requires |ws| == 1
    ensures Concat(ws) == ws[0]
  {
    assert ws[1..] == [];
  }

  /** The segments `rex_path_param.match` does not accept. */
  function NonParamSegments(segs: seq<string>): (r: seq<string>)
    ensures forall i :: 0 <= i < |r| ==> !StartsParam(r[i])
    ensures forall x :: x in r <==> x in segs && !StartsParam(x)
  {
    if |segs| == 0 then []
    else if StartsParam(segs[0]) then NonParamSegments(segs[1..])
    else [segs[0]] + NonParamSegments(segs[1..])
  }

  /** The segments that are not all digits. */
  function NonDigitSegments(segs: seq<string>): (r: seq<string>)
    ensures forall i :: 0 <= i < |r| ==> !IsDigits(r[i])
    ensures forall x :: x in r <==> x in segs && !IsDigits(x)
  {
    if |segs| == 0 then []
    else if IsDigits(segs[0]) then NonDigitSegments(segs[1..])
    else [segs[0]] + NonDigitSegments(segs[1..])
  }

  /** `"".join(x.capitalize() for x in xs)`. */
  function CapitalizeAll(xs: seq<string>): string {
    if |xs| == 0 then "" else Capitalize(xs[0]) + CapitalizeAll(xs[1..])
  }

  /** The last step of `build_operation_id`: text with "_" is split at
      each "_" and every piece after the first is capitalised. No "_" is
      left, and text without one is kept as it is. */
  function CamelCase(opid: string): (r: string)
    ensures '_' !in r
    ensures '_' !in opid ==> r == opid
  {
    if '_' !in opid then opid
    else
      var parts := Split(opid, '_');
      CapitalizeAllNoUnderscore(parts[1..]);
      parts[0] + CapitalizeAll(parts[1..])
  }

  /** `build_operation_id`. A path without a version prefix raises
      AttributeError; otherwise the identifier is the method value and the
      words of the segments after the prefix, camel-cased. */
  function OperationId(m: HTTPMethod, path: string): (r: Result<string>)
    ensures r.Err? <==> PathWithoutVersion(path).None?
    ensures r.Err? ==> r.error == AttributeError
    ensures r.Ok? ==> '_' !in r.value && StartsWith(r.value, MethodValue(m))
    ensures r.Ok? ==> r.value == CamelCase(MethodValue(m) + OperationWords(path, PathWithoutVersion(path).value))
  {
    match PathWithoutVersion(path)
    case None => Err(AttributeError)
    case Some(rest) =>
      var words := OperationWords(path, rest);
      CamelCaseKeepsPrefix(MethodValue(m), words);
      Ok(CamelCase(MethodValue(m) + words))
  }

  /** The joined `operation_res` of `build_operation_id` for the path and
      its text after the version prefix: a parameterised path takes its
      names from `findall` and drops its placeholder segments; any other
      path takes them from `build_path_params`, which then succeeds, and
      drops its numeric segments. */
  function OperationWords(path: string, rest: string): (r: string)
    ensures IsParameterized(path) ==> r == Words(NonParamSegments(Split(rest, '/')), FindParamNames(path))
    ensures !IsParameterized(path) ==> PathParams(path).Ok?
                                       && r == Words(NonDigitSegments(Split(rest, '/')), DictKeys(PathParams(path).value))
  {
    PathParamsOk(path);
    var segs := Split(rest, '/');
    if IsParameterized(path) then
      Words(NonParamSegments(segs), FindParamNames(path))
    else
      Words(NonDigitSegments(segs), DictKeys(PathParams(path).value))
  }

  lemma {:induction false} CapitalizeAllNoUnderscore(xs: seq<string>)
    requires NoneContains(xs, '_')
    ensures '_' !in CapitalizeAll(xs)
  {
    if |xs| > 0 {
      CapitalizeAllNoUnderscore(xs[1..]);
      var c := Capitalize(xs[0]);
      forall i | 0 <= i < |c| ensures c[i] != '_' {
        assert xs[0][i] != '_';
      }
    }
  }

  /** The first piece of a split starts with any prefix free of the separator. */
  lemma {:induction false} SplitFirstPrefix(p: string, y: string, c: char)
    requires c !in p
    ensures Split(p + y, c)[0] == p + Split(y, c)[0]
    decreases |p|
  {
    if |p| > 0 {
      var s := p + y;
      assert s[1..] == p[1..] + y;
      assert s[0] == p[0] != c;
      var rest := Split(s[1..], c);
      assert Split(s, c) == [[s[0]] + rest[0]] + rest[1..];
      SplitFirstPrefix(p[1..], y, c);
      assert rest[0] == p[1..] + Split(y, c)[0];
      assert Split(s, c)[0] == [p[0]] + rest[0];
      assert [p[0]] + (p[1..] + Split(y, c)[0]) == p + Split(y, c)[0];
    } else {
      assert p + y == y;
    }
  }

  /** The method value, which has no "_", survives at the front. */
  lemma CamelCaseKeepsPrefix(p: string, y: string)
    requires '_' !in p
    ensures StartsWith(CamelCase(p + y), p)
  {
    if '_' in p + y {
      SplitFirstPrefix(p, y, '_');
    }
  }

  /** The segments of a versioned path: "", the version, then the
      segments of the text after the prefix. */
  lemma VersionedSplit(path: string)
    requires PathWithoutVersion(path).Some?
    ensures var rest := PathWithoutVersion(path).value;
            Split(path, '/') == ["", path[1..|path| - |rest| - 1]] + Split(rest, '/')
  {
    var rest := PathWithoutVersion(path).value;
    var p := path[..|path| - |rest|];
    var v := p[1..|p| - 1];
    assert path == [] + ['/'] + (v + ['/'] + rest);
    SplitAround([], v + ['/'] + rest, '/');
    assert '/' !in v by {
      forall i | 0 <= i < |v| ensures v[i] != '/' {
        if i > 0 {
          assert v[i] == p[2..|p| - 1][i - 1];
        }
      }
    }
    SplitAround(v, rest, '/');
    SplitNoSeparator(v, '/');
    assert v == path[1..|path| - |rest| - 1];
  }

  /** In a path that is not parameterised, the segment just before a
      number names the parameter `build_path_params` finds for that
      number, so its word loses its last letter ("posts" in front of
      "100" gives "Post"). */
  lemma WordBeforeNumber(path: string, k: nat)
    requires !IsParameterized(path)
    requires 1 <= k < |Split(path, '/')| && IsDigits(Split(path, '/')[k]) && !IsDigits(Split(path, '/')[k - 1])
    ensures PathParams(path).Ok?
    ensures var res := Split(path, '/')[k - 1];
            Word(res, DictKeys(PathParams(path).value)) == DropLast(Capitalize(res))
  {
    var cs := Split(path, '/');
    var segs := Parameterize(cs);
    var res := cs[k - 1];
    PathParamsContents(path);
    ParameterizeSegments(cs);
    PlaceholderIsParamSegment(res);
    assert segs[k] == Placeholder(res);
    var names := DictKeys(PathParams(path).value);
    var name := DropLast(res) + "_id";
    assert name in names;
    var i :| 0 <= i < |names| && names[i] == name;
    assert OccursAt(DropLast(res), names[i], 0);
    assert NamesContain(names, DropLast(res));
  }

  // ---------------------------------------------------------------------
  // build_schema_identifier

  /** `build_schema_identifier`: the operation id with its first character
      upper-cased, followed by the label of the schema type. */
  function SchemaId(m: HTTPMethod, path: string, t: SchemaType): (r: Result<string>)
    ensures r.Ok? <==> OperationId(m, path).Ok?
    ensures r.Err? ==> r.error == AttributeError
    ensures r.Ok? ==> var o := OperationId(m, path).value;
                      |r.value| == |o| + |Label(t)| && r.value[0] == Upper(o[0])
                      && r.value[1..|o|] == o[1..] && EndsWith(r.value, Label(t))
  {
    match OperationId(m, path)
    case Err(e) => Err(e)
    case Ok(o) =>
      var r := [Upper(o[0])] + o[1..] + Label(t);
      assert r[|r| - |Label(t)|..] == Label(t);
      Ok(r)
  }

  /** The three schemas of one operation get three different identifiers. */
  lemma SchemaIdsDistinct(m: HTTPMethod, path: string, s: SchemaType, t: SchemaType)
    requires SchemaId(m, path, s).Ok? && SchemaId(m, path, s) == SchemaId(m, path, t)
    ensures s == t
  {
    var o := OperationId(m, path).value;
    var r := SchemaId(m, path, s).value;
    assert Label(s) == r[|o|..] == Label(t);
    LabelsDistinct(s, t);
  }

  // ---------------------------------------------------------------------
  // A raw path and its template

  /** At most one segment is all digits. */
  predicate AtMostOneNumber(cs: seq<string>) {
    forall i, j :: 0 <= i < j < |cs| && IsDigits(cs[i]) ==> !IsDigits(cs[j])
  }

  /** The template of segments with one number: that segment becomes the
      placeholder named after the segment before it, and nothing else
      changes. */
  lemma OneNumberTemplate(cs: seq<string>, k: nat)
    requires 1 <= k < |cs| && IsDigits(cs[k]) && AtMostOneNumber(cs)
    ensures Parameterize(cs) == cs[k := Placeholder(cs[k - 1])]
  {
    ParameterizeSegments(cs);
    var ts := Parameterize(cs);
    forall j | 0 <= j < |cs| && j != k ensures ts[j] == cs[j] {
      if j < k {
        assert !IsDigits(cs[j]);
      } else {
        assert !IsDigits(cs[j]);
      }
    }
    assert ts[k - 1] == cs[k - 1];
  }

  /** A dict whose keys are distinct, include `name` and are all `name`
      has the one key `name`. */
  lemma SingleKey<V>(d: seq<(string, V)>, name: string)
    requires DistinctNames(d) && name in DictKeys(d)
    requires forall e :: e in d ==> e.0 == name
    ensures DictKeys(d) == [name]
  {
    var i := |d| - 1;
    assert d[0] in d && d[i] in d;
    assert i == 0;
  }

  /** `build_path_params` of a path with one number has that number's
      placeholder name as its only key. */
  lemma OneNumberKeys(p: string, k: nat)
    requires 1 <= k < |Split(p, '/')| && IsDigits(Split(p, '/')[k]) && AtMostOneNumber(Split(p, '/'))
    requires !IsParameterized(p)
    ensures PathParams(p).Ok?
    ensures DictKeys(PathParams(p).value) == [DropLast(Split(p, '/')[k - 1]) + "_id"]
  {
    var cs := Split(p, '/');
    var ts := Parameterize(cs);
    var name := DropLast(cs[k - 1]) + "_id";
    PathParamsContents(p);
    OneNumberTemplate(cs, k);
    PlaceholderIsParamSegment(cs[k - 1]);
    var d := PathParams(p).value;
    forall e | e in d ensures e.0 == name {
      var j :| 0 <= j < |cs| && IsParamSegment(ts[j]) && IsDigits(cs[j])
               && e.0 == ParamName(ts[j]) && e.1 == DigitsValue(cs[j]);
      assert j == k;
    }
    SingleKey(d, name);
  }

  /** `findall` on the template of a path with one number and no braces
      finds the placeholder's name and nothing else. */
  lemma OneNumberTemplateNames(cs: seq<string>, k: nat)
    requires 1 <= k < |cs| && NoneContains(cs, '{') && NoneContains(cs, '}')
    ensures FindParamNames(Join(cs[k := Placeholder(cs[k - 1])], '/')) == [DropLast(cs[k - 1]) + "_id"]
  {
    var name := DropLast(cs[k - 1]) + "_id";
    var ph := Placeholder(cs[k - 1]);
    var b := if k + 1 == |cs| then "" else "/" + Join(cs[k + 1..], '/');
    JoinAround(cs, k, ph);
    BracesAround(cs, k);
    PlaceholderOfName(cs[k - 1], ph, name);
    FindPlaceholderAfter(Join(cs[..k], '/') + "/", ph, name, b);
  }

  /** A placeholder is its name in braces, and the name ends in "id". */
  lemma PlaceholderOfName(res: string, ph: string, name: string)
    requires ph == Placeholder(res) && name == DropLast(res) + "_id"
    ensures ph == "{" + name + "}" && |name| >= 2 && EndsWith(name, "id")
  {
    assert name[|name| - 2..] == "id";
  }

  /** Text without "{", then one placeholder, then text without braces:
      `findall` gives the placeholder's name. */
  lemma FindPlaceholderAfter(a: string, ph: string, name: string, b: string)
    requires '{' !in a && '{' !in b && '}' !in b
    requires ph == "{" + name + "}" && |name| >= 2 && EndsWith(name, "id")
    ensures FindParamNames(a + (ph + b)) == [name]
  {
    FindAfterNoBrace(a, ph + b);
    FindOneName(name, b);
  }

  /** The join with one segment replaced, as the text before it, the new
      segment and the text after it. */
  lemma JoinAround(cs: seq<string>, k: nat, x: string)
    requires 1 <= k < |cs|
    ensures var b := if k + 1 == |cs| then "" else "/" + Join(cs[k + 1..], '/');
            Join(cs[k := x], '/') == Join(cs[..k], '/') + "/" + (x + b)
  {
    var ts := cs[k := x];
    if k + 1 == |cs| {
      assert ts == cs[..k] + [x];
      JoinAppend(cs[..k], [x], '/');
    } else {
      assert ts == cs[..k] + ([x] + cs[k + 1..]);
      JoinAppend([x], cs[k + 1..], '/');
      JoinAppend(cs[..k], [x] + cs[k + 1..], '/');
    }
  }

  /** No brace before or after the replaced segment. */
  lemma BracesAround(cs: seq<string>, k: nat)
    requires 1 <= k < |cs| && NoneContains(cs, '{') && NoneContains(cs, '}')
    ensures '{' !in Join(cs[..k], '/') + "/"
    ensures var b := if k + 1 == |cs| then "" else "/" + Join(cs[k + 1..], '/');
            '{' !in b && '}' !in b
  {
    JoinKeepsOut(cs[..k], '/', '{');
    if k + 1 < |cs| {
      JoinKeepsOut(cs[k + 1..], '/', '{');
      JoinKeepsOut(cs[k + 1..], '/', '}');
    }
  }

  /** A generated placeholder starts a match of the parameter pattern. */
  lemma PlaceholderStartsParam(res: string)
    ensures StartsParam(Placeholder(res))
  {
    var ph := Placeholder(res);
    OneMatchAt(ph, |ph| - 2);
  }

  /** Segments without "{" start no match. */
  lemma NoBraceNoParam(c: string)
    requires '{' !in c
    ensures !StartsParam(c) && !IsParamSegment(c)
  {
    if |c| > 0 {
      assert c[0] != '{';
    }
  }

  /** The segments kept from the template's text after the prefix are the
      segments kept from the path's: the placeholder and the number drop
      out, all else is the same. */
  lemma {:induction false} FilteredSegmentsAgree(xs: seq<string>, ys: seq<string>)
    requires |xs| == |ys|
    requires forall i :: 0 <= i < |xs| ==> (StartsParam(xs[i]) <==> IsDigits(ys[i]))
    requires forall i :: 0 <= i < |xs| && !IsDigits(ys[i]) ==> xs[i] == ys[i]
    ensures NonParamSegments(xs) == NonDigitSegments(ys)
    decreases |xs|
  {
    if |xs| > 0 {
      forall i | 0 <= i < |xs| - 1
        ensures (StartsParam(xs[1..][i]) <==> IsDigits(ys[1..][i]))
        ensures !IsDigits(ys[1..][i]) ==> xs[1..][i] == ys[1..][i]
      {
        assert xs[1..][i] == xs[i + 1] && ys[1..][i] == ys[i + 1];
      }
      FilteredSegmentsAgree(xs[1..], ys[1..]);
    }
  }

  /** The version prefix of a path is its first two segments around "/". */
  lemma VersionSegments(p: string)
    requires PathWithoutVersion(p).Some?
    ensures var rest := PathWithoutVersion(p).value;
            var cs := Split(p, '/');
            |cs| >= 3 && cs[0] == "" && cs[1] == p[1..|p| - |rest| - 1] && cs[2..] == Split(rest, '/')
  {
    VersionedSplit(p);
  }

  lemma PrefixAndRest(p: string, rest: string, n: nat)
    requires PathWithoutVersion(p) == Some(rest) && n == |p| - |rest|
    ensures IsVersionPrefix(p[..n]) && p[..n][1..n - 1] == p[1..n - 1] && p == p[..n] + rest
  {
  }

  lemma PrefixShape(pre: string, v: string)
    requires IsVersionPrefix(pre) && v == pre[1..|pre| - 1]
    ensures pre == "/" + v + "/" && |v| > 0 && v[0] == 'v'
  {
    assert pre == [pre[0]] + pre[1..|pre| - 1] + [pre[|pre| - 1]];
  }

  /** The join of three or more segments, with the first two written out. */
  lemma JoinAfterTwo(ts: seq<string>)
    requires |ts| >= 3
    ensures Join(ts, '/') == ts[0] + "/" + (ts[1] + "/" + Join(ts[2..], '/'))
  {
    JoinCons(ts[1], ts[2..], '/');
    assert ts[1..] == [ts[1]] + ts[2..];
    JoinCons(ts[0], ts[1..], '/');
    assert ts == [ts[0]] + ts[1..];
  }

  /** The text after the first two segments is not empty when one of its
      segments is not, and splits back into them. */
  lemma RestOfTemplate(ts: seq<string>, k: nat)
    requires NoneContains(ts, '/') && 2 <= k < |ts| && ts[k] != ""
    ensures |Join(ts[2..], '/')| > 0 && Split(Join(ts[2..], '/'), '/') == ts[2..]
  {
    SplitJoin(ts[2..], '/');
    assert ts[2..][k - 2] == ts[k];
  }

  /** The template keeps the version prefix, and the text after it splits
      into the template's remaining segments. */
  lemma TemplateVersion(ts: seq<string>, k: nat)
    requires |ts| >= 3 && ts[0] == "" && IsVersionPrefix("/" + ts[1] + "/")
    requires NoneContains(ts, '/') && 2 <= k < |ts| && ts[k] != ""
    ensures PathWithoutVersion(Join(ts, '/')) == Some(Join(ts[2..], '/'))
    ensures Split(Join(ts[2..], '/'), '/') == ts[2..]
  {
    RestOfTemplate(ts, k);
    JoinAfterTwo(ts);
    var j := Join(ts[2..], '/');
    Regroup(ts, "/" + ts[1] + "/", j, Join(ts, '/'));
    VersionPrefixMatches("/" + ts[1] + "/", j);
  }

  lemma Regroup(ts: seq<string>, pre: string, j: string, s: string)
    requires |ts| >= 3 && ts[0] == "" && pre == "/" + ts[1] + "/"
    requires s == ts[0] + "/" + (ts[1] + "/" + j)
    ensures s == pre + j
  {
  }

  /** A versioned path without braces and with at most one numeric segment
      has the operation identifier of its template: the number's segment
      drops out of both, and the one name `findall` finds in the template
      is the one key of `build_path_params` on the path. */
  lemma OperationIdOfTemplate(m: HTTPMethod, p: string)
    requires PathWithoutVersion(p).Some? && '{' !in p && '}' !in p
    requires AtMostOneNumber(Split(p, '/'))
    ensures OperationId(m, ParameterizedPath(p)) == OperationId(m, p)
  {
    var cs := Split(p, '/');
    if forall j :: 0 <= j < |cs| ==> !IsDigits(cs[j]) {
      StepAtNoDigits(cs, |cs|);
      JoinSplit(p, '/');
    } else {
      var k :| 0 <= k < |cs| && IsDigits(cs[k]);
      OneNumberWords(p, k);
      var rest := PathWithoutVersion(p).value;
      var t := ParameterizedPath(p);
      OperationIdsAgree(m, p, rest, t, PathWithoutVersion(t).value);
    }
  }

  /** The identifiers agree when the words do. */
  lemma OperationIdsAgree(m: HTTPMethod, p: string, rest: string, t: string, trest: string)
    requires PathWithoutVersion(p) == Some(rest) && PathWithoutVersion(t) == Some(trest)
    requires OperationWords(t, trest) == OperationWords(p, rest)
    ensures OperationId(m, t) == OperationId(m, p)
  {
  }

  /** The words agree when the names and the kept segments do. */
  lemma WordsAgree(p: string, rest: string, t: string, trest: string, names: seq<string>, segs: seq<string>)
    requires !IsParameterized(p) && PathParams(p).Ok? && DictKeys(PathParams(p).value) == names
    requires NonDigitSegments(Split(rest, '/')) == segs
    requires IsParameterized(t) && FindParamNames(t) == names
    requires NonParamSegments(Split(trest, '/')) == segs
    ensures OperationWords(t, trest) == OperationWords(p, rest)
  {
  }

  /** The one-number case: the template keeps the prefix and its words are
      the path's. */
  lemma OneNumberWords(p: string, k: nat)
    requires PathWithoutVersion(p).Some? && '{' !in p && '}' !in p
    requires AtMostOneNumber(Split(p, '/')) && k < |Split(p, '/')| && IsDigits(Split(p, '/')[k])
    ensures PathWithoutVersion(ParameterizedPath(p)).Some?
    ensures OperationWords(ParameterizedPath(p), PathWithoutVersion(ParameterizedPath(p)).value)
            == OperationWords(p, PathWithoutVersion(p).value)
  {
    var cs := Split(p, '/');
    var rest := PathWithoutVersion(p).value;
    var n := |p| - |rest|;
    VersionSegments(p);
    PrefixAndRest(p, rest, n);
    PrefixShape(p[..n], p[1..n - 1]);
    var ph := Placeholder(cs[k - 1]);
    var ts := cs[k := ph];
    OneNumberTemplate(cs, k);
    var t := ParameterizedPath(p);
    assert t == Join(ts, '/');
    SplitKeepsOut(p, '/', '{');
    SplitKeepsOut(p, '/', '}');
    NoBraceNotParameterized(p);
    OneNumberKeys(p, k);
    var name := DropLast(cs[k - 1]) + "_id";
    OneNumberTemplateNames(cs, k);
    TemplateParameterized(p, k);
    forall j | 0 <= j < |ts| ensures '/' !in ts[j] {
      ParameterizedNoSlash(cs, j);
    }
    TemplateVersion(ts, k);
    var trest := Join(ts[2..], '/');
    OneNumberSegments(cs, k);
    WordsAgree(p, rest, t, trest, [name], NonDigitSegments(cs[2..]));
  }

  /** A path none of whose segments holds "{" is not parameterised. */
  lemma NoBraceNotParameterized(p: string)
    requires NoneContains(Split(p, '/'), '{')
    ensures !IsParameterized(p)
  {
    var cs := Split(p, '/');
    forall j | 0 <= j < |cs| ensures !IsParamSegment(cs[j]) {
      NoBraceNoParam(cs[j]);
    }
  }

  /** The template of a path with one number is parameterised. */
  lemma TemplateParameterized(p: string, k: nat)
    requires 1 <= k < |Split(p, '/')| && IsDigits(Split(p, '/')[k]) && AtMostOneNumber(Split(p, '/'))
    ensures IsParameterized(ParameterizedPath(p))
  {
    var cs := Split(p, '/');
    OneNumberTemplate(cs, k);
    TemplateSegments(p);
    PlaceholderIsParamSegment(cs[k - 1]);
    assert IsParamSegment(Split(ParameterizedPath(p), '/')[k]);
  }

  /** The segments after the prefix that the template keeps are those the
      path keeps. */
  lemma OneNumberSegments(cs: seq<string>, k: nat)
    requires 2 <= k < |cs| && IsDigits(cs[k]) && AtMostOneNumber(cs) && NoneContains(cs, '{')
    ensures NonParamSegments(cs[k := Placeholder(cs[k - 1])][2..]) == NonDigitSegments(cs[2..])
  {
    var ts := cs[k := Placeholder(cs[k - 1])];
    PlaceholderStartsParam(cs[k - 1]);
    forall i | 0 <= i < |ts| - 2
      ensures (StartsParam(ts[2..][i]) <==> IsDigits(cs[2..][i]))
      ensures !IsDigits(cs[2..][i]) ==> ts[2..][i] == cs[2..][i]
    {
      if i + 2 != k {
        NoBraceNoParam(cs[i + 2]);
        assert !IsDigits(cs[i + 2]);
      }
    }
    FilteredSegmentsAgree(ts[2..], cs[2..]);
  }

  /** The schema identifiers of such a path and of its template agree. */
  lemma SchemaIdOfTemplate(m: HTTPMethod, p: string, t: SchemaType)
    requires PathWithoutVersion(p).Some? && '{' !in p && '}' !in p
    requires AtMostOneNumber(Split(p, '/'))
    ensures SchemaId(m, ParameterizedPath(p), t) == SchemaId(m, p, t)
  {
    OperationIdOfTemplate(m, p);
  }
}
