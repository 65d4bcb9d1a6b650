/** The path utilities of oasbuilder/utils: a request path, its template
    with numeric segments replaced by placeholders, the flat directory name
    the template is stored under, and the way back from that name. */
module Paths {
  import opened Wrappers
  import opened Strings

  /** `DELIMITER`, the character that stands for "/" in a directory name. */
  const Delimiter: char := '-'

  /** The mask `to_endpoint_path` puts in place of each placeholder. */
  const Mask: string := "XXX"

  // ---------------------------------------------------------------------
  // to_endpoint_dir

  /** `to_endpoint_dir`: every "/" becomes "-", then the first character is
      dropped (the leading "/" of a path). */
  function ToEndpointDir(path: string): (r: string)
    ensures |r| == if |path| == 0 then 0 else |path| - 1
    ensures forall i :: 0 <= i < |r| ==> r[i] == if path[i + 1] == '/' then Delimiter else path[i + 1]
    ensures '/' !in r
  {
    var s := Replace(path, '/', Delimiter);
    if |s| == 0 then "" else s[1..]
  }

  /** The directory name of "/" followed by segments is those segments
      joined with "-". */
  lemma EndpointDirOfSegments(body: seq<string>)
    requires NoneContains(body, '/')
    ensures ToEndpointDir("/" + Join(body, '/')) == Join(body, Delimiter)
  {
    ReplaceAppend("/", Join(body, '/'), '/', Delimiter);
    ReplaceJoin(body, '/', Delimiter);
  }

  // ---------------------------------------------------------------------
  // The placeholder pattern `{[\w]+}` of to_endpoint_path

  /** The length of the run of `\w` characters that starts `s`. */
  function WordRunLen(s: string): (k: nat)
    ensures k <= |s|
    ensures forall j :: 0 <= j < k ==> IsWordChar(s[j])
    ensures k < |s| ==> !IsWordChar(s[k])
  {
    if |s| > 0 && IsWordChar(s[0]) then 1 + WordRunLen(s[1..]) else 0
  }

  /** A whole match of `{[\w]+}`. */
  predicate IsPlaceholder(s: string) {
    |s| >= 3 && s[0] == '{' && s[|s| - 1] == '}' && AllWordChars(s[1..|s| - 1])
  }

  /** The length of the match of `{[\w]+}` at the start of `s`, 0 if none. */
  function PlaceholderLen(s: string): (n: nat)
    ensures n == 0 || (3 <= n <= |s| && IsPlaceholder(s[..n]))
  {
    if |s| > 0 && s[0] == '{' then
      var k := WordRunLen(s[1..]);
      if k >= 1 && k + 1 < |s| && s[k + 1] == '}' then
        assert s[..k + 2][1..k + 1] == s[1..][..k];
        k + 2
      else 0
    else 0
  }

  /** No match of `{[\w]+}` starts anywhere in `s`. */
  predicate HasNoPlaceholder(s: string) {
    forall i :: 0 <= i < |s| ==> PlaceholderLen(s[i..]) == 0
  }

  /** `re.sub(r"{[\w]+}", "XXX", s)`: each match, left to right and not
      overlapping, replaced by the mask. */
  function Masked(s: string): string
    decreases |s|
  {
    if |s| == 0 then ""
    else
      var n := PlaceholderLen(s);
      if n > 0 then Mask + Masked(s[n..]) else [s[0]] + Masked(s[1..])
  }

  /** `re.findall(r"{[\w]+}", s)`: the same matches, in order. */
  function Matches(s: string): (r: seq<string>)
    ensures forall i :: 0 <= i < |r| ==> IsPlaceholder(r[i])
    decreases |s|
  {
    if |s| == 0 then []
    else
      var n := PlaceholderLen(s);
      if n > 0 then [s[..n]] + Matches(s[n..]) else Matches(s[1..])
  }

  /** A character that is neither a word character nor '{' or '}'. */
  predicate IsBarrier(c: char) {
    !IsWordChar(c) && c != '{' && c != '}'
  }

  lemma {:induction false} WordRunExtend(x: string, c: char, b: string)
    requires !IsWordChar(c)
    ensures WordRunLen(x + [c] + b) == WordRunLen(x)
    decreases |x|
  {
    if |x| > 0 {
      assert (x + [c] + b)[1..] == x[1..] + [c] + b;
      WordRunExtend(x[1..], c, b);
    }
  }

  /** A run of word characters closed by a non-word character. */
  lemma {:induction false} WordRunExact(w: string, c: char, b: string)
    requires AllWordChars(w) && !IsWordChar(c)
    ensures WordRunLen(w + [c] + b) == |w|
    decreases |w|
  {
    if |w| > 0 {
      assert (w + [c] + b)[1..] == w[1..] + [c] + b;
      WordRunExact(w[1..], c, b);
    }
  }

  /** A match never reaches past a barrier character. */
  lemma PlaceholderLenExtend(a: string, c: char, b: string)
    requires |a| > 0 && IsBarrier(c)
    ensures PlaceholderLen(a + [c] + b) == PlaceholderLen(a)
  {
    var s := a + [c] + b;
    assert s[0] == a[0];
    assert s[1..] == a[1..] + [c] + b;
    WordRunExtend(a[1..], c, b);
  }

  lemma PlaceholderLenWhole(s: string)
    requires IsPlaceholder(s)
    ensures PlaceholderLen(s) == |s|
  {
    WordRunExact(s[1..|s| - 1], '}', "");
    assert s[1..] == s[1..|s| - 1] + ['}'] + "";
  }

  /** Masking splits at a barrier: each side is masked on its own. */
  lemma {:induction false} MaskedAround(a: string, c: char, b: string)
    requires IsBarrier(c)
    ensures Masked(a + [c] + b) == Masked(a) + [c] + Masked(b)
    decreases |a|
  {
    if |a| == 0 {
      assert a + [c] + b == [c] + b;
      assert ([c] + b)[1..] == b;
    } else {
      var n := PlaceholderLen(a);
      var k := if n > 0 then n else 1;
      MaskedAround(a[k..], c, b);
      MaskedStep(a, c, b, k);
    }
  }

  /** One turn of the masking: the first match, or the first character,
      is taken from the part before the barrier. */
  lemma MaskedStep(a: string, c: char, b: string, k: nat)
    requires IsBarrier(c) && |a| > 0
    requires k == if PlaceholderLen(a) > 0 then PlaceholderLen(a) else 1
    requires Masked(a[k..] + [c] + b) == Masked(a[k..]) + [c] + Masked(b)
    ensures Masked(a + [c] + b) == Masked(a) + [c] + Masked(b)
  {
    var s := a + [c] + b;
    PlaceholderLenExtend(a, c, b);
    SliceAround(a, c, b, k);
    MaskedUnfold(s, k);
    MaskedUnfold(a, k);
    ConcatRegroup(if PlaceholderLen(a) > 0 then Mask else [a[0]], Masked(a[k..]), [c], Masked(b));
  }

  lemma ConcatRegroup3<T>(w: seq<T>, x: seq<T>, z: seq<T>)
    ensures w + (x + z) == (w + x) + z
  {
  }

  lemma ConcatRegroup<T>(w: seq<T>, x: seq<T>, y: seq<T>, z: seq<T>)
    ensures w + (x + y + z) == (w + x) + y + z
  {
  }

  lemma SliceAround(a: string, c: char, b: string, k: nat)
    requires 0 < k <= |a|
    ensures (a + [c] + b)[k..] == a[k..] + [c] + b
    ensures (a + [c] + b)[..k] == a[..k]
    ensures (a + [c] + b)[0] == a[0]
  {
  }

  lemma MaskedUnfold(s: string, k: nat)
    requires |s| > 0 && k == if PlaceholderLen(s) > 0 then PlaceholderLen(s) else 1
    ensures Masked(s) == (if PlaceholderLen(s) > 0 then Mask else [s[0]]) + Masked(s[k..])
  {
  }

  /** Matching splits at a barrier: no match spans it. */
  lemma {:induction false} MatchesAround(a: string, c: char, b: string)
    requires IsBarrier(c)
    ensures Matches(a + [c] + b) == Matches(a) + Matches(b)
    decreases |a|
  {
    if |a| == 0 {
      assert a + [c] + b == [c] + b;
      assert ([c] + b)[1..] == b;
    } else {
      var n := PlaceholderLen(a);
      var k := if n > 0 then n else 1;
      MatchesAround(a[k..], c, b);
      MatchesStep(a, c, b, k);
    }
  }

  lemma MatchesStep(a: string, c: char, b: string, k: nat)
    requires IsBarrier(c) && |a| > 0
    requires k == if PlaceholderLen(a) > 0 then PlaceholderLen(a) else 1
    requires Matches(a[k..] + [c] + b) == Matches(a[k..]) + Matches(b)
    ensures Matches(a + [c] + b) == Matches(a) + Matches(b)
  {
    PlaceholderLenExtend(a, c, b);
    SliceAround(a, c, b, k);
    MatchesUnfold(a + [c] + b, k);
    MatchesUnfold(a, k);
    ConcatRegroup3(if PlaceholderLen(a) > 0 then [a[..k]] else [], Matches(a[k..]), Matches(b));
  }

  lemma MatchesUnfold(s: string, k: nat)
    requires |s| > 0 && k == if PlaceholderLen(s) > 0 then PlaceholderLen(s) else 1
    ensures Matches(s) == (if PlaceholderLen(s) > 0 then [s[..k]] else []) + Matches(s[k..])
  {
  }

  lemma WholePlaceholder(s: string)
    requires IsPlaceholder(s)
    ensures Masked(s) == Mask && Matches(s) == [s]
  {
    PlaceholderLenWhole(s);
    assert s[|s|..] == "" && s[..|s|] == s;
  }

  lemma {:induction false} NoPlaceholderUnchanged(s: string)
    requires HasNoPlaceholder(s)
    ensures Masked(s) == s && Matches(s) == []
    decreases |s|
  {
    if |s| > 0 {
      assert s[0..] == s;
      assert PlaceholderLen(s[0..]) == 0;
      forall i | 0 <= i < |s[1..]| ensures PlaceholderLen(s[1..][i..]) == 0 {
        assert s[1..][i..] == s[i + 1..];
      }
      NoPlaceholderUnchanged(s[1..]);
      assert [s[0]] + s[1..] == s;
    }
  }

  /** Text without '{' holds no placeholder. */
  lemma NoBraceNoPlaceholder(s: string)
    requires '{' !in s
    ensures HasNoPlaceholder(s)
  {
    forall i | 0 <= i < |s| ensures PlaceholderLen(s[i..]) == 0 {
      assert s[i..][0] == s[i];
    }
  }

  // ---------------------------------------------------------------------
  // to_endpoint_path

  /** Refills the masked segments in order; running out of matches raises
      StopIteration, as `next` on the exhausted index iterator does. */
  function Fill(segs: seq<string>, params: seq<string>): (r: Result<seq<string>>)
    ensures r.Ok? ==> |r.value| == |segs|
    ensures r.Err? ==> r.error == StopIteration
  {
    if |segs| == 0 then Ok([])
    else if segs[0] == Mask then
      if |params| == 0 then Err(StopIteration)
      else
        match Fill(segs[1..], params[1..])
        case Ok(rest) => Ok([params[0]] + rest)
        case Err(e) => Err(e)
    else
      match Fill(segs[1..], params)
      case Ok(rest) => Ok([segs[0]] + rest)
      case Err(e) => Err(e)
  }

  /** `to_endpoint_path`: without placeholders every "-" becomes "/";
      with placeholders the masked name is split at "-" and each "XXX"
      segment takes the next placeholder. A "/" is put in front. */
  function ToEndpointPath(dir: string): (r: Result<string>)
    ensures r.Ok? ==> |r.value| > 0 && r.value[0] == '/'
    ensures r.Err? ==> r.error == StopIteration
    ensures |Matches(dir)| == 0 ==> r == Ok("/" + Replace(dir, Delimiter, '/'))
  {
    var params := Matches(dir);
    if |params| > 0 then
      match Fill(Split(Masked(dir), Delimiter), params)
      case Ok(segs) => Ok("/" + Join(segs, '/'))
      case Err(e) => Err(e)
    else
      Ok("/" + Replace(dir, Delimiter, '/'))
  }

  /** A template segment that survives the trip through a directory name:
      no "-", not the mask itself, and a placeholder only as the whole
      segment. */
  predicate SegmentOk(seg: string) {
    Delimiter !in seg && seg != Mask && (IsPlaceholder(seg) || HasNoPlaceholder(seg))
  }

  /** The segments after the leading "/" of a template. */
  function Body(t: string): seq<string>
    requires |t| > 0
  {
    Split(t[1..], '/')
  }

  /** A template whose directory name leads back to it. */
  predicate RoundTripSafe(t: string) {
    |t| > 0 && t[0] == '/' && forall i :: 0 <= i < |Body(t)| ==> SegmentOk(Body(t)[i])
  }

  function Masks(xs: seq<string>): (r: seq<string>)
    ensures |r| == |xs|
    ensures forall i :: 0 <= i < |xs| ==> r[i] == Masked(xs[i])
  {
    seq(|xs|, i requires 0 <= i < |xs| => Masked(xs[i]))
  }

  function MatchesOf(xs: seq<string>): seq<string> {
    if |xs| == 0 then [] else Matches(xs[0]) + MatchesOf(xs[1..])
  }

  /** Masking a "-"-joined name masks each piece. */
  lemma {:induction false} MaskedJoin(xs: seq<string>)
    requires |xs| >= 1
    ensures Masked(Join(xs, Delimiter)) == Join(Masks(xs), Delimiter)
    decreases |xs|
  {
    if |xs| > 1 {
      MaskedJoin(xs[1..]);
      MaskedAround(xs[0], Delimiter, Join(xs[1..], Delimiter));
      assert Masks(xs)[1..] == Masks(xs[1..]);
    }
  }

  /** Matching in a "-"-joined name matches in each piece. */
  lemma {:induction false} MatchesJoin(xs: seq<string>)
    requires |xs| >= 1
    ensures Matches(Join(xs, Delimiter)) == MatchesOf(xs)
    decreases |xs|
  {
    if |xs| == 1 {
      assert MatchesOf(xs) == Matches(xs[0]) + MatchesOf(xs[1..]);
      assert MatchesOf(xs[1..]) == [];
    } else {
      MatchesJoin(xs[1..]);
      MatchesAround(xs[0], Delimiter, Join(xs[1..], Delimiter));
    }
  }

  lemma {:induction false} FillRestores(xs: seq<string>)
    requires forall i :: 0 <= i < |xs| ==> SegmentOk(xs[i])
    ensures Fill(Masks(xs), MatchesOf(xs)) == Ok(xs)
    decreases |xs|
  {
    if |xs| > 0 {
      FillRestores(xs[1..]);
      var ms := Masks(xs);
      assert ms[1..] == Masks(xs[1..]);
      if IsPlaceholder(xs[0]) {
        WholePlaceholder(xs[0]);
        assert MatchesOf(xs) == [xs[0]] + MatchesOf(xs[1..]);
        assert ms[0] == Mask;
        FillMaskStep(ms, xs[0], MatchesOf(xs[1..]), xs[1..]);
      } else {
        NoPlaceholderUnchanged(xs[0]);
        assert MatchesOf(xs) == MatchesOf(xs[1..]);
        assert ms[0] == xs[0] != Mask;
        FillKeepStep(ms, MatchesOf(xs), xs[1..]);
      }
      assert xs == [xs[0]] + xs[1..];
    }
  }

  /** A masked segment takes the next match. */
  lemma FillMaskStep(ms: seq<string>, x: string, ps: seq<string>, rest: seq<string>)
    requires |ms| > 0 && ms[0] == Mask && Fill(ms[1..], ps) == Ok(rest)
    ensures Fill(ms, [x] + ps) == Ok([x] + rest)
  {
    assert ([x] + ps)[1..] == ps;
  }

  /** Any other segment is kept. */
  lemma FillKeepStep(ms: seq<string>, ps: seq<string>, rest: seq<string>)
    requires |ms| > 0 && ms[0] != Mask && Fill(ms[1..], ps) == Ok(rest)
    ensures Fill(ms, ps) == Ok([ms[0]] + rest)
  {
  }

  /** The directory-name round trip on segments. */
  lemma RoundTripSegments(body: seq<string>)
    requires |body| >= 1 && NoneContains(body, '/')
    requires forall i :: 0 <= i < |body| ==> SegmentOk(body[i])
    ensures ToEndpointPath(ToEndpointDir("/" + Join(body, '/'))) == Ok("/" + Join(body, '/'))
  {
    EndpointDirOfSegments(body);
    MatchesJoin(body);
    if |MatchesOf(body)| > 0 {
      RoundTripMasked(body);
    } else {
      ReplaceJoin(body, Delimiter, '/');
    }
  }

  /** The round trip on segments when some segment is a placeholder. */
  lemma RoundTripMasked(body: seq<string>)
    requires |body| >= 1 && |MatchesOf(body)| > 0
    requires forall i :: 0 <= i < |body| ==> SegmentOk(body[i])
    ensures ToEndpointPath(Join(body, Delimiter)) == Ok("/" + Join(body, '/'))
  {
    MaskedJoin(body);
    MatchesJoin(body);
    forall i | 0 <= i < |body| ensures Delimiter !in Masks(body)[i] {
      if IsPlaceholder(body[i]) {
        WholePlaceholder(body[i]);
      } else {
        NoPlaceholderUnchanged(body[i]);
      }
    }
    SplitJoin(Masks(body), Delimiter);
    FillRestores(body);
  }

  /** `to_endpoint_path` inverts `to_endpoint_dir` on every template whose
      segments are round-trip safe. */
  lemma RoundTrip(t: string)
    requires RoundTripSafe(t)
    ensures ToEndpointPath(ToEndpointDir(t)) == Ok(t)
  {
    var body := Body(t);
    JoinSplit(t[1..], '/');
    assert t == "/" + Join(body, '/');
    RoundTripSegments(body);
  }

  // ---------------------------------------------------------------------
  // parameterized_endpoint_path

  /** The placeholder for a numeric segment, named after the resource
      segment before it: `"{" + res[:-1] + "_id}"`. */
  function Placeholder(res: string): (r: string)
    ensures |r| >= 5 && r[0] == '{' && !IsDigits(r)
    ensures r == "{" + DropLast(res) + "_id}"
  {
    "{" + DropLast(res) + "_id}"
  }

  /** The segments after the first `i` turns of the loop of
      `parameterized_endpoint_path`, which rewrites the list in place: the
      neighbour read for segment k is the one already rewritten, and for
      k = 0 it is the last segment (Python's index -1). */
  function StepAt(cs: seq<string>, i: nat): (r: seq<string>)
    requires i <= |cs|
    ensures |r| == |cs|
    ensures forall j :: i <= j < |cs| ==> r[j] == cs[j]
  {
    if i == 0 then cs
    else
      var p := StepAt(cs, i - 1);
      var k := i - 1;
      if IsDigits(p[k]) then p[k := Placeholder(if k == 0 then p[|p| - 1] else p[k - 1])] else p
  }

  function Parameterize(cs: seq<string>): (r: seq<string>)
    ensures |r| == |cs|
  {
    StepAt(cs, |cs|)
  }

  /** `parameterized_endpoint_path`: the path with each all-digit segment
      replaced by a placeholder. */
  function ParameterizedPath(path: string): string {
    Join(Parameterize(Split(path, '/')), '/')
  }

  /** The loop of `parameterized_endpoint_path` over its list of segments. */
  method ParameterizeEndpointPath(path: string) returns (r: string)
    ensures r == ParameterizedPath(path)
  {
    var components := Split(path, '/');
    ghost var orig := components;
    var i := 0;
    while i < |components|
      invariant 0 <= i <= |components| == |orig|
      invariant components == StepAt(orig, i)
    {
      StepAtNext(orig, i);
      var c := components[i];
      if IsDigits(c) {
        var res := if i == 0 then components[|components| - 1] else components[i - 1];
        components := components[i := Placeholder(res)];
      }
      i := i + 1;
    }
    r := Join(components, '/');
  }

  lemma StepAtNext(cs: seq<string>, i: nat)
    requires i < |cs|
    ensures var p := StepAt(cs, i);
            StepAt(cs, i + 1)
            == if IsDigits(p[i]) then p[i := Placeholder(if i == 0 then p[|p| - 1] else p[i - 1])] else p
  {
  }

  /** What the loop leaves in each of the first `i` places: a segment
      that is not all digits is kept, and an all-digit one becomes the
      placeholder for the (already rewritten) segment before it. */
  lemma {:induction false} StepAtSegments(cs: seq<string>, i: nat)
    requires i <= |cs|
    ensures forall k :: 0 <= k < i && !IsDigits(cs[k]) ==> StepAt(cs, i)[k] == cs[k]
    ensures forall k :: 0 < k < i && IsDigits(cs[k]) ==> StepAt(cs, i)[k] == Placeholder(StepAt(cs, i)[k - 1])
    ensures 0 < i && IsDigits(cs[0]) ==> StepAt(cs, i)[0] == Placeholder(cs[|cs| - 1])
  {
    if i > 0 {
      StepAtSegments(cs, i - 1);
      StepAtNext(cs, i - 1);
      StepSegments(cs, StepAt(cs, i - 1), StepAt(cs, i), i);
    }
  }

  /** The invariant of the loop of `parameterized_endpoint_path` survives
      one turn, stated on the two lists of segments alone. */
  lemma StepSegments(cs: seq<string>, p: seq<string>, q: seq<string>, i: nat)
    requires 0 < i <= |cs| && |p| == |cs| && p[i - 1] == cs[i - 1]
    requires forall k :: 0 <= k < i - 1 && !IsDigits(cs[k]) ==> p[k] == cs[k]
    requires forall k :: 0 < k < i - 1 && IsDigits(cs[k]) ==> p[k] == Placeholder(p[k - 1])
    requires 0 < i - 1 && IsDigits(cs[0]) ==> p[0] == Placeholder(cs[|cs| - 1])
    requires q == if IsDigits(p[i - 1]) then p[i - 1 := Placeholder(if i - 1 == 0 then p[|p| - 1] else p[i - 2])] else p
    requires i - 1 == 0 ==> p[|p| - 1] == cs[|cs| - 1]
    ensures forall k :: 0 <= k < i && !IsDigits(cs[k]) ==> q[k] == cs[k]
    ensures forall k :: 0 < k < i && IsDigits(cs[k]) ==> q[k] == Placeholder(q[k - 1])
    ensures IsDigits(cs[0]) ==> q[0] == Placeholder(cs[|cs| - 1])
  {
  }

  /** `parameterized_endpoint_path` keeps the number of segments and every
      segment that is not all digits; segment k > 0 that is all digits
      becomes the placeholder named after the rewritten segment k - 1. */
  lemma ParameterizeSegments(cs: seq<string>)
    ensures |Parameterize(cs)| == |cs|
    ensures forall k :: 0 <= k < |cs| && !IsDigits(cs[k]) ==> Parameterize(cs)[k] == cs[k]
    ensures forall k :: 0 < k < |cs| && IsDigits(cs[k]) ==> Parameterize(cs)[k] == Placeholder(Parameterize(cs)[k - 1])
    ensures |cs| > 0 && IsDigits(cs[0]) ==> Parameterize(cs)[0] == Placeholder(cs[|cs| - 1])
    ensures forall k :: 0 <= k < |cs| ==> !IsDigits(Parameterize(cs)[k])
  {
    StepAtSegments(cs, |cs|);
    var out := Parameterize(cs);
    forall k | 0 <= k < |cs| ensures !IsDigits(out[k]) {
      if IsDigits(cs[k]) {
        var res := if k == 0 then cs[|cs| - 1] else out[k - 1];
        assert out[k] == Placeholder(res);
      }
    }
  }

  /** No segment of the template holds a "/" when no segment of the path
      does: each is a segment of the path or a placeholder named after one. */
  lemma {:induction false} ParameterizedNoSlash(cs: seq<string>, k: nat)
    requires k < |cs| && NoneContains(cs, '/')
    ensures '/' !in Parameterize(cs)[k]
    decreases k
  {
    ParameterizeSegments(cs);
    if IsDigits(cs[k]) {
      if k == 0 {
        PlaceholderNoSlash(cs[|cs| - 1]);
      } else {
        ParameterizedNoSlash(cs, k - 1);
        PlaceholderNoSlash(Parameterize(cs)[k - 1]);
      }
    }
  }

  /** A placeholder holds no "/" when the segment it is named after holds none. */
  lemma PlaceholderNoSlash(res: string)
    requires '/' !in res
    ensures '/' !in Placeholder(res)
  {
    if |res| > 0 {
      assert res == DropLast(res) + [res[|res| - 1]];
    }
  }

  /** Segments without an all-digit one are left alone. */
  lemma {:induction false} StepAtNoDigits(cs: seq<string>, i: nat)
    requires i <= |cs| && forall k :: 0 <= k < |cs| ==> !IsDigits(cs[k])
    ensures StepAt(cs, i) == cs
  {
    if i > 0 {
      StepAtNoDigits(cs, i - 1);
    }
  }

  /** The template has the segments of the path, rewritten. */
  lemma TemplateSegments(path: string)
    ensures Split(ParameterizedPath(path), '/') == Parameterize(Split(path, '/'))
  {
    var cs := Split(path, '/');
    ParameterizeSegments(cs);
    forall k | 0 <= k < |cs| ensures '/' !in Parameterize(cs)[k] {
      ParameterizedNoSlash(cs, k);
    }
    SplitJoin(Parameterize(cs), '/');
  }

  /** `parameterized_endpoint_path` is idempotent: its output has no
      all-digit segment, so a second pass changes nothing. */
  lemma ParameterizeIdempotent(path: string)
    ensures ParameterizedPath(ParameterizedPath(path)) == ParameterizedPath(path)
  {
    var out := Parameterize(Split(path, '/'));
    TemplateSegments(path);
    ParameterizeSegments(Split(path, '/'));
    StepAtNoDigits(out, |out|);
  }

  lemma ExamplePlaceholders()
    ensures Placeholder("posts") == "{post_id}" && Placeholder("comments") == "{comment_id}"
  {
    assert DropLast("posts") == "post" by {
      assert "post" + ['s'] == "posts";
    }
    assert DropLast("comments") == "comment" by {
      assert "comment" + ['s'] == "comments";
    }
  }

  /** The example of the function's docstring. */
  lemma ParameterizeExample()
    ensures Parameterize(["", "v1", "posts", "100", "comments", "2"])
            == ["", "v1", "posts", "{post_id}", "comments", "{comment_id}"]
  {
    var cs := ["", "v1", "posts", "100", "comments", "2"];
    var want := ["", "v1", "posts", "{post_id}", "comments", "{comment_id}"];
    assert IsDigits(cs[3]) && IsDigits(cs[5]);
    assert !IsDigit(cs[1][0]) && !IsDigit(cs[2][0]) && !IsDigit(cs[4][0]);
    ParameterizeSegments(cs);
    ExamplePlaceholders();
    var out := Parameterize(cs);
    assert forall k :: 0 <= k < 6 ==> out[k] == want[k];
  }

  // ---------------------------------------------------------------------
  // is_parameterized and build_path_params

  /** A whole match of `^{(?P<res_id>.*_?id)}$`: "{", anything ending in
      "id", then "}". */
  predicate IsParamSegment(c: string)
    ensures IsParamSegment(c) ==> !IsDigits(c)
  {
    |c| >= 4 && c[0] == '{' && EndsWith(c, "id}")
  }

  /** The `res_id` group of that match. */
  function ParamName(c: string): (r: string)
    requires IsParamSegment(c)
    ensures c == "{" + r + "}" && EndsWith(r, "id")
  {
    c[1..|c| - 1]
  }

  lemma PlaceholderIsParamSegment(res: string)
    ensures IsParamSegment(Placeholder(res))
    ensures ParamName(Placeholder(res)) == DropLast(res) + "_id"
  {
    var name := DropLast(res) + "_id";
    var p := Placeholder(res);
    assert p == "{" + name + "}";
    assert name[|name| - 2..] == "id";
    BracedParam(name, p);
  }

  /** A name ending in "id", in braces, is a parameter segment of that name. */
  lemma BracedParam(name: string, p: string)
    requires p == "{" + name + "}" && |name| >= 2 && EndsWith(name, "id")
    ensures IsParamSegment(p) && ParamName(p) == name
  {
    assert p[|p| - 3..] == name[|name| - 2..] + "}";
    assert p[1..|p| - 1] == name;
  }

  /** `is_parameterized`: some segment is a whole placeholder. */
  predicate IsParameterized(path: string) {
    exists i :: 0 <= i < |Split(path, '/')| && IsParamSegment(Split(path, '/')[i])
  }

  /** The loop of `is_parameterized`: the segments in order, returning True
      at the first that matches the parameter pattern. */
  method ScanParameterized(path: string) returns (b: bool)
    ensures b <==> IsParameterized(path)
  {
    var cs := Split(path, '/');
    for i := 0 to |cs|
      invariant forall j :: 0 <= j < i ==> !IsParamSegment(cs[j])
    {
      if IsParamSegment(cs[i]) {
        return true;
      }
    }
    return false;
  }

  /** The keys of a dict kept as a list of entries. */
  function DictKeys<V>(d: seq<(string, V)>): (r: seq<string>)
    ensures |r| == |d| && forall i :: 0 <= i < |d| ==> r[i] == d[i].0
  {
    seq(|d|, i requires 0 <= i < |d| => d[i].0)
  }

  /** `d[k] = v` on a Python dict: a new key goes last, a present key keeps
      its place and takes the new value. */
  function Put<V>(d: seq<(string, V)>, k: string, v: V): (r: seq<(string, V)>)
    ensures k in DictKeys(r)
    ensures k in DictKeys(d) ==> |r| == |d| && forall i :: 0 <= i < |d| ==> r[i] == if d[i].0 == k then (k, v) else d[i]
    ensures k !in DictKeys(d) ==> r == d + [(k, v)]
  {
    if k in DictKeys(d) then
      var r := seq(|d|, i requires 0 <= i < |d| => if d[i].0 == k then (k, v) else d[i]);
      assert DictKeys(r) == DictKeys(d);
      r
    else
      assert DictKeys(d + [(k, v)])[|d|] == k;
      d + [(k, v)]
  }

  /** The dict after the first `n` turns of the loop of `build_path_params`
      over the template segments `segs` and the original segments `orig`:
      `int` of an original segment that is not all digits raises ValueError. */
  function CollectParams(segs: seq<string>, orig: seq<string>, n: nat): (r: Result<seq<(string, int)>>)
    requires n <= |segs| == |orig|
    ensures r.Err? ==> r.error == ValueError
  {
    if n == 0 then Ok([])
    else
      match CollectParams(segs, orig, n - 1)
      case Err(e) => Err(e)
      case Ok(d) =>
        if !IsParamSegment(segs[n - 1]) then Ok(d)
        else if IsDigits(orig[n - 1]) then Ok(Put(d, ParamName(segs[n - 1]), DigitsValue(orig[n - 1]) as int))
        else Err(ValueError)
  }

  /** `build_path_params`: each placeholder name of the template with `int`
      of the original segment in the same place. */
  function PathParams(path: string): (r: Result<seq<(string, int)>>)
    ensures r.Err? ==> r.error == ValueError
  {
    TemplateSegments(path);
    CollectParams(Split(ParameterizedPath(path), '/'), Split(path, '/'), |Split(path, '/')|)
  }

  lemma {:induction false} CollectErrStays(segs: seq<string>, orig: seq<string>, i: nat, n: nat)
    requires i <= n <= |segs| == |orig| && CollectParams(segs, orig, i).Err?
    ensures CollectParams(segs, orig, n) == Err(ValueError)
    decreases n - i
  {
    if i < n {
      CollectErrStays(segs, orig, i, n - 1);
    }
  }

  lemma CollectNext(segs: seq<string>, orig: seq<string>, i: nat)
    requires i < |segs| == |orig| && CollectParams(segs, orig, i).Ok?
    ensures var d := CollectParams(segs, orig, i).value;
            CollectParams(segs, orig, i + 1)
            == if !IsParamSegment(segs[i]) then Ok(d)
               else if IsDigits(orig[i]) then Ok(Put(d, ParamName(segs[i]), DigitsValue(orig[i]) as int))
               else Err(ValueError)
  {
  }

  /** The loop of `build_path_params`. */
  method BuildPathParams(path: string) returns (r: Result<seq<(string, int)>>)
    ensures r == PathParams(path)
  {
    var parameterized := ParameterizeEndpointPath(path);
    var origComponents := Split(path, '/');
    var components := Split(parameterized, '/');
    TemplateSegments(path);
    r := CollectPathParams(components, origComponents);
  }

  method CollectPathParams(components: seq<string>, origComponents: seq<string>) returns (r: Result<seq<(string, int)>>)
    requires |components| == |origComponents|
    ensures r == CollectParams(components, origComponents, |components|)
  {
    var pathParams: seq<(string, int)> := [];
    var i := 0;
    while i < |components|
      invariant 0 <= i <= |components|
      invariant CollectParams(components, origComponents, i) == Ok(pathParams)
    {
      CollectNext(components, origComponents, i);
      var c := components[i];
      if IsParamSegment(c) {
        if !IsDigits(origComponents[i]) {
          CollectErrStays(components, origComponents, i + 1, |components|);
          return Err(ValueError);
        }
        pathParams := Put(pathParams, ParamName(c), DigitsValue(origComponents[i]) as int);
      }
      i := i + 1;
    }
    r := Ok(pathParams);
  }

  /** The loop succeeds exactly when every placeholder place holds digits
      in the original. */
  lemma {:induction false} CollectOk(segs: seq<string>, orig: seq<string>, n: nat)
    requires n <= |segs| == |orig|
    ensures CollectParams(segs, orig, n).Ok? <==>
            forall k :: 0 <= k < n && IsParamSegment(segs[k]) ==> IsDigits(orig[k])
  {
    if n > 0 {
      CollectOk(segs, orig, n - 1);
      if CollectParams(segs, orig, n - 1).Err? {
        CollectErrStays(segs, orig, n - 1, n);
      }
    }
  }

  predicate DistinctNames<V>(d: seq<(string, V)>) {
    forall i, j :: 0 <= i < j < |d| ==> d[i].0 != d[j].0
  }

  lemma PutDistinct<V>(d: seq<(string, V)>, k: string, v: V)
    requires DistinctNames(d)
    ensures DistinctNames(Put(d, k, v))
  {
    var r := Put(d, k, v);
    if k !in DictKeys(d) {
      forall i | 0 <= i < |d| ensures d[i].0 != k {
        assert DictKeys(d)[i] == d[i].0;
      }
    }
  }

  /** Entry `e` comes from a placeholder place among the first `n`. */
  predicate EntryFrom(segs: seq<string>, orig: seq<string>, n: nat, e: (string, int))
    requires n <= |segs| == |orig|
  {
    exists k :: 0 <= k < n && IsParamSegment(segs[k]) && IsDigits(orig[k])
                && e.0 == ParamName(segs[k]) && e.1 == DigitsValue(orig[k])
  }

  /** A dict built by the loop has distinct keys; each entry is the name of
      a placeholder place with `int` of the original there, and every
      placeholder place has its name among the keys. */
  lemma {:induction false} CollectContents(segs: seq<string>, orig: seq<string>, n: nat)
    requires n <= |segs| == |orig| && CollectParams(segs, orig, n).Ok?
    ensures var d := CollectParams(segs, orig, n).value;
            DistinctNames(d)
            && (forall e :: e in d ==> EntryFrom(segs, orig, n, e))
            && (forall k :: 0 <= k < n && IsParamSegment(segs[k]) ==> ParamName(segs[k]) in DictKeys(d))
  {
    if n > 0 {
      CollectOk(segs, orig, n);
      CollectOk(segs, orig, n - 1);
      CollectContents(segs, orig, n - 1);
      var d := CollectParams(segs, orig, n - 1).value;
      CollectNext(segs, orig, n - 1);
      var r := CollectParams(segs, orig, n).value;
      forall e | e in d ensures EntryFrom(segs, orig, n, e) {
        var k :| 0 <= k < n - 1 && IsParamSegment(segs[k]) && IsDigits(orig[k])
                 && e.0 == ParamName(segs[k]) && e.1 == DigitsValue(orig[k]);
      }
      if IsParamSegment(segs[n - 1]) {
        CollectPut(segs, orig, n, d);
      }
    }
  }

  lemma CollectPut(segs: seq<string>, orig: seq<string>, n: nat, d: seq<(string, int)>)
    requires 0 < n <= |segs| == |orig| && IsParamSegment(segs[n - 1]) && IsDigits(orig[n - 1])
    requires DistinctNames(d)
    requires forall e :: e in d ==> EntryFrom(segs, orig, n, e)
    requires forall k :: 0 <= k < n - 1 && IsParamSegment(segs[k]) ==> ParamName(segs[k]) in DictKeys(d)
    ensures var r := Put(d, ParamName(segs[n - 1]), DigitsValue(orig[n - 1]) as int);
            DistinctNames(r)
            && (forall e :: e in r ==> EntryFrom(segs, orig, n, e))
            && (forall k :: 0 <= k < n && IsParamSegment(segs[k]) ==> ParamName(segs[k]) in DictKeys(r))
  {
    var key := ParamName(segs[n - 1]);
    var v := DigitsValue(orig[n - 1]) as int;
    var r := Put(d, key, v);
    PutDistinct(d, key, v);
    forall e | e in r ensures EntryFrom(segs, orig, n, e) {
      var i :| 0 <= i < |r| && r[i] == e;
      if e != (key, v) {
        assert i < |d| && d[i] == e;
      }
    }
    forall j | 0 <= j < n - 1 && IsParamSegment(segs[j]) ensures ParamName(segs[j]) in DictKeys(r) {
      var x := ParamName(segs[j]);
      var i :| 0 <= i < |d| && DictKeys(d)[i] == x;
      assert DictKeys(r)[i] == x;
    }
  }

  /** `build_path_params` succeeds exactly on paths that are not already
      parameterised: a placeholder segment in the input stays a placeholder
      and `int` of it raises ValueError. */
  lemma PathParamsOk(path: string)
    ensures PathParams(path).Ok? <==> !IsParameterized(path)
  {
    var cs := Split(path, '/');
    var segs := Split(ParameterizedPath(path), '/');
    TemplateSegments(path);
    ParameterizeSegments(cs);
    CollectOk(segs, cs, |cs|);
    forall k | 0 <= k < |cs| ensures (IsParamSegment(segs[k]) && !IsDigits(cs[k])) <==> IsParamSegment(cs[k]) {
      if IsParamSegment(cs[k]) {
        assert !IsDigit(cs[k][0]);
      }
    }
  }

  /** The dict of `build_path_params` for a path that is not parameterised:
      distinct names, one per numeric segment, each with the segment's
      value. */
  lemma PathParamsContents(path: string)
    requires !IsParameterized(path)
    ensures PathParams(path).Ok?
    ensures var d := PathParams(path).value;
            var cs := Split(path, '/');
            var segs := Parameterize(cs);
            DistinctNames(d)
            && (forall e :: e in d ==> EntryFrom(segs, cs, |cs|, e))
            && (forall k :: 0 <= k < |cs| && IsDigits(cs[k]) ==>
                  IsParamSegment(segs[k]) && ParamName(segs[k]) in DictKeys(d))
  {
    var cs := Split(path, '/');
    var segs := Parameterize(cs);
    PathParamsOk(path);
    TemplateSegments(path);
    ParameterizeSegments(cs);
    CollectContents(segs, cs, |cs|);
    forall k | 0 <= k < |cs| ensures IsParamSegment(segs[k]) <==> IsDigits(cs[k]) {
      if IsDigits(cs[k]) {
        var res := if k == 0 then cs[|cs| - 1] else segs[k - 1];
        PlaceholderIsParamSegment(res);
      } else {
        assert segs[k] == cs[k];
        assert !IsParamSegment(cs[k]);
      }
    }
  }

  lemma ExampleDigits()
    ensures IsDigits("100") && DigitsValue("100") == 100
    ensures IsDigits("2") && DigitsValue("2") == 2
  {
    assert DigitsValue("1") == 1;
    assert DigitsValue("10") == 10;
  }

  lemma ExampleSegments()
    ensures IsParamSegment("{post_id}") && ParamName("{post_id}") == "post_id"
    ensures IsParamSegment("{comment_id}") && ParamName("{comment_id}") == "comment_id"
    ensures !IsParamSegment("") && !IsParamSegment("v1") && !IsParamSegment("posts") && !IsParamSegment("comments")
  {
    ExampleSegment("posts", "post");
    ExampleSegment("comments", "comment");
  }

  lemma ExampleSegment(res: string, stem: string)
    requires |res| > 0 && res == stem + [res[|res| - 1]]
    ensures IsParamSegment("{" + stem + "_id}") && ParamName("{" + stem + "_id}") == stem + "_id"
  {
    assert DropLast(res) == stem;
    PlaceholderIsParamSegment(res);
  }

  /** The example of the function's docstring, on the segments of the
      path and of its template (see ParameterizeExample). */
  lemma PathParamsExample()
    ensures CollectParams(["", "v1", "posts", "{post_id}", "comments", "{comment_id}"],
                          ["", "v1", "posts", "100", "comments", "2"], 6)
            == Ok([("post_id", 100), ("comment_id", 2)])
  {
    var cs := ["", "v1", "posts", "100", "comments", "2"];
    var segs := ["", "v1", "posts", "{post_id}", "comments", "{comment_id}"];
    ExampleSegments();
    ExampleDigits();
    assert CollectParams(segs, cs, 3) == Ok([]) by {
      assert CollectParams(segs, cs, 1) == Ok([]);
      assert CollectParams(segs, cs, 2) == Ok([]);
    }
    assert DictKeys<int>([]) == [];
    assert Put([], "post_id", 100) == [("post_id", 100)];
    assert CollectParams(segs, cs, 4) == Ok([("post_id", 100)]);
    assert CollectParams(segs, cs, 5) == Ok([("post_id", 100)]);
    assert DictKeys([("post_id", 100)]) == ["post_id"];
    assert Put([("post_id", 100)], "comment_id", 2) == [("post_id", 100), ("comment_id", 2)];
  }

  // ---------------------------------------------------------------------
  // response_description and the destination directories

  const SuccessDescription: string := "Expected response to a valid request"
  const ErrorDescription: string := "Error response"

  /** `response_description`: the success text exactly for 2xx codes. */
  function ResponseDescription(status: int): (r: string)
    ensures r == SuccessDescription <==> 200 <= status < 300
    ensures r == ErrorDescription <==> !(200 <= status < 300)
  {
    if status >= 200 && status < 300 then SuccessDescription else ErrorDescription
  }

  /** `dir / name` on a relative `pathlib` path: an empty name or "." adds
      no segment. */
  function Child(dir: seq<string>, name: string): (r: seq<string>)
    ensures name != "" && name != "." ==> r == dir + [name]
    ensures name == "" || name == "." ==> r == dir
  {
    if name == "" || name == "." then dir else dir + [name]
  }

  /** `endpoint_root_dir` and `schema_root_dir`. */
  const EndpointRoot: seq<string> := ["paths"]
  const SchemaRoot: seq<string> := ["components", "schemas"]

  /** `endpoint_dir`: paths/ followed by the directory name of the template. */
  function EndpointDir(path: string): (r: seq<string>)
    ensures |EndpointRoot| <= |r| <= |EndpointRoot| + 1 && r[..|EndpointRoot|] == EndpointRoot
    ensures forall i :: |EndpointRoot| <= i < |r| ==> '/' !in r[i] && r[i] != ""
  {
    Child(EndpointRoot, ToEndpointDir(ParameterizedPath(path)))
  }

  /** `endpoint_schema_dir`: components/schemas/ followed by the same name. */
  function EndpointSchemaDir(path: string): (r: seq<string>)
    ensures |SchemaRoot| <= |r| <= |SchemaRoot| + 1 && r[..|SchemaRoot|] == SchemaRoot
    ensures forall i :: |SchemaRoot| <= i < |r| ==> '/' !in r[i] && r[i] != ""
  {
    Child(SchemaRoot, ToEndpointDir(ParameterizedPath(path)))
  }

  /** A raw path and its template are stored in the same directories. */
  lemma DirsOfTemplate(path: string)
    ensures EndpointDir(ParameterizedPath(path)) == EndpointDir(path)
    ensures EndpointSchemaDir(ParameterizedPath(path)) == EndpointSchemaDir(path)
  {
    ParameterizeIdempotent(path);
  }
}
