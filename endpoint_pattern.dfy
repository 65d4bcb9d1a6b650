/** oasbuilder/writer/endpoint_pattern.py: the index of paths/, with a
    reference for every endpoint directory found there, keyed by the
    endpoint path recovered from the directory name. */
module EndpointPattern {
  import opened Wrappers
  import opened Strings
  import opened Models
  import opened Paths
  import opened DocTree

  /** `OASEndpointPatternWriter.dest`: paths/_index.yml. */
  const EndpointIndexDest: Path := EndpointRoot + ["_index.yml"]

  /** A character of the class `[\w{}-]`. */
  predicate IsNameChar(c: char) {
    IsWordChar(c) || c == '{' || c == '}' || c == '-'
  }

  /** The length of the run of `[\w{}-]` characters that starts `s`. */
  function NameRunLen(s: string): (k: nat)
    ensures k <= |s|
    ensures forall j :: 0 <= j < k ==> IsNameChar(s[j])
    ensures k < |s| ==> !IsNameChar(s[k])
  {
    if |s| > 0 && IsNameChar(s[0]) then 1 + NameRunLen(s[1..]) else 0
  }

  /** The `endpoint_dir` group of `v[0-9]+[\w{}-]+` on a directory name:
      "v", a digit, then as many `[\w{}-]` characters as follow (at least
      one more). The pattern has no end anchor, so a longer name matches
      on its first part. */
  function EndpointDirGroup(name: string): (r: Option<string>)
    ensures r.Some? ==> |r.value| >= 3 && r.value[0] == 'v' && IsDigit(r.value[1])
    ensures r.Some? ==> |r.value| <= |name| && r.value == name[..|r.value|]
    ensures r.Some? ==> forall j :: 1 <= j < |r.value| ==> IsNameChar(r.value[j])
  {
    if |name| >= 2 && name[0] == 'v' && IsDigit(name[1]) then
      var k := NameRunLen(name[1..]);
      if k >= 2 then Some(name[..1 + k]) else None
    else None
  }

  /** The names of the directories directly in paths/: what `glob("*")`
      yields once the files are skipped. */
  function ChildNames(dirs: set<Path>): set<string> {
    set d | d in dirs && |d| == 2 && d[0] == EndpointRoot[0] :: d[1]
  }

  /** A name that matches but whose placeholders do not fill back in:
      `to_endpoint_path` raises StopIteration inside the generator. */
  predicate Fails(name: string) {
    EndpointDirGroup(name).Some? && ToEndpointPath(EndpointDirGroup(name).value).Err?
  }

  /** The endpoint paths recovered from the names that match. */
  function EndpointPathsIn(names: set<string>): set<string> {
    set n | n in names && EndpointDirGroup(n).Some? && ToEndpointPath(EndpointDirGroup(n).value).Ok?
          :: ToEndpointPath(EndpointDirGroup(n).value).value
  }

  /** One `{"$ref": "<endpoint dir>/_index.yml"}` per endpoint path. */
  function PathIndex(endpoints: set<string>): map<string, Value> {
    map x | x in endpoints :: Ref(ToEndpointDir(x) + "/_index.yml")
  }

  /** `_build`: a StopIteration in the generator surfaces as RuntimeError
      (PEP 479); otherwise the index of every endpoint path found. */
  function EndpointIndex(dirs: set<Path>): (r: Result<Value>)
    ensures r.Err? ==> r.error == RuntimeError
    ensures r.Ok? ==> r.value.VMap?
  {
    var names := ChildNames(dirs);
    if exists n :: n in names && Fails(n) then Err(RuntimeError)
    else Ok(VMap(PathIndex(EndpointPathsIn(names))))
  }

  /** Every key of the index is an endpoint path, referring to the index
      of its directory. */
  lemma EndpointIndexEntries(dirs: set<Path>)
    requires EndpointIndex(dirs).Ok?
    ensures var e := EndpointIndex(dirs).value.entries;
            forall x :: x in e ==> |x| > 0 && x[0] == '/' && e[x] == Ref(ToEndpointDir(x) + "/_index.yml")
  {
  }

  /** A template that starts with a version segment and uses only
      `[\w{}-]` characters between its slashes. */
  predicate Versioned(t: string) {
    |t| >= 4 && t[0] == '/' && t[1] == 'v' && IsDigit(t[2])
    && forall i :: 1 <= i < |t| ==> t[i] == '/' || IsNameChar(t[i])
  }

  /** The directory name of such a template is matched whole. */
  lemma VersionedGroup(t: string)
    requires Versioned(t)
    ensures EndpointDirGroup(ToEndpointDir(t)) == Some(ToEndpointDir(t))
  {
    var name := ToEndpointDir(t);
    assert forall j :: 0 <= j < |name| ==> IsNameChar(name[j]);
    NameRunWhole(name[1..]);
    assert name[..1 + (|name| - 1)] == name;
  }

  lemma {:induction false} NameRunWhole(s: string)
    requires forall j :: 0 <= j < |s| ==> IsNameChar(s[j])
    ensures NameRunLen(s) == |s|
  {
    if |s| > 0 {
      NameRunWhole(s[1..]);
    }
  }

  /** Every endpoint directory made for a versioned, round-trip safe
      template is listed under that very template, with a reference to
      its method index. */
  lemma ListsEndpoint(dirs: set<Path>, t: string)
    requires Versioned(t) && RoundTripSafe(t)
    requires EndpointRoot + [ToEndpointDir(t)] in dirs
    requires EndpointIndex(dirs).Ok?
    ensures t in EndpointIndex(dirs).value.entries
    ensures EndpointIndex(dirs).value.entries[t] == Ref(ToEndpointDir(t) + "/_index.yml")
  {
    var name := ToEndpointDir(t);
    assert name in ChildNames(dirs) by {
      var d := EndpointRoot + [name];
      assert d in dirs && |d| == 2 && d[0] == EndpointRoot[0] && d[1] == name;
    }
    VersionedGroup(t);
    RoundTrip(t);
    assert t in EndpointPathsIn(ChildNames(dirs));
  }

  /** Without a paths/ directory there is nothing to list, and the write
      fails: FileNotFoundError, or NotADirectoryError when paths is a
      file. The tree is left as it was. */
  lemma WithoutEndpointRoot(files: map<Path, Value>, dirs: set<Path>)
    requires WellFormed(files, dirs) && EndpointRoot !in dirs
    ensures var o := Written(files, dirs, EndpointIndexDest, EndpointIndex(dirs));
            o == Outcome(Err(if EndpointRoot in files then NotADirectory else FileNotFound), files, dirs)
  {
    assert ChildNames(dirs) == {} by {
      forall d | d in dirs && |d| == 2
        ensures d[0] != EndpointRoot[0]
      {
        assert d[..1] in Prefixes(d);
      }
    }
    assert EndpointIndex(dirs) == Ok(VMap(map[]));
    assert Parent(EndpointIndexDest) == EndpointRoot;
    assert [] !in files;
    assert Prefixes(EndpointRoot) == {[], EndpointRoot} by {
      forall q | q in Prefixes(EndpointRoot) ensures q == [] || q == EndpointRoot {
        assert |q| <= 1;
      }
    }
  }

  /** The index is a file, not a directory, so a second run lists the same
      endpoints and leaves the tree as the first run left it. */
  lemma WriteEndpointIndexIdempotent(files: map<Path, Value>, dirs: set<Path>)
    requires WellFormed(files, dirs)
    requires Written(files, dirs, EndpointIndexDest, EndpointIndex(dirs)).result.Ok?
    ensures var o := Written(files, dirs, EndpointIndexDest, EndpointIndex(dirs));
            Written(o.files, o.dirs, EndpointIndexDest, EndpointIndex(o.dirs)) == o
  {
    WrittenIdempotent(files, dirs, EndpointIndexDest, EndpointIndex(dirs));
  }

  /** One turn of the loop of `_find_endpoint_paths`: a name whose
      placeholders fill adds its endpoint path, any other name nothing. */
  lemma PathIndexStep(done: set<string>, name: string)
    requires !Fails(name)
    ensures var g := EndpointDirGroup(name);
            PathIndex(EndpointPathsIn(done + {name}))
            == if g.Some? then
                 PathIndex(EndpointPathsIn(done))[ToEndpointPath(g.value).value := Ref(ToEndpointDir(ToEndpointPath(g.value).value) + "/_index.yml")]
               else PathIndex(EndpointPathsIn(done))
  {
    PathsInAdd(done, name);
    var g := EndpointDirGroup(name);
    if g.Some? {
      PathIndexAdd(EndpointPathsIn(done), ToEndpointPath(g.value).value);
    } else {
      assert EndpointPathsIn(done + {name}) == EndpointPathsIn(done);
    }
  }

  lemma PathsInAdd(done: set<string>, name: string)
    ensures EndpointPathsIn(done + {name})
            == EndpointPathsIn(done)
               + if EndpointDirGroup(name).Some? && ToEndpointPath(EndpointDirGroup(name).value).Ok?
                 then {ToEndpointPath(EndpointDirGroup(name).value).value} else {}
  {
  }

  lemma PathIndexAdd(endpoints: set<string>, x: string)
    ensures PathIndex(endpoints + {x}) == PathIndex(endpoints)[x := Ref(ToEndpointDir(x) + "/_index.yml")]
  {
  }

  /** `_build` and `_find_endpoint_paths`: the loop over the children of
      paths/, stopping at the first name whose placeholders do not fill. */
  method BuildEndpointIndex(tree: Tree) returns (r: Result<Value>)
    ensures r == EndpointIndex(tree.dirs)
  {
    var all := ChildNames(tree.dirs);
    var todo := all;
    ghost var done: set<string> := {};
    var index: map<string, Value> := map[];
    while todo != {}
      invariant todo !! done && todo + done == all
      invariant forall n :: n in done ==> !Fails(n)
      invariant index == PathIndex(EndpointPathsIn(done))
      decreases |todo|
    {
      var name :| name in todo;
      var group := EndpointDirGroup(name);
      if group.Some? {
        var endpoint := ToEndpointPath(group.value);
        if endpoint.Err? {
          assert Fails(name);
          return Err(RuntimeError);
        }
      }
      PathIndexStep(done, name);
      if group.Some? {
        var endpoint := ToEndpointPath(group.value).value;
        index := index[endpoint := Ref(ToEndpointDir(endpoint) + "/_index.yml")];
      }
      MoveOne(todo, done, all, name);
      todo := todo - {name};
      done := done + {name};
    }
    assert done == all;
    r := Ok(VMap(index));
  }

  /** `OASEndpointPatternWriter.write`: no directory is made first. */
  method WriteEndpointIndex(tree: Tree) returns (r: Result<()>)
    requires tree.Valid()
    modifies tree
    ensures tree.Valid()
    ensures Outcome(r, tree.files, tree.dirs)
            == Written(old(tree.files), old(tree.dirs), EndpointIndexDest, EndpointIndex(old(tree.dirs)))
  {
    WrittenFrame(tree.files, tree.dirs, EndpointIndexDest, EndpointIndex(tree.dirs));
    var built := BuildEndpointIndex(tree);
    if built.Err? {
      return Err(built.error);
    }
    r := tree.WriteText(EndpointIndexDest, built.value);
  }
}
