/** The destination directory the writers fill: files holding YAML
    fragments and the directories that contain them, each named by its
    path segments below the destination root. `mkdir`, `write_text`,
    `read_text` and `glob` are modelled on this tree. */
module DocTree {
  import opened Wrappers
  import opened Strings
  import opened Models

  type Path = seq<string>

  /** A path and all of its ancestors, the root [] included. */
  function Prefixes(p: Path): (r: set<Path>)
    ensures forall q :: q in r <==> |q| <= |p| && q == p[..|q|]
  {
    set i | 0 <= i <= |p| :: p[..i]
  }

  /** The root exists, the parent of every directory is a directory, every
      file sits in a directory, and nothing is both a file and a
      directory. */
  predicate WellFormed(files: map<Path, Value>, dirs: set<Path>) {
    [] in dirs
    && (forall d | d in dirs :: Prefixes(d) <= dirs)
    && (forall k | k in files :: |k| > 0 && k[..|k| - 1] in dirs && k !in dirs)
  }

  function Parent(k: Path): Path
    requires |k| > 0
  {
    k[..|k| - 1]
  }

  /** `mkdir(parents=True, exist_ok=True)`: FileExistsError when the
      directory itself is a file, NotADirectoryError when an ancestor is. */
  function MkdirResult(files: map<Path, Value>, d: Path): (r: Result<()>)
    ensures r.Ok? <==> forall q :: q in Prefixes(d) ==> q !in files
    ensures r.Err? ==> r.error in {FileExists, NotADirectory}
  {
    if d in files then Err(FileExists)
    else if exists q :: q in Prefixes(d) && q in files then Err(NotADirectory)
    else Ok(())
  }

  /** `write_text` on its own: the parent must be a directory (otherwise
      FileNotFoundError, or NotADirectoryError when the way passes through
      a file) and the path itself must not be a directory. */
  function WriteResult(files: map<Path, Value>, dirs: set<Path>, k: Path): (r: Result<()>)
    requires |k| > 0
    ensures r.Ok? <==> Parent(k) in dirs && k !in dirs
    ensures r.Err? ==> r.error in {IsADirectory, NotADirectory, FileNotFound}
  {
    if Parent(k) in dirs then
      if k in dirs then Err(IsADirectory) else Ok(())
    else if exists q :: q in Prefixes(Parent(k)) && q in files then Err(NotADirectory)
    else Err(FileNotFound)
  }

  /** The result of an operation on the tree and the tree after it. */
  datatype Outcome = Outcome(result: Result<()>, files: map<Path, Value>, dirs: set<Path>)

  /** `self.dest.write_text(yaml.dump(self._build()))` with no directory
      made first: an error of the build leaves the tree as it was. */
  function Written(files: map<Path, Value>, dirs: set<Path>, k: Path, content: Result<Value>): Outcome
    requires |k| > 0
  {
    match content
    case Err(e) => Outcome(Err(e), files, dirs)
    case Ok(v) =>
      var w := WriteResult(files, dirs, k);
      Outcome(w, if w.Ok? then files[k := v] else files, dirs)
  }

  /** The same behind `ensure_dest_exists`: the parent directories are made
      before the build runs, and stay made when it then fails. */
  function EnsuredWritten(files: map<Path, Value>, dirs: set<Path>, k: Path, content: Result<Value>): Outcome
    requires |k| > 0
  {
    var m := MkdirResult(files, Parent(k));
    if m.Err? then Outcome(m, files, dirs)
    else Written(files, dirs + Prefixes(Parent(k)), k, content)
  }

  lemma PrefixesOfPrefix(p: Path, q: Path)
    requires q in Prefixes(p)
    ensures Prefixes(q) <= Prefixes(p)
  {
  }

  /** A write sets its destination and nothing else, keeps no directory
      from existing, and keeps the tree well formed. */
  lemma WrittenFrame(files: map<Path, Value>, dirs: set<Path>, k: Path, content: Result<Value>)
    requires |k| > 0 && WellFormed(files, dirs)
    ensures var o := Written(files, dirs, k, content);
            WellFormed(o.files, o.dirs) && o.dirs == dirs
            && (o.result.Ok? <==> content.Ok? && Parent(k) in dirs && k !in dirs)
            && (content.Err? ==> o.result == Err(content.error))
            && (o.result.Ok? ==> o.files == files[k := content.value])
            && (o.result.Err? ==> o.files == files)
  {
    if content.Ok? && Parent(k) in dirs && k !in dirs {
      WriteKeepsWellFormed(files, dirs, k, content.value);
    }
  }

  /** A write that succeeded, repeated with the same content, changes
      nothing more. */
  lemma WrittenIdempotent(files: map<Path, Value>, dirs: set<Path>, k: Path, content: Result<Value>)
    requires |k| > 0 && Written(files, dirs, k, content).result.Ok?
    ensures var o := Written(files, dirs, k, content);
            o.dirs == dirs && Written(o.files, o.dirs, k, content) == o
  {
    var v := content.value;
    assert Parent(k) in dirs && k !in dirs;
    assert files[k := v][k := v] == files[k := v];
  }

  /** A file written into an existing directory, where no directory of that
      name stands, keeps the tree well formed. */
  lemma WriteKeepsWellFormed(files: map<Path, Value>, dirs: set<Path>, k: Path, v: Value)
    requires |k| > 0 && WellFormed(files, dirs) && Parent(k) in dirs && k !in dirs
    ensures WellFormed(files[k := v], dirs)
  {
    forall q | q in files[k := v] ensures |q| > 0 && q[..|q| - 1] in dirs && q !in dirs {
      if q != k {
        assert q in files;
      }
    }
  }

  /** The same with the directories `ensure_dest_exists` makes: every
      ancestor of the destination is a directory afterwards, unless one of
      them is a file. */
  lemma EnsuredFrame(files: map<Path, Value>, dirs: set<Path>, k: Path, content: Result<Value>)
    requires |k| > 0 && WellFormed(files, dirs)
    ensures var o := EnsuredWritten(files, dirs, k, content);
            var made := forall q :: q in Prefixes(Parent(k)) ==> q !in files;
            WellFormed(o.files, o.dirs)
            && o.dirs == (if made then dirs + Prefixes(Parent(k)) else dirs)
            && (o.result.Ok? <==> made && content.Ok? && k !in dirs)
            && (o.result.Ok? ==> o.files == files[k := content.value])
            && (o.result.Err? ==> o.files == files)
  {
    if MkdirResult(files, Parent(k)).Ok? {
      MkdirFrame(files, dirs, Parent(k));
      assert k !in Prefixes(Parent(k));
      WrittenFrame(files, dirs + Prefixes(Parent(k)), k, content);
    }
  }

  /** Making a directory and its ancestors keeps the tree well formed. */
  lemma MkdirFrame(files: map<Path, Value>, dirs: set<Path>, d: Path)
    requires WellFormed(files, dirs) && MkdirResult(files, d).Ok?
    ensures WellFormed(files, dirs + Prefixes(d))
  {
    var dirs' := dirs + Prefixes(d);
    forall e | e in dirs' ensures Prefixes(e) <= dirs' {
      if e in Prefixes(d) {
        PrefixesOfPrefix(d, e);
      }
    }
  }

  /** Writing the same value again behind `ensure_dest_exists` finds the
      directories made and the file in place, and changes nothing. */
  lemma EnsuredIdempotent(files: map<Path, Value>, dirs: set<Path>, k: Path, v: Value)
    requires |k| > 0
    requires EnsuredWritten(files, dirs, k, Ok(v)).result.Ok?
    ensures var o := EnsuredWritten(files, dirs, k, Ok(v));
            EnsuredWritten(o.files, o.dirs, k, Ok(v)) == o
  {
    var pre := Prefixes(Parent(k));
    EnsuredOk(files, dirs, k, v);
    assert k !in pre;
    EnsuredAgain(files[k := v], dirs + pre, k, v);
  }

  /** A write behind `ensure_dest_exists` that succeeds makes the
      ancestors and sets the file. */
  lemma EnsuredOk(files: map<Path, Value>, dirs: set<Path>, k: Path, v: Value)
    requires |k| > 0 && EnsuredWritten(files, dirs, k, Ok(v)).result.Ok?
    ensures MkdirResult(files, Parent(k)).Ok? && k !in dirs
    ensures EnsuredWritten(files, dirs, k, Ok(v)) == Outcome(Ok(()), files[k := v], dirs + Prefixes(Parent(k)))
  {
  }

  /** What a successful write behind `ensure_dest_exists` leaves for a
      later scan: the entries before, the ancestors made, and the file. */
  lemma EnsuredEntries(files: map<Path, Value>, dirs: set<Path>, k: Path, v: Value)
    requires |k| > 0 && EnsuredWritten(files, dirs, k, Ok(v)).result.Ok?
    ensures var o := EnsuredWritten(files, dirs, k, Ok(v));
            o.files.Keys + o.dirs == files.Keys + dirs + Prefixes(Parent(k)) + {k}
  {
    EnsuredOk(files, dirs, k, v);
  }

  /** Once the ancestors are directories and the file holds the value, the
      same write changes nothing. */
  lemma EnsuredAgain(files: map<Path, Value>, dirs: set<Path>, k: Path, v: Value)
    requires |k| > 0 && Prefixes(Parent(k)) <= dirs && k !in dirs
    requires k in files && files[k] == v
    requires forall q :: q in Prefixes(Parent(k)) ==> q !in files
    ensures EnsuredWritten(files, dirs, k, Ok(v)) == Outcome(Ok(()), files, dirs)
  {
    assert dirs + Prefixes(Parent(k)) == dirs;
    assert Parent(k) in Prefixes(Parent(k));
    assert files[k := v] == files;
  }

  // `dir.glob("**/*.yml")`: the entries strictly below `dir` whose last
  // segment ends in ".yml", files and directories alike.
  function GlobYml(entries: set<Path>, dir: Path): set<Path> {
    set p | p in entries && |dir| < |p| && p[..|dir|] == dir && EndsWith(p[|p| - 1], ".yml")
  }

  /** The directories `ensure_dest_exists` makes above a scanned
      directory are not below it, so the scan sees the same entries. */
  lemma GlobIgnoresPrefixes(entries: set<Path>, dir: Path)
    ensures GlobYml(entries + Prefixes(dir), dir) == GlobYml(entries, dir)
  {
  }

  /** A scan that moves one element from the entries still to visit to
      those visited keeps the two apart and covering the whole. */
  lemma MoveOne<T>(todo: set<T>, done: set<T>, all: set<T>, p: T)
    requires p in todo && todo !! done && todo + done == all
    ensures (todo - {p}) !! (done + {p}) && (todo - {p}) + (done + {p}) == all
  {
  }

  /** `ps` lists the members of `s`, each once. */
  predicate Enumerates(ps: seq<Path>, s: set<Path>) {
    (set p | p in ps) == s && forall i, j :: 0 <= i < j < |ps| ==> ps[i] != ps[j]
  }

  /** The `{"$ref": target}` mapping the indices are made of. */
  function Ref(target: string): Value {
    VMap(map["$ref" := VStr(target)])
  }

  /** The destination directory. */
  class Tree {
    var files: map<Path, Value>
    var dirs: set<Path>

    ghost predicate Valid()
      reads this
    {
      WellFormed(files, dirs)
    }

    /** An empty destination root. */
    constructor ()
      ensures Valid() && files == map[] && dirs == {[]}
    {
      files := map[];
      dirs := {[]};
    }

    /** What `glob` can see: every file and every directory. */
    function Entries(): set<Path>
      reads this
    {
      files.Keys + dirs
    }

    /** `Path.mkdir(parents=True, exist_ok=True)`. */
    method MakeDirs(d: Path) returns (r: Result<()>)
      requires Valid()
      modifies this
      ensures r == MkdirResult(old(files), d)
      ensures files == old(files)
      ensures dirs == if r.Ok? then old(dirs) + Prefixes(d) else old(dirs)
      ensures Valid()
    {
      r := MkdirResult(files, d);
      if r.Ok? {
        MkdirFrame(files, dirs, d);
        dirs := dirs + Prefixes(d);
      }
    }

    /** `Path.write_text`. */
    method WriteText(k: Path, v: Value) returns (r: Result<()>)
      requires Valid() && |k| > 0
      modifies this
      ensures Outcome(r, files, dirs) == Written(old(files), old(dirs), k, Ok(v))
      ensures Valid()
    {
      WrittenFrame(files, dirs, k, Ok(v));
      r := WriteResult(files, dirs, k);
      if r.Ok? {
        files := files[k := v];
      }
    }

    // `dir.glob("**/*.yml")` as an iterator: every matching entry once, in
    // an order the file system chooses.
    method Glob(dir: Path) returns (ps: seq<Path>)
      ensures Enumerates(ps, GlobYml(Entries(), dir))
    {
      var todo := GlobYml(Entries(), dir);
      ps := [];
      while todo != {}
        invariant todo <= GlobYml(Entries(), dir)
        invariant forall q :: q in ps <==> q in GlobYml(Entries(), dir) && q !in todo
        invariant forall i, j :: 0 <= i < j < |ps| ==> ps[i] != ps[j]
        decreases |todo|
      {
        var p :| p in todo;
        ps := ps + [p];
        todo := todo - {p};
      }
      assert (set q | q in ps) == GlobYml(Entries(), dir);
    }
  }
}
