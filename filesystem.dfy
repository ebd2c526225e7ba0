/**
 * An abstract filesystem: a map from paths (sequences of names) to entries,
 * each a directory or a file with text contents.  The empty path `[]` is
 * the working directory, which always exists and is never a key.
 *
 * The primitives the pipeline calls (`os.path.exists`, `os.listdir`,
 * `os.makedirs(..., exist_ok=True)`, `open(..., 'w').write`, `open().read()`,
 * `shutil.copy`) are pure functions from a state to an `Effect`: the state
 * they leave and the exception they raise, if any.  `Disk` is the mutable
 * filesystem the components change in place.
 */
module FileSystem {
  import opened Exceptions
  import PyStr

  type Name = string
  type Path = seq<Name>

  datatype Entry = Dir | File(content: string)

  type FS = map<Path, Entry>

  /** What an operation leaves behind: the new state and the exception raised, if any. */
  datatype Effect = Effect(fs: FS, err: Option<Error>)

  function Parent(p: Path): Path
    requires p != []
  {
    p[..|p| - 1]
  }

  function Last(p: Path): Name
    requires p != []
  {
    p[|p| - 1]
  }

  predicate IsPrefix(q: Path, p: Path) {
    |q| <= |p| && p[..|q|] == q
  }

  /** `os.path.exists(p)` */
  predicate Exists(fs: FS, p: Path) {
    p == [] || p in fs
  }

  /** `os.path.isdir(p)` */
  predicate IsDir(fs: FS, p: Path) {
    p == [] || (p in fs && fs[p].Dir?)
  }

  /** `os.path.isfile(p)` */
  predicate IsFile(fs: FS, p: Path) {
    p != [] && p in fs && fs[p].File?
  }

  /** The state is a tree: every entry sits in a directory that exists. */
  predicate Tree(fs: FS) {
    forall p :: p in fs ==> p != [] && IsDir(fs, Parent(p))
  }

  /** `fs2` keeps every entry of `fs1` unchanged (it may add entries). */
  predicate Extends(fs1: FS, fs2: FS) {
    forall q :: q in fs1 ==> q in fs2 && fs2[q] == fs1[q]
  }

  /** `p` rendered as the string `os.path.join` builds: the names joined by `/`. */
  function Render(p: Path): string {
    PyStr.Join(p, '/')
  }

  /** The names directly inside directory `d`. */
  function Children(fs: FS, d: Path): (names: set<Name>)
    ensures forall n :: n in names <==> d + [n] in fs
  {
    var names := set p | p in fs && |p| == |d| + 1 && p[..|d|] == d :: p[|d|];
    assert forall n :: d + [n] in fs ==> (d + [n])[|d|] in names;
    assert forall p :: p in fs && |p| == |d| + 1 && p[..|d|] == d ==> p == d + [p[|d|]];
    names
  }

  /** `os.listdir(d)`: the names in a directory; raises on a file or a missing path. */
  function ListDir(fs: FS, d: Path): (r: Result<set<Name>>)
    ensures r.Ok? <==> IsDir(fs, d)
    ensures r.Ok? ==> r.value == Children(fs, d)
  {
    if IsDir(fs, d) then Ok(Children(fs, d))
    else if d in fs then Err(NotADirectory(d))
    else Err(FileNotFound(d))
  }

  /** `open(p).read()` */
  function ReadText(fs: FS, p: Path): (r: Result<string>)
    ensures r.Ok? <==> IsFile(fs, p)
    ensures r.Ok? ==> fs[p] == File(r.value)
  {
    if IsFile(fs, p) then Ok(fs[p].content)
    else if Exists(fs, p) then Err(IsADirectory(p))
    else Err(FileNotFound(p))
  }

  // ---------------------------------------------------------------------
  // State-changing primitives, as functions

  /**
   * `os.makedirs(p, exist_ok=True)` as CPython runs it: create the missing
   * parent first (recursively), then `mkdir(p)`, which is harmless when `p`
   * is already a directory and raises when `p` is a file or its parent is not
   * a directory.
   */
  function MakeDirsEffect(fs: FS, p: Path): (e: Effect)
    decreases |p|
  {
    if p == [] then Effect(fs, None)
    else
      var head := Parent(p);
      var pre := if head != [] && head !in fs then MakeDirsEffect(fs, head) else Effect(fs, None);
      if pre.err.Some? then pre
      else if p in pre.fs then
        if pre.fs[p].Dir? then pre else Effect(pre.fs, Some(FileExists(p)))
      else if !IsDir(pre.fs, head) then Effect(pre.fs, Some(NotADirectory(p)))
      else Effect(pre.fs[p := Dir], None)
  }

  /** `open(p, 'w').write(data)`: create or truncate a file whose directory exists. */
  function WriteTextEffect(fs: FS, p: Path, data: string): (e: Effect) {
    if IsDir(fs, p) then Effect(fs, Some(IsADirectory(p)))
    else if !IsDir(fs, Parent(p)) then
      Effect(fs, Some(if Parent(p) in fs then NotADirectory(p) else FileNotFound(p)))
    else Effect(fs[p := File(data)], None)
  }

  /**
   * `Path.touch()`: an existing entry keeps its contents (only its times
   * change, which are not modelled); a missing one becomes an empty file when
   * its directory exists.
   */
  function TouchEffect(fs: FS, p: Path): (e: Effect) {
    if Exists(fs, p) then Effect(fs, None)
    else if !IsDir(fs, Parent(p)) then
      Effect(fs, Some(if Parent(p) in fs then NotADirectory(p) else FileNotFound(p)))
    else Effect(fs[p := File("")], None)
  }

  /** Where `shutil.copy(src, dst)` writes: into `dst` when it is a directory, else `dst` itself. */
  function CopyTarget(fs: FS, src: Path, dst: Path): Path
    requires src != []
  {
    if IsDir(fs, dst) then dst + [Last(src)] else dst
  }

  /** `shutil.copy(src, dst)`: copy a file's contents (permission bits are not modelled). */
  function CopyEffect(fs: FS, src: Path, dst: Path): (e: Effect) {
    if !IsFile(fs, src) then
      Effect(fs, Some(if Exists(fs, src) then IsADirectory(src) else FileNotFound(src)))
    else
      var t := CopyTarget(fs, src, dst);
      if t == src then Effect(fs, Some(SameFile(src)))
      else if IsDir(fs, t) then Effect(fs, Some(IsADirectory(t)))
      else if !IsDir(fs, Parent(t)) then
        Effect(fs, Some(if Parent(t) in fs then NotADirectory(t) else FileNotFound(t)))
      else Effect(fs[t := File(fs[src].content)], None)
  }

  // ---------------------------------------------------------------------
  // Properties of the primitives

  /**
   * `os.makedirs` only adds directories, and only prefixes of `p`; on a tree
   * it leaves a tree; when it returns normally, `p` is a directory.
   */
  lemma {:induction false} MakeDirsAdds(fs: FS, p: Path)
    ensures var e := MakeDirsEffect(fs, p);
      && Extends(fs, e.fs)
      && (forall q :: q in e.fs && q !in fs ==> e.fs[q] == Dir && IsPrefix(q, p))
      && (Tree(fs) ==> Tree(e.fs))
      && (e.err.None? ==> IsDir(e.fs, p))
    decreases |p|
  {
    if p != [] {
      var head := Parent(p);
      var pre := if head != [] && head !in fs then MakeDirsEffect(fs, head) else Effect(fs, None);
      if head != [] && head !in fs {
        MakeDirsAdds(fs, head);
        forall q | q in pre.fs && q !in fs ensures IsPrefix(q, p) {
          assert IsPrefix(q, head);
          assert p[..|q|] == head[..|q|];
        }
      }
      assert Extends(fs, pre.fs) && (Tree(fs) ==> Tree(pre.fs));
      assert forall q :: q in pre.fs && q !in fs ==> pre.fs[q] == Dir && IsPrefix(q, p);
      if pre.err.None? && p !in pre.fs && IsDir(pre.fs, head) {
        assert MakeDirsEffect(fs, p) == Effect(pre.fs[p := Dir], None);
        assert p[..|p|] == p;
      } else {
        assert MakeDirsEffect(fs, p).fs == pre.fs;
      }
    }
  }

  /** On a tree, `os.makedirs` of an existing directory changes nothing. */
  lemma MakeDirsExisting(fs: FS, p: Path)
    requires Tree(fs) && IsDir(fs, p)
    ensures MakeDirsEffect(fs, p) == Effect(fs, None)
  {
  }

  /** Writing a file changes that one entry only, and keeps a tree a tree. */
  lemma WriteTextChanges(fs: FS, p: Path, data: string)
    ensures var e := WriteTextEffect(fs, p, data);
      && (e.err.None? <==> !IsDir(fs, p) && IsDir(fs, Parent(p)))
      && (e.err.None? ==> e.fs == fs[p := File(data)])
      && (e.err.Some? ==> e.fs == fs)
      && (Tree(fs) ==> Tree(e.fs))
  {
  }

  /** Touching adds at most one empty file and keeps a tree a tree; afterwards the path exists. */
  lemma TouchChanges(fs: FS, p: Path)
    ensures var e := TouchEffect(fs, p);
      && (e.err.None? <==> Exists(fs, p) || IsDir(fs, Parent(p)))
      && (e.err.None? && !Exists(fs, p) ==> e.fs == fs[p := File("")])
      && (Exists(fs, p) || e.err.Some? ==> e.fs == fs)
      && (e.err.None? ==> Exists(e.fs, p))
      && (Tree(fs) ==> Tree(e.fs))
  {
  }

  /** A copy writes one file, never over a directory, and keeps a tree a tree. */
  lemma CopyChanges(fs: FS, src: Path, dst: Path)
    ensures var e := CopyEffect(fs, src, dst);
      && (e.err.Some? ==> e.fs == fs)
      && (e.err.None? ==> IsFile(fs, src) && !IsDir(fs, CopyTarget(fs, src, dst))
                          && e.fs == fs[CopyTarget(fs, src, dst) := File(fs[src].content)])
      && (Tree(fs) ==> Tree(e.fs))
  {
  }

  // ---------------------------------------------------------------------
  // The mutable filesystem

  class Disk {
    var fs: FS

    ghost predicate Valid()
      reads this
    {
      Tree(fs)
    }

    constructor (initial: FS)
      ensures fs == initial
    {
      fs := initial;
    }

    /** `os.makedirs(p, exist_ok=True)` */
    method MakeDirs(p: Path) returns (err: Option<Error>)
      modifies this
      ensures Effect(fs, err) == MakeDirsEffect(old(fs), p)
      ensures old(Valid()) ==> Valid()
    {
      MakeDirsAdds(fs, p);
      var e := MakeDirsEffect(fs, p);
      fs, err := e.fs, e.err;
    }

    /** `open(p, 'w').write(data)` */
    method WriteText(p: Path, data: string) returns (err: Option<Error>)
      modifies this
      ensures Effect(fs, err) == WriteTextEffect(old(fs), p, data)
      ensures old(Valid()) ==> Valid()
    {
      WriteTextChanges(fs, p, data);
      var e := WriteTextEffect(fs, p, data);
      fs, err := e.fs, e.err;
    }

    /** `Path(p).touch()` */
    method Touch(p: Path) returns (err: Option<Error>)
      modifies this
      ensures Effect(fs, err) == TouchEffect(old(fs), p)
      ensures old(Valid()) ==> Valid()
    {
      TouchChanges(fs, p);
      var e := TouchEffect(fs, p);
      fs, err := e.fs, e.err;
    }

    /** `shutil.copy(src, dst)` */
    method Copy(src: Path, dst: Path) returns (err: Option<Error>)
      modifies this
      ensures Effect(fs, err) == CopyEffect(old(fs), src, dst)
      ensures old(Valid()) ==> Valid()
    {
      CopyChanges(fs, src, dst);
      var e := CopyEffect(fs, src, dst);
      fs, err := e.fs, e.err;
    }
  }
}
