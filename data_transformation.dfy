/**
 * The data-transformation component: builds the layout
 * `new_root/{images,labels}/{train,test,valid}`, copies every image and
 * label file whose name ends with the configured extension from
 * `old_root/<split>/<kind>` into `new_root/<kind>/<split>`, and then compares
 * the image stems with the label stems of the first split only.
 *
 * `os.listdir` yields a directory's names in an order the model does not fix,
 * so the copying methods return the order they used (`copied`), and their
 * results are stated as a fold over that order; the lemmas then show that,
 * when every copy can succeed, the result does not depend on the order.
 */
module DataTransformation {
  import opened Exceptions
  import opened FileSystem
  import opened ConfigEntity
  import PyStr

  // ---------------------------------------------------------------------
  // Folder creation

  /** `os.makedirs(p, exist_ok=True)` for each path in turn, stopping at the first exception. */
  function MakeAll(fs: FS, paths: seq<Path>): Effect
    decreases |paths|
  {
    if paths == [] then Effect(fs, None)
    else
      var pre := MakeAll(fs, paths[..|paths| - 1]);
      if pre.err.Some? then pre else MakeDirsEffect(pre.fs, paths[|paths| - 1])
  }

  /** `base/n` for every name `n`, in order. */
  function SubPaths(base: Path, names: seq<Name>): (r: seq<Path>)
    ensures |r| == |names|
  {
    seq(|names|, i requires 0 <= i < |names| => base + [names[i]])
  }

  /** The folders `create_new_folder_structure` makes for one new folder: itself, then one per split. */
  function Block(newRoot: Path, newFolder: Name, oldFolders: seq<Name>): seq<Path> {
    [newRoot + [newFolder]] + SubPaths(newRoot + [newFolder], oldFolders)
  }

  /** Every folder `create_new_folder_structure` makes, in the order it makes them. */
  function FolderPaths(newRoot: Path, newFolders: seq<Name>, oldFolders: seq<Name>): seq<Path>
    decreases |newFolders|
  {
    if newFolders == [] then []
    else FolderPaths(newRoot, newFolders[..|newFolders| - 1], oldFolders)
         + Block(newRoot, newFolders[|newFolders| - 1], oldFolders)
  }

  /** Once an exception is raised, later steps are never taken. */
  lemma {:induction false} MakeAllStops(fs: FS, a: seq<Path>, b: seq<Path>)
    requires MakeAll(fs, a).err.Some?
    ensures MakeAll(fs, a + b) == MakeAll(fs, a)
    decreases |b|
  {
    if b == [] {
      assert a + b == a;
    } else {
      MakeAllStops(fs, a, b[..|b| - 1]);
      assert (a + b)[..|a + b| - 1] == a + b[..|b| - 1];
    }
  }

  /** Making folders adds directories only, keeps a tree a tree, and on success every path is a directory. */
  lemma {:induction false} MakeAllAdds(fs: FS, paths: seq<Path>)
    ensures var e := MakeAll(fs, paths);
      && Extends(fs, e.fs)
      && (Tree(fs) ==> Tree(e.fs))
      && (e.err.None? ==> forall i :: 0 <= i < |paths| ==> IsDir(e.fs, paths[i]))
    decreases |paths|
  {
    if paths != [] {
      var init := paths[..|paths| - 1];
      MakeAllAdds(fs, init);
      var pre := MakeAll(fs, init);
      if pre.err.None? {
        MakeDirsAdds(pre.fs, paths[|paths| - 1]);
        var e := MakeDirsEffect(pre.fs, paths[|paths| - 1]);
        if e.err.None? {
          forall i | 0 <= i < |paths| ensures IsDir(e.fs, paths[i]) {
            if i < |paths| - 1 {
              assert paths[i] == init[i];
            }
          }
        }
      }
    }
  }

  /** On a tree, making folders that are all directories already changes nothing. */
  lemma {:induction false} MakeAllExisting(fs: FS, paths: seq<Path>)
    requires Tree(fs)
    requires forall i :: 0 <= i < |paths| ==> IsDir(fs, paths[i])
    ensures MakeAll(fs, paths) == Effect(fs, None)
    decreases |paths|
  {
    if paths != [] {
      MakeAllExisting(fs, paths[..|paths| - 1]);
      MakeDirsExisting(fs, paths[|paths| - 1]);
    }
  }

  /** Running the folder creation a second time changes nothing. */
  lemma MakeAllIdempotent(fs: FS, paths: seq<Path>)
    requires Tree(fs) && MakeAll(fs, paths).err.None?
    ensures var fs1 := MakeAll(fs, paths).fs; MakeAll(fs1, paths) == Effect(fs1, None)
  {
    MakeAllAdds(fs, paths);
    MakeAllExisting(MakeAll(fs, paths).fs, paths);
  }

  /** `new_root/k/s` is among the folders made for every new folder `k` and split `s`. */
  lemma {:induction false} FolderPathsCover(newRoot: Path, newFolders: seq<Name>, oldFolders: seq<Name>, k: Name, s: Name)
    requires k in newFolders && s in oldFolders
    ensures newRoot + [k] in FolderPaths(newRoot, newFolders, oldFolders)
    ensures newRoot + [k, s] in FolderPaths(newRoot, newFolders, oldFolders)
    decreases |newFolders|
  {
    var last := newFolders[|newFolders| - 1];
    var block := Block(newRoot, last, oldFolders);
    if k == last {
      var j :| 0 <= j < |oldFolders| && oldFolders[j] == s;
      assert block[0] == newRoot + [k];
      assert block[1 + j] == newRoot + [k] + [s] == newRoot + [k, s];
    } else {
      assert k in newFolders[..|newFolders| - 1] by {
        var i :| 0 <= i < |newFolders| && newFolders[i] == k;
        assert newFolders[..|newFolders| - 1][i] == k;
      }
      FolderPathsCover(newRoot, newFolders[..|newFolders| - 1], oldFolders, k, s);
    }
  }

  // ---------------------------------------------------------------------
  // Copying one split

  /** The names in a listing that end with the extension. */
  function Matching(names: set<Name>, ext: string): set<Name> {
    set n | n in names && PyStr.EndsWith(n, ext)
  }

  predicate Distinct(names: seq<Name>) {
    forall i, j :: 0 <= i < j < |names| ==> names[i] != names[j]
  }

  /** `names` lists exactly the matching names of `srcDir`, each once. */
  predicate Enumerates(fs: FS, srcDir: Path, ext: string, names: seq<Name>) {
    && Distinct(names)
    && (forall n :: n in names ==> n in Matching(Children(fs, srcDir), ext))
    && (forall n :: n in Matching(Children(fs, srcDir), ext) ==> n in names)
  }

  /** `shutil.copy(srcDir/n, destDir/n)` for each name in turn, stopping at the first exception. */
  function CopyEach(fs: FS, srcDir: Path, destDir: Path, names: seq<Name>): Effect
    decreases |names|
  {
    if names == [] then Effect(fs, None)
    else
      var pre := CopyEach(fs, srcDir, destDir, names[..|names| - 1]);
      var n := names[|names| - 1];
      if pre.err.Some? then pre else CopyEffect(pre.fs, srcDir + [n], destDir + [n])
  }

  /** One split of `copy_files`: list `srcDir` (which may raise), then copy in the order given. */
  function SplitCopy(fs: FS, srcDir: Path, destDir: Path, names: seq<Name>): Effect {
    match ListDir(fs, srcDir)
    case Err(e) => Effect(fs, Some(e))
    case Ok(_) => CopyEach(fs, srcDir, destDir, names)
  }

  /** The paths a split's copies write. */
  function DestKeys(destDir: Path, s: set<Name>): set<Path> {
    set n | n in s :: destDir + [n]
  }

  /** `q` is `destDir/n` for a name `n` of `s`. */
  predicate IsDestKey(q: Path, destDir: Path, s: set<Name>) {
    |q| == |destDir| + 1 && q[..|destDir|] == destDir && q[|destDir|] in s
  }

  lemma DestKeysMembers(destDir: Path, s: set<Name>, q: Path)
    ensures q in DestKeys(destDir, s) <==> IsDestKey(q, destDir, s)
  {
    if IsDestKey(q, destDir, s) {
      assert q == destDir + [q[|destDir|]];
    }
  }

  /** Appending one name is injective. */
  lemma AppendOneInjective(a: Path, b: Path, m: Name, k: Name)
    ensures a + [m] == b + [k] ==> a == b && m == k
  {
    if a + [m] == b + [k] {
      assert a == (a + [m])[..|a|];
      assert b == (b + [k])[..|b|];
    }
  }

  /** Each copy can succeed: a source file, and a destination that is not a directory, in an existing directory. */
  predicate Copyable(fs: FS, srcDir: Path, destDir: Path, s: set<Name>) {
    && srcDir != destDir
    && IsDir(fs, destDir)
    && forall n :: n in s ==> IsFile(fs, srcDir + [n]) && !IsDir(fs, destDir + [n])
  }

  /** The state a split's copies leave when they all succeed: each `destDir/n` holds the contents of `srcDir/n`. */
  function CopiedState(fs: FS, srcDir: Path, destDir: Path, s: set<Name>): FS
    requires forall n :: n in s ==> IsFile(fs, srcDir + [n])
  {
    assert forall q :: q in DestKeys(destDir, s) ==> IsDestKey(q, destDir, s);
    map q | q in fs.Keys + DestKeys(destDir, s) ::
      if IsDestKey(q, destDir, s) then
        var m := q[|destDir|];
        assert IsFile(fs, srcDir + [m]);
        File(fs[srcDir + [m]].content)
      else fs[q]
  }

  /** A source path is never a destination path of another directory. */
  lemma SourceNotDest(srcDir: Path, destDir: Path, m: Name, s: set<Name>)
    requires srcDir != destDir
    ensures !IsDestKey(srcDir + [m], destDir, s)
  {
    if |srcDir| == |destDir| {
      assert (srcDir + [m])[..|destDir|] == srcDir;
    }
  }

  /** The copied state keeps every source file and the destination directory as they were. */
  lemma CopiedStateKeepsSources(fs: FS, srcDir: Path, destDir: Path, s: set<Name>, t: set<Name>)
    requires Copyable(fs, srcDir, destDir, t) && s <= t
    ensures forall m :: m in t ==>
      (srcDir + [m] in CopiedState(fs, srcDir, destDir, s)
       && CopiedState(fs, srcDir, destDir, s)[srcDir + [m]] == fs[srcDir + [m]])
    ensures IsDir(CopiedState(fs, srcDir, destDir, s), destDir)
  {
    forall m | m in t
      ensures srcDir + [m] in CopiedState(fs, srcDir, destDir, s)
      ensures CopiedState(fs, srcDir, destDir, s)[srcDir + [m]] == fs[srcDir + [m]]
    {
      SourceNotDest(srcDir, destDir, m, s);
    }
    assert !IsDestKey(destDir, destDir, s);
  }

  /** Copying one more file extends the copied state by that file. */
  lemma CopiedStateStep(fs: FS, srcDir: Path, destDir: Path, s: set<Name>, n: Name)
    requires Copyable(fs, srcDir, destDir, s + {n}) && n !in s
    ensures CopyEffect(CopiedState(fs, srcDir, destDir, s), srcDir + [n], destDir + [n])
            == Effect(CopiedState(fs, srcDir, destDir, s + {n}), None)
  {
    var fs1 := CopiedState(fs, srcDir, destDir, s);
    var fs2 := CopiedState(fs, srcDir, destDir, s + {n});
    var t := destDir + [n];
    CopiedStateKeepsSources(fs, srcDir, destDir, s, s + {n});
    assert t[..|destDir|] == destDir && t[|destDir|] == n;
    assert !IsDir(fs1, t) by {
      assert !IsDestKey(t, destDir, s);
    }
    assert CopyTarget(fs1, srcDir + [n], t) == t;
    AppendOneInjective(srcDir, destDir, n, n);
    assert Parent(t) == destDir;
    var fs3 := fs1[t := File(fs[srcDir + [n]].content)];
    assert CopyEffect(fs1, srcDir + [n], t) == Effect(fs3, None);
    forall q ensures q in fs3 <==> q in fs2 {
      DestKeysMembers(destDir, s, q);
      DestKeysMembers(destDir, s + {n}, q);
    }
    forall q | q in fs2 ensures fs3[q] == fs2[q] {
      DestKeysMembers(destDir, s, q);
      DestKeysMembers(destDir, s + {n}, q);
      if q != t && IsDestKey(q, destDir, s + {n}) {
        assert q == destDir + [q[|destDir|]];
      }
    }
    assert fs3 == fs2;
  }

  /** When every copy can succeed, a split's copies, in any order, leave exactly the copied state. */
  lemma {:induction false} CopyEachResult(fs: FS, srcDir: Path, destDir: Path, names: seq<Name>)
    requires Distinct(names)
    requires Copyable(fs, srcDir, destDir, set n | n in names)
    ensures CopyEach(fs, srcDir, destDir, names) == Effect(CopiedState(fs, srcDir, destDir, set n | n in names), None)
    decreases |names|
  {
    var s := set n | n in names;
    if names == [] {
      assert CopiedState(fs, srcDir, destDir, s) == fs;
    } else {
      var init := names[..|names| - 1];
      var n := names[|names| - 1];
      var si := set m | m in init;
      assert s == si + {n};
      forall i | 0 <= i < |init| ensures init[i] != n {
        assert init[i] == names[i];
      }
      assert Distinct(init) by {
        forall i, j | 0 <= i < j < |init| ensures init[i] != init[j] {
          assert init[i] == names[i] && init[j] == names[j];
        }
      }
      CopyEachResult(fs, srcDir, destDir, init);
      CopiedStateStep(fs, srcDir, destDir, si, n);
    }
  }

  /** Copying the same files again leaves the same contents: the second run changes nothing. */
  lemma CopiedStateIdempotent(fs: FS, srcDir: Path, destDir: Path, s: set<Name>)
    requires Copyable(fs, srcDir, destDir, s)
    ensures Copyable(CopiedState(fs, srcDir, destDir, s), srcDir, destDir, s)
    ensures CopiedState(CopiedState(fs, srcDir, destDir, s), srcDir, destDir, s) == CopiedState(fs, srcDir, destDir, s)
  {
    var fs1 := CopiedState(fs, srcDir, destDir, s);
    CopiedStateKeepsSources(fs, srcDir, destDir, s, s);
    var fs2 := CopiedState(fs1, srcDir, destDir, s);
    forall q ensures q in fs2 <==> q in fs1 {
      DestKeysMembers(destDir, s, q);
    }
    forall q | q in fs1 ensures fs2[q] == fs1[q] {
    }
    assert fs2 == fs1;
  }

  /** A split copies exactly the matching files: each lands under the same name, nothing else changes. */
  lemma CopiedStateContents(fs: FS, srcDir: Path, destDir: Path, s: set<Name>, n: Name, q: Path)
    requires forall m :: m in s ==> IsFile(fs, srcDir + [m])
    ensures n in s ==> CopiedState(fs, srcDir, destDir, s)[destDir + [n]] == File(fs[srcDir + [n]].content)
    ensures !IsDestKey(q, destDir, s) ==>
      (q in CopiedState(fs, srcDir, destDir, s) <==> q in fs)
      && (q in fs ==> CopiedState(fs, srcDir, destDir, s)[q] == fs[q])
  {
    DestKeysMembers(destDir, s, q);
    DestKeysMembers(destDir, s, destDir + [n]);
    assert (destDir + [n])[..|destDir|] == destDir;
  }

  /** Copies only ever write files: nothing is deleted, and only paths `destDir/...` change. */
  lemma {:induction false} CopyEachKeeps(fs: FS, srcDir: Path, destDir: Path, names: seq<Name>)
    ensures var e := CopyEach(fs, srcDir, destDir, names);
      && fs.Keys <= e.fs.Keys
      && (forall q :: q in e.fs && !IsPrefix(destDir, q) ==> q in fs && e.fs[q] == fs[q])
      && (Tree(fs) ==> Tree(e.fs))
    decreases |names|
  {
    if names != [] {
      var init := names[..|names| - 1];
      var n := names[|names| - 1];
      CopyEachKeeps(fs, srcDir, destDir, init);
      var pre := CopyEach(fs, srcDir, destDir, init);
      if pre.err.None? {
        CopyChanges(pre.fs, srcDir + [n], destDir + [n]);
        var t := CopyTarget(pre.fs, srcDir + [n], destDir + [n]);
        assert IsPrefix(destDir, t);
      }
    }
  }

  // ---------------------------------------------------------------------
  // Copying every split

  /** Where a split's files are read: `old_root/<split>/<src_folder>`. */
  function SrcDir(oldRoot: Path, split: Name, srcFolder: Name): Path {
    oldRoot + [split, srcFolder]
  }

  /** Where they are written: `new_root/<dest_folder>/<split>`. */
  function DestDir(newRoot: Path, destFolder: Name, split: Name): Path {
    newRoot + [destFolder, split]
  }

  /** `copy_files` over the first `|orders|` splits, with the copy order each listing gave. */
  function CopyFilesSpec(fs: FS, oldRoot: Path, newRoot: Path, splits: seq<Name>,
                         srcFolder: Name, destFolder: Name, orders: seq<seq<Name>>): Effect
    requires |orders| <= |splits|
    decreases |orders|
  {
    if orders == [] then Effect(fs, None)
    else
      var k := |orders| - 1;
      var pre := CopyFilesSpec(fs, oldRoot, newRoot, splits, srcFolder, destFolder, orders[..k]);
      if pre.err.Some? then pre
      else SplitCopy(pre.fs, SrcDir(oldRoot, splits[k], srcFolder), DestDir(newRoot, destFolder, splits[k]), orders[k])
  }

  /** A path under a split's destination is under `new_root/<dest_folder>`. */
  lemma UnderDestFolder(newRoot: Path, destFolder: Name, split: Name, q: Path)
    requires IsPrefix(DestDir(newRoot, destFolder, split), q)
    ensures IsPrefix(newRoot + [destFolder], q)
  {
    assert q[..|newRoot| + 1] == DestDir(newRoot, destFolder, split)[..|newRoot| + 1];
  }

  /** Copying never deletes anything and changes only paths under `new_root/<dest_folder>`. */
  lemma {:induction false} CopyFilesKeeps(fs: FS, oldRoot: Path, newRoot: Path, splits: seq<Name>,
                                          srcFolder: Name, destFolder: Name, orders: seq<seq<Name>>)
    requires |orders| <= |splits|
    ensures var e := CopyFilesSpec(fs, oldRoot, newRoot, splits, srcFolder, destFolder, orders);
      && fs.Keys <= e.fs.Keys
      && (forall q :: q in e.fs && !IsPrefix(newRoot + [destFolder], q) ==> q in fs && e.fs[q] == fs[q])
      && (Tree(fs) ==> Tree(e.fs))
    decreases |orders|
  {
    if orders != [] {
      var k := |orders| - 1;
      CopyFilesKeeps(fs, oldRoot, newRoot, splits, srcFolder, destFolder, orders[..k]);
      var pre := CopyFilesSpec(fs, oldRoot, newRoot, splits, srcFolder, destFolder, orders[..k]);
      if pre.err.None? {
        var srcDir := SrcDir(oldRoot, splits[k], srcFolder);
        var destDir := DestDir(newRoot, destFolder, splits[k]);
        if ListDir(pre.fs, srcDir).Ok? {
          CopyEachKeeps(pre.fs, srcDir, destDir, orders[k]);
          var e := CopyEach(pre.fs, srcDir, destDir, orders[k]);
          assert CopyFilesSpec(fs, oldRoot, newRoot, splits, srcFolder, destFolder, orders) == e;
          forall q | q in e.fs && !IsPrefix(newRoot + [destFolder], q) ensures q in pre.fs && e.fs[q] == pre.fs[q] {
            if IsPrefix(destDir, q) {
              UnderDestFolder(newRoot, destFolder, splits[k], q);
            }
          }
        }
      }
    }
  }

  // ---------------------------------------------------------------------
  // Running `copy_files` twice

  /** `q` is a file path `new_root/<dest_folder>/<split>/<name>` for one of the splits `done`. */
  predicate InDest(q: Path, newRoot: Path, destFolder: Name, done: seq<Name>) {
    |q| == |newRoot| + 3 && q[..|newRoot| + 1] == newRoot + [destFolder] && q[|newRoot| + 1] in done
  }

  /** `g` agrees with `fs` everywhere except on the file paths of the splits `done`. */
  ghost predicate OnlyDestChanged(fs: FS, g: FS, newRoot: Path, destFolder: Name, done: seq<Name>) {
    forall q :: !InDest(q, newRoot, destFolder, done) ==> (q in g <==> q in fs) && (q in fs ==> g[q] == fs[q])
  }

  /** In `g`, every matching file of the first `k` splits of `fs` has its copy, with the source's contents. */
  predicate SplitsCopied(fs: FS, g: FS, oldRoot: Path, newRoot: Path, splits: seq<Name>,
                         srcFolder: Name, destFolder: Name, ext: string, k: nat)
    requires k <= |splits|
  {
    forall j, n :: 0 <= j < k && n in Matching(Children(fs, SrcDir(oldRoot, splits[j], srcFolder)), ext) ==>
      && DestDir(newRoot, destFolder, splits[j]) + [n] in g
      && g[DestDir(newRoot, destFolder, splits[j]) + [n]] == fs[SrcDir(oldRoot, splits[j], srcFolder) + [n]]
  }

  /**
   * Split `k` can be copied from `fs`: its source folder is a directory
   * outside `new_root/<dest_folder>`, and every copy of its matching files
   * can succeed.
   */
  predicate SplitReady(fs: FS, oldRoot: Path, newRoot: Path, splits: seq<Name>,
                       srcFolder: Name, destFolder: Name, ext: string, k: nat)
    requires k < |splits|
  {
    var src := SrcDir(oldRoot, splits[k], srcFolder);
    && IsDir(fs, src)
    && !IsPrefix(newRoot + [destFolder], src)
    && Copyable(fs, src, DestDir(newRoot, destFolder, splits[k]), Matching(Children(fs, src), ext))
  }

  /** A path outside `new_root/<dest_folder>`, and every entry in it, is no split's file path. */
  lemma OutsideNotInDest(src: Path, newRoot: Path, destFolder: Name, done: seq<Name>, n: Name)
    requires !IsPrefix(newRoot + [destFolder], src)
    ensures !InDest(src, newRoot, destFolder, done) && !InDest(src + [n], newRoot, destFolder, done)
  {
  }

  /** Writing split file paths never touches a source folder outside `new_root/<dest_folder>`, nor a split's destination folder. */
  lemma SourceUnchanged(fs: FS, g: FS, oldRoot: Path, newRoot: Path, splits: seq<Name>,
                        srcFolder: Name, destFolder: Name, done: seq<Name>, k: nat)
    requires k < |splits| && !IsPrefix(newRoot + [destFolder], SrcDir(oldRoot, splits[k], srcFolder))
    requires OnlyDestChanged(fs, g, newRoot, destFolder, done)
    ensures var src := SrcDir(oldRoot, splits[k], srcFolder);
      && Children(g, src) == Children(fs, src)
      && IsDir(g, src) == IsDir(fs, src)
      && (forall n :: src + [n] in fs ==> g[src + [n]] == fs[src + [n]])
    ensures IsDir(g, DestDir(newRoot, destFolder, splits[k])) == IsDir(fs, DestDir(newRoot, destFolder, splits[k]))
  {
    var src := SrcDir(oldRoot, splits[k], srcFolder);
    forall n ensures !InDest(src + [n], newRoot, destFolder, done) {
      OutsideNotInDest(src, newRoot, destFolder, done, n);
    }
    OutsideNotInDest(src, newRoot, destFolder, done, "");
    assert !InDest(DestDir(newRoot, destFolder, splits[k]), newRoot, destFolder, done);
    assert Children(g, src) == Children(fs, src);
  }

  /** Before split `k` runs, its source folder and its destination are as they were in `fs`. */
  lemma ReadyStillReady(fs: FS, g: FS, oldRoot: Path, newRoot: Path, splits: seq<Name>,
                        srcFolder: Name, destFolder: Name, ext: string, k: nat)
    requires k < |splits| && Distinct(splits)
    requires SplitReady(fs, oldRoot, newRoot, splits, srcFolder, destFolder, ext, k)
    requires OnlyDestChanged(fs, g, newRoot, destFolder, splits[..k])
    ensures var src := SrcDir(oldRoot, splits[k], srcFolder);
      && Children(g, src) == Children(fs, src)
      && (forall n :: src + [n] in fs ==> g[src + [n]] == fs[src + [n]])
      && SplitReady(g, oldRoot, newRoot, splits, srcFolder, destFolder, ext, k)
  {
    var dest := DestDir(newRoot, destFolder, splits[k]);
    SourceUnchanged(fs, g, oldRoot, newRoot, splits, srcFolder, destFolder, splits[..k], k);
    assert splits[k] !in splits[..k];
    assert forall n :: (dest + [n])[|newRoot| + 1] == splits[k];
  }

  /** A path that is no file path of the first `k + 1` splits is neither one of the first `k` nor one split `k` writes. */
  lemma NotInDestStep(q: Path, newRoot: Path, destFolder: Name, splits: seq<Name>, k: nat, m: set<Name>)
    requires k < |splits| && !InDest(q, newRoot, destFolder, splits[..k + 1])
    ensures !InDest(q, newRoot, destFolder, splits[..k])
    ensures !IsDestKey(q, DestDir(newRoot, destFolder, splits[k]), m)
  {
    assert forall x :: x in splits[..k] ==> x in splits[..k + 1];
    assert splits[k] in splits[..k + 1];
  }

  /** Split `k`'s copies change only its own file paths. */
  lemma CopyStepOnlyDest(fs: FS, g: FS, srcDir: Path, newRoot: Path, splits: seq<Name>, destFolder: Name,
                         k: nat, m: set<Name>)
    requires k < |splits| && forall n :: n in m ==> IsFile(g, srcDir + [n])
    requires OnlyDestChanged(fs, g, newRoot, destFolder, splits[..k])
    ensures OnlyDestChanged(fs, CopiedState(g, srcDir, DestDir(newRoot, destFolder, splits[k]), m),
                            newRoot, destFolder, splits[..k + 1])
  {
    var dest := DestDir(newRoot, destFolder, splits[k]);
    var h := CopiedState(g, srcDir, dest, m);
    forall q | !InDest(q, newRoot, destFolder, splits[..k + 1])
      ensures (q in h <==> q in fs) && (q in fs ==> h[q] == fs[q])
    {
      NotInDestStep(q, newRoot, destFolder, splits, k, m);
      CopiedStateContents(g, srcDir, dest, m, "", q);
    }
  }

  /** Split `k`'s copies keep the copies of the earlier splits and add its own. */
  lemma CopyStepCopied(fs: FS, g: FS, oldRoot: Path, newRoot: Path, splits: seq<Name>,
                       srcFolder: Name, destFolder: Name, ext: string, k: nat)
    requires k < |splits| && Distinct(splits)
    requires SplitReady(fs, oldRoot, newRoot, splits, srcFolder, destFolder, ext, k)
    requires SplitReady(g, oldRoot, newRoot, splits, srcFolder, destFolder, ext, k)
    requires Children(g, SrcDir(oldRoot, splits[k], srcFolder)) == Children(fs, SrcDir(oldRoot, splits[k], srcFolder))
    requires forall n :: SrcDir(oldRoot, splits[k], srcFolder) + [n] in fs ==>
      g[SrcDir(oldRoot, splits[k], srcFolder) + [n]] == fs[SrcDir(oldRoot, splits[k], srcFolder) + [n]]
    requires SplitsCopied(fs, g, oldRoot, newRoot, splits, srcFolder, destFolder, ext, k)
    ensures var src := SrcDir(oldRoot, splits[k], srcFolder);
      SplitsCopied(fs, CopiedState(g, src, DestDir(newRoot, destFolder, splits[k]), Matching(Children(g, src), ext)),
                   oldRoot, newRoot, splits, srcFolder, destFolder, ext, k + 1)
  {
    var src := SrcDir(oldRoot, splits[k], srcFolder);
    var dest := DestDir(newRoot, destFolder, splits[k]);
    var m := Matching(Children(g, src), ext);
    var h := CopiedState(g, src, dest, m);
    forall j, n | 0 <= j < k + 1 && n in Matching(Children(fs, SrcDir(oldRoot, splits[j], srcFolder)), ext)
      ensures DestDir(newRoot, destFolder, splits[j]) + [n] in h
      ensures h[DestDir(newRoot, destFolder, splits[j]) + [n]] == fs[SrcDir(oldRoot, splits[j], srcFolder) + [n]]
    {
      var q := DestDir(newRoot, destFolder, splits[j]) + [n];
      DestKeysMembers(dest, m, q);
      CopiedStateContents(g, src, dest, m, n, q);
      if j < k {
        assert q[|newRoot| + 1] == splits[j] != splits[k];
      }
    }
  }

  /** The orders of the first `k` splits are complete listings, and split `k`'s order lists its folder. */
  lemma ValidOrdersInit(fs: FS, oldRoot: Path, newRoot: Path, splits: seq<Name>,
                        srcFolder: Name, destFolder: Name, ext: string, orders: seq<seq<Name>>)
    requires 0 < |orders| <= |splits|
    requires ValidOrders(fs, oldRoot, newRoot, splits, srcFolder, destFolder, ext, orders, true)
    ensures var k := |orders| - 1;
      && ValidOrders(fs, oldRoot, newRoot, splits, srcFolder, destFolder, ext, orders[..k], true)
      && Enumerates(CopyFilesSpec(fs, oldRoot, newRoot, splits, srcFolder, destFolder, orders[..k]).fs,
                    SrcDir(oldRoot, splits[k], srcFolder), ext, orders[k])
  {
    var k := |orders| - 1;
    var init := orders[..k];
    forall j | 0 <= j < k ensures init[..j] == orders[..j] && init[j] == orders[j] {
    }
  }

  /** One more split of `copy_files`: the run over the first `k` splits extends to `k + 1`. */
  lemma CopyFilesRunStep(fs: FS, oldRoot: Path, newRoot: Path, splits: seq<Name>,
                         srcFolder: Name, destFolder: Name, ext: string, orders: seq<seq<Name>>)
    requires 0 < |orders| <= |splits| && Distinct(splits)
    requires SplitReady(fs, oldRoot, newRoot, splits, srcFolder, destFolder, ext, |orders| - 1)
    requires var k := |orders| - 1;
      var pre := CopyFilesSpec(fs, oldRoot, newRoot, splits, srcFolder, destFolder, orders[..k]);
      && pre.err.None?
      && OnlyDestChanged(fs, pre.fs, newRoot, destFolder, splits[..k])
      && SplitsCopied(fs, pre.fs, oldRoot, newRoot, splits, srcFolder, destFolder, ext, k)
      && Enumerates(pre.fs, SrcDir(oldRoot, splits[k], srcFolder), ext, orders[k])
    ensures var e := CopyFilesSpec(fs, oldRoot, newRoot, splits, srcFolder, destFolder, orders);
      && e.err.None?
      && OnlyDestChanged(fs, e.fs, newRoot, destFolder, splits[..|orders|])
      && SplitsCopied(fs, e.fs, oldRoot, newRoot, splits, srcFolder, destFolder, ext, |orders|)
  {
    var k := |orders| - 1;
    var g := CopyFilesSpec(fs, oldRoot, newRoot, splits, srcFolder, destFolder, orders[..k]).fs;
    var src := SrcDir(oldRoot, splits[k], srcFolder);
    var dest := DestDir(newRoot, destFolder, splits[k]);
    ReadyStillReady(fs, g, oldRoot, newRoot, splits, srcFolder, destFolder, ext, k);
    SplitCopyResult(g, src, dest, ext, orders[k]);
    var m := Matching(Children(g, src), ext);
    assert CopyFilesSpec(fs, oldRoot, newRoot, splits, srcFolder, destFolder, orders) == Effect(CopiedState(g, src, dest, m), None);
    CopyStepOnlyDest(fs, g, src, newRoot, splits, destFolder, k, m);
    CopyStepCopied(fs, g, oldRoot, newRoot, splits, srcFolder, destFolder, ext, k);
  }

  /**
   * When every split is ready, `copy_files` with complete listings succeeds;
   * it writes only the file paths of the splits it copied, and each matching
   * file's copy holds the source's contents.
   */
  lemma {:induction false} CopyFilesRun(fs: FS, oldRoot: Path, newRoot: Path, splits: seq<Name>,
                                        srcFolder: Name, destFolder: Name, ext: string, orders: seq<seq<Name>>)
    requires |orders| <= |splits| && Distinct(splits)
    requires forall k :: 0 <= k < |orders| ==> SplitReady(fs, oldRoot, newRoot, splits, srcFolder, destFolder, ext, k)
    requires ValidOrders(fs, oldRoot, newRoot, splits, srcFolder, destFolder, ext, orders, true)
    ensures var e := CopyFilesSpec(fs, oldRoot, newRoot, splits, srcFolder, destFolder, orders);
      && e.err.None?
      && OnlyDestChanged(fs, e.fs, newRoot, destFolder, splits[..|orders|])
      && SplitsCopied(fs, e.fs, oldRoot, newRoot, splits, srcFolder, destFolder, ext, |orders|)
    decreases |orders|
  {
    if orders == [] {
      forall q | InDest(q, newRoot, destFolder, splits[..0]) ensures false {
      }
    } else {
      var k := |orders| - 1;
      ValidOrdersInit(fs, oldRoot, newRoot, splits, srcFolder, destFolder, ext, orders);
      CopyFilesRun(fs, oldRoot, newRoot, splits, srcFolder, destFolder, ext, orders[..k]);
      CopyFilesRunStep(fs, oldRoot, newRoot, splits, srcFolder, destFolder, ext, orders);
    }
  }

  /** Copies whose destinations already hold their sources' contents change nothing. */
  lemma {:induction false} CopyEachNoop(g: FS, srcDir: Path, destDir: Path, names: seq<Name>)
    requires srcDir != destDir && IsDir(g, destDir)
    requires forall n :: n in names ==>
      IsFile(g, srcDir + [n]) && destDir + [n] in g && g[destDir + [n]] == File(g[srcDir + [n]].content)
    ensures CopyEach(g, srcDir, destDir, names) == Effect(g, None)
    decreases |names|
  {
    if names != [] {
      var init := names[..|names| - 1];
      var n := names[|names| - 1];
      assert forall m :: m in init ==> m in names;
      CopyEachNoop(g, srcDir, destDir, init);
      var t := destDir + [n];
      assert CopyTarget(g, srcDir + [n], t) == t;
      AppendOneInjective(srcDir, destDir, n, n);
      assert Parent(t) == destDir;
      assert g[t := File(g[srcDir + [n]].content)] == g;
    }
  }

  /** `copy_files` over splits whose listed files are already in place changes nothing. */
  lemma {:induction false} CopyFilesNoop(g: FS, oldRoot: Path, newRoot: Path, splits: seq<Name>,
                                         srcFolder: Name, destFolder: Name, orders: seq<seq<Name>>)
    requires |orders| <= |splits|
    requires forall k :: 0 <= k < |orders| ==>
      var src := SrcDir(oldRoot, splits[k], srcFolder);
      var dest := DestDir(newRoot, destFolder, splits[k]);
      && IsDir(g, src) && src != dest && IsDir(g, dest)
      && forall n :: n in orders[k] ==>
           IsFile(g, src + [n]) && dest + [n] in g && g[dest + [n]] == File(g[src + [n]].content)
    ensures CopyFilesSpec(g, oldRoot, newRoot, splits, srcFolder, destFolder, orders) == Effect(g, None)
    decreases |orders|
  {
    if orders != [] {
      var k := |orders| - 1;
      CopyFilesNoop(g, oldRoot, newRoot, splits, srcFolder, destFolder, orders[..k]);
      CopyEachNoop(g, SrcDir(oldRoot, splits[k], srcFolder), DestDir(newRoot, destFolder, splits[k]), orders[k]);
    }
  }

  /** After a run, a split it copied has every listed file already in place. */
  lemma SplitInPlace(fs: FS, g: FS, oldRoot: Path, newRoot: Path, splits: seq<Name>,
                     srcFolder: Name, destFolder: Name, ext: string, done: nat, k: nat, names: seq<Name>)
    requires k < done <= |splits|
    requires SplitReady(fs, oldRoot, newRoot, splits, srcFolder, destFolder, ext, k)
    requires OnlyDestChanged(fs, g, newRoot, destFolder, splits[..done])
    requires SplitsCopied(fs, g, oldRoot, newRoot, splits, srcFolder, destFolder, ext, done)
    requires forall n :: n in names ==> n in Matching(Children(g, SrcDir(oldRoot, splits[k], srcFolder)), ext)
    ensures var src := SrcDir(oldRoot, splits[k], srcFolder);
      var dest := DestDir(newRoot, destFolder, splits[k]);
      && IsDir(g, src) && src != dest && IsDir(g, dest)
      && forall n :: n in names ==>
           IsFile(g, src + [n]) && dest + [n] in g && g[dest + [n]] == File(g[src + [n]].content)
  {
    var src := SrcDir(oldRoot, splits[k], srcFolder);
    SourceUnchanged(fs, g, oldRoot, newRoot, splits, srcFolder, destFolder, splits[..done], k);
    forall n | n in names
      ensures IsFile(g, src + [n])
      ensures g[DestDir(newRoot, destFolder, splits[k]) + [n]] == File(g[src + [n]].content)
    {
      assert n in Matching(Children(fs, src), ext);
    }
  }

  /**
   * Running `copy_files` a second time, over no more splits than the first
   * and with any listing orders of the matching files, changes nothing:
   * the destination contents are those of the first run.
   */
  lemma CopyFilesIdempotent(fs: FS, oldRoot: Path, newRoot: Path, splits: seq<Name>, srcFolder: Name,
                            destFolder: Name, ext: string, orders1: seq<seq<Name>>, orders2: seq<seq<Name>>)
    requires |orders2| <= |orders1| <= |splits| && Distinct(splits)
    requires forall k :: 0 <= k < |orders1| ==> SplitReady(fs, oldRoot, newRoot, splits, srcFolder, destFolder, ext, k)
    requires ValidOrders(fs, oldRoot, newRoot, splits, srcFolder, destFolder, ext, orders1, true)
    requires forall k, n :: 0 <= k < |orders2| && n in orders2[k] ==>
      n in Matching(Children(CopyFilesSpec(fs, oldRoot, newRoot, splits, srcFolder, destFolder, orders1).fs,
                             SrcDir(oldRoot, splits[k], srcFolder)), ext)
    ensures var e := CopyFilesSpec(fs, oldRoot, newRoot, splits, srcFolder, destFolder, orders1);
      && e.err.None?
      && CopyFilesSpec(e.fs, oldRoot, newRoot, splits, srcFolder, destFolder, orders2) == Effect(e.fs, None)
  {
    CopyFilesRun(fs, oldRoot, newRoot, splits, srcFolder, destFolder, ext, orders1);
    var g := CopyFilesSpec(fs, oldRoot, newRoot, splits, srcFolder, destFolder, orders1).fs;
    forall k | 0 <= k < |orders2|
      ensures var src := SrcDir(oldRoot, splits[k], srcFolder);
        var dest := DestDir(newRoot, destFolder, splits[k]);
        && IsDir(g, src) && src != dest && IsDir(g, dest)
        && forall n :: n in orders2[k] ==>
             IsFile(g, src + [n]) && dest + [n] in g && g[dest + [n]] == File(g[src + [n]].content)
    {
      SplitInPlace(fs, g, oldRoot, newRoot, splits, srcFolder, destFolder, ext, |orders1|, k, orders2[k]);
    }
    CopyFilesNoop(g, oldRoot, newRoot, splits, srcFolder, destFolder, orders2);
  }

  // ---------------------------------------------------------------------
  // The pairing check

  /** The stems of the names in a listing that end with the extension. */
  function StemSet(names: set<Name>, ext: string): set<string> {
    set n | n in names && PyStr.EndsWith(n, ext) :: PyStr.Stem(n)
  }

  /**
   * `validate_data`: list `new_root/<IMG_DIR>/<split>` and `new_root/<LABEL_DIR>/<split>`
   * for the first split only (the loop returns in its first iteration) and
   * answer whether neither stem set has a stem the other lacks.
   */
  function PairingCheck(fs: FS, newRoot: Path, cfg: DataTransformationConfig, firstSplit: Name): (r: Result<bool>)
    ensures r.Ok? <==> IsDir(fs, newRoot + [cfg.imgDir, firstSplit]) && IsDir(fs, newRoot + [cfg.labelDir, firstSplit])
    ensures r.Ok? ==> (r.value <==>
      StemSet(Children(fs, newRoot + [cfg.imgDir, firstSplit]), cfg.imgFileExt)
      == StemSet(Children(fs, newRoot + [cfg.labelDir, firstSplit]), cfg.labelsFileExt))
  {
    match ListDir(fs, newRoot + [cfg.imgDir, firstSplit])
    case Err(e) => Err(e)
    case Ok(imageNames) =>
      match ListDir(fs, newRoot + [cfg.labelDir, firstSplit])
      case Err(e) => Err(e)
      case Ok(labelNames) =>
        var images := StemSet(imageNames, cfg.imgFileExt);
        var labels := StemSet(labelNames, cfg.labelsFileExt);
        var missingLabels := images - labels;
        var missingImages := labels - images;
        assert missingLabels == {} && missingImages == {} ==> images == labels;
        Ok(missingLabels == {} && missingImages == {})
  }

  /** Entries in any other split folder never change the pairing verdict. */
  lemma PairingIgnoresOtherSplits(fs: FS, newRoot: Path, cfg: DataTransformationConfig, firstSplit: Name,
                                  kind: Name, split: Name, n: Name, entry: Entry)
    requires split != firstSplit
    ensures PairingCheck(fs[newRoot + [kind, split, n] := entry], newRoot, cfg, firstSplit)
            == PairingCheck(fs, newRoot, cfg, firstSplit)
  {
    var fs' := fs[newRoot + [kind, split, n] := entry];
    var q := newRoot + [kind, split, n];
    forall d | d == newRoot + [cfg.imgDir, firstSplit] || d == newRoot + [cfg.labelDir, firstSplit]
      ensures Children(fs', d) == Children(fs, d) && IsDir(fs', d) == IsDir(fs, d)
    {
      assert q != d;
      forall m ensures d + [m] in fs' <==> d + [m] in fs {
        assert (d + [m])[|newRoot| + 1] == firstSplit != split == q[|newRoot| + 1];
      }
    }
  }


  /** Splitting one split's matching names in any complete order leaves the copied state. */
  lemma SplitCopyResult(fs: FS, srcDir: Path, destDir: Path, ext: string, names: seq<Name>)
    requires IsDir(fs, srcDir) && Enumerates(fs, srcDir, ext, names)
    requires Copyable(fs, srcDir, destDir, Matching(Children(fs, srcDir), ext))
    ensures SplitCopy(fs, srcDir, destDir, names)
            == Effect(CopiedState(fs, srcDir, destDir, Matching(Children(fs, srcDir), ext)), None)
  {
    assert (set n | n in names) == Matching(Children(fs, srcDir), ext);
    CopyEachResult(fs, srcDir, destDir, names);
  }

  /** The folders made before a given new folder come first in the full list. */
  lemma {:induction false} FolderPathsPrefix(newRoot: Path, newFolders: seq<Name>, oldFolders: seq<Name>, i: nat)
    requires i <= |newFolders|
    ensures FolderPaths(newRoot, newFolders[..i], oldFolders) <= FolderPaths(newRoot, newFolders, oldFolders)
    decreases |newFolders|
  {
    if i < |newFolders| {
      var init := newFolders[..|newFolders| - 1];
      FolderPathsPrefix(newRoot, init, oldFolders, i);
      assert init[..i] == newFolders[..i];
    } else {
      assert newFolders[..i] == newFolders;
    }
  }

  /** One more `os.makedirs` after the steps so far. */
  lemma MakeAllSnoc(fs: FS, done: seq<Path>, p: Path)
    ensures MakeAll(fs, done + [p])
            == if MakeAll(fs, done).err.Some? then MakeAll(fs, done) else MakeDirsEffect(MakeAll(fs, done).fs, p)
  {
    assert (done + [p])[..|done|] == done;
  }

  /** The folders made for the first `i + 1` new folders: those for the first `i`, then the block of the next. */
  lemma FolderPathsStep(newRoot: Path, newFolders: seq<Name>, oldFolders: seq<Name>, i: nat)
    requires i < |newFolders|
    ensures FolderPaths(newRoot, newFolders[..i + 1], oldFolders)
            == FolderPaths(newRoot, newFolders[..i], oldFolders) + [newRoot + [newFolders[i]]]
               + SubPaths(newRoot + [newFolders[i]], oldFolders)
  {
    assert newFolders[..i + 1][..i] == newFolders[..i];
  }

  /** Part-way through the block of new folder `i`, the folders made so far begin the full list. */
  lemma FolderPathsPartial(newRoot: Path, newFolders: seq<Name>, oldFolders: seq<Name>, i: nat, j: nat)
    requires i < |newFolders| && j <= |oldFolders|
    ensures FolderPaths(newRoot, newFolders[..i], oldFolders) + [newRoot + [newFolders[i]]]
            + SubPaths(newRoot + [newFolders[i]], oldFolders[..j])
            <= FolderPaths(newRoot, newFolders, oldFolders)
  {
    FolderPathsStep(newRoot, newFolders, oldFolders, i);
    FolderPathsPrefix(newRoot, newFolders, oldFolders, i + 1);
    var base := newRoot + [newFolders[i]];
    var head := FolderPaths(newRoot, newFolders[..i], oldFolders) + [base];
    assert SubPaths(base, oldFolders[..j]) == SubPaths(base, oldFolders)[..j];
    assert head + SubPaths(base, oldFolders[..j]) <= head + SubPaths(base, oldFolders);
  }

  /** A failure in the first steps is the outcome of the whole sequence. */
  lemma MakeAllStopsPrefix(fs: FS, a: seq<Path>, full: seq<Path>)
    requires a <= full && MakeAll(fs, a).err.Some?
    ensures MakeAll(fs, full) == MakeAll(fs, a)
  {
    MakeAllStops(fs, a, full[|a|..]);
    assert a + full[|a|..] == full;
  }

  // ---------------------------------------------------------------------
  // The component

  /** `old_folders`: the splits, in the order they are copied. */
  function OldFolders(cfg: DataTransformationConfig): seq<Name> {
    [cfg.trainDir, cfg.testDir, cfg.valDir]
  }

  /** `new_folders`: the kinds of file. */
  function NewFolders(cfg: DataTransformationConfig): seq<Name> {
    [cfg.imgDir, cfg.labelDir]
  }

  /** Every order in `orders` lists its split's matching files completely (the last one too when `complete`). */
  predicate ValidOrders(fs: FS, oldRoot: Path, newRoot: Path, splits: seq<Name>, srcFolder: Name, destFolder: Name,
                        ext: string, orders: seq<seq<Name>>, complete: bool)
    requires |orders| <= |splits|
  {
    forall k :: 0 <= k < |orders| && (complete || k < |orders| - 1) ==>
      Enumerates(CopyFilesSpec(fs, oldRoot, newRoot, splits, srcFolder, destFolder, orders[..k]).fs,
                 SrcDir(oldRoot, splits[k], srcFolder), ext, orders[k])
  }

  /** `transform_data`: the images of every split, then the labels of every split. */
  function TransformDataSpec(fs: FS, cfg: DataTransformationConfig,
                             imageOrders: seq<seq<Name>>, labelOrders: seq<seq<Name>>): Effect
    requires |imageOrders| <= 3 && |labelOrders| <= 3
  {
    var images := CopyFilesSpec(fs, cfg.dataDir, cfg.dataRootDir, OldFolders(cfg), cfg.imgDir, cfg.imgDir, imageOrders);
    if images.err.Some? then images
    else CopyFilesSpec(images.fs, cfg.dataDir, cfg.dataRootDir, OldFolders(cfg), cfg.labelDir, cfg.labelDir, labelOrders)
  }

  /** The orders `transform_data` used list every split's matching files completely, up to any failure. */
  predicate TransformOrders(fs: FS, cfg: DataTransformationConfig,
                            imageOrders: seq<seq<Name>>, labelOrders: seq<seq<Name>>)
    requires |imageOrders| <= 3 && |labelOrders| <= 3
  {
    var images := CopyFilesSpec(fs, cfg.dataDir, cfg.dataRootDir, OldFolders(cfg), cfg.imgDir, cfg.imgDir, imageOrders);
    && ValidOrders(fs, cfg.dataDir, cfg.dataRootDir, OldFolders(cfg), cfg.imgDir, cfg.imgDir, cfg.imgFileExt,
                   imageOrders, images.err.None?)
    && (images.err.Some? ==> labelOrders == [])
    && (images.err.None? ==>
          ValidOrders(images.fs, cfg.dataDir, cfg.dataRootDir, OldFolders(cfg), cfg.labelDir, cfg.labelDir,
                      cfg.labelsFileExt, labelOrders, TransformDataSpec(fs, cfg, imageOrders, labelOrders).err.None?))
  }

  /** After the folders are created, `new_root/k` and `new_root/k/s` are directories for every kind `k` and split `s`. */
  lemma FolderStructureBuilt(fs: FS, cfg: DataTransformationConfig, k: Name, s: Name)
    requires k in NewFolders(cfg) && s in OldFolders(cfg)
    requires MakeAll(fs, FolderPaths(cfg.dataRootDir, NewFolders(cfg), OldFolders(cfg))).err.None?
    ensures var e := MakeAll(fs, FolderPaths(cfg.dataRootDir, NewFolders(cfg), OldFolders(cfg)));
      IsDir(e.fs, cfg.dataRootDir + [k]) && IsDir(e.fs, cfg.dataRootDir + [k, s])
  {
    var paths := FolderPaths(cfg.dataRootDir, NewFolders(cfg), OldFolders(cfg));
    FolderPathsCover(cfg.dataRootDir, NewFolders(cfg), OldFolders(cfg), k, s);
    MakeAllAdds(fs, paths);
  }

  /** The message `transform` raises when the pairing check fails. */
  const ValidationFailed: string := "DataTransformation::transform::Data validation failed!"

  /** `transform`: copy, check the first split's pairing, and wrap every failure in a `CustomException`. */
  function TransformSpec(fs: FS, cfg: DataTransformationConfig,
                         imageOrders: seq<seq<Name>>, labelOrders: seq<seq<Name>>): Effect
    requires |imageOrders| <= 3 && |labelOrders| <= 3
  {
    var copied := TransformDataSpec(fs, cfg, imageOrders, labelOrders);
    if copied.err.Some? then Effect(copied.fs, Some(Custom(copied.err.value)))
    else match PairingCheck(copied.fs, cfg.dataRootDir, cfg, cfg.trainDir)
      case Err(e) => Effect(copied.fs, Some(Custom(e)))
      case Ok(paired) => Effect(copied.fs, if paired then None else Some(Custom(StageFailure(ValidationFailed))))
  }

  /**
   * `transform` completes exactly when every copy succeeds and the first
   * split's stems pair up; otherwise it raises a `CustomException`.
   */
  lemma TransformOutcome(fs: FS, cfg: DataTransformationConfig, imageOrders: seq<seq<Name>>, labelOrders: seq<seq<Name>>)
    requires |imageOrders| <= 3 && |labelOrders| <= 3
    ensures var e := TransformSpec(fs, cfg, imageOrders, labelOrders);
      var copied := TransformDataSpec(fs, cfg, imageOrders, labelOrders);
      && e.fs == copied.fs
      && (e.err.None? <==> copied.err.None? && PairingCheck(copied.fs, cfg.dataRootDir, cfg, cfg.trainDir) == Ok(true))
      && (e.err.Some? ==> e.err.value.Custom?)
  {
  }

  /** No names, no sub-paths. */
  lemma SubPathsNone(done: seq<Path>, base: Path, names: seq<Name>)
    ensures done + SubPaths(base, names[..0]) == done
  {
    assert SubPaths(base, names[..0]) == [];
  }

  /** One more name adds its sub-path at the end. */
  lemma SubPathsSnoc(done: seq<Path>, base: Path, names: seq<Name>, k: nat)
    requires k < |names|
    ensures done + SubPaths(base, names[..k + 1]) == done + SubPaths(base, names[..k]) + [base + [names[k]]]
  {
    assert SubPaths(base, names[..k + 1]) == SubPaths(base, names[..k]) + [base + [names[k]]];
  }

  /**
   * The inner loop of `create_new_folder_structure`: `base/n` for each name
   * in turn, after the folders `done` already made from `fs0`.  `k` counts
   * the `os.makedirs` calls made; all of them when none raised.
   */
  method MakeSubfolders(disk: Disk, ghost fs0: FS, ghost done: seq<Path>, base: Path, names: seq<Name>)
    returns (err: Option<Error>, k: nat)
    requires Effect(disk.fs, None) == MakeAll(fs0, done)
    modifies disk
    ensures k <= |names| && (err.None? ==> k == |names|)
    ensures Effect(disk.fs, err) == MakeAll(fs0, done + SubPaths(base, names[..k]))
    ensures old(disk.Valid()) ==> disk.Valid()
  {
    k := 0;
    err := None;
    SubPathsNone(done, base, names);
    while k < |names|
      invariant k <= |names|
      invariant err.None? && Effect(disk.fs, None) == MakeAll(fs0, done + SubPaths(base, names[..k]))
      invariant old(disk.Valid()) ==> disk.Valid()
    {
      var path := base + [names[k]];
      ghost var made := done + SubPaths(base, names[..k]);
      SubPathsSnoc(done, base, names, k);
      MakeAllSnoc(fs0, made, path);
      err := disk.MakeDirs(path);
      k := k + 1;
      if err.Some? {
        return;
      }
    }
  }

  class DataTransformation {
    const config: DataTransformationConfig
    const oldRoot: Path := config.dataDir
    const newRoot: Path := config.dataRootDir
    const oldFolders: seq<Name> := OldFolders(config)
    const newFolders: seq<Name> := NewFolders(config)

    /** `__init__` keeps the configuration; the other fields derive from it. */
    constructor (config: DataTransformationConfig)
      ensures this.config == config
    {
      this.config := config;
    }

    /** `DataTransformation(config)`: build the object; its `__init__` creates the folders. */
    static method Create(disk: Disk, config: DataTransformationConfig) returns (dt: DataTransformation, err: Option<Error>)
      modifies disk
      ensures dt.config == config && dt.oldRoot == config.dataDir && dt.newRoot == config.dataRootDir
      ensures dt.oldFolders == OldFolders(config) && dt.newFolders == NewFolders(config)
      ensures Effect(disk.fs, err) == MakeAll(old(disk.fs), FolderPaths(config.dataRootDir, NewFolders(config), OldFolders(config)))
      ensures old(disk.Valid()) ==> disk.Valid()
    {
      dt := new DataTransformation(config);
      err := dt.CreateNewFolderStructure(disk);
    }

    /** `create_new_folder_structure`: `new_root/k`, then `new_root/k/s` for each split `s`, for each `k`. */
    method CreateNewFolderStructure(disk: Disk) returns (err: Option<Error>)
      modifies disk
      ensures Effect(disk.fs, err) == MakeAll(old(disk.fs), FolderPaths(newRoot, newFolders, oldFolders))
      ensures old(disk.Valid()) ==> disk.Valid()
    {
      ghost var fs0 := disk.fs;
      for i := 0 to |newFolders|
        invariant Effect(disk.fs, None) == MakeAll(fs0, FolderPaths(newRoot, newFolders[..i], oldFolders))
        invariant old(disk.Valid()) ==> disk.Valid()
      {
        var base := newRoot + [newFolders[i]];
        ghost var done := FolderPaths(newRoot, newFolders[..i], oldFolders);
        MakeAllSnoc(fs0, done, base);
        err := disk.MakeDirs(base);
        if err.Some? {
          FolderPathsPartial(newRoot, newFolders, oldFolders, i, 0);
          assert done + [base] + SubPaths(base, oldFolders[..0]) == done + [base];
          MakeAllStopsPrefix(fs0, done + [base], FolderPaths(newRoot, newFolders, oldFolders));
          return;
        }
        var k;
        err, k := MakeSubfolders(disk, fs0, done + [base], base, oldFolders);
        FolderPathsPartial(newRoot, newFolders, oldFolders, i, k);
        if err.Some? {
          MakeAllStopsPrefix(fs0, done + [base] + SubPaths(base, oldFolders[..k]), FolderPaths(newRoot, newFolders, oldFolders));
          return;
        }
        assert oldFolders[..|oldFolders|] == oldFolders;
        FolderPathsStep(newRoot, newFolders, oldFolders, i);
      }
      assert newFolders[..|newFolders|] == newFolders;
      err := None;
    }

    /**
     * One split of `copy_files`: list `srcDir`, then copy each name ending
     * with `ext` into `destDir`, in the listing's order, which is returned.
     */
    method CopySplit(disk: Disk, srcDir: Path, destDir: Path, ext: string) returns (copied: seq<Name>, err: Option<Error>)
      modifies disk
      ensures Effect(disk.fs, err) == SplitCopy(old(disk.fs), srcDir, destDir, copied)
      ensures ListDir(old(disk.fs), srcDir).Err? ==> copied == []
      ensures Distinct(copied) && forall n :: n in copied ==> n in Matching(Children(old(disk.fs), srcDir), ext)
      ensures err.None? ==> Enumerates(old(disk.fs), srcDir, ext, copied)
      ensures old(disk.Valid()) ==> disk.Valid()
    {
      copied := [];
      var listing := ListDir(disk.fs, srcDir);
      if listing.Err? {
        return [], Some(listing.error);
      }
      ghost var fs0 := disk.fs;
      var todo := listing.value;
      while todo != {}
        invariant todo <= listing.value
        invariant Effect(disk.fs, None) == CopyEach(fs0, srcDir, destDir, copied)
        invariant Distinct(copied)
        invariant forall n :: n in copied ==> n in Matching(listing.value, ext) && n !in todo
        invariant forall n :: n in Matching(listing.value, ext) && n !in todo ==> n in copied
        invariant old(disk.Valid()) ==> disk.Valid()
        decreases todo
      {
        var n :| n in todo;
        todo := todo - {n};
        if PyStr.EndsWith(n, ext) {
          assert (copied + [n])[..|copied|] == copied;
          err := disk.Copy(srcDir + [n], destDir + [n]);
          copied := copied + [n];
          if err.Some? {
            return;
          }
        }
      }
      err := None;
    }

    /** `copy_files(src_folder, dest_folder, ext)` over the splits train, test, valid in turn. */
    method CopyFiles(disk: Disk, srcFolder: Name, destFolder: Name, ext: string)
      returns (orders: seq<seq<Name>>, err: Option<Error>)
      modifies disk
      ensures |orders| <= |oldFolders|
      ensures Effect(disk.fs, err) == CopyFilesSpec(old(disk.fs), oldRoot, newRoot, oldFolders, srcFolder, destFolder, orders)
      ensures err.None? ==> |orders| == |oldFolders|
      ensures ValidOrders(old(disk.fs), oldRoot, newRoot, oldFolders, srcFolder, destFolder, ext, orders, err.None?)
      ensures old(disk.Valid()) ==> disk.Valid()
    {
      ghost var fs0 := disk.fs;
      orders := [];
      for i := 0 to |oldFolders|
        invariant |orders| == i
        invariant Effect(disk.fs, None) == CopyFilesSpec(fs0, oldRoot, newRoot, oldFolders, srcFolder, destFolder, orders)
        invariant ValidOrders(fs0, oldRoot, newRoot, oldFolders, srcFolder, destFolder, ext, orders, true)
        invariant old(disk.Valid()) ==> disk.Valid()
      {
        var srcPath := SrcDir(oldRoot, oldFolders[i], srcFolder);
        var destPath := DestDir(newRoot, destFolder, oldFolders[i]);
        var copied;
        copied, err := CopySplit(disk, srcPath, destPath, ext);
        assert (orders + [copied])[..i] == orders;
        forall k | 0 <= k < i
          ensures (orders + [copied])[..k] == orders[..k] && (orders + [copied])[k] == orders[k]
        {
        }
        orders := orders + [copied];
        if err.Some? {
          return;
        }
      }
      err := None;
    }

    /** `transform_data`: copy the images, then the labels. */
    method TransformData(disk: Disk)
      returns (imageOrders: seq<seq<Name>>, labelOrders: seq<seq<Name>>, err: Option<Error>)
      modifies disk
      ensures |imageOrders| <= 3 && |labelOrders| <= 3
      ensures Effect(disk.fs, err) == TransformDataSpec(old(disk.fs), config, imageOrders, labelOrders)
      ensures TransformOrders(old(disk.fs), config, imageOrders, labelOrders)
      ensures old(disk.Valid()) ==> disk.Valid()
    {
      labelOrders := [];
      imageOrders, err := CopyFiles(disk, config.imgDir, config.imgDir, config.imgFileExt);
      if err.Some? {
        return;
      }
      labelOrders, err := CopyFiles(disk, config.labelDir, config.labelDir, config.labelsFileExt);
    }

    /** `validate_data` on the current state: the first split's pairing. */
    method ValidateData(disk: Disk) returns (r: Result<bool>)
      ensures r == PairingCheck(disk.fs, newRoot, config, oldFolders[0])
    {
      r := PairingCheck(disk.fs, newRoot, config, oldFolders[0]);
    }

    /** `transform` */
    method Transform(disk: Disk)
      returns (imageOrders: seq<seq<Name>>, labelOrders: seq<seq<Name>>, err: Option<Error>)
      modifies disk
      ensures |imageOrders| <= 3 && |labelOrders| <= 3
      ensures Effect(disk.fs, err) == TransformSpec(old(disk.fs), config, imageOrders, labelOrders)
      ensures TransformOrders(old(disk.fs), config, imageOrders, labelOrders)
      ensures old(disk.Valid()) ==> disk.Valid()
    {
      var copyErr;
      imageOrders, labelOrders, copyErr := TransformData(disk);
      if copyErr.Some? {
        return imageOrders, labelOrders, Some(Custom(copyErr.value));
      }
      var check := ValidateData(disk);
      if check.Err? {
        return imageOrders, labelOrders, Some(Custom(check.error));
      }
      if !check.value {
        return imageOrders, labelOrders, Some(Custom(StageFailure(ValidationFailed)));
      }
      err := None;
    }
  }
}
