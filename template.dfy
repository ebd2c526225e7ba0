/**
 * The project scaffold script: for every entry of a fixed list of relative
 * paths (some naming the project), it creates the entry's directory and
 * then the entry itself, as a file when its name has a suffix and as a
 * directory otherwise; five container and deployment names are always
 * created as files.  Existing entries are left alone, so the scaffold can be
 * run again.
 */
module Template {
  import opened Exceptions
  import opened FileSystem
  import opened PyStr

  /** `Path(s)` for a relative path: its parts between `/`, empty and `.` parts dropped. */
  function PathOf(s: string): Path {
    Parts(Split(s, '/'))
  }

  function Parts(ws: seq<string>): (p: Path)
    ensures |p| <= |ws|
  {
    if |ws| == 0 then []
    else if ws[0] == "" || ws[0] == "." then Parts(ws[1..])
    else [ws[0]] + Parts(ws[1..])
  }

  /** `Path.name`: the last part, or `""` for the working directory. */
  function PathName(p: Path): Name {
    if p == [] then "" else Last(p)
  }

  /** `Path.parent`: the working directory is its own parent. */
  function PathParent(p: Path): Path {
    if p == [] then [] else Parent(p)
  }

  /** `Path.suffix`: from the last dot, unless that dot starts or ends the name. */
  function Suffix(name: Name): string {
    var i := RFind(name, '.');
    if 0 < i < |name| - 1 then name[i..] else ""
  }

  /** The names created as files whatever their suffix. */
  const FileNames: set<Name> :=
    {"Dockerfile", ".dockerignore", "docker-compose.yml", "deploy.py", "cloudformation_template.yaml"}

  /** The files of the package `src/<project>/`, relative to it. */
  const PackageFiles: seq<string> := [
    "__init__.py",
    "components/__init__.py",
    "components/data_cleaning.py",
    "components/data_ingestion.py",
    "components/data_validation.py",
    "components/data_transformation.py",
    "components/model_trainer.py",
    "components/model_evaluation.py",
    "logger/__init__.py",
    "logger/logger_config.py",
    "utils/__init__.py",
    "utils/common.py",
    "utils/delete_directories.py",
    "config/__init__.py",
    "config/configuration.py",
    "pipeline/__init__.py",
    "pipeline/data_ingestion.py",
    "pipeline/data_validation.py",
    "pipeline/data_transformation.py",
    "pipeline/model_trainer.py",
    "pipeline/model_evaluation.py",
    "pipeline/prediction.py",
    "entity/__init__.py",
    "entity/config_entity.py",
    "constants/__init__.py",
    "constants/constants.py"
  ]

  /** `list_of_files`, in order, with the project name filled in. */
  function Entries(projectName: string): seq<string> {
    [ "template.py",
      ".gitignore",
      ".dockerignore",
      "docker-compose.yml",
      "deploy.py",
      "cloudformation_template.yaml",
      "requirements.txt",
      "README.md",
      "Dockerfile",
      "logs/log_" + projectName + ".log",
      "src/__init__.py" ]
    + seq(|PackageFiles|, i requires 0 <= i < |PackageFiles| => "src/" + projectName + "/" + PackageFiles[i])
    + [ "config/config.yaml",
        "params.yaml",
        "research/research.py",
        "main.py",
        "setup.py",
        "templates/index.html",
        "templates/error.html",
        "app.py",
        "clean.py" ]
  }

  // ---------------------------------------------------------------------
  // The two helpers and one step of the loop, as effects

  /** `create_directory(path)`: `os.makedirs` unless something already exists there. */
  function CreateDirectoryEffect(fs: FS, p: Path): Effect {
    if Exists(fs, p) then Effect(fs, None) else MakeDirsEffect(fs, p)
  }

  /**
   * `create_file(path)`: touch when nothing exists there or the file is
   * empty.  A directory's size is taken to be non-zero, as on the usual
   * filesystems, so a directory is left alone.
   */
  function CreateFileEffect(fs: FS, p: Path): Effect {
    if !Exists(fs, p) || (IsFile(fs, p) && fs[p].content == "") then TouchEffect(fs, p)
    else Effect(fs, None)
  }

  /** One iteration of the loop in `create_project_structure`. */
  function StepEffect(fs: FS, p: Path): Effect {
    if PathName(p) in FileNames then CreateFileEffect(fs, p)
    else
      var d := CreateDirectoryEffect(fs, PathParent(p));
      if d.err.Some? then d
      else if Suffix(PathName(p)) != "" then CreateFileEffect(d.fs, p)
      else CreateDirectoryEffect(d.fs, p)
  }

  /** The loop over `entries`, in order, stopping at the first exception. */
  function StructureEffect(fs: FS, entries: seq<string>): Effect
    decreases |entries|
  {
    if |entries| == 0 then Effect(fs, None)
    else
      var pre := StructureEffect(fs, entries[..|entries| - 1]);
      if pre.err.Some? then pre else StepEffect(pre.fs, PathOf(entries[|entries| - 1]))
  }

  // ---------------------------------------------------------------------
  // The script

  /** `create_directory` */
  method CreateDirectory(disk: Disk, p: Path) returns (err: Option<Error>)
    modifies disk
    ensures Effect(disk.fs, err) == CreateDirectoryEffect(old(disk.fs), p)
    ensures old(disk.Valid()) ==> disk.Valid()
  {
    err := None;
    if !Exists(disk.fs, p) {
      err := disk.MakeDirs(p);
    }
  }

  /** `create_file` */
  method CreateFile(disk: Disk, p: Path) returns (err: Option<Error>)
    modifies disk
    ensures Effect(disk.fs, err) == CreateFileEffect(old(disk.fs), p)
    ensures old(disk.Valid()) ==> disk.Valid()
  {
    err := None;
    if !Exists(disk.fs, p) || (IsFile(disk.fs, p) && disk.fs[p].content == "") {
      err := disk.Touch(p);
    }
  }

  /** The body of the loop for one entry. */
  method CreateEntry(disk: Disk, p: Path) returns (err: Option<Error>)
    modifies disk
    ensures Effect(disk.fs, err) == StepEffect(old(disk.fs), p)
    ensures old(disk.Valid()) ==> disk.Valid()
  {
    if PathName(p) in FileNames {
      err := CreateFile(disk, p);
      return;
    }
    err := CreateDirectory(disk, PathParent(p));
    if err.Some? {
      return;
    }
    if Suffix(PathName(p)) != "" {
      err := CreateFile(disk, p);
    } else {
      err := CreateDirectory(disk, p);
    }
  }

  /** `create_project_structure(project_name)`: `True` when every entry was handled, `False` at the first exception. */
  method CreateProjectStructure(disk: Disk, projectName: string) returns (ok: bool)
    modifies disk
    ensures var e := StructureEffect(old(disk.fs), Entries(projectName));
      disk.fs == e.fs && (ok <==> e.err.None?)
    ensures old(disk.Valid()) ==> disk.Valid()
  {
    ok := CreateEntries(disk, Entries(projectName));
  }

  /** The loop of `create_project_structure` over a list of entries; the `except` clause turns an exception into `False`. */
  method CreateEntries(disk: Disk, entries: seq<string>) returns (ok: bool)
    modifies disk
    ensures var e := StructureEffect(old(disk.fs), entries);
      disk.fs == e.fs && (ok <==> e.err.None?)
    ensures old(disk.Valid()) ==> disk.Valid()
  {
    ghost var fs0 := disk.fs;
    for i := 0 to |entries|
      invariant StructureEffect(fs0, entries[..i]) == Effect(disk.fs, None)
      invariant old(disk.Valid()) ==> disk.Valid()
    {
      StructureSnoc(fs0, entries, i);
      var err := CreateEntry(disk, PathOf(entries[i]));
      if err.Some? {
        StructureStopsAtPrefix(fs0, entries, i + 1);
        return false;
      }
    }
    assert entries[..|entries|] == entries;
    return true;
  }

  /** One more iteration of the loop: the next entry is handled from where the others left off. */
  lemma StructureSnoc(fs: FS, entries: seq<string>, i: nat)
    requires i < |entries|
    ensures StructureEffect(fs, entries[..i + 1])
            == var pre := StructureEffect(fs, entries[..i]);
               if pre.err.Some? then pre else StepEffect(pre.fs, PathOf(entries[i]))
  {
    assert entries[..i + 1][..i] == entries[..i];
  }

  /** An exception among the first entries is the outcome of the whole loop. */
  lemma StructureStopsAtPrefix(fs: FS, entries: seq<string>, i: nat)
    requires i <= |entries| && StructureEffect(fs, entries[..i]).err.Some?
    ensures StructureEffect(fs, entries) == StructureEffect(fs, entries[..i])
  {
    var a, b := entries[..i], entries[i..];
    assert a + b == entries;
    StructureStopsAtError(fs, a, b);
  }

  // ---------------------------------------------------------------------
  // Properties

  /** The loop runs the entries in list order: a list is its first part, then the rest from where that left off. */
  lemma {:induction false} StructureConcat(fs: FS, a: seq<string>, b: seq<string>)
    ensures StructureEffect(fs, a + b) ==
      var e := StructureEffect(fs, a);
      if e.err.Some? then e else StructureEffect(e.fs, b)
    decreases |b|
  {
    if |b| == 0 {
      assert a + b == a;
    } else {
      var b' := b[..|b| - 1];
      assert (a + b)[..|a + b| - 1] == a + b';
      assert (a + b)[|a + b| - 1] == b[|b| - 1];
      StructureConcat(fs, a, b');
    }
  }

  /** After an exception no further entry is touched. */
  lemma StructureStopsAtError(fs: FS, a: seq<string>, b: seq<string>)
    requires StructureEffect(fs, a).err.Some?
    ensures StructureEffect(fs, a + b) == StructureEffect(fs, a)
  {
    StructureConcat(fs, a, b);
  }

  /** `create_directory` changes nothing where something exists; otherwise it only adds directories, and on success the path exists. */
  lemma CreateDirectoryFacts(fs: FS, p: Path)
    ensures var e := CreateDirectoryEffect(fs, p);
      && (Exists(fs, p) ==> e == Effect(fs, None))
      && Extends(fs, e.fs)
      && (forall q :: q in e.fs && q !in fs ==> e.fs[q] == Dir && IsPrefix(q, p))
      && (e.err.None? ==> Exists(e.fs, p))
      && (e.err.None? && !Exists(fs, p) ==> IsDir(e.fs, p))
      && (Tree(fs) ==> Tree(e.fs))
  {
    MakeDirsAdds(fs, p);
  }

  /**
   * `create_file` never changes an existing entry (a non-empty file stays as
   * it is, an empty one stays empty); a missing one becomes an empty file
   * when its directory exists, and nothing else changes.
   */
  lemma CreateFileFacts(fs: FS, p: Path)
    ensures var e := CreateFileEffect(fs, p);
      && (Exists(fs, p) ==> e == Effect(fs, None))
      && (!Exists(fs, p) ==> (e.err.None? <==> IsDir(fs, Parent(p))))
      && (!Exists(fs, p) && e.err.None? ==> e.fs == fs[p := File("")])
      && (e.err.Some? ==> e.fs == fs)
      && (Tree(fs) ==> Tree(e.fs))
  {
    TouchChanges(fs, p);
  }

  /** A name without a dot has no suffix. */
  lemma SuffixNoDot(name: Name)
    requires '.' !in name
    ensures Suffix(name) == ""
  {
  }

  /**
   * A name with a dot is `base + "." + ext` with a dot-free `ext`; its
   * suffix is `"." + ext` exactly when neither `base` nor `ext` is empty, so
   * a leading dot (`.gitignore`) or a trailing one (`a.`) gives none.
   */
  lemma SuffixOfSplit(base: string, ext: string)
    requires '.' !in ext
    ensures Suffix(base + "." + ext) == if base != "" && ext != "" then "." + ext else ""
  {
    var name := base + "." + ext;
    assert name == base + ['.'] + ext;
    RFindAfter(base, ext, '.');
    assert name[|base|..] == "." + ext;
  }

  /** `.gitignore` starts with its only dot, so it has no suffix. */
  lemma GitignoreNoSuffix()
    ensures Suffix(".gitignore") == ""
  {
    var ext := "gitignore";
    assert ".gitignore" == "" + "." + ext;
    SuffixOfSplit("", ext);
  }

  /** `README.md` has the suffix `.md`. */
  lemma ReadmeSuffix()
    ensures Suffix("README.md") == ".md"
  {
    assert "README.md" == "README" + "." + "md";
    SuffixOfSplit("README", "md");
  }

  /** Making the parent directory adds only prefixes of it, so never the entry itself. */
  lemma ParentStepKeepsEntryMissing(fs: FS, p: Path)
    requires p != [] && !Exists(fs, p)
    ensures var d := CreateDirectoryEffect(fs, PathParent(p));
      !Exists(d.fs, p) && Extends(fs, d.fs)
  {
    CreateDirectoryFacts(fs, Parent(p));
  }

  /**
   * One entry: the five fixed names become files with no directory step, so
   * at most the entry itself is added; any other entry gets its directory
   * first; a missing entry becomes an empty file when its name has a suffix
   * or is one of the five, and a directory otherwise.  Nothing that exists is
   * changed, and a tree stays a tree.
   */
  lemma StepFacts(fs: FS, p: Path)
    ensures var e := StepEffect(fs, p);
      && Extends(fs, e.fs)
      && (Tree(fs) ==> Tree(e.fs))
      && (PathName(p) in FileNames ==> forall q :: q in e.fs ==> q in fs || q == p)
      && (PathName(p) !in FileNames && e.err.None? ==> Exists(e.fs, PathParent(p)))
      && (e.err.None? ==> Exists(e.fs, p))
      && (e.err.None? && !Exists(fs, p) ==>
            if PathName(p) in FileNames || Suffix(PathName(p)) != "" then e.fs[p] == File("")
            else e.fs[p] == Dir)
  {
    CreateFileFacts(fs, p);
    if PathName(p) !in FileNames {
      var d := CreateDirectoryEffect(fs, PathParent(p));
      CreateDirectoryFacts(fs, PathParent(p));
      CreateFileFacts(d.fs, p);
      CreateDirectoryFacts(d.fs, p);
      if p != [] && !Exists(fs, p) {
        ParentStepKeepsEntryMissing(fs, p);
      }
    }
  }

  /** The entry `.gitignore` is the one-part path `[".gitignore"]`. */
  lemma GitignorePath()
    ensures PathOf(".gitignore") == [".gitignore"]
  {
    SplitNoSep(".gitignore", '/');
  }

  /** `.gitignore` has no suffix, so on a disk without it the scaffold makes it a directory. */
  lemma GitignoreIsDirectory(fs: FS)
    requires [".gitignore"] !in fs
    ensures StepEffect(fs, [".gitignore"]) == Effect(fs[[".gitignore"] := Dir], None)
  {
    var p: Path := [".gitignore"];
    GitignoreNoSuffix();
    assert PathName(p) == ".gitignore" && PathParent(p) == [];
    assert ".gitignore" !in FileNames;
    assert CreateDirectoryEffect(fs, []) == Effect(fs, None);
    assert MakeDirsEffect(fs, p) == Effect(fs[p := Dir], None);
  }

  /** The project name lands between `src` and the package file, part by part. */
  lemma {:induction false} PartsConcat(a: seq<string>, b: seq<string>)
    ensures Parts(a + b) == Parts(a) + Parts(b)
    decreases |a|
  {
    if |a| == 0 {
      assert a + b == b;
    } else {
      assert (a + b)[1..] == a[1..] + b;
      PartsConcat(a[1..], b);
    }
  }

  /** `Path(f"src/{project}/{file}")` is `src`, then the project name's parts, then the file's. */
  lemma PackagePath(projectName: string, file: string)
    ensures PathOf("src/" + projectName + "/" + file) == ["src"] + PathOf(projectName) + PathOf(file)
  {
    var s := "src/" + projectName + "/" + file;
    assert s == ("src" + ['/'] + projectName) + ['/'] + file;
    SplitConcat("src" + ['/'] + projectName, file, '/');
    SplitConcat("src", projectName, '/');
    SplitNoSep("src", '/');
    PartsConcat(Split("src", '/') + Split(projectName, '/'), Split(file, '/'));
    PartsConcat(Split("src", '/'), Split(projectName, '/'));
  }

  /**
   * The list has 46 entries; the log file is named after the project, and
   * the 26 package files come in order under `src/<project>/`.
   */
  lemma EntriesFacts(projectName: string)
    ensures |Entries(projectName)| == 46
    ensures Entries(projectName)[1] == ".gitignore" && Entries(projectName)[10] == "src/__init__.py"
    ensures Entries(projectName)[9] == "logs/log_" + projectName + ".log"
    ensures forall i :: 11 <= i < 37 ==> Entries(projectName)[i] == "src/" + projectName + "/" + PackageFiles[i - 11]
  {
  }

  // ---------------------------------------------------------------------
  // Running the scaffold again

  /** What an entry leaves behind that makes handling it again a no-op. */
  predicate Settled(fs: FS, p: Path) {
    Exists(fs, p) && (PathName(p) !in FileNames ==> Exists(fs, PathParent(p)))
  }

  /** Handling a settled entry changes nothing. */
  lemma SettledStepNoop(fs: FS, p: Path)
    requires Settled(fs, p)
    ensures StepEffect(fs, p) == Effect(fs, None)
  {
  }

  /** A successful run only adds entries and leaves every entry of its list settled. */
  lemma {:induction false} StructureSettles(fs: FS, entries: seq<string>)
    ensures var e := StructureEffect(fs, entries);
      && Extends(fs, e.fs)
      && (Tree(fs) ==> Tree(e.fs))
      && (e.err.None? ==> forall i :: 0 <= i < |entries| ==> Settled(e.fs, PathOf(entries[i])))
    decreases |entries|
  {
    if |entries| > 0 {
      var init := entries[..|entries| - 1];
      var p := PathOf(entries[|entries| - 1]);
      StructureSettles(fs, init);
      var pre := StructureEffect(fs, init);
      if pre.err.None? {
        StepFacts(pre.fs, p);
        var e := StepEffect(pre.fs, p);
        forall i | 0 <= i < |entries| ensures e.err.None? ==> Settled(e.fs, PathOf(entries[i])) {
          if i < |entries| - 1 {
            assert entries[i] == init[i];
          }
        }
      }
    }
  }

  /** Where every entry is settled, a run changes nothing. */
  lemma {:induction false} SettledRunNoop(fs: FS, entries: seq<string>)
    requires forall i :: 0 <= i < |entries| ==> Settled(fs, PathOf(entries[i]))
    ensures StructureEffect(fs, entries) == Effect(fs, None)
    decreases |entries|
  {
    if |entries| > 0 {
      var init := entries[..|entries| - 1];
      SettledRunNoop(fs, init);
      SettledStepNoop(fs, PathOf(entries[|entries| - 1]));
    }
  }

  /** After a successful run of the scaffold, a second run succeeds and leaves the disk as it is. */
  lemma SecondRunNoop(fs: FS, projectName: string)
    requires StructureEffect(fs, Entries(projectName)).err.None?
    ensures var e := StructureEffect(fs, Entries(projectName));
      StructureEffect(e.fs, Entries(projectName)) == Effect(e.fs, None)
  {
    StructureSettles(fs, Entries(projectName));
    SettledRunNoop(StructureEffect(fs, Entries(projectName)).fs, Entries(projectName));
  }
}
