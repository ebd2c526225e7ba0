/**
 * The data-transformation stage of the pipeline.  It first builds the
 * configuration (which creates the artifacts root and the validation data
 * root when they are missing), then lets the transformation run only when
 * the status file written by the validation stage exists and its last
 * space-separated token is exactly `True`; then it builds the configuration
 * again (the artifacts root and the transformation data root), builds the
 * `DataTransformation` object (which creates the folders) and runs
 * `transform`.  Every failure leaves the stage as a `CustomException`.
 */
module TransformationStage {
  import opened Exceptions
  import opened FileSystem
  import opened ConfigEntity
  import PyStr
  import DataValidation
  import opened DataTransformation

  /** `file.read().split(" ")[-1]`: the text after the last single space. */
  function StatusToken(content: string): string {
    PyStr.LastToken(content, ' ')
  }

  /** The gate's test on the status file's contents. */
  predicate StatusPasses(content: string) {
    StatusToken(content) == "True"
  }

  /**
   * The gate accepts exactly the contents `True` and the contents that end
   * with a space followed by `True`.
   */
  lemma StatusPassesExactly(content: string)
    ensures StatusPasses(content) <==> content == "True" || PyStr.EndsWith(content, " True")
  {
    if StatusPasses(content) {
      PassingStatusEnds(content);
    }
    if content == "True" || PyStr.EndsWith(content, " True") {
      EndingStatusPasses(content);
    }
  }

  /** A passing status file holds `True` alone or ends with ` True`. */
  lemma PassingStatusEnds(content: string)
    requires StatusPasses(content)
    ensures content == "True" || PyStr.EndsWith(content, " True")
  {
    PyStr.LastTokenAfterLastSep(content, ' ');
    var i := PyStr.RFind(content, ' ');
    if i >= 0 {
      var e := content[i + 1..];
      assert e == "True" && content[i] == ' ';
      assert |content| - 5 == i;
      assert content[i..] == [' '] + e;
    } else {
      assert content == content[0..];
    }
  }

  /** `True` alone, or anything ending with ` True`, passes. */
  lemma EndingStatusPasses(content: string)
    requires content == "True" || PyStr.EndsWith(content, " True")
    ensures StatusPasses(content)
  {
    PyStr.LastTokenAfterLastSep(content, ' ');
    if content == "True" {
      assert ' ' !in content by {
        assert content == ['T', 'r', 'u', 'e'];
      }
      assert content[0..] == content;
    } else {
      var b := content[..|content| - 5];
      assert content == b + [' '] + "True";
      PyStr.RFindAfter(b, "True", ' ');
    }
  }

  /** The contents written by the validation stage, and the documented longer form, as the gate sees them. */
  lemma StatusExamples()
    ensures StatusPasses("True") && StatusPasses("Validation Status: True")
    ensures !StatusPasses("False") && !StatusPasses("Validation Status: False") && !StatusPasses("")
    ensures !StatusPasses("True\n") && !StatusPasses("True ")
  {
    StatusPassesExactly("True");
    StatusPassesExactly("Validation Status: True");
    StatusPassesExactly("False");
    StatusPassesExactly("Validation Status: False");
    StatusPassesExactly("");
    StatusPassesExactly("True\n");
    StatusPassesExactly("True ");
  }

  /** The gate: `None` to proceed, or the exception it raises. */
  function CheckGate(fs: FS, statusFile: Path): (r: Option<Error>)
    ensures r.None? <==> IsFile(fs, statusFile) && StatusPasses(fs[statusFile].content)
    ensures !Exists(fs, statusFile) ==> r.Some? && r.value.StageFailure?
  {
    if !Exists(fs, statusFile) then
      Some(StageFailure("Data validation status file " + Render(statusFile) + " not found"))
    else match ReadText(fs, statusFile)
      case Err(e) => Some(e)
      case Ok(content) =>
        if StatusPasses(content) then None
        else Some(StageFailure("Data validation pipeline was not successful. Status: " + StatusToken(content)))
  }

  /** Once `str(status)` is written to the status file, the gate opens exactly when `status` is true. */
  lemma StatusRoundTrip(fs: FS, statusFile: Path, status: bool)
    requires WriteTextEffect(fs, statusFile, PyStr.BoolStr(status)).err.None?
    ensures CheckGate(WriteTextEffect(fs, statusFile, PyStr.BoolStr(status)).fs, statusFile).None? <==> status
  {
    WriteTextChanges(fs, statusFile, PyStr.BoolStr(status));
    StatusPassesExactly(PyStr.BoolStr(status));
  }

  /**
   * The round trip between the two stages: once validation has written its
   * verdict, the gate opens exactly when the dataset was valid.
   */
  lemma ValidationOpensGate(fs: FS, cfg: DataValidationConfig)
    requires WriteTextEffect(fs, cfg.statusFile, PyStr.BoolStr(DataValidation.DatasetValid(fs, cfg))).err.None?
    ensures var written := WriteTextEffect(fs, cfg.statusFile, PyStr.BoolStr(DataValidation.DatasetValid(fs, cfg))).fs;
      CheckGate(written, cfg.statusFile).None? <==> DataValidation.DatasetValid(fs, cfg)
  {
    StatusRoundTrip(fs, cfg.statusFile, DataValidation.DatasetValid(fs, cfg));
  }

  // ---------------------------------------------------------------------
  // The configuration's folders

  /** `create_directories([d])`: `os.makedirs` only when nothing exists at `d`. */
  function CreateDirectoriesEffect(fs: FS, d: Path): Effect {
    if Exists(fs, d) then Effect(fs, None) else MakeDirsEffect(fs, d)
  }

  /**
   * `ConfigurationManager()` followed by one of its `get_..._config()`:
   * `create_directories` on the artifacts root, then on the stage's data root.
   */
  function ConfigDirsEffect(fs: FS, artifactsRoot: Path, dataRoot: Path): Effect {
    var a := CreateDirectoriesEffect(fs, artifactsRoot);
    if a.err.Some? then a else CreateDirectoriesEffect(a.fs, dataRoot)
  }

  /**
   * Building the configuration only adds directories, and only prefixes of
   * the two roots; on a tree it leaves a tree; when it succeeds both roots
   * exist.
   */
  lemma ConfigDirsAdd(fs: FS, artifactsRoot: Path, dataRoot: Path)
    ensures var e := ConfigDirsEffect(fs, artifactsRoot, dataRoot);
      && Extends(fs, e.fs)
      && (forall q :: q in e.fs && q !in fs ==> e.fs[q] == Dir && (IsPrefix(q, artifactsRoot) || IsPrefix(q, dataRoot)))
      && (Tree(fs) ==> Tree(e.fs))
      && (e.err.None? ==> Exists(e.fs, artifactsRoot) && Exists(e.fs, dataRoot))
  {
    MakeDirsAdds(fs, artifactsRoot);
    var a := CreateDirectoriesEffect(fs, artifactsRoot);
    MakeDirsAdds(a.fs, dataRoot);
  }

  /** Adding directories never changes the gate's verdict: the status file is a file in both states or in neither, with the same text. */
  lemma GateIgnoresNewDirs(fs: FS, fs2: FS, statusFile: Path)
    requires Extends(fs, fs2) && forall q :: q in fs2 && q !in fs ==> fs2[q] == Dir
    ensures CheckGate(fs2, statusFile).None? <==> CheckGate(fs, statusFile).None?
  {
  }

  // ---------------------------------------------------------------------
  // The stage

  /** What the stage does, given the configuration's artifacts root and the copy orders the listings produced. */
  function StageSpec(fs: FS, artifactsRoot: Path, valCfg: DataValidationConfig, trCfg: DataTransformationConfig,
                     imageOrders: seq<seq<Name>>, labelOrders: seq<seq<Name>>): Effect
    requires |imageOrders| <= 3 && |labelOrders| <= 3
  {
    var v := ConfigDirsEffect(fs, artifactsRoot, valCfg.dataRootDir);
    if v.err.Some? then Effect(v.fs, Some(Custom(v.err.value)))
    else
      var gate := CheckGate(v.fs, valCfg.statusFile);
      if gate.Some? then Effect(v.fs, Some(Custom(gate.value)))
      else
        var t := ConfigDirsEffect(v.fs, artifactsRoot, trCfg.dataRootDir);
        if t.err.Some? then Effect(t.fs, Some(Custom(t.err.value)))
        else
          var created := MakeAll(t.fs, FolderPaths(trCfg.dataRootDir, NewFolders(trCfg), OldFolders(trCfg)));
          if created.err.Some? then Effect(created.fs, Some(Custom(created.err.value)))
          else
            var done := TransformSpec(created.fs, trCfg, imageOrders, labelOrders);
            if done.err.Some? then Effect(done.fs, Some(Custom(done.err.value))) else done
  }

  /**
   * Before the gate the stage adds only the artifacts root, the validation
   * data root and their missing parents, which never changes the gate's
   * verdict; when the gate stays shut nothing else changes.  The stage
   * completes exactly when the gate opens and every later step completes;
   * every failure is a `CustomException`.
   */
  lemma StageOutcome(fs: FS, artifactsRoot: Path, valCfg: DataValidationConfig, trCfg: DataTransformationConfig,
                     imageOrders: seq<seq<Name>>, labelOrders: seq<seq<Name>>)
    requires |imageOrders| <= 3 && |labelOrders| <= 3
    ensures var v := ConfigDirsEffect(fs, artifactsRoot, valCfg.dataRootDir);
      var e := StageSpec(fs, artifactsRoot, valCfg, trCfg, imageOrders, labelOrders);
      && Extends(fs, v.fs)
      && (forall q :: q in v.fs && q !in fs ==>
            v.fs[q] == Dir && (IsPrefix(q, artifactsRoot) || IsPrefix(q, valCfg.dataRootDir)))
      && (CheckGate(v.fs, valCfg.statusFile).None? <==> CheckGate(fs, valCfg.statusFile).None?)
      && (v.err.Some? || CheckGate(v.fs, valCfg.statusFile).Some? ==> e.fs == v.fs && e.err.Some?)
      && (e.err.Some? ==> e.err.value.Custom?)
    ensures var v := ConfigDirsEffect(fs, artifactsRoot, valCfg.dataRootDir);
      var t := ConfigDirsEffect(v.fs, artifactsRoot, trCfg.dataRootDir);
      var created := MakeAll(t.fs, FolderPaths(trCfg.dataRootDir, NewFolders(trCfg), OldFolders(trCfg)));
      StageSpec(fs, artifactsRoot, valCfg, trCfg, imageOrders, labelOrders).err.None? <==>
        && v.err.None? && CheckGate(fs, valCfg.statusFile).None? && t.err.None? && created.err.None?
        && TransformSpec(created.fs, trCfg, imageOrders, labelOrders).err.None?
  {
    ConfigDirsAdd(fs, artifactsRoot, valCfg.dataRootDir);
    var v := ConfigDirsEffect(fs, artifactsRoot, valCfg.dataRootDir);
    GateIgnoresNewDirs(fs, v.fs, valCfg.statusFile);
  }

  /** `create_directories([d])` on the disk. */
  method CreateDirectories(disk: Disk, d: Path) returns (err: Option<Error>)
    modifies disk
    ensures Effect(disk.fs, err) == CreateDirectoriesEffect(old(disk.fs), d)
    ensures old(disk.Valid()) ==> disk.Valid()
  {
    err := None;
    if !Exists(disk.fs, d) {
      err := disk.MakeDirs(d);
    }
  }

  /** `ConfigurationManager()` and a `get_..._config()` on the disk. */
  method ConfigDirs(disk: Disk, artifactsRoot: Path, dataRoot: Path) returns (err: Option<Error>)
    modifies disk
    ensures Effect(disk.fs, err) == ConfigDirsEffect(old(disk.fs), artifactsRoot, dataRoot)
    ensures old(disk.Valid()) ==> disk.Valid()
  {
    err := CreateDirectories(disk, artifactsRoot);
    if err.None? {
      err := CreateDirectories(disk, dataRoot);
    }
  }

  /** `DataTransformationTrainingPipeline.data_transformation` */
  method RunStage(disk: Disk, artifactsRoot: Path, valCfg: DataValidationConfig, trCfg: DataTransformationConfig)
    returns (imageOrders: seq<seq<Name>>, labelOrders: seq<seq<Name>>, err: Option<Error>)
    modifies disk
    ensures |imageOrders| <= 3 && |labelOrders| <= 3
    ensures Effect(disk.fs, err) == StageSpec(old(disk.fs), artifactsRoot, valCfg, trCfg, imageOrders, labelOrders)
    ensures var v := ConfigDirsEffect(old(disk.fs), artifactsRoot, valCfg.dataRootDir);
      var t := ConfigDirsEffect(v.fs, artifactsRoot, trCfg.dataRootDir);
      var created := MakeAll(t.fs, FolderPaths(trCfg.dataRootDir, NewFolders(trCfg), OldFolders(trCfg)));
      v.err.None? && CheckGate(v.fs, valCfg.statusFile).None? && t.err.None? && created.err.None? ==>
        TransformOrders(created.fs, trCfg, imageOrders, labelOrders)
    ensures old(disk.Valid()) ==> disk.Valid()
  {
    imageOrders, labelOrders := [], [];
    var configErr := ConfigDirs(disk, artifactsRoot, valCfg.dataRootDir);
    if configErr.Some? {
      return [], [], Some(Custom(configErr.value));
    }
    var gate := CheckGate(disk.fs, valCfg.statusFile);
    if gate.Some? {
      return [], [], Some(Custom(gate.value));
    }
    configErr := ConfigDirs(disk, artifactsRoot, trCfg.dataRootDir);
    if configErr.Some? {
      return [], [], Some(Custom(configErr.value));
    }
    var dt, createErr := DataTransformation.Create(disk, trCfg);
    if createErr.Some? {
      return [], [], Some(Custom(createErr.value));
    }
    var transformErr;
    imageOrders, labelOrders, transformErr := dt.Transform(disk);
    if transformErr.Some? {
      return imageOrders, labelOrders, Some(Custom(transformErr.value));
    }
    err := None;
  }
}
