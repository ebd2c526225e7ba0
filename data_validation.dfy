/**
 * The data-validation stage: checks the downloaded dataset layout
 * `data_dir/{test,train,valid}/{images,labels}`, that every image has a
 * label file named after its stem, and that `data.yaml` exists; then records
 * the verdict, as the text `True` or `False`, in the status file.
 *
 * The checks only read the filesystem, so they take a state `fs` as a value.
 * Any exception inside a check makes it answer false ("fail closed").
 */
module DataValidation {
  import opened Exceptions
  import opened FileSystem
  import opened ConfigEntity
  import PyStr

  /** `[TEST_DIR, TRAIN_DIR, VAL_DIR]`: the splits, in the order they are checked. */
  function RequiredFolders(cfg: DataValidationConfig): seq<Name> {
    [cfg.testDir, cfg.trainDir, cfg.valDir]
  }

  /** The split folder exists with both an images and a labels folder in it. */
  predicate SplitLaidOut(fs: FS, cfg: DataValidationConfig, folder: Name) {
    var folderPath := cfg.dataDir + [folder];
    Exists(fs, folderPath) && Exists(fs, folderPath + [cfg.imgDir]) && Exists(fs, folderPath + [cfg.labelDir])
  }

  /** The folder structure: `data_dir` exists and every split is laid out. */
  predicate StructureOk(fs: FS, cfg: DataValidationConfig) {
    Exists(fs, cfg.dataDir)
    && forall i :: 0 <= i < |RequiredFolders(cfg)| ==> SplitLaidOut(fs, cfg, RequiredFolders(cfg)[i])
  }

  /** The label file an image needs: its stem followed by `.txt` (not `LABELS_FILE_EXT`). */
  function LabelFor(image: Name): Name {
    PyStr.Stem(image) + ".txt"
  }

  /**
   * The files of one split: both folders can be listed, neither is empty,
   * and every image has its label.  Extra labels are allowed.
   */
  predicate FilesOk(fs: FS, folderPath: Path, cfg: DataValidationConfig) {
    var images := folderPath + [cfg.imgDir];
    var labels := folderPath + [cfg.labelDir];
    && IsDir(fs, images) && IsDir(fs, labels)
    && Children(fs, images) != {} && Children(fs, labels) != {}
    && forall n :: n in Children(fs, images) ==> LabelFor(n) in Children(fs, labels)
  }

  /** The file the last check looks for: literally `data.yaml`, not `DATA_FILE`. */
  const DataYaml: Name := "data.yaml"

  /** The whole verdict of `validate_data`. */
  predicate DatasetValid(fs: FS, cfg: DataValidationConfig) {
    && StructureOk(fs, cfg)
    && (forall i :: 0 <= i < |RequiredFolders(cfg)| ==> FilesOk(fs, cfg.dataDir + [RequiredFolders(cfg)[i]], cfg))
    && Exists(fs, cfg.dataDir + [DataYaml])
  }

  /** `validate_folder_structure` */
  method ValidateFolderStructure(fs: FS, cfg: DataValidationConfig) returns (ok: bool)
    ensures ok <==> StructureOk(fs, cfg)
  {
    if !Exists(fs, cfg.dataDir) {
      return false;
    }
    var folders := RequiredFolders(cfg);
    for i := 0 to |folders|
      invariant forall j :: 0 <= j < i ==> SplitLaidOut(fs, cfg, folders[j])
    {
      var folderPath := cfg.dataDir + [folders[i]];
      if !Exists(fs, folderPath) {
        return false;
      }
      if !Exists(fs, folderPath + [cfg.imgDir]) {
        return false;
      }
      if !Exists(fs, folderPath + [cfg.labelDir]) {
        return false;
      }
    }
    return true;
  }

  /** `validate_files(folder_path)`; a listing that raises makes it answer false. */
  method ValidateFiles(fs: FS, folderPath: Path, cfg: DataValidationConfig) returns (ok: bool)
    ensures ok <==> FilesOk(fs, folderPath, cfg)
  {
    var images := ListDir(fs, folderPath + [cfg.imgDir]);
    if images.Err? {
      return false;
    }
    var labels := ListDir(fs, folderPath + [cfg.labelDir]);
    if labels.Err? {
      return false;
    }
    if images.value == {} {
      return false;
    }
    if labels.value == {} {
      return false;
    }
    var todo := images.value;
    while todo != {}
      invariant todo <= images.value
      invariant forall n :: n in images.value && n !in todo ==> LabelFor(n) in labels.value
      decreases todo
    {
      var n :| n in todo;
      if LabelFor(n) !in labels.value {
        return false;
      }
      todo := todo - {n};
    }
    return true;
  }

  /**
   * The loop of `validate_data` over the splits: check each split's files in
   * order and stop at the first split that fails.  `examined` lists the
   * splits checked, the failing one last.
   */
  method ValidateSplits(fs: FS, cfg: DataValidationConfig) returns (ok: bool, examined: seq<Name>)
    ensures ok <==> forall i :: 0 <= i < |RequiredFolders(cfg)| ==> FilesOk(fs, cfg.dataDir + [RequiredFolders(cfg)[i]], cfg)
    ensures |examined| <= |RequiredFolders(cfg)| && examined == RequiredFolders(cfg)[..|examined|]
    ensures ok ==> examined == RequiredFolders(cfg)
    ensures !ok ==> 0 < |examined| && !FilesOk(fs, cfg.dataDir + [examined[|examined| - 1]], cfg)
  {
    examined := [];
    var folders := RequiredFolders(cfg);
    for i := 0 to |folders|
      invariant examined == folders[..i]
      invariant forall j :: 0 <= j < i ==> FilesOk(fs, cfg.dataDir + [folders[j]], cfg)
    {
      var folderPath := cfg.dataDir + [folders[i]];
      examined := examined + [folders[i]];
      var filesOk := ValidateFiles(fs, folderPath, cfg);
      if !filesOk {
        assert examined == folders[..i + 1] && examined[|examined| - 1] == folders[i];
        return false, examined;
      }
    }
    assert examined == folders;
    return true, examined;
  }

  /**
   * `validate_data`.  `examined` lists the splits whose files were checked,
   * in order: none when the structure check fails, all three when the data
   * is valid, and otherwise up to the split that failed.
   */
  method ValidateData(fs: FS, cfg: DataValidationConfig) returns (ok: bool, examined: seq<Name>)
    ensures ok <==> DatasetValid(fs, cfg)
    ensures |examined| <= |RequiredFolders(cfg)| && examined == RequiredFolders(cfg)[..|examined|]
    ensures !StructureOk(fs, cfg) ==> examined == []
    ensures ok ==> examined == RequiredFolders(cfg)
    ensures (!ok && 0 < |examined| < |RequiredFolders(cfg)|) ==>
      !FilesOk(fs, cfg.dataDir + [examined[|examined| - 1]], cfg)
  {
    examined := [];
    var structureOk := ValidateFolderStructure(fs, cfg);
    if !structureOk {
      return false, examined;
    }
    var splitsOk;
    splitsOk, examined := ValidateSplits(fs, cfg);
    if !splitsOk {
      return false, examined;
    }
    if !Exists(fs, cfg.dataDir + [DataYaml]) {
      return false, examined;
    }
    return true, examined;
  }

  /**
   * `validate`: run the checks, write `str(result)` to the status file and
   * return the result.  A failing write raises (nothing catches it here).
   */
  method Validate(disk: Disk, cfg: DataValidationConfig) returns (status: bool, err: Option<Error>)
    modifies disk
    ensures status == DatasetValid(old(disk.fs), cfg)
    ensures Effect(disk.fs, err) == WriteTextEffect(old(disk.fs), cfg.statusFile, PyStr.BoolStr(status))
    ensures old(disk.Valid()) ==> disk.Valid()
  {
    var examined;
    status, examined := ValidateData(disk.fs, cfg);
    err := disk.WriteText(cfg.statusFile, PyStr.BoolStr(status));
  }

  /** The checks never look at `DATA_FILE`: only the literal name `data.yaml` counts. */
  lemma DataFileSettingIgnored(fs: FS, cfg: DataValidationConfig, other: string)
    ensures DatasetValid(fs, cfg) <==> DatasetValid(fs, cfg.(dataFile := other))
  {
    assert RequiredFolders(cfg) == RequiredFolders(cfg.(dataFile := other));
  }

  /** Label files without an image never make a split fail. */
  lemma SurplusLabelHarmless(fs: FS, folderPath: Path, cfg: DataValidationConfig, extra: Name, contents: string)
    requires cfg.imgDir != cfg.labelDir
    requires FilesOk(fs, folderPath, cfg)
    ensures FilesOk(fs[folderPath + [cfg.labelDir, extra] := File(contents)], folderPath, cfg)
  {
    var fs' := fs[folderPath + [cfg.labelDir, extra] := File(contents)];
    var images := folderPath + [cfg.imgDir];
    var labels := folderPath + [cfg.labelDir];
    assert labels + [extra] == folderPath + [cfg.labelDir, extra];
    forall n ensures images + [n] in fs' <==> images + [n] in fs {
      assert (images + [n])[|folderPath|] != (labels + [extra])[|folderPath|];
    }
    assert Children(fs', images) == Children(fs, images);
    assert Children(fs, labels) <= Children(fs', labels);
  }

  /** An image whose label is missing fails its split, and with it the whole dataset. */
  lemma MissingLabelFails(fs: FS, cfg: DataValidationConfig, i: nat, image: Name)
    requires i < |RequiredFolders(cfg)|
    requires var folderPath := cfg.dataDir + [RequiredFolders(cfg)[i]];
      image in Children(fs, folderPath + [cfg.imgDir])
      && LabelFor(image) !in Children(fs, folderPath + [cfg.labelDir])
    ensures !DatasetValid(fs, cfg)
  {
  }
}
