/**
 * The prediction pipeline: an object holding the weights, the current
 * `source`, the detection script, the dataset description and the output
 * folder.  Detecting on an image or a video first replaces `source` when a
 * non-empty path is given; detecting on the webcam sets it to `"0"`.  A run
 * checks the weights and then the script, and builds the argument vector for
 * YOLOv5's `detect.py`.  Running the process is outside the model: a run
 * returns the vector it would run.
 */
module Prediction {
  import opened Exceptions
  import opened FileSystem

  /** `run_detection`'s argument vector. */
  function DetectArgv(weights: string, detectFile: string, source: string, dataFile: string, outputFolder: string)
    : seq<string>
  {
    ["python", detectFile,
     "--weights", weights,
     "--source", source,
     "--data", dataFile,
     "--conf", "0.4",
     "--project", outputFolder,
     "--name", "results",
     "--exist-ok"]
  }

  /** `run_detection`: the weights are checked first, then the script; the other settings are not checked. */
  function RunSpec(weights: string, detectFile: string, source: string, dataFile: string, outputFolder: string)
    : Result<seq<string>>
  {
    if weights == "" then Err(ValueError("Weights not provided"))
    else if detectFile == "" then Err(ValueError("Detect file not provided"))
    else Ok(DetectArgv(weights, detectFile, source, dataFile, outputFolder))
  }

  /**
   * A run fails exactly when the weights or the script are empty, with the
   * weights' message whenever the weights are empty; when it succeeds, each
   * flag is directly followed by its setting, the script comes right after
   * the interpreter, and the vector ends with `--exist-ok`.
   */
  lemma RunOutcome(weights: string, detectFile: string, source: string, dataFile: string, outputFolder: string)
    ensures var r := RunSpec(weights, detectFile, source, dataFile, outputFolder);
      && (r.Ok? <==> weights != "" && detectFile != "")
      && (weights == "" ==> r == Err(ValueError("Weights not provided")))
      && (weights != "" && detectFile == "" ==> r == Err(ValueError("Detect file not provided")))
      && (r.Ok? ==>
            && |r.value| == 15 && r.value[0] == "python" && r.value[1] == detectFile
            && (forall i :: 2 <= i < 14 && i % 2 == 0 ==> r.value[i][..2] == "--")
            && r.value[3] == weights && r.value[5] == source && r.value[7] == dataFile
            && r.value[9] == "0.4" && r.value[11] == outputFolder && r.value[13] == "results"
            && r.value[14] == "--exist-ok")
  {
    var r := RunSpec(weights, detectFile, source, dataFile, outputFolder);
    if r.Ok? {
      forall i | 2 <= i < 14 && i % 2 == 0 ensures r.value[i][..2] == "--" {
        assert i in {2, 4, 6, 8, 10, 12};
      }
    }
  }

  /** The source after `detect_image(path)` or `detect_video(path)`: replaced only by a non-empty path. */
  function NewSource(source: string, path: Option<string>): string {
    if path.Some? && path.value != "" then path.value else source
  }

  /** The new source is empty only when both the old one and the path are; supplying the same path again changes nothing. */
  lemma NewSourceFacts(source: string, path: Option<string>)
    ensures NewSource(source, path) == "" <==> source == "" && (path.None? || path.value == "")
    ensures NewSource(NewSource(source, path), path) == NewSource(source, path)
    ensures path.Some? && path.value != "" ==> NewSource(source, path) == path.value
  {
  }

  /** `detect_image` / `detect_video`: the source update, the empty-source check, then the run. */
  function DetectSpec(weights: string, detectFile: string, source: string, dataFile: string, outputFolder: string,
                      path: Option<string>, missing: string): Result<seq<string>>
  {
    var s := NewSource(source, path);
    if s == "" then Err(ValueError(missing))
    else RunSpec(weights, detectFile, s, dataFile, outputFolder)
  }

  /**
   * An empty source is reported before the weights and the script are looked
   * at; a non-empty path is what the vector names as its source.
   */
  lemma DetectOutcome(weights: string, detectFile: string, source: string, dataFile: string, outputFolder: string,
                      path: Option<string>, missing: string)
    ensures var r := DetectSpec(weights, detectFile, source, dataFile, outputFolder, path, missing);
      && (source == "" && (path.None? || path.value == "") ==> r == Err(ValueError(missing)))
      && (r.Ok? <==> NewSource(source, path) != "" && weights != "" && detectFile != "")
      && (r.Ok? && path.Some? && path.value != "" ==> r.value[5] == path.value)
  {
    NewSourceFacts(source, path);
    RunOutcome(weights, detectFile, NewSource(source, path), dataFile, outputFolder);
  }

  /** `setup_output_folder`: create the folder unless something already exists at its path. */
  function SetupEffect(fs: FS, outputFolder: Path): Effect {
    if Exists(fs, outputFolder) then Effect(fs, None) else MakeDirsEffect(fs, outputFolder)
  }

  /**
   * On a tree, the set-up never removes anything; afterwards the folder
   * exists unless it failed; and a second set-up changes nothing.
   */
  lemma SetupFacts(fs: FS, outputFolder: Path)
    requires Tree(fs)
    ensures var e := SetupEffect(fs, outputFolder);
      && Extends(fs, e.fs) && Tree(e.fs)
      && (e.err.None? ==> Exists(e.fs, outputFolder))
      && (e.err.None? ==> SetupEffect(e.fs, outputFolder) == Effect(e.fs, None))
  {
    MakeDirsAdds(fs, outputFolder);
  }

  class PredictionPipeline {
    const weights: string
    var source: string
    const detectFile: string
    const dataFile: string
    const outputFolder: Path

    /** The field assignments of `__init__`; `Create` adds the folder set-up. */
    constructor (weights: string, source: string, detectFile: string, dataFile: string, outputFolder: Path)
      ensures this.weights == weights && this.source == source && this.detectFile == detectFile
      ensures this.dataFile == dataFile && this.outputFolder == outputFolder
    {
      this.weights := weights;
      this.source := source;
      this.detectFile := detectFile;
      this.dataFile := dataFile;
      this.outputFolder := outputFolder;
    }

    /** `__init__`: store the settings, then set up the output folder (which may raise). */
    static method Create(disk: Disk, weights: string, source: string, detectFile: string, dataFile: string,
                         outputFolder: Path)
      returns (p: PredictionPipeline, err: Option<Error>)
      modifies disk
      ensures fresh(p)
      ensures p.weights == weights && p.source == source && p.detectFile == detectFile
      ensures p.dataFile == dataFile && p.outputFolder == outputFolder
      ensures Effect(disk.fs, err) == SetupEffect(old(disk.fs), outputFolder)
      ensures old(disk.Valid()) ==> disk.Valid()
    {
      p := new PredictionPipeline(weights, source, detectFile, dataFile, outputFolder);
      err := p.SetupOutputFolder(disk);
    }

    /** `setup_output_folder` */
    method SetupOutputFolder(disk: Disk) returns (err: Option<Error>)
      modifies disk
      ensures Effect(disk.fs, err) == SetupEffect(old(disk.fs), outputFolder)
      ensures old(disk.Valid()) ==> disk.Valid()
    {
      err := None;
      if !Exists(disk.fs, outputFolder) {
        err := disk.MakeDirs(outputFolder);
      }
    }

    /** `run_detection`: the argument vector it runs, or the `ValueError` it raises. */
    method RunDetection() returns (r: Result<seq<string>>)
      ensures r == RunSpec(weights, detectFile, source, dataFile, Render(outputFolder))
    {
      if weights == "" {
        return Err(ValueError("Weights not provided"));
      }
      if detectFile == "" {
        return Err(ValueError("Detect file not provided"));
      }
      var command := [
        "python", detectFile,
        "--weights", weights,
        "--source", source,
        "--data", dataFile,
        "--conf", "0.4",
        "--project", Render(outputFolder),
        "--name", "results",
        "--exist-ok"
      ];
      return Ok(command);
    }

    /** `detect_image(image_path)` */
    method DetectImage(imagePath: Option<string>) returns (r: Result<seq<string>>)
      modifies this
      ensures source == NewSource(old(source), imagePath)
      ensures r == DetectSpec(weights, detectFile, old(source), dataFile, Render(outputFolder),
                              imagePath, "Image path not provided")
    {
      if imagePath.Some? && imagePath.value != "" {
        source := imagePath.value;
      }
      if source == "" {
        return Err(ValueError("Image path not provided"));
      }
      r := RunDetection();
    }

    /** `detect_video(video_path)` */
    method DetectVideo(videoPath: Option<string>) returns (r: Result<seq<string>>)
      modifies this
      ensures source == NewSource(old(source), videoPath)
      ensures r == DetectSpec(weights, detectFile, old(source), dataFile, Render(outputFolder),
                              videoPath, "Video path not provided")
    {
      if videoPath.Some? && videoPath.value != "" {
        source := videoPath.value;
      }
      if source == "" {
        return Err(ValueError("Video path not provided"));
      }
      r := RunDetection();
    }

    /** `detect_webcam`: the source becomes camera `"0"`. */
    method DetectWebcam() returns (r: Result<seq<string>>)
      modifies this
      ensures source == "0"
      ensures r == RunSpec(weights, detectFile, "0", dataFile, Render(outputFolder))
    {
      source := "0";
      r := RunDetection();
    }
  }
}
