/**
 * The evaluation component: it checks, in order, that the dataset
 * description, the YOLOv5 repository and its `val.py` exist, and builds the
 * shell command that runs `val.py`.  Running the command is outside the
 * model: the method returns the command it would run, and its result is
 * never looked at.  Every failure is raised as a `CustomException`.
 *
 * `project_root_path`, four levels above the component's own file, is a
 * parameter: `projectRoot`.
 */
module ModelEvaluation {
  import opened Exceptions
  import opened FileSystem
  import opened ConfigEntity
  import PyStr

  /** Where the repository is looked for: under the project root. */
  function YoloPath(cfg: ModelEvaluationConfig, projectRoot: Path): Path {
    projectRoot + cfg.modelRootPath
  }

  /** Where `val.py` is looked for: under `model_root_path` alone, not under the project root. */
  function ValScript(cfg: ModelEvaluationConfig): Path {
    cfg.modelRootPath + ["val.py"]
  }

  /** Where the results go: the project root joined with `data_root_dir`. */
  function ResultsPath(cfg: ModelEvaluationConfig, projectRoot: Path): Path {
    projectRoot + cfg.dataRootDir
  }

  /**
   * `construct_command(val_script_path, data_yaml_path)`, with the double
   * space the source writes before `--project`.  Each space is written as its
   * own `" "`.
   */
  function EvalCommand(cfg: ModelEvaluationConfig, projectRoot: Path, valScript: Path, dataYaml: Path): string {
    "python" + " " + Render(valScript) + " "
    + "--weights" + " " + cfg.weightsPath + " "
    + "--data" + " " + Render(dataYaml) + " "
    + "--batch" + " " + PyStr.NatToString(cfg.batchSize) + " "
    + "--exist-ok" + " "
    + "--name" + " " + "results" + " " + " "
    + "--project" + " " + Render(ResultsPath(cfg, projectRoot))
  }

  /** The command's words when it is split on single spaces. */
  function EvalWords(cfg: ModelEvaluationConfig, projectRoot: Path, valScript: Path, dataYaml: Path): seq<string> {
    ["python", Render(valScript),
     "--weights", cfg.weightsPath,
     "--data", Render(dataYaml),
     "--batch", PyStr.NatToString(cfg.batchSize),
     "--exist-ok",
     "--name", "results", "",
     "--project", Render(ResultsPath(cfg, projectRoot))]
  }

  /** The first six words of the evaluation command, none of which holds a space. */
  lemma SplitEvalHead(prog: string, script: string, f1: string, weights: string, f2: string, yaml: string)
    requires ' ' !in prog && ' ' !in script && ' ' !in f1 && ' ' !in weights && ' ' !in f2 && ' ' !in yaml
    ensures PyStr.Split(prog + " " + script + " " + f1 + " " + weights + " " + f2 + " " + yaml, ' ')
      == [prog, script, f1, weights, f2, yaml]
  {
    PyStr.SplitNoSep(prog, ' ');
    var c0 := prog;
    PyStr.SplitSnocWord(c0, script, ' ');
    var c1 := c0 + " " + script;
    PyStr.SplitSnocWord(c1, f1, ' ');
    var c2 := c1 + " " + f1;
    PyStr.SplitSnocWord(c2, weights, ' ');
    var c3 := c2 + " " + weights;
    PyStr.SplitSnocWord(c3, f2, ' ');
    var c4 := c3 + " " + f2;
    PyStr.SplitSnocWord(c4, yaml, ' ');
  }

  /** The next five words of the evaluation command, each after a single space. */
  lemma SplitEvalMiddle(c: string, ws: seq<string>, f3: string, batch: string, f4: string, f5: string, name: string)
    requires PyStr.Split(c, ' ') == ws
    requires ' ' !in f3 && ' ' !in batch && ' ' !in f4 && ' ' !in f5 && ' ' !in name
    ensures PyStr.Split(c + " " + f3 + " " + batch + " " + f4 + " " + f5 + " " + name, ' ')
      == ws + [f3, batch, f4, f5, name]
  {
    PyStr.SplitSnocWord(c, f3, ' ');
    var c1 := c + " " + f3;
    PyStr.SplitSnocWord(c1, batch, ' ');
    var c2 := c1 + " " + batch;
    PyStr.SplitSnocWord(c2, f4, ' ');
    var c3 := c2 + " " + f4;
    PyStr.SplitSnocWord(c3, f5, ' ');
    var c4 := c3 + " " + f5;
    PyStr.SplitSnocWord(c4, name, ' ');
  }

  /** The rest of the evaluation command: an empty word at the double space. */
  lemma SplitEvalTail(c: string, ws: seq<string>, f6: string, project: string)
    requires PyStr.Split(c, ' ') == ws
    requires ' ' !in f6 && ' ' !in project
    ensures PyStr.Split(c + " " + " " + f6 + " " + project, ' ') == ws + ["", f6, project]
  {
    var c0 := c;
    PyStr.SplitSnocEmpty(c0, ' ');
    var c1 := c0 + " ";
    PyStr.SplitSnocWord(c1, f6, ' ');
    var c2 := c1 + " " + f6;
    PyStr.SplitSnocWord(c2, project, ' ');
    var c3 := c2 + " " + project;
  }

  /**
   * Split on single spaces, the command gives back its words: the script,
   * each flag with its value, and an empty word at the double space.
   */
  lemma EvalCommandWords(cfg: ModelEvaluationConfig, projectRoot: Path, valScript: Path, dataYaml: Path)
    requires ' ' !in Render(valScript) && ' ' !in cfg.weightsPath && ' ' !in Render(dataYaml)
    requires ' ' !in Render(ResultsPath(cfg, projectRoot))
    ensures PyStr.Split(EvalCommand(cfg, projectRoot, valScript, dataYaml), ' ')
      == EvalWords(cfg, projectRoot, valScript, dataYaml)
  {
    var script, yaml, batch := Render(valScript), Render(dataYaml), PyStr.NatToString(cfg.batchSize);
    SplitEvalHead("python", script, "--weights", cfg.weightsPath, "--data", yaml);
    SplitEvalMiddle("python" + " " + script + " " + "--weights" + " " + cfg.weightsPath + " " + "--data" + " " + yaml,
                    ["python", script, "--weights", cfg.weightsPath, "--data", yaml],
                    "--batch", batch, "--exist-ok", "--name", "results");
    SplitEvalTail("python" + " " + script + " " + "--weights" + " " + cfg.weightsPath + " " + "--data" + " " + yaml
                    + " " + "--batch" + " " + batch + " " + "--exist-ok" + " " + "--name" + " " + "results",
                  ["python", script, "--weights", cfg.weightsPath, "--data", yaml, "--batch", batch,
                   "--exist-ok", "--name", "results"],
                  "--project", Render(ResultsPath(cfg, projectRoot)));
  }

  const RepositoryMissing: string := "YOLO repository does not exist"

  /** `evaluate`: the command it runs, or the exception it raises. */
  function EvaluateSpec(fs: FS, cfg: ModelEvaluationConfig, projectRoot: Path): Result<string> {
    if !Exists(fs, cfg.inputYamlPath) then Err(Custom(FileNotFound(cfg.inputYamlPath)))
    else if !Exists(fs, YoloPath(cfg, projectRoot)) then Err(Custom(MissingResource(RepositoryMissing)))
    else if !Exists(fs, ValScript(cfg)) then Err(Custom(FileNotFound(ValScript(cfg))))
    else Ok(EvalCommand(cfg, projectRoot, ValScript(cfg), cfg.inputYamlPath))
  }

  /**
   * A command is built exactly when the description, the repository and the
   * script all exist; otherwise the first missing one, in that order, is the
   * cause of the `CustomException`.
   */
  lemma EvaluateOutcome(fs: FS, cfg: ModelEvaluationConfig, projectRoot: Path)
    ensures var r := EvaluateSpec(fs, cfg, projectRoot);
      && (r.Ok? <==> Exists(fs, cfg.inputYamlPath) && Exists(fs, YoloPath(cfg, projectRoot)) && Exists(fs, ValScript(cfg)))
      && (r.Err? ==> r.error.Custom?)
      && (!Exists(fs, cfg.inputYamlPath) ==> r == Err(Custom(FileNotFound(cfg.inputYamlPath))))
      && (Exists(fs, cfg.inputYamlPath) && !Exists(fs, YoloPath(cfg, projectRoot)) ==>
            r == Err(Custom(MissingResource(RepositoryMissing))))
  {
  }

  /** When run from the project root, the repository check is the check on `model_root_path` itself. */
  lemma FromProjectRoot(fs: FS, cfg: ModelEvaluationConfig)
    ensures EvaluateSpec(fs, cfg, []).Ok? <==>
      Exists(fs, cfg.inputYamlPath) && Exists(fs, cfg.modelRootPath) && Exists(fs, ValScript(cfg))
  {
    assert YoloPath(cfg, []) == cfg.modelRootPath;
  }

  class ModelEvaluation {
    const config: ModelEvaluationConfig
    const projectRoot: Path

    constructor (config: ModelEvaluationConfig, projectRoot: Path)
      ensures this.config == config && this.projectRoot == projectRoot
    {
      this.config := config;
      this.projectRoot := projectRoot;
    }

    /** `check_yolo_v5` */
    method CheckYoloV5(fs: FS) returns (present: bool)
      ensures present <==> Exists(fs, YoloPath(config, projectRoot))
    {
      var yoloPath := projectRoot + config.modelRootPath;
      present := Exists(fs, yoloPath);
    }

    /** `get_val_script_path` */
    method GetValScriptPath(fs: FS) returns (r: Result<Path>)
      ensures r.Ok? <==> Exists(fs, ValScript(config))
      ensures r.Ok? ==> r.value == ValScript(config)
      ensures r.Err? ==> r.error == FileNotFound(ValScript(config))
    {
      var valScriptPath := config.modelRootPath + ["val.py"];
      if !Exists(fs, valScriptPath) {
        return Err(FileNotFound(valScriptPath));
      }
      return Ok(valScriptPath);
    }

    /** `evaluate`: check in order, then build the command (the second check of the script never fails). */
    method Evaluate(fs: FS) returns (command: Option<string>, err: Option<Error>)
      ensures command.Some? <==> err.None?
      ensures EvaluateSpec(fs, config, projectRoot).Ok? ==> command == Some(EvaluateSpec(fs, config, projectRoot).value)
      ensures EvaluateSpec(fs, config, projectRoot).Err? ==> err == Some(EvaluateSpec(fs, config, projectRoot).error)
    {
      var dataYamlPath := config.inputYamlPath;
      if !Exists(fs, dataYamlPath) {
        return None, Some(Custom(FileNotFound(dataYamlPath)));
      }
      var present := CheckYoloV5(fs);
      if !present {
        return None, Some(Custom(MissingResource(RepositoryMissing)));
      }
      var valScriptPath := GetValScriptPath(fs);
      if valScriptPath.Err? {
        return None, Some(Custom(valScriptPath.error));
      }
      var path := valScriptPath.value;
      if !Exists(fs, path) {
        return None, Some(Custom(FileNotFound(path)));
      }
      command := Some(EvalCommand(config, projectRoot, path, dataYamlPath));
      err := None;
    }
  }
}
