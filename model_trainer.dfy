/**
 * The training component: it writes the dataset description for YOLOv5
 * (`path`, `train`, `val`, `test` and the class names), checks that the
 * description and the training script exist, and builds the shell command
 * that runs `train.py`.  Running the command is outside the model: the
 * method returns the command it would run, and its exit status is never
 * looked at.
 */
module ModelTrainer {
  import opened Exceptions
  import opened FileSystem
  import opened ConfigEntity
  import PyStr
  import opened DatasetYaml

  /** The dataset entries, in insertion order. */
  function TrainerData(cfg: ModelTrainerConfig): seq<(string, string)> {
    [("path", Render(cfg.dataDir)), ("train", cfg.trainDir), ("val", cfg.valDir), ("test", cfg.testDir)]
  }

  /** The data lines the description starts with, one per entry and in that order. */
  lemma TrainerDataLines(cfg: ModelTrainerConfig)
    ensures DataTexts(TrainerData(cfg)) ==
      ["path: " + Render(cfg.dataDir), "train: " + cfg.trainDir, "val: " + cfg.valDir, "test: " + cfg.testDir]
  {
    var d := TrainerData(cfg);
    assert d[..1][..0] == [];
    assert DataTexts(d[..1]) == [DataText("path", Render(cfg.dataDir))];
    assert d[..2][..1] == d[..1];
    assert DataTexts(d[..2]) == DataTexts(d[..1]) + [DataText("train", cfg.trainDir)];
    assert d[..3][..2] == d[..2];
    assert DataTexts(d[..3]) == DataTexts(d[..2]) + [DataText("val", cfg.valDir)];
    assert d[..3] == d[..|d| - 1];
    assert DataTexts(d) == DataTexts(d[..3]) + [DataText("test", cfg.testDir)];
    assert DataText("path", Render(cfg.dataDir)) == "path: " + Render(cfg.dataDir);
    assert DataText("train", cfg.trainDir) == "train: " + cfg.trainDir;
    assert DataText("val", cfg.valDir) == "val: " + cfg.valDir;
    assert DataText("test", cfg.testDir) == "test: " + cfg.testDir;
  }

  function TrainScript(cfg: ModelTrainerConfig): Path {
    cfg.modelRootPath + ["train.py"]
  }

  function ResultsPath(cfg: ModelTrainerConfig): Path {
    cfg.dataRootDir + ["results"]
  }

  /**
   * The shell command, with the two double spaces the source writes (before
   * `--name` and before `--cache`).  Each space is written as its own `" "`.
   */
  function TrainCommand(cfg: ModelTrainerConfig): string {
    "python" + " " + Render(TrainScript(cfg)) + " "
    + "--weights" + " " + cfg.weightName + " "
    + "--data" + " " + Render(cfg.outputYamlPath) + " "
    + "--batch" + " " + PyStr.NatToString(cfg.batchSize) + " "
    + "--epochs" + " " + PyStr.NatToString(cfg.noEpochs) + " " + " "
    + "--name" + " " + Render(ResultsPath(cfg)) + " " + " "
    + "--cache"
  }

  /** The command's words when it is split on single spaces: an empty word at each double space. */
  function TrainWords(cfg: ModelTrainerConfig): seq<string> {
    ["python", Render(TrainScript(cfg)),
     "--weights", cfg.weightName,
     "--data", Render(cfg.outputYamlPath),
     "--batch", PyStr.NatToString(cfg.batchSize),
     "--epochs", PyStr.NatToString(cfg.noEpochs), "",
     "--name", Render(ResultsPath(cfg)), "",
     "--cache"]
  }

  predicate NoSpaces(cfg: ModelTrainerConfig) {
    ' ' !in Render(TrainScript(cfg)) && ' ' !in cfg.weightName
    && ' ' !in Render(cfg.outputYamlPath) && ' ' !in Render(ResultsPath(cfg))
  }

  /** The first ten words of the training command, none of which holds a space. */
  lemma SplitTrainHead(prog: string, script: string, f1: string, weight: string, f2: string, yaml: string, f3: string, batch: string, f4: string, epochs: string)
    requires ' ' !in prog && ' ' !in script && ' ' !in f1 && ' ' !in weight && ' ' !in f2 && ' ' !in yaml && ' ' !in f3 && ' ' !in batch && ' ' !in f4 && ' ' !in epochs
    ensures PyStr.Split(prog + " " + script + " " + f1 + " " + weight + " " + f2 + " " + yaml + " " + f3 + " " + batch + " " + f4 + " " + epochs, ' ')
      == [prog, script, f1, weight, f2, yaml, f3, batch, f4, epochs]
  {
    PyStr.SplitNoSep(prog, ' ');
    var c0 := prog;
    PyStr.SplitSnocWord(c0, script, ' ');
    var c1 := c0 + " " + script;
    PyStr.SplitSnocWord(c1, f1, ' ');
    var c2 := c1 + " " + f1;
    PyStr.SplitSnocWord(c2, weight, ' ');
    var c3 := c2 + " " + weight;
    PyStr.SplitSnocWord(c3, f2, ' ');
    var c4 := c3 + " " + f2;
    PyStr.SplitSnocWord(c4, yaml, ' ');
    var c5 := c4 + " " + yaml;
    PyStr.SplitSnocWord(c5, f3, ' ');
    var c6 := c5 + " " + f3;
    PyStr.SplitSnocWord(c6, batch, ' ');
    var c7 := c6 + " " + batch;
    PyStr.SplitSnocWord(c7, f4, ' ');
    var c8 := c7 + " " + f4;
    PyStr.SplitSnocWord(c8, epochs, ' ');
    var c9 := c8 + " " + epochs;
  }

  /** The rest of the training command: an empty word at each double space. */
  lemma SplitTrainTail(c: string, ws: seq<string>, f5: string, results: string, f6: string)
    requires PyStr.Split(c, ' ') == ws
    requires ' ' !in f5 && ' ' !in results && ' ' !in f6
    ensures PyStr.Split(c + " " + " " + f5 + " " + results + " " + " " + f6, ' ') == ws + ["", f5, results, "", f6]
  {
    var c0 := c;
    PyStr.SplitSnocEmpty(c0, ' ');
    var c1 := c0 + " ";
    PyStr.SplitSnocWord(c1, f5, ' ');
    var c2 := c1 + " " + f5;
    PyStr.SplitSnocWord(c2, results, ' ');
    var c3 := c2 + " " + results;
    PyStr.SplitSnocEmpty(c3, ' ');
    var c4 := c3 + " ";
    PyStr.SplitSnocWord(c4, f6, ' ');
    var c5 := c4 + " " + f6;
  }

  /**
   * Split on single spaces, the command gives back its words: the script,
   * each flag followed by its value, and an empty word at each double space.
   */
  lemma TrainCommandWords(cfg: ModelTrainerConfig)
    requires NoSpaces(cfg)
    ensures PyStr.Split(TrainCommand(cfg), ' ') == TrainWords(cfg)
  {
    var script, yaml := Render(TrainScript(cfg)), Render(cfg.outputYamlPath);
    var batch, epochs := PyStr.NatToString(cfg.batchSize), PyStr.NatToString(cfg.noEpochs);
    SplitTrainHead("python", script, "--weights", cfg.weightName, "--data", yaml, "--batch", batch, "--epochs", epochs);
    SplitTrainTail("python" + " " + script + " " + "--weights" + " " + cfg.weightName + " " + "--data" + " " + yaml
                     + " " + "--batch" + " " + batch + " " + "--epochs" + " " + epochs,
                   ["python", script, "--weights", cfg.weightName, "--data", yaml, "--batch", batch, "--epochs", epochs],
                   "--name", Render(ResultsPath(cfg)), "--cache");
  }

  /** The description step: read the names, then write the file (nothing is written when the read fails). */
  function GenerateStep(fs: FS, cfg: ModelTrainerConfig, parse: string -> YamlDoc): Effect {
    match NamesEntry(fs, cfg.inputYamlPath, parse)
    case Err(e) => Effect(fs, Some(e))
    case Ok(items) => GenerateEffect(fs, cfg.outputYamlPath, TrainerData(cfg), Some(items))
  }

  /** What `train` does to the filesystem and the exception it raises, unwrapped. */
  function TrainSpec(fs: FS, cfg: ModelTrainerConfig, parse: string -> YamlDoc): Effect {
    var gen := GenerateStep(fs, cfg, parse);
    if gen.err.Some? then gen
    else if !Exists(gen.fs, cfg.outputYamlPath) then Effect(gen.fs, Some(FileNotFound(cfg.outputYamlPath)))
    else if !Exists(gen.fs, TrainScript(cfg)) then Effect(gen.fs, Some(FileNotFound(TrainScript(cfg))))
    else gen
  }

  /**
   * Once the description is written, its existence check always passes:
   * training fails exactly when the description step fails or the script is
   * missing, no failure is wrapped, and when it succeeds the description
   * holds the data entries and the class names.
   */
  lemma TrainOutcome(fs: FS, cfg: ModelTrainerConfig, parse: string -> YamlDoc)
    ensures var gen := GenerateStep(fs, cfg, parse);
      && (TrainSpec(fs, cfg, parse).err.None? <==> gen.err.None? && Exists(gen.fs, TrainScript(cfg)))
      && (TrainSpec(fs, cfg, parse).err != Some(FileNotFound(cfg.outputYamlPath)) || gen.err.Some?)
      && (TrainSpec(fs, cfg, parse).err.Some? ==> !TrainSpec(fs, cfg, parse).err.value.Custom?)
      && (gen.err.None? ==>
            gen.fs[cfg.outputYamlPath] == File(YamlText(TrainerData(cfg), NamesEntry(fs, cfg.inputYamlPath, parse).value)))
  {
    var gen := GenerateStep(fs, cfg, parse);
    if gen.err.None? {
      var items := NamesEntry(fs, cfg.inputYamlPath, parse).value;
      WriteTextChanges(fs, cfg.outputYamlPath, YamlText(TrainerData(cfg), items));
    }
  }

  class ModelTrainer {
    const config: ModelTrainerConfig

    constructor (config: ModelTrainerConfig)
      ensures this.config == config
    {
      this.config := config;
    }

    /**
     * `train`: write the description, check the description and then the
     * script, and return the command it runs.  Exceptions propagate as they are.
     */
    method Train(disk: Disk, parse: string -> YamlDoc) returns (command: Option<string>, err: Option<Error>)
      modifies disk
      ensures Effect(disk.fs, err) == TrainSpec(old(disk.fs), config, parse)
      ensures err.None? <==> command.Some?
      ensures command.Some? ==> command.value == TrainCommand(config)
      ensures old(disk.Valid()) ==> disk.Valid()
    {
      var generator := new DatasetYamlGenerator(config.inputYamlPath, config.outputYamlPath, TrainerData(config));
      err := generator.Run(disk, parse);
      assert Effect(disk.fs, err) == GenerateStep(old(disk.fs), config, parse);
      if err.Some? {
        return None, err;
      }
      var dataYamlPath := config.outputYamlPath;
      if !Exists(disk.fs, dataYamlPath) {
        return None, Some(FileNotFound(dataYamlPath));
      }
      var trainScriptPath := TrainScript(config);
      if !Exists(disk.fs, trainScriptPath) {
        return None, Some(FileNotFound(trainScriptPath));
      }
      command := Some(TrainCommand(config));
      err := None;
    }
  }
}
