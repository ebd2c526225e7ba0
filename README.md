# Hard-hat detection pipeline: a verified model of its control logic

The hard-hat detection project trains and runs a YOLOv5 detector. The
heavy work, which is YOLOv5's `train.py`, `val.py` and `detect.py`, the
dataset download and the AWS calls, runs in other processes and services.
Around those calls sits small sequential logic whose outcome is exact. This
project models that logic in Dafny and proves what it promises:

- **Data validation** (`DataValidation`). Checks the layout
  `data_dir/{test,train,valid}/{images,labels}`, checks that every image has
  a `<stem>.txt` label and that `data.yaml` exists, and writes `True` or
  `False` to the status file.
- **Data transformation** (`DataTransformation`). Builds
  `new_root/{images,labels}/{train,test,valid}`, copies the files with the
  configured extensions, and compares image stems with label stems. As
  written, the comparison covers the first split (train) only.
- **The transformation stage** (`TransformationStage`). Building the
  validation configuration first creates the artifacts root and the
  validation data root. The stage then opens only when the status file
  exists and its last single-space-separated token is exactly `True`. Every
  failure becomes a `CustomException`.
- **The dataset description** (`DatasetYaml`). Writes `key: value` lines,
  then a blank line, then `names:`, then one `    idx: name` line per class.
  Reading the name block back gives the class names.
- **The trainer and the evaluator** (`ModelTrainer`, `ModelEvaluation`).
  Check their required files in a fixed order and build the exact shell
  commands, double spaces included.
- **The prediction pipeline** (`Prediction`). Holds a mutable `source` and
  builds the argument vector for `detect.py`.
- **Small string rules:**
  - the upload filter of the web front end (`App`);
  - the timestamped default S3 object name (`S3Naming`);
  - the requirements reader of the packaging script (`Setup`);
  - the scaffold script and its `Path.suffix` test (`Template`), which
    makes `.gitignore` a directory.

The filesystem is a map from paths to entries (`FileSystem`). An entry is
either a directory or a file holding text. Each primitive the code calls is
a pure function that returns the new state and the exception raised:
`os.makedirs`, `open(...).write`, `Path.touch`, `shutil.copy`. The `Disk`
class applies these in place, and the components' methods change a `Disk`.
Checks that only read the filesystem take the state as a value. Python
exceptions are values of `Exceptions.Error`, and a `CustomException` is
`Custom(cause)`. The string primitives the code relies on live in `PyStr`,
with their Python semantics: `split`, `rsplit`, `rfind`, `strip`, `lower`,
`splitext`, `str(int)`, `str(bool)`.

When a loop's iteration order depends on `os.listdir`, the model does not
fix that order. The method returns the order it used, and its result is
stated as a function of that order. Lemmas then show which results do not
depend on the order.

## Model

| member | source | states |
|---|---|---|
| DataValidation.StructureOk | src/hard_hat_detection/components/data_validation.py:30-50 | `data_dir` exists and each of the three splits has its images and labels folders |
| DataValidation.FilesOk | src/hard_hat_detection/components/data_validation.py:52-74 | both folders of a split are directories, neither is empty, and every image's `<stem>.txt` is among the labels |
| DataValidation.DatasetValid | src/hard_hat_detection/components/data_validation.py:76-97 | the verdict of `validate_data`: the structure, then the files of every split, then `data_dir/data.yaml` |
| DataValidation.ValidateFolderStructure | src/hard_hat_detection/components/data_validation.py:30-50 | true exactly when `data_dir` exists and each of test, train, valid has its images and labels folders |
| DataValidation.ValidateFiles | src/hard_hat_detection/components/data_validation.py:52-74 | true exactly when both folders can be listed, neither is empty, and every image's `<stem>.txt` is among the labels; a listing error gives false |
| DataValidation.ValidateSplits | src/hard_hat_detection/components/data_validation.py:83-87 | true exactly when the files of every split pass; the splits examined are a prefix of test, train, valid ending at the first that fails |
| DataValidation.ValidateData | src/hard_hat_detection/components/data_validation.py:76-97 | the verdict is structure, then the files of every split in order, then `data.yaml`; it reports the splits examined, which stop at the first failing one |
| DataValidation.Validate | src/hard_hat_detection/components/data_validation.py:100-106 | returns the verdict and writes exactly `str(verdict)` to the status file, and nothing else |
| DataValidation.DataFileSettingIgnored | src/hard_hat_detection/components/data_validation.py:90 | the verdict does not depend on the `DATA_FILE` setting: the name `data.yaml` is fixed |
| DataValidation.SurplusLabelHarmless | src/hard_hat_detection/components/data_validation.py:65-69 | adding a label file that has no image never makes a split fail |
| DataValidation.MissingLabelFails | src/hard_hat_detection/components/data_validation.py:65-69 | an image without its label in any split makes the dataset invalid |
| DataTransformation.MakeAll | src/hard_hat_detection/components/data_transformation.py:22-27 | `os.makedirs(p, exist_ok=True)` on each path in turn; the first exception ends the run and is its outcome |
| DataTransformation.FolderPaths | src/hard_hat_detection/components/data_transformation.py:24-27 | for each kind in turn, `new_root/<kind>` and then `new_root/<kind>/<split>` for train, test, valid |
| DataTransformation.CopyEach | src/hard_hat_detection/components/data_transformation.py:36-38 | `shutil.copy(src/n, dest/n)` for each listed name in turn; the first exception ends the run |
| DataTransformation.CopyFilesSpec | src/hard_hat_detection/components/data_transformation.py:29-38 | for each split in turn, list `old_root/<split>/<src_folder>` and copy the names ending with the extension, in the listing order, into `new_root/<dest_folder>/<split>`; a listing or copy exception ends the run |
| DataTransformation.TransformDataSpec | src/hard_hat_detection/components/data_transformation.py:40-45 | the images of every split with IMG_FILE_EXT, then the labels of every split with LABELS_FILE_EXT |
| DataTransformation.TransformSpec | src/hard_hat_detection/components/data_transformation.py:71-80 | `transform_data`, then the pairing check of the first split; an exception or a failed check becomes a `CustomException` |
| DataTransformation.MakeAllStops | src/hard_hat_detection/components/data_transformation.py:22-27 | once a `makedirs` raises, no later folder is made |
| DataTransformation.MakeAllAdds | src/hard_hat_detection/components/data_transformation.py:22-27 | making the folders only adds directories and keeps a tree a tree; on success every folder is a directory |
| DataTransformation.MakeAllIdempotent | src/hard_hat_detection/components/data_transformation.py:22-27 | creating the folder structure a second time changes nothing |
| DataTransformation.FolderPathsCover | src/hard_hat_detection/components/data_transformation.py:24-27 | `new_root/k` and `new_root/k/s` are made for every kind `k` and split `s` |
| DataTransformation.FolderStructureBuilt | src/hard_hat_detection/components/data_transformation.py:22-27 | after a successful construction `new_root/k` and `new_root/k/s` are directories for every `k` in {IMG_DIR, LABEL_DIR} and `s` in {train, test, valid} |
| DataTransformation.CopyEachResult | src/hard_hat_detection/components/data_transformation.py:34-38 | when every copy can succeed, the copies leave the same state in every listing order |
| DataTransformation.CopiedStateContents | src/hard_hat_detection/components/data_transformation.py:34-38 | each matching file lands in the destination under its own name with its contents; every other path is unchanged |
| DataTransformation.CopiedStateIdempotent | src/hard_hat_detection/components/data_transformation.py:34-38 | copying the same files again leaves the same state |
| DataTransformation.CopiedStateKeepsSources | src/hard_hat_detection/components/data_transformation.py:34-38 | the source files and the destination folder are untouched by the copies |
| DataTransformation.CopyEachKeeps | src/hard_hat_detection/components/data_transformation.py:34-38 | copies delete nothing and change only paths under the destination folder |
| DataTransformation.SplitCopyResult | src/hard_hat_detection/components/data_transformation.py:31-38 | one split's listing and copies leave the copied state of exactly the files ending with the extension |
| DataTransformation.CopyFilesKeeps | src/hard_hat_detection/components/data_transformation.py:29-38 | `copy_files` never deletes anything and changes only paths under `new_root/<dest_folder>` |
| DataTransformation.CopyFilesRun | src/hard_hat_detection/components/data_transformation.py:29-38 | when every split's source is a directory outside the destination tree and its copies can succeed, `copy_files` succeeds, changes only file paths `new_root/<dest_folder>/<split>/<n>` of the splits it handled, and each copy holds its source's contents |
| DataTransformation.CopyEachNoop | src/hard_hat_detection/components/data_transformation.py:36-38 | copying names whose destination files already hold their sources' contents changes nothing and raises nothing |
| DataTransformation.CopyFilesNoop | src/hard_hat_detection/components/data_transformation.py:29-38 | `copy_files` over splits whose listed files are already in place changes nothing and raises nothing |
| DataTransformation.SplitInPlace | src/hard_hat_detection/components/data_transformation.py:29-38 | after a successful run, every matching file of a split it handled is in place at its destination |
| DataTransformation.CopyFilesIdempotent | src/hard_hat_detection/components/data_transformation.py:29-38 | a successful `copy_files` followed by a second one over no more splits, in any listing order, leaves the disk as the first run left it |
| DataTransformation.PairingCheck | src/hard_hat_detection/components/data_transformation.py:47-68 | answers when both first-split folders are directories; true exactly when image stems and label stems are equal sets (both differences empty) |
| DataTransformation.PairingIgnoresOtherSplits | src/hard_hat_detection/components/data_transformation.py:49-68 | entries in any split other than the first never change the verdict |
| DataTransformation.TransformOutcome | src/hard_hat_detection/components/data_transformation.py:71-80 | `transform` completes exactly when every copy succeeds and the first split pairs up; every failure is a `CustomException` |
| DataTransformation.MakeAllStopsPrefix | src/hard_hat_detection/components/data_transformation.py:22-27 | a failure part-way through folder creation is the outcome of the whole creation |
| DataTransformation.DataTransformation.Create | src/hard_hat_detection/components/data_transformation.py:11-20 | the object keeps its configuration, roots and folder lists, and construction makes the folders |
| DataTransformation.MakeSubfolders | src/hard_hat_detection/components/data_transformation.py:26-27 | the inner loop: `base/s` for each split in turn, stopping at the first error; all of them when none raised |
| DataTransformation.DataTransformation.CreateNewFolderStructure | src/hard_hat_detection/components/data_transformation.py:22-27 | makes `new_root/k` and then `new_root/k/s` per split, per kind, stopping at the first error |
| DataTransformation.DataTransformation.CopySplit | src/hard_hat_detection/components/data_transformation.py:32-38 | copies, in the order returned, distinct names ending with the extension; when it completes, that order lists all of them |
| DataTransformation.DataTransformation.CopyFiles | src/hard_hat_detection/components/data_transformation.py:29-38 | processes train, test, valid in turn; each split's order lists its matching files completely up to any failure |
| DataTransformation.DataTransformation.TransformData | src/hard_hat_detection/components/data_transformation.py:40-45 | copies images with IMG_FILE_EXT, then labels with LABELS_FILE_EXT, from `old_root/<split>/<kind>` into `new_root/<kind>/<split>` |
| DataTransformation.DataTransformation.ValidateData | src/hard_hat_detection/components/data_transformation.py:47-68 | the pairing check of the first split (train) on the current state |
| DataTransformation.DataTransformation.Transform | src/hard_hat_detection/components/data_transformation.py:71-80 | copying followed by the pairing check; a failed check or copy raises a `CustomException` |
| TransformationStage.StatusPasses | src/hard_hat_detection/pipeline/data_transformation.py:34-35 | the text after the last single space is exactly `True` |
| TransformationStage.CreateDirectoriesEffect | src/hard_hat_detection/utils/common.py:37-53 | `os.makedirs` on a path only when nothing exists there |
| TransformationStage.ConfigDirsEffect | src/hard_hat_detection/pipeline/data_transformation.py:21 | `ConfigurationManager()` creates the artifacts root, then the `get_..._config()` call creates the stage's data root, the first exception ending the run |
| TransformationStage.ConfigDirsAdd | src/hard_hat_detection/pipeline/data_transformation.py:21 | building a configuration only adds directories, each a prefix of the artifacts root or the data root; a tree stays a tree; on success both roots exist |
| TransformationStage.GateIgnoresNewDirs | src/hard_hat_detection/pipeline/data_transformation.py:21-38 | adding only directories never changes whether the gate opens |
| TransformationStage.CreateDirectories | src/hard_hat_detection/utils/common.py:37-53 | applies `create_directories([d])` to the disk |
| TransformationStage.ConfigDirs | src/hard_hat_detection/pipeline/data_transformation.py:21 | applies the configuration's directory creation to the disk |
| TransformationStage.StageSpec | src/hard_hat_detection/pipeline/data_transformation.py:16-55 | the validation configuration's folders, the gate, the transformation configuration's folders, construction, then `transform`; each failure wrapped in a `CustomException` |
| TransformationStage.StatusPassesExactly | src/hard_hat_detection/pipeline/data_transformation.py:34-35 | the gate accepts exactly the text `True` and texts ending in `" True"` |
| TransformationStage.StatusExamples | src/hard_hat_detection/pipeline/data_transformation.py:29-38 | `True` and `Validation Status: True` pass; `False`, `Validation Status: False`, empty, `True\n` and `True ` fail |
| TransformationStage.CheckGate | src/hard_hat_detection/pipeline/data_transformation.py:24-38 | proceeds exactly when the status file is a file whose last token is `True`; a missing file raises |
| TransformationStage.StatusRoundTrip | src/hard_hat_detection/pipeline/data_transformation.py:29-38 | after `str(b)` is written to the status file, the gate opens exactly when `b` holds |
| TransformationStage.ValidationOpensGate | src/hard_hat_detection/components/data_validation.py:100-106 | after the validation stage writes its verdict, the gate opens exactly when the dataset is valid |
| TransformationStage.StageOutcome | src/hard_hat_detection/pipeline/data_transformation.py:16-55 | before the gate only the artifacts root, the validation data root and their parents are added, as directories, which leaves the gate's verdict as it was; a shut gate or a failed configuration ends the stage with that state; the stage succeeds exactly when the configurations, the gate, the construction and `transform` do; every failure is a `CustomException` |
| TransformationStage.RunStage | src/hard_hat_detection/pipeline/data_transformation.py:16-55 | the validation configuration's folders, the gate, the transformation configuration's folders, construction, then `transform`, as the stage specification gives, each failure wrapped in a `CustomException` |
| DatasetYaml.YamlText | src/hard_hat_detection/utils/dataset_yaml_generator.py:18-28 | the whole file: a `key: value` line per non-`names` entry, a blank line, `names:`, and a `    idx: name` line per class |
| DatasetYaml.Kept | src/hard_hat_detection/utils/dataset_yaml_generator.py:21-23 | the entries written as data lines: those whose key is not `names`, in insertion order |
| DatasetYaml.KeptMembers | src/hard_hat_detection/utils/dataset_yaml_generator.py:21-23 | an entry is written as a data line exactly when it is in the data and its key is not `names` |
| DatasetYaml.KeptConcat | src/hard_hat_detection/utils/dataset_yaml_generator.py:21-23 | the data lines of two groups of entries are those of the first followed by those of the second |
| DatasetYaml.GenerateEffect | src/hard_hat_detection/utils/dataset_yaml_generator.py:18-28 | without a `names` entry it writes the data lines, the blank line and `names:`, then raises `KeyError`; otherwise it writes the whole file; a failed write is the outcome |
| DatasetYaml.NamesEntry | src/hard_hat_detection/utils/dataset_yaml_generator.py:12-16 | the `names` list of the parsed file numbered from 0, empty when the key is absent; an unreadable file, a parse error or a document that is not a mapping raises |
| DatasetYaml.TerminatedConcat | src/hard_hat_detection/utils/dataset_yaml_generator.py:18-27 | writing two groups of lines is writing one after the other |
| DatasetYaml.TerminatedJoin | src/hard_hat_detection/utils/dataset_yaml_generator.py:18-27 | writing each line with its newline is joining with newlines and ending with one |
| DatasetYaml.YamlTextTerminated | src/hard_hat_detection/utils/dataset_yaml_generator.py:18-27 | the file is the data lines, a blank line, `names:` and the name lines, each ended by a newline |
| DatasetYaml.YamlLines | src/hard_hat_detection/utils/dataset_yaml_generator.py:21-27 | split on newlines, the file gives the data lines, `""`, `names:`, the name lines and a final `""` |
| DatasetYaml.DataTextsShape | src/hard_hat_detection/utils/dataset_yaml_generator.py:21-23 | there is one data line per entry whose key is not `names`, in order, the i-th being that entry's `key + ": " + value`; each is a single line holding the `": "` separator |
| DatasetYaml.HeaderOnce | src/hard_hat_detection/utils/dataset_yaml_generator.py:25 | the `names:` line occurs exactly once, right after the data lines and the blank line |
| DatasetYaml.NameLineRead | src/hard_hat_detection/utils/dataset_yaml_generator.py:26-27 | a name line reads back as its index and name |
| DatasetYaml.EntriesRead | src/hard_hat_detection/utils/dataset_yaml_generator.py:26-27 | consecutive name lines numbered from `start` read back as the names, in order |
| DatasetYaml.NamesRoundTrip | src/hard_hat_detection/utils/dataset_yaml_generator.py:12-27 | reading the generated file's name block gives back the input names list |
| DatasetYaml.EmptyNamesEnding | src/hard_hat_detection/utils/dataset_yaml_generator.py:12-28 | with no class names the file ends with `"\nnames:\n"` |
| DatasetYaml.DatasetYamlGenerator.ReadNamesFromYaml | src/hard_hat_detection/utils/dataset_yaml_generator.py:12-16 | sets `names` to `i ↦ names[i]`, replacing any earlier value, with an empty map when the key is absent; an unreadable or malformed file raises and changes nothing |
| DatasetYaml.DatasetYamlGenerator.DataBlock | src/hard_hat_detection/utils/dataset_yaml_generator.py:21-23 | one `key: value` line per data entry, in insertion order |
| DatasetYaml.DatasetYamlGenerator.NamesBlock | src/hard_hat_detection/utils/dataset_yaml_generator.py:26-27 | one `    idx: name` line per class, in ascending index order |
| DatasetYaml.DatasetYamlGenerator.GenerateYaml | src/hard_hat_detection/utils/dataset_yaml_generator.py:18-28 | writes the data lines, the header and the name lines; without names it writes up to the header and raises `KeyError` |
| DatasetYaml.DatasetYamlGenerator.Run | src/hard_hat_detection/utils/dataset_yaml_generator.py:30-32 | reads the names before writing; when the read fails nothing is written |
| ModelTrainer.TrainCommand | src/hard_hat_detection/components/model_trainer.py:46-55 | `python <repo>/train.py` with the weights, data file, batch size, epochs and results name, with the source's double spaces before `--name` and before `--cache` |
| ModelTrainer.TrainSpec | src/hard_hat_detection/components/model_trainer.py:13-63 | generate the description, check that it exists, check `train.py`; the first exception, unwrapped, is the outcome |
| ModelTrainer.TrainerDataLines | src/hard_hat_detection/components/model_trainer.py:18-23 | the description starts with `path`, `train`, `val`, `test` lines, in that order, with the configured values |
| ModelTrainer.TrainCommandWords | src/hard_hat_detection/components/model_trainer.py:46-55 | split on single spaces, the command gives the script and each flag with its value, with an empty word at each of the two double spaces |
| ModelTrainer.TrainOutcome | src/hard_hat_detection/components/model_trainer.py:13-63 | after the description is written its check cannot fail; training fails exactly when generation fails or `train.py` is missing; no failure is wrapped; the description holds the data lines and the names |
| ModelTrainer.ModelTrainer.Train | src/hard_hat_detection/components/model_trainer.py:13-63 | generates the description, checks it and then `train.py`, and yields the exact command exactly when nothing raised |
| ModelEvaluation.EvalCommand | src/hard_hat_detection/components/model_evaluation.py:43-52 | `python <val.py>` with the weights, data file, batch size, `--exist-ok`, name `results` and the project path, with the source's double space before `--project` |
| ModelEvaluation.EvaluateSpec | src/hard_hat_detection/components/model_evaluation.py:64-86 | the description, the repository and `val.py` checked in that order, the first missing one raising a `CustomException`; otherwise the command |
| ModelEvaluation.EvalCommandWords | src/hard_hat_detection/components/model_evaluation.py:43-52 | split on single spaces, the command gives the script and each flag with its value, with an empty word at the double space |
| ModelEvaluation.EvaluateOutcome | src/hard_hat_detection/components/model_evaluation.py:64-86 | a command is built exactly when the description, the repository and `val.py` exist; otherwise the first missing one in that order causes the `CustomException` |
| ModelEvaluation.FromProjectRoot | src/hard_hat_detection/components/model_evaluation.py:17-41 | run from the project root, the repository check is a check on `model_root_path` |
| ModelEvaluation.ModelEvaluation.CheckYoloV5 | src/hard_hat_detection/components/model_evaluation.py:17-33 | true exactly when `<project_root>/<model_root_path>` exists |
| ModelEvaluation.ModelEvaluation.GetValScriptPath | src/hard_hat_detection/components/model_evaluation.py:35-41 | returns `<model_root_path>/val.py` (not under the project root) when it exists, else raises `FileNotFoundError` for it |
| ModelEvaluation.ModelEvaluation.Evaluate | src/hard_hat_detection/components/model_evaluation.py:64-86 | the command it would run, or the `CustomException` the evaluation specification gives |
| Prediction.DetectArgv | src/hard_hat_detection/pipeline/prediction.py:44-53 | `python <detect_file> --weights w --source s --data d --conf 0.4 --project o --name results --exist-ok`, word by word |
| Prediction.RunSpec | src/hard_hat_detection/pipeline/prediction.py:38-55 | a `ValueError` for empty weights, then for an empty script; otherwise the argument vector |
| Prediction.NewSource | src/hard_hat_detection/pipeline/prediction.py:57-59 | the source after `detect_image(path)` or `detect_video(path)`: a non-empty path replaces it |
| Prediction.DetectSpec | src/hard_hat_detection/pipeline/prediction.py:57-71 | the new source, a `ValueError` when it is empty, then the run |
| Prediction.SetupEffect | src/hard_hat_detection/pipeline/prediction.py:34-36 | `os.makedirs` on the output folder only when nothing exists there |
| Prediction.RunOutcome | src/hard_hat_detection/pipeline/prediction.py:38-54 | fails exactly when the weights or the script are empty, weights first; otherwise the exact 15-word vector with each flag followed by its setting |
| Prediction.NewSourceFacts | src/hard_hat_detection/pipeline/prediction.py:57-59 | a non-empty path replaces the source; otherwise it is kept; giving the same path twice changes nothing more |
| Prediction.DetectOutcome | src/hard_hat_detection/pipeline/prediction.py:57-71 | an empty source raises before anything else; success needs a source, the weights and the script; a given path is the vector's source |
| Prediction.SetupFacts | src/hard_hat_detection/pipeline/prediction.py:34-36 | setting up the output folder removes nothing; on success the folder exists and a second set-up changes nothing |
| Prediction.PredictionPipeline.Create | src/hard_hat_detection/pipeline/prediction.py:7-23 | stores the five settings, then sets up the output folder |
| Prediction.PredictionPipeline.SetupOutputFolder | src/hard_hat_detection/pipeline/prediction.py:34-36 | `makedirs` only when nothing exists at the folder's path |
| Prediction.PredictionPipeline.RunDetection | src/hard_hat_detection/pipeline/prediction.py:38-55 | the argument vector of the run specification, or its `ValueError` |
| Prediction.PredictionPipeline.DetectImage | src/hard_hat_detection/pipeline/prediction.py:57-63 | updates the source as described by the new-source rule, then raises on an empty source or runs |
| Prediction.PredictionPipeline.DetectVideo | src/hard_hat_detection/pipeline/prediction.py:65-71 | as `DetectImage`, with the video message |
| Prediction.PredictionPipeline.DetectWebcam | src/hard_hat_detection/pipeline/prediction.py:74-76 | the source becomes `"0"`, then the run |
| S3Naming.Timestamp | src/hard_hat_detection/utils/s3_operations.py:40 | `strftime("%Y%m%d%H%M%S")`: the four-digit year, then month, day, hour, minute and second in two digits each |
| S3Naming.StampedName | src/hard_hat_detection/utils/s3_operations.py:41 | the name cut once at its last dot with `_<stamp>` put before that dot; a name without a dot raises `IndexError` |
| S3Naming.UploadObjectName | src/hard_hat_detection/utils/s3_operations.py:38-41 | the supplied object name, or the stamped file name |
| S3Naming.DownloadFileName | src/hard_hat_detection/utils/s3_operations.py:61-63 | the supplied local name, or the object name |
| S3Naming.TimestampShape | src/hard_hat_detection/utils/s3_operations.py:40 | the `%Y%m%d%H%M%S` timestamp is fourteen digits |
| S3Naming.StampedNameRoundTrip | src/hard_hat_detection/utils/s3_operations.py:41 | `base.ext` with a dot-free `ext` becomes `base_<stamp>.ext`, whose last extension is still `ext` |
| S3Naming.StampedPieces | src/hard_hat_detection/utils/s3_operations.py:41 | the stamped name is the base, `_`, the stamp, `.` and the extension, by position |
| S3Naming.NoDotNoName | src/hard_hat_detection/utils/s3_operations.py:41 | a name without a dot raises `IndexError` |
| S3Naming.SplitAtLastDot | src/hard_hat_detection/utils/s3_operations.py:41 | a name with a dot is its prefix, the last dot and a dot-free extension |
| S3Naming.DefaultNameRoundTrip | src/hard_hat_detection/utils/s3_operations.py:38-41 | the default object name keeps the base and the extension and puts `_` and the 14-digit timestamp between them |
| S3Naming.SuppliedObjectNameWins | src/hard_hat_detection/utils/s3_operations.py:38-41 | a supplied object name is used unchanged; otherwise the timestamped default applies |
| S3Naming.SuppliedFileNameWins | src/hard_hat_detection/utils/s3_operations.py:61-63 | a supplied local file name is used unchanged; otherwise the object name is used |
| S3Naming.TimestampExample | src/hard_hat_detection/utils/s3_operations.py:40 | 2024-01-05 09:03:07 gives `20240105090307` |
| S3Naming.StampedExample | src/hard_hat_detection/utils/s3_operations.py:41 | `best.pt` with that stamp becomes `best_20240105090307.pt` |
| S3Naming.DefaultNameExample | src/hard_hat_detection/utils/s3_operations.py:38-41 | `best.pt` uploaded at 2024-01-05 09:03:07 is stored as `best_20240105090307.pt` |
| App.AllowedImages | app.py:14-18 | false without a dot; otherwise whether the lower-cased text after the last dot is png, jpg, jpeg or gif |
| App.AllowedExactly | app.py:14-18 | accepted exactly when there is a dot and the lower-cased text after the last dot is png, jpg, jpeg or gif |
| App.AllowedByLastExtension | app.py:14-18 | `base.ext` is accepted exactly when `ext` is an image extension, whatever `base` holds |
| App.CaseInsensitive | app.py:18 | a name and its lower-cased form are accepted alike |
| App.RFindLower | app.py:18 | lower-casing keeps the last dot where it is |
| App.AcceptedExamples | app.py:14-18 | `A.PNG`, `b.JpEg` and `x.exe.jpg` are accepted |
| App.RejectedDoubleExtension | app.py:18 | `x.png.exe` is rejected: only the last extension counts |
| App.RejectedTrailingDot | app.py:18 | `a.` is rejected: its extension is empty |
| App.RejectedNoDot | app.py:15-16 | `png` is rejected: it has no dot |
| Setup.Filtered | setup.py:21-25 | each line stripped, kept when it is non-empty and does not start with `#`, in order |
| Setup.RemoveFirst | setup.py:31-33 | `list.remove(x)` behind `x in list`: the first occurrence goes, or the list stays as it is |
| Setup.RequirementsSpec | setup.py:10-35 | the kept lines of the file without the first `-e .`, or `[]` when the file cannot be read |
| Setup.UniversalNewlines | setup.py:20-21 | text-mode reading leaves no `\r` and never lengthens the text |
| Setup.FirstIndex | setup.py:32-33 | the position of the first occurrence, with none before it |
| Setup.RemoveFirstAt | setup.py:32-33 | `remove` cuts the list at the first occurrence, and an absent value leaves it as it is |
| Setup.ReadRequirements | setup.py:10-35 | the list is the stripped kept lines in order, minus the first `-e .`; a file that cannot be read gives `[]` |
| Setup.FilteredConcat | setup.py:21-25 | the filter works line by line, so kept lines stay in input order |
| Setup.FilteredEntries | setup.py:21-25 | every entry is a stripped, non-empty, non-comment input line, and there are no more entries than lines |
| Setup.RemoveFirstFacts | setup.py:31-33 | exactly the first `-e .` goes, as a multiset difference, and later duplicates stay |
| Setup.RequirementsFacts | setup.py:10-35 | a missing file gives `[]`; entries are stripped, non-empty and not comments; the result is the kept lines minus one `-e .` |
| Template.PathOf | template.py:91 | `Path(s)`: the parts between `/`, dropping empty and `.` parts |
| Template.Suffix | template.py:103 | `Path.suffix`: from the last dot of the name, empty when that dot starts or ends it |
| Template.Entries | template.py:27-88 | `list_of_files` with the project name filled in, in list order |
| Template.CreateDirectoryEffect | template.py:9-14 | `os.makedirs` on the path only when nothing exists there |
| Template.CreateFileEffect | template.py:17-22 | `touch` when the path is missing or an empty file; anything else is left alone |
| Template.StepEffect | template.py:91-106 | one iteration: the five fixed names become files; another entry gets its parent directory, then a file if it has a suffix and a directory otherwise |
| Template.StructureEffect | template.py:90-110 | the iterations in list order, each from the state the previous left, stopping at the first exception |
| Template.StructureConcat | template.py:90-106 | the entries are handled in list order, each from the state the previous ones left |
| Template.StructureStopsAtError | template.py:90-110 | after an exception no further entry is touched |
| Template.CreateDirectoryFacts | template.py:9-14 | an existing path is left alone; otherwise only directories are added, and on success the path exists |
| Template.CreateFileFacts | template.py:17-22 | an existing entry keeps its contents; a missing one becomes an empty file when its directory exists |
| Template.SuffixNoDot | template.py:103 | a name without a dot has no suffix |
| Template.SuffixOfSplit | template.py:103 | `base.ext` has suffix `.ext` exactly when neither `base` nor `ext` is empty |
| Template.GitignoreNoSuffix | template.py:103 | `.gitignore` has no suffix |
| Template.ReadmeSuffix | template.py:103 | `README.md` has the suffix `.md` |
| Template.ParentStepKeepsEntryMissing | template.py:99-100 | creating the parent adds only prefixes of it, never the entry |
| Template.StepFacts | template.py:90-106 | the five fixed names become files without a directory step; other entries get their parent first, then become a file when they have a suffix and a directory otherwise; nothing existing changes |
| Template.GitignorePath | template.py:91 | the entry `.gitignore` is the one-part path `.gitignore` |
| Template.GitignoreIsDirectory | template.py:99-106 | on a disk without it, the scaffold makes `.gitignore` a directory |
| Template.PartsConcat | template.py:91 | `Path` of a joined text is the parts of each piece, in order |
| Template.PackagePath | template.py:27-88 | `src/<project>/<file>` is `src`, the project name's parts, then the file's |
| Template.EntriesFacts | template.py:27-88 | the list has 46 entries: `.gitignore` second, the log file named after the project, the 26 package files under `src/<project>/` |
| Template.SettledStepNoop | template.py:90-106 | handling an entry that is already in place changes nothing |
| Template.StructureSettles | template.py:90-110 | a successful run only adds entries and leaves every listed entry in place |
| Template.SettledRunNoop | template.py:90-110 | where every entry is in place, a run changes nothing |
| Template.SecondRunNoop | template.py:25-110 | after a successful run, a second run succeeds and leaves the disk unchanged |
| Template.CreateDirectory | template.py:9-14 | `makedirs` only when nothing exists at the path |
| Template.CreateFile | template.py:17-22 | `touch` when the path is missing or an empty file |
| Template.CreateEntry | template.py:91-106 | one loop iteration, as the step specification gives |
| Template.CreateEntries | template.py:90-110 | the loop over the entries, stopping at the first exception; true exactly when none was raised |
| Template.CreateProjectStructure | template.py:25-110 | the loop over the 46 entries; returns `False` at the first exception, `True` otherwise |
| FileSystem.ListDir | src/hard_hat_detection/components/data_validation.py:55-56 | succeeds exactly on a directory, with its child names |
| FileSystem.ReadText | src/hard_hat_detection/pipeline/data_transformation.py:29-34 | succeeds exactly on a file, with its contents |
| FileSystem.MakeDirsAdds | src/hard_hat_detection/components/data_transformation.py:25 | `makedirs` adds only directories on the way to the path, keeps a tree a tree, and on success the path is a directory |
| FileSystem.MakeDirsExisting | src/hard_hat_detection/components/data_transformation.py:25 | `makedirs(exist_ok=True)` of an existing directory changes nothing |
| FileSystem.WriteTextChanges | src/hard_hat_detection/utils/common.py:67-76 | a write changes that one file only, and succeeds exactly when its directory exists and the path is not a directory |
| FileSystem.TouchChanges | template.py:19 | `touch` adds at most one empty file; it fails only when the parent is not a directory |
| FileSystem.CopyChanges | src/hard_hat_detection/components/data_transformation.py:38 | a copy writes one file, never over a directory, and keeps a tree a tree |
| FileSystem.Disk.MakeDirs | src/hard_hat_detection/components/data_transformation.py:25 | applies `makedirs` to the disk |
| FileSystem.Disk.WriteText | src/hard_hat_detection/utils/common.py:75-76 | applies the write to the disk |
| FileSystem.Disk.Touch | template.py:19 | applies `touch` to the disk |
| FileSystem.Disk.Copy | src/hard_hat_detection/components/data_transformation.py:38 | applies `shutil.copy` to the disk |
| PyStr.Split | src/hard_hat_detection/pipeline/data_transformation.py:34 | `s.split(sep)`: the pieces between separators, one more than the separators, `[""]` for `""` |
| PyStr.RFind | src/hard_hat_detection/utils/s3_operations.py:41 | `s.rfind(c)`: the index of the last `c`, or -1 when there is none |
| PyStr.SplitExt | src/hard_hat_detection/components/data_validation.py:66 | `os.path.splitext`: the extension from the last dot of the final component, unless only dots precede it there |
| PyStr.Strip | setup.py:23 | `s.strip()`: leading and trailing whitespace removed and nothing else |
| PyStr.Lower | app.py:18 | `s.lower()` letter by letter |
| PyStr.JoinSplit | src/hard_hat_detection/pipeline/data_transformation.py:34 | `split` loses nothing: joining the pieces gives the text back, and no piece holds the separator |
| PyStr.SplitJoin | src/hard_hat_detection/utils/dataset_yaml_generator.py:21-27 | separator-free pieces joined and split again come back unchanged |
| PyStr.LastTokenAfterLastSep | src/hard_hat_detection/pipeline/data_transformation.py:34 | `split(" ")[-1]` is the text after the last space |
| PyStr.RSplitOnce | src/hard_hat_detection/utils/s3_operations.py:41 | `rsplit('.', 1)` gives two pieces exactly when there is a dot, and they join back to the name |
| PyStr.SplitExtOfStemAndExt | src/hard_hat_detection/components/data_validation.py:66 | `splitext` cuts `stem.ext` at the extension's dot |
| PyStr.StripIdempotent | setup.py:23 | stripping twice is stripping once |
| PyStr.ParseNatToString | src/hard_hat_detection/components/model_trainer.py:49-50 | `str(n)` reads back as `n` |
| PyStr.ZeroPadShape | src/hard_hat_detection/utils/s3_operations.py:40 | a field below 10^w pads to exactly w digits |

## Left out

- Running YOLOv5, the shell and their exit status. The trainer, the evaluator and the prediction pipeline return the command or argument vector they would run. `subprocess.run` is not modelled, so a non-zero exit status is never seen, as in the trainer and the evaluator. The `CalledProcessError` that `check=True` raises in `run_detection` is not modelled.
- Logging is not modelled: it changes no state the pipeline reads.
- Loading the configuration file is not modelled. The per-stage settings and the artifacts root are given as parameters, and a `read_yaml` failure inside `ConfigurationManager()` is not modelled. The directories the configuration creates are modelled for the transformation stage only.
- `Path(__file__)` defaults are not modelled. The evaluator's project root and the prediction pipeline's default settings are parameters.
- The S3 client calls are not modelled: `bucket_exists`, `create_bucket`, `upload_file` and `download_file` on boto3, with their credential errors. Only the naming rules are modelled.
- `datetime.now()` is a parameter.
- S3Naming.Timestamp: only four-digit years (1000 to 9999) are modelled; `strftime` pads other years differently.
- The Flask routes of the web front end are not modelled. They handle requests, files and templates; only the extension filter is modelled.
- `App.AllowedImages`: `str.lower()` is modelled for ASCII letters only, not full Unicode case mapping.
- YAML parsing is not modelled. `yaml.safe_load` is a function parameter returning the document's `names` list, "not a mapping", or a parse error.
- `DatasetYaml.NamesFromYaml` is a reader for the generated name block only, not a YAML parser. The round trip is proved against it for names without newlines.
- The order of `os.listdir` is not fixed. Copying and label checks quantify over sets or return the order used. Which failure is logged first in a split is not modelled.
- Absolute paths and `os.path.join` with an absolute second part are not modelled. Paths are sequences of names relative to the working directory, and `Render` joins them with `/`.
- Permission bits, links, `st_size` of directories and other metadata are not modelled. `shutil.copy` copies contents only. A directory's size is taken to be non-zero, so `create_file` leaves a directory alone.
- DataTransformation.CopyEachResult: the order-independence lemmas require that a split's source folder differs from its destination folder and that every copy can succeed. Other cases are stated only through the fold over the order `os.listdir` gave.
- Object construction that raises is a static `Create` method returning the object and the error: `DataTransformation.__init__` and `PredictionPipeline.__init__`. Dafny constructors cannot fail part-way.
- The getters `get_weights`, `get_source` and `get_detect_file` are not modelled as members. They return fields unchanged, and the model reads the fields directly.
- The `__main__` blocks of the prediction module and of `template.py` are not modelled. `read_readme` and the `setup()` call of the packaging script are not modelled either: they are I/O with no logic.
- Setup.ReadRequirements: a decoding error part-way through the file gives `[]` in the model, not the lines read before the error.
- Template.Suffix follows `Path.suffix` as in Python 3.12 and earlier. A dot that starts or ends the name gives no suffix.
- `evaluate` checks `val.py` a second time. `ModelEvaluation.ModelEvaluation.Evaluate` keeps that check. Its contract, against `EvaluateSpec` with a single check of `val.py`, shows the second check never changes the outcome.
- The other stages of the repository are not part of this model: data ingestion, model pushing, their pipelines, the cloud deployment scripts and the clean-up utilities.
