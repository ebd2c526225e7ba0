/**
 * The per-stage configuration records, read once from the configuration file
 * and never changed afterwards.  Paths are sequences of names; folder names
 * (`TRAIN_DIR`, `IMG_DIR`, ...) are single names; file extensions are text.
 */
module ConfigEntity {
  import opened FileSystem

  datatype DataValidationConfig = DataValidationConfig(
    dataRootDir: Path,
    dataDir: Path,
    statusFile: Path,
    trainDir: Name,
    valDir: Name,
    testDir: Name,
    imgDir: Name,
    labelDir: Name,
    labelsFileExt: string,
    dataFile: string)

  datatype DataTransformationConfig = DataTransformationConfig(
    dataRootDir: Path,
    dataDir: Path,
    trainDir: Name,
    valDir: Name,
    testDir: Name,
    imgDir: Name,
    labelDir: Name,
    imgFileExt: string,
    labelsFileExt: string)

  datatype ModelTrainerConfig = ModelTrainerConfig(
    dataDir: Path,
    dataRootDir: Path,
    trainDir: string,
    valDir: string,
    testDir: string,
    inputYamlPath: Path,
    outputYamlPath: Path,
    modelRootPath: Path,
    weightName: string,
    batchSize: nat,
    noEpochs: nat)

  datatype ModelEvaluationConfig = ModelEvaluationConfig(
    inputYamlPath: Path,
    modelRootPath: Path,
    dataRootDir: Path,
    weightsPath: string,
    batchSize: nat)
}
