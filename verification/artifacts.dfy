/** The records of networksecurity/entity/artifact_entity.py: what each stage
    hands to the next. */
module Artifacts {
  import opened Errors

  datatype DataIngestionArtifact = DataIngestionArtifact(trainedFilePath: string, testFilePath: string)

  /** The dataclass declares plain `str` paths, but the validation stage stores
      `None` in the pair it did not write, so they are optional here. */
  datatype DataValidationArtifact = DataValidationArtifact(
    validationStatus: bool,
    validTrainFilePath: Option<string>,
    validTestFilePath: Option<string>,
    invalidTrainFilePath: Option<string>,
    invalidTestFilePath: Option<string>,
    driftReportFilePath: string)

  datatype DataTransformationArtifact = DataTransformationArtifact(
    transformedObjectFilePath: string,
    transformedTrainFilePath: string,
    transformedTestFilePath: string)

  /** Declared with `str` fields; the scorer fills them with floats. */
  datatype ClassificationMetricArtifact = ClassificationMetricArtifact(
    f1Score: real, precisionScore: real, recall: real, accuracy: real, aucRoc: real)

  datatype ModelTrainingArtifact = ModelTrainingArtifact(
    trainedModelPath: string,
    trainMetricArtifact: ClassificationMetricArtifact,
    testMetricArtifact: ClassificationMetricArtifact)
}
