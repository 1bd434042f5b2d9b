/** The constants of networksecurity/constant/training_pipeline/__init__.py. */
module Constants {

  /** The label column every stage after ingestion treats specially. */
  const TargetColumn: string := "Result"

  const PipelineName: string := "NetowrkSecurity"
  const ArtifactDirName: string := "Artifacts"
  const FeatureStoreFileName: string := "Phising_data.csv"
  const TrainFileName: string := "train.csv"
  const TestFileName: string := "test.csv"

  const DataIngestionCollectionName: string := "NetworkSecurity"
  const DataIngestionDatabaseName: string := "JanaAi"
  const DataIngestionDirName: string := "data_ingestion"
  const DataIngestionFeatureStoreDir: string := "feature_store"
  const DataIngestionIngestedDir: string := "ingested"

  /** The `test_size` handed to the split: a fifth of the rows are held out. */
  const DataIngestionTrainTestSplitRatio: real := 0.2
}
