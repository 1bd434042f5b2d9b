/** The batch training pipeline (networksecurity/pipeline/training_pipeline.py):
    one run root shared by the four stages, which run in order, each stage's
    artifact feeding the next; the first failure ends the run. */
module TrainingPipeline {
  import opened Errors
  import opened Frames
  import opened Store
  import opened Config
  import opened Artifacts
  import DataIngestion
  import DataValidation
  import DataTransformation
  import ModelTrainer
  import Constants

  datatype Stage = Ingestion | Validation | Transformation | Training

  /** The order `run_pipeline` calls the stages in. */
  const StageOrder: seq<Stage> := [Ingestion, Validation, Transformation, Training]

  /** Everything the run depends on that is outside this model: the database,
      the library routines, and the constructors of the three stage
      configurations. */
  datatype Oracles = Oracles(
    source: DataIngestion.MongoSource,
    split: DataIngestion.Splitter,
    ks: DataValidation.KsTest,
    transform: DataTransformation.Transform,
    trainer: ModelTrainer.TrainerOracles,
    validationConfig: TrainingPipeConfig -> DataValidationConfig,
    transformationConfig: TrainingPipeConfig -> DataTransformationConfig,
    trainingConfig: TrainingPipeConfig -> ModelTrainingConfig)

  /** What a run did: its root configuration, the stages it entered, the
      artifact of each stage that finished, what `run_pipeline` returns or
      raises, and the store left behind by the finished stages. */
  datatype Run = Run(
    root: TrainingPipeConfig,
    started: seq<Stage>,
    ingested: Option<DataIngestionArtifact>,
    validated: Option<DataValidationArtifact>,
    transformed: Option<DataTransformationArtifact>,
    trained: Option<ModelTrainingArtifact>,
    outcome: Result<ModelTrainingConfig>,
    store: Store)

  /** The shape every run has: the stages entered are a prefix of the stage
      order, each finished stage left its artifact, and the value returned is
      the trainer's configuration, not its artifact. */
  ghost predicate WellFormed(run: Run, o: Oracles) {
    && 1 <= |run.started| <= |StageOrder| && run.started == StageOrder[..|run.started|]
    && (run.ingested.Some? <==> |run.started| >= 2)
    && (run.validated.Some? <==> |run.started| >= 3)
    && (run.transformed.Some? <==> |run.started| >= 4)
    && (run.outcome.Ok? <==> run.trained.Some?)
    && (run.outcome.Ok? ==> run.started == StageOrder && run.outcome.value == o.trainingConfig(run.root))
    && (run.outcome.Err? ==> run.outcome.error.Wrapped? && run.outcome.error.cause.Wrapped?)
  }

  /** Drift decides the run: a drifted validation ends it at the
      transformation, and a run that returns found no drift. */
  ghost predicate StopsOnDrift(run: Run) {
    && (run.validated.Some? && !run.validated.value.validationStatus ==>
          run.started == [Ingestion, Validation, Transformation] && run.outcome.Err?)
    && (run.outcome.Ok? ==> run.validated.Some? && run.validated.value.validationStatus)
  }

  /** `run` after the trainer, run on the transformation output `t`,
      returned or raised `m`; an error reaches the caller wrapped twice more,
      by the stage call and by `run_pipeline`. */
  ghost predicate TrainedAs(run: Run, o: Oracles, i: DataIngestionArtifact, v: DataValidationArtifact,
                            t: DataTransformation.TransformationOutput, m: Result<ModelTrainer.TrainingOutput>) {
    && (m.Err? ==>
          run == Run(run.root, StageOrder, Some(i), Some(v), Some(t.artifact), None, Err(Wrapped(Wrapped(m.error))), t.store))
    && (m.Ok? ==>
          run == Run(run.root, StageOrder, Some(i), Some(v), Some(t.artifact), Some(m.value.artifact),
                     Ok(o.trainingConfig(run.root)), m.value.store))
  }

  /** `run` after the transformation returned or raised `t`; on success the
      trainer runs on its artifact and store with the root's configuration. */
  ghost predicate TransformedAs(run: Run, o: Oracles, i: DataIngestionArtifact, v: DataValidation.ValidationOutput,
                                t: Result<DataTransformation.TransformationOutput>) {
    && (t.Err? ==>
          run == Run(run.root, StageOrder[..3], Some(i), Some(v.artifact), None, None, Err(Wrapped(Wrapped(t.error))), v.store))
    && (t.Ok? ==>
          TrainedAs(run, o, i, v.artifact, t.value,
                    ModelTrainer.InitiateModelTraining(o.trainingConfig(run.root), t.value.artifact, o.trainer, t.value.store)))
  }

  /** `run` after validation returned or raised `v`; on success the
      transformation runs on its artifact and store with the root's
      configuration. */
  ghost predicate ValidatedAs(run: Run, schema: DataValidation.Schema, o: Oracles, i: DataIngestion.IngestionOutput,
                              v: Result<DataValidation.ValidationOutput>) {
    && (v.Err? ==>
          run == Run(run.root, StageOrder[..2], Some(i.artifact), None, None, None, Err(Wrapped(Wrapped(v.error))), i.store))
    && (v.Ok? ==>
          TransformedAs(run, o, i.artifact, v.value,
            DataTransformation.InitiateDataTransformation(v.value.artifact, o.transformationConfig(run.root), o.transform, v.value.store)))
  }

  /** `run` after ingestion from `store` returned or raised `g`; on success
      validation runs on its artifact and store with the root's
      configuration. */
  ghost predicate IngestedAs(run: Run, schema: DataValidation.Schema, o: Oracles, store: Store,
                             g: Result<DataIngestion.IngestionOutput>) {
    && (g.Err? ==> run == Run(run.root, [Ingestion], None, None, None, None, Err(Wrapped(Wrapped(g.error))), store))
    && (g.Ok? ==>
          ValidatedAs(run, schema, o, g.value,
            DataValidation.InitiateDataValidation(g.value.artifact, o.validationConfig(run.root), schema, o.ks, g.value.store)))
  }

  /** The whole of `run` from the store it started on: each stage received
      the previous stage's artifact, the store as the previous stage left it,
      and its configuration built from the run's root. */
  ghost predicate IngestedBy(run: Run, schema: DataValidation.Schema, o: Oracles, store: Store) {
    IngestedAs(run, schema, o, store,
               DataIngestion.InitiateDataIngestion(NewDataIngestionConfig(run.root), o.source, o.split, store))
  }

  /** `strat_model_traininig` has returned or raised `training`; it decides
      the run. */
  function AfterTraining(root: TrainingPipeConfig, o: Oracles, i: DataIngestionArtifact, v: DataValidationArtifact,
                         t: DataTransformation.TransformationOutput,
                         training: Result<ModelTrainer.TrainingOutput>): (run: Run)
    ensures WellFormed(run, o) && run.root == root && run.ingested == Some(i) && run.validated == Some(v)
    ensures run.started == StageOrder && run.transformed == Some(t.artifact)
    ensures TrainedAs(run, o, i, v, t, training)
  {
    match Wrap(training)
    case Err(e) =>
      Run(root, StageOrder, Some(i), Some(v), Some(t.artifact), None, Err(Wrapped(e)), t.store)
    case Ok(m) =>
      Run(root, StageOrder, Some(i), Some(v), Some(t.artifact), Some(m.artifact), Ok(o.trainingConfig(root)), m.store)
  }

  /** `start_data_transformation` has returned or raised `transformation`. */
  function AfterTransformation(root: TrainingPipeConfig, o: Oracles, i: DataIngestionArtifact,
                               v: DataValidation.ValidationOutput,
                               transformation: Result<DataTransformation.TransformationOutput>): (run: Run)
    ensures WellFormed(run, o) && run.root == root && run.ingested == Some(i) && run.validated == Some(v.artifact)
    ensures |run.started| >= 3
    ensures transformation.Err? ==> run.started == StageOrder[..3] && run.outcome.Err?
    ensures TransformedAs(run, o, i, v, transformation)
  {
    match Wrap(transformation)
    case Err(e) =>
      Run(root, StageOrder[..3], Some(i), Some(v.artifact), None, None, Err(Wrapped(e)), v.store)
    case Ok(t) =>
      AfterTraining(root, o, i, v.artifact, t,
                    ModelTrainer.InitiateModelTraining(o.trainingConfig(root), t.artifact, o.trainer, t.store))
  }

  /** `start_data_validation` has returned or raised `validation`. */
  function AfterValidation(root: TrainingPipeConfig, schema: DataValidation.Schema, o: Oracles,
                           i: DataIngestion.IngestionOutput,
                           validation: Result<DataValidation.ValidationOutput>): (run: Run)
    ensures WellFormed(run, o) && run.root == root && run.ingested == Some(i.artifact)
    ensures |run.started| >= 2
    ensures validation.Err? ==> run.started == StageOrder[..2] && run.outcome.Err?
    ensures validation.Ok? ==> run.validated == Some(validation.value.artifact)
    ensures run.validated.Some? && run.validated.value.validTrainFilePath.None? ==>
      run.started == [Ingestion, Validation, Transformation] && run.outcome.Err?
    ensures run.outcome.Ok? ==> run.validated.Some? && run.validated.value.validTrainFilePath.Some?
    ensures ValidatedAs(run, schema, o, i, validation)
  {
    match Wrap(validation)
    case Err(e) =>
      Run(root, StageOrder[..2], Some(i.artifact), None, None, None, Err(Wrapped(e)), i.store)
    case Ok(v) =>
      AfterTransformation(root, o, i.artifact, v,
        DataTransformation.InitiateDataTransformation(v.artifact, o.transformationConfig(root), o.transform, v.store))
  }

  /** `start_data_ingestion` has returned or raised `ingestion`. */
  function AfterIngestion(root: TrainingPipeConfig, schema: DataValidation.Schema, o: Oracles, store: Store,
                          ingestion: Result<DataIngestion.IngestionOutput>): (run: Run)
    ensures run.root == root
    ensures WellFormed(run, o)
    ensures ingestion.Err? ==> run.started == [Ingestion] && run.outcome.Err?
    ensures ingestion.Ok? ==> run.ingested == Some(ingestion.value.artifact)
    ensures StopsOnDrift(run)
    ensures IngestedAs(run, schema, o, store, ingestion)
  {
    match Wrap(ingestion)
    case Err(e) => Run(root, [Ingestion], None, None, None, None, Err(Wrapped(e)), store)
    case Ok(i) =>
      AfterValidation(root, schema, o, i,
        DataValidation.InitiateDataValidation(i.artifact, o.validationConfig(root), schema, o.ks, i.store))
  }

  /** `run_pipeline` on a pipeline whose configuration is `root`: ingestion
      first, then the stages that follow it. */
  function RunFrom(root: TrainingPipeConfig, schema: DataValidation.Schema, o: Oracles, store: Store): (run: Run)
    ensures run.root == root
    ensures WellFormed(run, o)
    ensures StopsOnDrift(run)
    ensures IngestedBy(run, schema, o, store)
  {
    AfterIngestion(root, schema, o, store,
      DataIngestion.InitiateDataIngestion(NewDataIngestionConfig(root), o.source, o.split, store))
  }

  /** After the trainer's result, nothing about the run is left open. */
  lemma TrainedAsUnique(r1: Run, r2: Run, o: Oracles, i: DataIngestionArtifact, v: DataValidationArtifact,
                        t: DataTransformation.TransformationOutput, m: Result<ModelTrainer.TrainingOutput>)
    requires r1.root == r2.root && TrainedAs(r1, o, i, v, t, m) && TrainedAs(r2, o, i, v, t, m)
    ensures r1 == r2
  {
  }

  lemma TransformedAsUnique(r1: Run, r2: Run, o: Oracles, i: DataIngestionArtifact, v: DataValidation.ValidationOutput,
                            t: Result<DataTransformation.TransformationOutput>)
    requires r1.root == r2.root && TransformedAs(r1, o, i, v, t) && TransformedAs(r2, o, i, v, t)
    ensures r1 == r2
  {
    if t.Ok? {
      TrainedAsUnique(r1, r2, o, i, v.artifact, t.value,
        ModelTrainer.InitiateModelTraining(o.trainingConfig(r1.root), t.value.artifact, o.trainer, t.value.store));
    }
  }

  lemma ValidatedAsUnique(r1: Run, r2: Run, schema: DataValidation.Schema, o: Oracles, i: DataIngestion.IngestionOutput,
                          v: Result<DataValidation.ValidationOutput>)
    requires r1.root == r2.root && ValidatedAs(r1, schema, o, i, v) && ValidatedAs(r2, schema, o, i, v)
    ensures r1 == r2
  {
    if v.Ok? {
      TransformedAsUnique(r1, r2, o, i.artifact, v.value,
        DataTransformation.InitiateDataTransformation(v.value.artifact, o.transformationConfig(r1.root), o.transform, v.value.store));
    }
  }

  /** The chain of stages leaves nothing open: a run follows it from `store`
      exactly when it is the run `run_pipeline` makes from its root. */
  lemma ChainDeterminesRun(run: Run, schema: DataValidation.Schema, o: Oracles, store: Store)
    ensures IngestedBy(run, schema, o, store) <==> run == RunFrom(run.root, schema, o, store)
  {
    var other := RunFrom(run.root, schema, o, store);
    var g := DataIngestion.InitiateDataIngestion(NewDataIngestionConfig(run.root), o.source, o.split, store);
    if IngestedBy(run, schema, o, store) && g.Ok? {
      ValidatedAsUnique(run, other, schema, o, g.value,
        DataValidation.InitiateDataValidation(g.value.artifact, o.validationConfig(run.root), schema, o.ks, g.value.store));
    }
  }

  /** `TrainingPipeline().run_pipeline()`: the configuration is built at the
      default timestamp, the moment the configuration module was loaded. */
  function RunPipeline(definedAt: DateTime, schema: DataValidation.Schema, o: Oracles, store: Store): (run: Run)
    ensures run.root == NewTrainingPipeConfig(definedAt, None)
    ensures TimestampShape(run.root.timestamp) && ParseTimestamp(run.root.timestamp) == definedAt
    ensures WellFormed(run, o) && StopsOnDrift(run)
    ensures IngestedBy(run, schema, o, store)
  {
    RunFrom(NewTrainingPipeConfig(definedAt, None), schema, o, store)
  }

  /** The files ingestion hands on lie under the run's own directory
      `Artifacts/<timestamp>/`, and train and test are different files. */
  lemma IngestedFilesUnderRunRoot(definedAt: DateTime, schema: DataValidation.Schema, o: Oracles, store: Store)
    ensures var run := RunPipeline(definedAt, schema, o, store);
      var runDir := Constants.ArtifactDirName + "/" + run.root.timestamp + "/";
      run.ingested.Some? ==>
        && IsPrefix(runDir, run.ingested.value.trainedFilePath)
        && IsPrefix(runDir, run.ingested.value.testFilePath)
        && run.ingested.value.trainedFilePath != run.ingested.value.testFilePath
  {
    var root := NewTrainingPipeConfig(definedAt, None);
    var config := NewDataIngestionConfig(root);
    var ingestion := DataIngestion.InitiateDataIngestion(config, o.source, o.split, store);
    IngestionPathsUnderRunRoot(definedAt, None);
    if ingestion.Ok? {
      assert ingestion.value.artifact == DataIngestionArtifact(config.trainingFilePath, config.testingFilePath);
    }
  }

  /** The train array saved by the transformation of two read splits loads
      back, and the trainer's split of it gives the transformed training
      features and the promoted remapped labels. */
  lemma SavedTrainArraySplits(train: Frame, test: Frame, config: DataTransformationConfig,
                              transform: DataTransformation.Transform, store: Store)
    requires config.transformedTrainFilePath != config.transformedTestFilePath
    requires config.transformedTrainFilePath != config.transformedObjFilePath
    ensures var r := DataTransformation.TransformSplits(train, test, config, transform, store);
      r.Ok? ==>
        && LoadArray(r.value.store, r.value.artifact.transformedTrainFilePath) == Ok(r.value.trainArray)
        && ModelTrainer.SplitLastColumn(r.value.trainArray) == Ok(ModelTrainer.Separated(
             transform(r.value.preprocessor, r.value.preprocessor.fitData).value,
             DataTransformation.LabelColumn(DataTransformation.RemapLabels(CellsOf(train, Constants.TargetColumn)))))
  {
    var r := DataTransformation.TransformSplits(train, test, config, transform, store);
    if r.Ok? {
      var x := transform(r.value.preprocessor, r.value.preprocessor.fitData).value;
      var labels := DataTransformation.RemapLabels(CellsOf(train, Constants.TargetColumn));
      assert DataTransformation.AppendColumn(x, labels) == Ok(r.value.trainArray);
      ModelTrainer.SplitAfterAppend(x, labels);
      assert r.value.store[config.transformedTrainFilePath] == Npy(r.value.trainArray);
    }
  }

  /** What the transformation saves is what the trainer splits: reading the
      saved train array back and taking off its last column gives the
      transformed features and the remapped labels, promoted to the array's
      dtype. */
  lemma TrainerSeesTransformedData(v: DataValidationArtifact, config: DataTransformationConfig,
                                   transform: DataTransformation.Transform, store: Store)
    requires config.transformedTrainFilePath != config.transformedTestFilePath
    requires config.transformedTrainFilePath != config.transformedObjFilePath
    ensures var r := DataTransformation.InitiateDataTransformation(v, config, transform, store);
      r.Ok? ==>
        var train := ReadCsv(store, v.validTrainFilePath.value).value;
        && LoadArray(r.value.store, r.value.artifact.transformedTrainFilePath) == Ok(r.value.trainArray)
        && ModelTrainer.SplitLastColumn(r.value.trainArray) == Ok(ModelTrainer.Separated(
             transform(r.value.preprocessor, r.value.preprocessor.fitData).value,
             DataTransformation.LabelColumn(DataTransformation.RemapLabels(CellsOf(train, Constants.TargetColumn)))))
  {
    var r := DataTransformation.InitiateDataTransformation(v, config, transform, store);
    if r.Ok? {
      var train := ReadCsv(store, v.validTrainFilePath.value).value;
      var test := ReadCsv(store, v.validTestFilePath.value).value;
      assert DataTransformation.TransformSplits(train, test, config, transform, store) == r;
      SavedTrainArraySplits(train, test, config, transform, store);
    }
  }

}
