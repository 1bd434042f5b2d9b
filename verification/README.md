# Network security training pipeline — a Dafny model

This project models the decision logic of the `networksecurity` batch training
pipeline. The pipeline runs four stages, in order:

1. **Ingestion** pulls the phishing-site records from a document database. It
   drops the `_id` column, turns the text `"na"` into missing values, saves a
   feature-store CSV and splits the rows into train and test with seed 7.
2. **Validation** runs two advisory schema checks on both splits. It then runs
   a Kolmogorov–Smirnov drift test of every train column against the test
   column of the same name. Both splits are written to the valid or the
   invalid location, depending on whether drift was found.
3. **Transformation** removes the `Result` target column and remaps its `-1`
   labels to `0`. It fits a KNN imputer on the training features only,
   transforms both splits and appends the label as the last array column.
4. **Training** splits the label column back off and grid-searches five
   classifiers. It keeps the first candidate with the highest test score,
   scores it on both splits and saves it twice.

Each run has a timestamped artifact root, `Artifacts/<MM_DD_YYYY_HH_MM_SS>/`.
The ingestion paths are built under it; the bare winning model is also saved
at `final_model/model.pkl`, outside it. The helper `get_requirements` of `setup.py`
is modelled as well.

The model is functional:

- A DataFrame is a `Frame`: uniquely named, typed columns of equal height.
- A numpy array is a `Matrix`: a rectangular grid of cells.
- Disk is a `Store`, a map from path to the value last written there.
- Every stage is a pure function that returns a `Result`.
- Every library routine except the KS test may raise: those oracles return a
  `Result` (the tracking oracle an optional error), and an error of one that
  the stage does not catch propagates unchanged. The KS p-value oracle is
  total and always gives a probability in [0, 1].
- Each `except Exception as e: raise NetworkSecurityException(e, sys)` is one
  `Errors.Wrapped` layer around the caught error.
- Everything the pipeline hands to a library is a function-typed parameter:
  - the database read and the seeded train/test split;
  - the KS p-value;
  - the KNN transform;
  - `evaluate_models`, `predict`, `get_classification_score` and the MLflow
    tracking of `track_model`;
  - the constructors of the validation, transformation and training
    configurations, whose definitions lie outside the modelled files.

Modules, one per source file or concept:

| module | contents |
|---|---|
| `Errors` | errors and `Result` |
| `Constants` | the constants |
| `Artifacts` | the artifact records |
| `Frames` | frames and matrices |
| `Estimators` | the fitted objects |
| `Store` | the store |
| `Config` | timestamps, path joining, run configuration |
| `Requirements` | `setup.py` |
| `DataIngestion` | the ingestion stage |
| `DataValidation` | the validation stage |
| `DataTransformation` | the transformation stage |
| `ModelTrainer` | the training stage |
| `TrainingPipeline` | the pipeline |

Behaviour of the code as written, modelled faithfully:

- **The column-count check counts distinct schema names.** It compares the
  frame's width with the number of distinct names in the schema's list of
  single-key dicts, so a repeated name counts once (`DuplicateSchemaNamesCountOnce`).
- **The numerical-column check compares counts only.** A frame whose
  integer columns are the wrong ones, but as many, passes
  (`CountOnlyNumericalCheck`). The missing and extra sets are only logged.
- **Only base (train) columns are visited by the drift test.** Columns that
  only the test split has are ignored (`DriftIgnoresExtraCurrentColumns`). A
  train column missing from the test split raises a KeyError.
- **A drifted run does not complete.** Under drift the validation artifact
  carries `None` valid paths, and transformation reads exactly those. So
  transformation raises, and the run ends there (`TrainingPipeline.StopsOnDrift`).
- **`run_pipeline` returns the trainer's configuration, not the training
  artifact.** `strat_model_traininig` returns `model_training_config`
  (`TrainingPipeline.WellFormed`).
- **The default timestamp is fixed once, when `TrainingPipeConfig` is
  defined.** Every configuration built without an argument shares one run root
  (`Config.DefaultTimestampShared`, `TrainingPipeline.RunPipeline`).
- **The final model file is written last.** The bare winning estimator goes to
  `final_model/model.pkl` after the combined preprocessor-and-model object, so
  it wins if the two paths coincide.

## Model

| member | source | states |
|---|---|---|
| Errors.Wrap | networksecurity/pipeline/training_pipeline.py:42-43 | a caught exception is re-raised wrapped once; success passes through unchanged |
| Estimators.Fit | networksecurity/components/data_transformation.py:91-92 | the fitted imputer is determined by, and remembers, exactly the frame it was fitted on |
| Frames.Select | networksecurity/components/data_validation.py:92-93 | `df[name]` succeeds exactly when the column exists, giving its cells, and raises KeyError(name) otherwise |
| Frames.Drop | networksecurity/components/data_transformation.py:83 | dropping a column succeeds iff it exists (KeyError otherwise); the result keeps the height, lacks the name, has one column fewer, and is the input's column list with that one column removed, the others in their original order |
| Frames.RemoveSameName | networksecurity/components/data_transformation.py:83-87 | removing the same name from two headers with equal name lists leaves equal name lists |
| Frames.MapCells | networksecurity/components/data_ingestion.py:55 | a cell-wise replacement keeps height, names and dtype tags and maps every cell |
| Frames.MapCellsColumns | networksecurity/components/data_ingestion.py:55 | after a cell-wise replacement the same column names are present, each with its kind |
| Frames.MapCellsSelect | networksecurity/components/data_ingestion.py:55 | selecting a column after a cell-wise replacement gives the mapped cells of the original column |
| Store.ReadCsv | networksecurity/components/data_validation.py:22-30 | reading succeeds iff a table was written to the path and returns it; an unwritten path gives FileNotFound |
| Store.LoadArray | networksecurity/components/model_trainer.py:219-220 | loading succeeds iff an array was saved at the path and returns that array |
| Store.LoadObject | networksecurity/components/model_trainer.py:187 | loading succeeds iff an object was pickled at the path and returns that object |
| Config.Pad | networksecurity/entity/config_entity.py:13 | a zero-padded field has exactly the requested width and only digits |
| Config.FormatTimestamp | networksecurity/entity/config_entity.py:13 | the rendering has the `MM_DD_YYYY_HH_MM_SS` shape and no path separator |
| Config.TimestampRoundTrip | networksecurity/entity/config_entity.py:13 | the six fields can be read back from the rendering: parse after format is the identity |
| Config.TimestampInjective | networksecurity/entity/config_entity.py:12-17 | runs started at different seconds render different timestamps |
| Config.Join | networksecurity/entity/config_entity.py:16 | a joined path ends with its last component and, for a relative component, starts with the first |
| Config.NewTrainingPipeConfig | networksecurity/entity/config_entity.py:11-17 | the run root is `Artifacts/<ts>` where ts renders the given moment, or the definition-time default when none is given |
| Config.DefaultTimestampShared | networksecurity/entity/config_entity.py:12 | every argument-less configuration gets the definition-time root, and any other moment gives a different root |
| Config.NewDataIngestionConfig | networksecurity/entity/config_entity.py:20-54 | the ingestion directory is the root joined with `data_ingestion`; feature store, train and test files sit in `feature_store` and `ingested` below it; ratio and database names are the constants |
| Config.IngestionPathsUnder | networksecurity/entity/config_entity.py:23-47 | under a relative root every ingestion path starts with `<root>/`, and the train and test paths differ |
| Config.IngestionPathsUnderRunRoot | networksecurity/entity/config_entity.py:12-47 | every ingestion path of a run lies under `Artifacts/<timestamp>/`, train and test distinct |
| Requirements.StripLeading | setup.py:20 | what is cut from the front is all whitespace and what remains starts with non-whitespace |
| Requirements.StripTrailing | setup.py:20 | what is cut from the back is all whitespace and what remains ends with non-whitespace |
| Requirements.Strip | setup.py:20 | the stripped line has no whitespace at either end and is no longer than the line |
| Requirements.StripIsInfix | setup.py:20 | the stripped line is an infix of the line whose cut-off ends are entirely whitespace |
| Requirements.StripTrimmed | setup.py:20 | a line already trimmed is returned unchanged |
| Requirements.StripIdempotent | setup.py:20 | stripping twice equals stripping once |
| Requirements.FilterLines | setup.py:19-23 | every kept entry is a non-empty, trimmed line other than `-e .`, and there are no more entries than lines |
| Requirements.GetRequirements | setup.py:9-27 | a missing file yields the empty list; a file that exists but cannot be read or decoded raises its error; otherwise the result is the filtered lines, an entry being present iff it is kept and some line strips to it |
| Requirements.FilterLinesAppend | setup.py:19-23 | filtering distributes over concatenation, so kept lines stay in input order |
| Requirements.FilterLinesMembership | setup.py:19-23 | an entry is in the output iff it is kept and some input line strips to it |
| Requirements.FilterLinesIdempotent | setup.py:19-23 | filtering the output again changes nothing |
| DataIngestion.NaToMissing | networksecurity/components/data_ingestion.py:55 | the text `"na"` becomes missing and every other cell is kept |
| DataIngestion.CleanFrame | networksecurity/components/data_ingestion.py:50-55 | cleaning keeps the row count, leaves no `_id` column, removes one column exactly when `_id` was there, keeps every other name with its kind, and leaves no `"na"` cell |
| DataIngestion.CleanFrameCells | networksecurity/components/data_ingestion.py:50-55 | the cleaned frame has exactly the input's names except `_id`, and each column's cells are the input column's cells with `"na"` made missing |
| DataIngestion.CleanFrameIdempotent | networksecurity/components/data_ingestion.py:50-55 | cleaning a cleaned frame changes nothing |
| DataIngestion.InitiateDataIngestion | networksecurity/components/data_ingestion.py:108-129 | a database or split failure is raised wrapped twice; otherwise the artifact holds the configured train and test paths, those files hold the split parts, the feature store holds the cleaned frame passed to the split with the configured ratio and seed 7, and no other file changes |
| DataValidation.MergeEntriesKeys | networksecurity/components/data_validation.py:46-48 | merging the schema's single-key dicts yields exactly the set of names they mention |
| DataValidation.ColumnCountMatches | networksecurity/components/data_validation.py:40-53 | the check holds iff the frame's width equals the number of distinct schema names; a schema without `columns` raises a wrapped KeyError |
| DataValidation.DuplicateSchemaNamesCountOnce | networksecurity/components/data_validation.py:46-51 | a name listed twice counts once: a one-column frame matches it |
| DataValidation.IntColumnNamesCount | networksecurity/components/data_validation.py:65-66 | the listed integer columns are exactly the int64/int32 columns, each once |
| DataValidation.NumericalColumnsMatch | networksecurity/components/data_validation.py:55-79 | the check holds iff the number of required names equals the number of integer columns; only on a mismatch are the missing and extra set differences logged |
| DataValidation.CountOnlyNumericalCheck | networksecurity/components/data_validation.py:61-73 | a frame whose single integer column is not the required one still passes |
| DataValidation.Judge | networksecurity/components/data_validation.py:96-103 | a report entry records the p-value and is drifted iff the p-value is strictly below the threshold |
| DataValidation.Extend | networksecurity/components/data_validation.py:91-103 | one loop iteration succeeds iff the previous ones did and the column exists in the test split; the first error is propagated; the column's entry is added and OR-ed into the verdict |
| DataValidation.CompareColumnsOutcome | networksecurity/components/data_validation.py:91-94 | the comparison succeeds iff every visited train column exists in the test split, and otherwise raises the KeyError of the first that does not |
| DataValidation.CompareColumnsKeys | networksecurity/components/data_validation.py:100-103 | the report has exactly one key per visited train column |
| DataValidation.CompareColumnsEntries | networksecurity/components/data_validation.py:91-103 | each visited column's entry is judged from its own p-value |
| DataValidation.AnyDriftExists | networksecurity/components/data_validation.py:96-98 | the column-by-column OR of verdicts holds iff some visited column's p-value is below the threshold |
| DataValidation.CompareColumnsDriftFound | networksecurity/components/data_validation.py:88-98 | the drift flag is the OR of the per-column verdicts |
| DataValidation.ValidateDataDrift | networksecurity/components/data_validation.py:81-111 | succeeds iff every train column exists in the test split (else a wrapped KeyError of the first missing one); one entry per train column; drift found iff some p-value is below the threshold; the report is written to the drift report path |
| DataValidation.DriftFoundIffFlaggedEntry | networksecurity/components/data_validation.py:88-103 | drift is found iff some entry of the written report is flagged |
| DataValidation.DriftIgnoresExtraCurrentColumns | networksecurity/components/data_validation.py:91-94 | two test splits that agree on the train columns give identical drift results, whatever else they hold |
| DataValidation.FlagsMembership | networksecurity/components/data_validation.py:131-140 | a warning is issued iff its check failed |
| DataValidation.SchemaWarnings | networksecurity/components/data_validation.py:130-140 | the four checks warn exactly when they fail, and raise only when the schema has no `columns` |
| DataValidation.Route | networksecurity/components/data_validation.py:147-170 | status is not-drift; the valid pair is set without drift and the invalid pair with it, the other pair None, the report path always; both splits are written unchanged to the chosen pair and nothing else changes |
| DataValidation.RouteKeepsOthers | networksecurity/components/data_validation.py:147-170 | after the report is written, routing leaves every file other than the two chosen split paths and the report path as it was |
| DataValidation.DriftAndRoute | networksecurity/components/data_validation.py:143-170 | succeeds iff every train column is in the test split; on success the warnings are kept, the artifact is routed, each train column's entry judges its p-value against 0.05, the status holds iff none is below 0.05, and the store holds both splits at the chosen pair, the report, and every other file unchanged |
| DataValidation.ValidateSplits | networksecurity/components/data_validation.py:130-170 | succeeds iff the schema lists `columns` and every train column is in the test split, with the same report, routing and written files as above |
| DataValidation.InitiateDataValidation | networksecurity/components/data_validation.py:113-174 | an unreadable train split raises wrapped twice; when both splits read, the result is the wrapped validation of those splits; the stage succeeds iff both splits read, the schema lists `columns` and every train column is in the test split; on success the artifact is routed, the report has one entry per train column judging its p-value against 0.05, the status holds iff no p-value is below 0.05, the chosen files hold the input splits, the report path holds the report, and every other file is unchanged |
| DataValidation.SchemaChecksAreAdvisory | networksecurity/components/data_validation.py:130-170 | two schemas that both list columns lead to the same success, artifact, report and written files |
| DataTransformation.RemapLabel | networksecurity/components/data_transformation.py:84 | an integer or float -1 becomes 0 of the same type; every other value is kept |
| DataTransformation.RemapLabels | networksecurity/components/data_transformation.py:84-88 | the remapped series has the same length and remaps each label |
| DataTransformation.RemapLabelsIdempotent | networksecurity/components/data_transformation.py:84 | no -1 remains after the remap, and remapping again changes nothing |
| DataTransformation.AsFloat | networksecurity/components/data_transformation.py:99-102 | an integer becomes the float of the same value; any other cell is kept |
| DataTransformation.LabelColumn | networksecurity/components/data_transformation.py:99-102 | numpy's common dtype: all-numeric labels are converted to floats and none stays an integer; a column with any non-number is kept as it is |
| DataTransformation.LabelColumnIdempotent | networksecurity/components/data_transformation.py:99-102 | promoting a promoted label column changes nothing |
| DataTransformation.AppendColumn | networksecurity/components/data_transformation.py:99-102 | concatenation succeeds iff the row counts agree; each row is the feature row followed by its promoted label, one column wider |
| DataTransformation.IntegerLabelsBecomeFloats | networksecurity/components/data_transformation.py:84-102 | integer labels -1/1, remapped and appended, are stored as the floats 0.0/1.0 |
| DataTransformation.SeparateTarget | networksecurity/components/data_transformation.py:82-88 | succeeds iff the target column exists (KeyError otherwise); features are the other columns in their original order at the same height; labels are the remapped target cells |
| DataTransformation.SeparatedAt | networksecurity/components/data_transformation.py:83 | when the target exists, the features are the header with the target's own position removed |
| DataTransformation.FeaturesLineUp | networksecurity/components/data_transformation.py:82-96 | two splits with the same header and a target column give feature frames with the same names in the same order, so the imputer fitted on the train features meets the test features in its own column order |
| DataTransformation.ReadValidated | networksecurity/components/data_transformation.py:79-80 | a `None` path raises; otherwise the wrapped CSV read |
| DataTransformation.TransformSplits | networksecurity/components/data_transformation.py:82-118 | succeeds iff both splits have the target, the imputer fitted on the train features transforms both feature frames without raising, and the row counts agree with the labels; an error the transform of the train features raises propagates unchanged; the imputer is fitted on the train features only; each array is the transformed features with the remapped labels appended; the three objects are saved at the configured paths and the artifact names them |
| DataTransformation.InitiateDataTransformation | networksecurity/components/data_transformation.py:70-123 | a `None` valid path (a drifted validation) makes the stage fail; failures are wrapped; when both valid files read, the result is the wrapped transformation of those splits, so success means exactly that they were transformed as above |
| DataTransformation.ArrayShape | networksecurity/components/data_transformation.py:95-102 | with a transform that keeps the row count whenever it succeeds, the train array has the input's row count, the transformed width plus one, and the promoted remapped label last |
| ModelTrainer.ModelNames | networksecurity/components/model_trainer.py:97-103 | the candidate names are exactly Random Forest, Decision Tree, Gradient Boosting, Logistic Regression and AdaBoost |
| ModelTrainer.RegistriesAgree | networksecurity/components/model_trainer.py:97-135 | the model registry and the parameter grids name the same candidates, and each grid searches exactly one hyper-parameter |
| ModelTrainer.ModelNamesDistinct | networksecurity/components/model_trainer.py:97-103 | there are five candidates, each listed once |
| ModelTrainer.Lookup | networksecurity/components/model_trainer.py:153 | a name resolves iff some entry carries it, to an estimator registered under it; KeyError otherwise |
| ModelTrainer.LookupModel | networksecurity/components/model_trainer.py:153 | `models[name]` succeeds iff the name is a candidate, giving its registered estimator |
| ModelTrainer.MaxScore | networksecurity/components/model_trainer.py:149 | `max` returns a score of the report that no score exceeds |
| ModelTrainer.FirstIndex | networksecurity/components/model_trainer.py:150-152 | `index` returns the first position holding the value |
| ModelTrainer.SelectBest | networksecurity/components/model_trainer.py:148-152 | an empty report raises; otherwise the chosen entry has the highest score and no earlier entry reaches it |
| ModelTrainer.FirstArgmaxUnique | networksecurity/components/model_trainer.py:149-152 | the first best entry is unique, so the choice is determined by the report |
| ModelTrainer.SelectBestExamples | networksecurity/components/model_trainer.py:149-152 | a tie goes to the candidate listed first; a later strictly better score wins |
| ModelTrainer.SplitLastColumn | networksecurity/components/model_trainer.py:223-228 | splitting succeeds iff the array has a column (IndexError otherwise); features keep the rows and lose one column; each row is its feature row followed by its label |
| ModelTrainer.SplitAfterAppend | networksecurity/components/model_trainer.py:223-228 | splitting an array built by appending labels gives back the features and the labels as promoted |
| ModelTrainer.AppendAfterSplit | networksecurity/components/data_transformation.py:99-102 | appending the split-off label column rebuilds any array whose last column already has its promoted dtype |
| ModelTrainer.ChooseModel | networksecurity/components/model_trainer.py:148-153 | an empty report or an unknown winning name fails; otherwise the winner is the first best entry and its estimator is the one registered under its name |
| ModelTrainer.ChooseModelOutcome | networksecurity/components/model_trainer.py:148-153 | the choice fails exactly when the report is empty or its first best entry names no candidate |
| ModelTrainer.SaveModels | networksecurity/components/model_trainer.py:194-198 | the final path holds the bare estimator; the configured path holds preprocessor and estimator together unless it is the final path; nothing else changes |
| ModelTrainer.ScoreWinner | networksecurity/components/model_trainer.py:155-184 | a failed train prediction raises its own error; scoring succeeds iff both predictions, both scores and the tracking succeed, and then gives the train and test scores of the winner's own predictions |
| ModelTrainer.TrainModel | networksecurity/components/model_trainer.py:90-208 | an error of the grid search propagates unchanged; training succeeds iff the grid search succeeds, a registered candidate is chosen, its prediction, scoring and tracking succeed and the preprocessor loads, so an empty report fails; the winner has the maximal, first-reached score and is a registered candidate; the metrics are the scores of its own train and test predictions; both pickles are written and nothing else changes |
| ModelTrainer.InitiateModelTraining | networksecurity/components/model_trainer.py:210-235 | succeeds iff both arrays load, both split, and training succeeds; once both split, the result is the wrapped training on the split features and labels; failures are wrapped; the artifact names the configured model path |
| TrainingPipeline.AfterTraining | networksecurity/pipeline/training_pipeline.py:69-79 | a run that reached training has started all four stages; it returns the training configuration and keeps the trainer's store iff training succeeded, otherwise it raises the trainer's error wrapped twice more, by the stage call and by `run_pipeline`, and keeps the transformation's store |
| TrainingPipeline.AfterTransformation | networksecurity/pipeline/training_pipeline.py:57-67 | a failed transformation ends the run after three stages; a successful one hands its artifact and store to the trainer, whose configuration comes from the run root |
| TrainingPipeline.AfterValidation | networksecurity/pipeline/training_pipeline.py:45-55 | a failed validation ends the run after two stages; a successful one hands its artifact and store to the transformation; a validation without valid paths ends the run at transformation with an error |
| TrainingPipeline.AfterIngestion | networksecurity/pipeline/training_pipeline.py:34-43 | a failed ingestion ends the run after one stage and is raised wrapped twice; a successful one hands its artifact and store to validation; every run from here is well formed and stops on drift |
| TrainingPipeline.RunFrom | networksecurity/pipeline/training_pipeline.py:34-89 | ingestion runs on the given store with the configuration built from the root, and each later stage on its predecessor's artifact and store; a failure stops the rest and is raised wrapped twice; the run is well formed, and success returns the training configuration and requires that no drift was found |
| TrainingPipeline.RunPipeline | networksecurity/pipeline/training_pipeline.py:29-89 | the run root is the one rendered from the definition-time timestamp, and the run from it chains the stages as above |
| TrainingPipeline.TrainedAsUnique | networksecurity/pipeline/training_pipeline.py:69-79 | the trainer's result fixes every field of the run |
| TrainingPipeline.TransformedAsUnique | networksecurity/pipeline/training_pipeline.py:57-79 | the transformation's result fixes every field of the run |
| TrainingPipeline.ValidatedAsUnique | networksecurity/pipeline/training_pipeline.py:45-79 | the validation's result fixes every field of the run |
| TrainingPipeline.ChainDeterminesRun | networksecurity/pipeline/training_pipeline.py:81-89 | a run follows the stage chain from a store exactly when it is the run the pipeline makes from its root and that store, so the chain states the whole run |
| TrainingPipeline.IngestedFilesUnderRunRoot | networksecurity/pipeline/training_pipeline.py:32-39 | the files ingestion hands on lie under `Artifacts/<timestamp>/` and are distinct |
| TrainingPipeline.SavedTrainArraySplits | networksecurity/components/data_transformation.py:99-106 | the train array the transformation saves loads back from its path, and splitting off its last column gives the transformed training features and the promoted remapped labels |
| TrainingPipeline.TrainerSeesTransformedData | networksecurity/components/model_trainer.py:219-228 | the saved train array, loaded and split by the trainer, gives back the transformed training features and the remapped labels, promoted to the array's dtype |

## Left out

- Database access (`pymongo`) and the records-to-DataFrame conversion: the
  database is a function from database and collection name to a frame or an
  error.
- `data_push.py`, `main.py` and the logger: they are not part of this model.
- File formats: CSV, YAML, npy and pickle are values in the store, and
  directory creation is not modelled.
- Store.ReadCsv: returns exactly the frame that was written. A real
  `read_csv` re-infers dtypes and reads empty cells back as NaN.
- Partial writes of a stage that later fails: the run keeps the store of the
  last finished stage.
- Numerical internals are oracles, and each but the KS test may raise where
  the library would:
  - KNN imputation;
  - `train_test_split`;
  - grid search in `evaluate_models`;
  - `predict`;
  - `get_classification_score`;
  - the MLflow run of `track_model`.
- DataValidation.ValidateDataDrift: the KS p-value oracle is total and never
  NaN, so the paths where `ks_2samp` raises (a column mixing text and missing
  values, for instance) or returns a NaN p-value are not modelled. The
  success conditions of `ValidateDataDrift`, `DriftAndRoute`,
  `ValidateSplits` and `InitiateDataValidation` hold under that oracle.
- The transform's row preservation is assumed only where a lemma says so
  (`ArrayShape`).
- Estimators.Fit: fitting is total. The imputer's `fit` checks its input
  as `transform` does, so a fit that raises is represented by the transform
  of the training features raising, which `TransformSplits` propagates.
- The fitted state of the candidate classifiers: grid search refits them
  inside `evaluate_models`, a utility outside the modelled files. The model records which
  candidate won, not its parameters. `best_params` is only logged.
- What MLflow records, every `logging` call and every `print`: they write to
  external sinks. Only whether the MLflow run raises is modelled.
- Reading the schema YAML: the schema is a parameter. A schema file that
  cannot be read is not modelled.
- The constructors of `DataValidationConfig`, `DataTransformationConfig` and
  `ModelTrainingConfig` are not part of this model. They are functions of the
  run configuration, and the model keeps only the fields the stages read.
  Only the ingestion paths are therefore proved to lie under the run root;
  where the other stages write is whatever those constructors return.
- `SCHEMA_FILE_PATH` and `DATA_TRANSFORMATION_IMPUTER_PARAMETERS` are not part
  of this model. They are imported, but the constants file does not define them.
- `save_object`, `load_object` and the numpy save and load helpers are not part
  of this model. They are modelled as store writes and reads.
- The `setup()` call: it has a syntax error (a missing comma on line 31) and
  only hands `get_requirements()` to setuptools.
- Config.FormatTimestamp: years below 1000 are zero-padded to four digits, as
  Python documents `%Y`. The C library behind `strftime` may print them
  unpadded.
- DataTransformation.AppendColumn: an integer label becomes the exact real of
  the same value. The rounding of float64 for integers beyond 2^53 is not
  modelled, and neither are numpy dtypes other than float64 and object.
- DataValidation.NumericalColumnsMatch: the dtype tag of a column is given,
  not inferred from its values.
- ModelTrainer.TrainModel: a failure to load the preprocessor is an `Err` like
  any other. The estimator objects are the five registry entries, not fitted
  instances.
