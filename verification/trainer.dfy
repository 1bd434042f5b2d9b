/** The training stage (networksecurity/components/model_trainer.py): split
    the transformed arrays into features and label, grid-search the candidate
    models, keep the first one with the highest test score, score it on both
    splits and save it. */
module ModelTrainer {
  import opened Errors
  import opened Frames
  import opened Store
  import opened Artifacts
  import opened Config
  import opened Estimators
  import DataTransformation

  /** The candidate models, in the order of the `models` dictionary. */
  const Models: seq<(string, ModelKind)> := [
    ("Random Forest", RandomForest),
    ("Decision Tree", DecisionTree),
    ("Gradient Boosting", GradientBoosting),
    ("Logistic Regression", LogisticRegression),
    ("AdaBoost", AdaBoost)
  ]

  /** One value of a hyper-parameter grid. */
  datatype Choice = Named(name: string) | Rate(rate: real)

  /** The hyper-parameter grid searched for each candidate. */
  const ParamGrids: map<string, map<string, seq<Choice>>> := map[
    "Decision Tree" := map["criterion" := [Named("gini"), Named("entropy"), Named("log_loss")]],
    "Random Forest" := map["criterion" := [Named("gini"), Named("entropy"), Named("log_loss")]],
    "Gradient Boosting" := map["loss" := [Named("log_loss"), Named("exponential")]],
    "Logistic Regression" := map["penalty" := [Named("l1"), Named("l2"), Named("elasticnet"), Named("none")]],
    "AdaBoost" := map["learning_rate" := [Rate(0.1), Rate(0.01), Rate(0.001)]]
  ]

  /** The keys of the `models` dictionary. */
  function ModelNames(): (names: set<string>)
    ensures names == {"Random Forest", "Decision Tree", "Gradient Boosting", "Logistic Regression", "AdaBoost"}
  {
    var names := set i | 0 <= i < |Models| :: Models[i].0;
    assert Models[0].0 in names && Models[1].0 in names && Models[2].0 in names;
    assert Models[3].0 in names && Models[4].0 in names;
    names
  }

  /** The two dictionaries name the same five candidates, and every grid
      searches exactly one hyper-parameter. */
  lemma RegistriesAgree()
    ensures ModelNames() == ParamGrids.Keys
    ensures forall n :: n in ParamGrids ==> |ParamGrids[n]| == 1
  {
    assert Models[0].0 in ModelNames();
    assert Models[1].0 in ModelNames();
    assert Models[2].0 in ModelNames();
    assert Models[3].0 in ModelNames();
    assert Models[4].0 in ModelNames();
  }

  /** Each candidate is listed once. */
  lemma ModelNamesDistinct()
    ensures |Models| == 5
    ensures forall i, j :: 0 <= i < j < |Models| ==> Models[i].0 != Models[j].0
  {
  }

  /** The model registered under `name` in `entries`. */
  function Lookup(entries: seq<(string, ModelKind)>, name: string): (r: Result<ModelKind>)
    ensures r.Ok? <==> exists i :: 0 <= i < |entries| && entries[i].0 == name
    ensures r.Err? ==> r.error == KeyError(name)
    ensures r.Ok? ==> (name, r.value) in entries
  {
    if entries == [] then Err(KeyError(name))
    else if entries[0].0 == name then Ok(entries[0].1)
    else
      var r := Lookup(entries[1..], name);
      assert forall i :: 1 <= i < |entries| ==> entries[i] == entries[1..][i - 1];
      r
  }

  /** `models[name]`. */
  function LookupModel(name: string): (r: Result<ModelKind>)
    ensures r.Ok? <==> name in ModelNames()
    ensures r.Err? ==> r.error == KeyError(name)
    ensures r.Ok? ==> (name, r.value) in Models
  {
    Lookup(Models, name)
  }

  /** The report of `evaluate_models`: candidate name and test score, in
      dictionary order. */
  type Report = seq<(string, real)>

  function Scores(report: Report): (s: seq<real>)
    ensures |s| == |report|
    ensures forall i :: 0 <= i < |report| ==> s[i] == report[i].1
  {
    seq(|report|, i requires 0 <= i < |report| => report[i].1)
  }

  /** `max(values)`. */
  function MaxScore(scores: seq<real>): (m: real)
    requires |scores| > 0
    ensures m in scores
    ensures forall i :: 0 <= i < |scores| ==> scores[i] <= m
  {
    if |scores| == 1 then scores[0]
    else
      var rest := MaxScore(scores[1..]);
      if scores[0] >= rest then scores[0] else rest
  }

  /** `values.index(v)`: the first position holding `v`. */
  function FirstIndex(scores: seq<real>, v: real): (i: nat)
    requires v in scores
    ensures i < |scores| && scores[i] == v
    ensures forall j :: 0 <= j < i ==> scores[j] != v
  {
    if scores[0] == v then 0 else 1 + FirstIndex(scores[1..], v)
  }

  /** Entry `i` has the highest score and no earlier entry reaches it. */
  ghost predicate FirstArgmax(report: Report, i: int) {
    && 0 <= i < |report|
    && (forall j :: 0 <= j < |report| ==> report[j].1 <= report[i].1)
    && (forall j :: 0 <= j < i ==> report[j].1 < report[i].1)
  }

  /** Lines 149-152: the winner is the first entry with the highest score; an
      empty report makes `max` raise. */
  function SelectBest(report: Report): (r: Result<(string, real)>)
    ensures r.Err? <==> report == []
    ensures r.Ok? ==> exists i :: FirstArgmax(report, i) && r.value == report[i]
  {
    if report == [] then Err(ValueError("max() arg is an empty sequence"))
    else
      var scores := Scores(report);
      var i := FirstIndex(scores, MaxScore(scores));
      assert FirstArgmax(report, i);
      Ok(report[i])
  }

  lemma EarlierIsLower(report: Report, k: int, i: int)
    requires FirstArgmax(report, i) && 0 <= k < i
    ensures report[k].1 < report[i].1
  {
  }

  lemma FirstArgmaxUnique(report: Report, i: int, j: int)
    requires FirstArgmax(report, i) && FirstArgmax(report, j)
    ensures i == j
  {
    if i < j {
      EarlierIsLower(report, i, j);
      assert false;
    } else if j < i {
      EarlierIsLower(report, j, i);
      assert false;
    }
  }

  /** Ties go to the candidate listed first, and a later strictly better
      score wins. */
  lemma SelectBestExamples()
    ensures SelectBest([("Random Forest", 0.9), ("Decision Tree", 0.9)]) == Ok(("Random Forest", 0.9))
    ensures SelectBest([("Random Forest", 0.8), ("AdaBoost", 0.9)]) == Ok(("AdaBoost", 0.9))
  {
    var r1 := SelectBest([("Random Forest", 0.9), ("Decision Tree", 0.9)]);
    var i1 :| FirstArgmax([("Random Forest", 0.9), ("Decision Tree", 0.9)], i1) && r1.value == [("Random Forest", 0.9), ("Decision Tree", 0.9)][i1];
    assert i1 == 0;
    var r2 := SelectBest([("Random Forest", 0.8), ("AdaBoost", 0.9)]);
    var i2 :| FirstArgmax([("Random Forest", 0.8), ("AdaBoost", 0.9)], i2) && r2.value == [("Random Forest", 0.8), ("AdaBoost", 0.9)][i2];
    assert i2 == 1;
  }

  /** Features and label of an array. */
  datatype Separated = Separated(features: Matrix, labels: seq<Cell>)

  /** `array[:, :-1]` and `array[:, -1]`; indexing the last column of an
      array with no columns raises. */
  function SplitLastColumn(m: Matrix): (r: Result<Separated>)
    ensures r.Ok? <==> m.width > 0
    ensures r.Err? ==> r.error.IndexError?
    ensures r.Ok? ==> && r.value.features.width == m.width - 1
                      && |r.value.features.rows| == |m.rows| && |r.value.labels| == |m.rows|
    ensures r.Ok? ==> forall i :: 0 <= i < |m.rows| ==>
      m.rows[i] == r.value.features.rows[i] + [r.value.labels[i]]
  {
    if m.width == 0 then Err(IndexError("index -1 is out of bounds for axis 1 with size 0"))
    else
      var features: Matrix := Grid(seq(|m.rows|, i requires 0 <= i < |m.rows| => m.rows[i][..m.width - 1]), m.width - 1);
      Ok(Separated(features, seq(|m.rows|, i requires 0 <= i < |m.rows| => m.rows[i][m.width - 1])))
  }

  /** Splitting off the column the transformation appended gives back the
      transformed features and the labels as the array stores them. */
  lemma SplitAfterAppend(x: Matrix, y: seq<Cell>)
    requires |x.rows| == |y|
    ensures DataTransformation.AppendColumn(x, y).Ok?
    ensures SplitLastColumn(DataTransformation.AppendColumn(x, y).value) ==
              Ok(Separated(x, DataTransformation.LabelColumn(y)))
  {
    var m := DataTransformation.AppendColumn(x, y).value;
    var s := SplitLastColumn(m).value;
    assert s.features.rows == x.rows;
    assert s.labels == DataTransformation.LabelColumn(y);
  }

  /** Appending the split-off column back rebuilds an array whose last column
      already has the dtype the concatenation would give it. */
  lemma AppendAfterSplit(m: Matrix)
    requires m.width > 0
    requires DataTransformation.LabelColumn(SplitLastColumn(m).value.labels) == SplitLastColumn(m).value.labels
    ensures DataTransformation.AppendColumn(SplitLastColumn(m).value.features, SplitLastColumn(m).value.labels) == Ok(m)
  {
    var s := SplitLastColumn(m).value;
    var a := DataTransformation.AppendColumn(s.features, s.labels).value;
    assert a.rows == m.rows;
  }

  /** `evaluate_models`: the grid search, returning the test score of each
      refitted candidate (its `best_params` are only logged). */
  type Evaluate = (Matrix, seq<Cell>, Matrix, seq<Cell>) -> Result<Report>
  /** `best_model.predict(x)`. */
  type Predict = (ModelKind, Matrix) -> Result<seq<Cell>>
  /** `get_classification_score(y_true, y_pred)`. */
  type Score = (seq<Cell>, seq<Cell>) -> Result<ClassificationMetricArtifact>
  /** `track_model`: the MLflow run that logs both metrics and the model;
      `Some` is the error it raised. */
  type Track = (ModelKind, ClassificationMetricArtifact, ClassificationMetricArtifact) -> Option<Error>

  /** The library routines `train_model` calls, each of which may raise; the
      method has no `try` of its own, so whatever they raise escapes it. */
  datatype TrainerOracles = TrainerOracles(evaluate: Evaluate, predict: Predict, score: Score, track: Track)

  /** Where the bare winning estimator is always saved as well. */
  const FinalModelPath := "final_model/model.pkl"

  datatype TrainingOutput = TrainingOutput(
    artifact: ModelTrainingArtifact,
    bestName: string,
    bestModel: ModelKind,
    bestScore: real,
    store: Store)

  /** The winning candidate: its name, its score and the estimator the name
      stands for. */
  datatype Winner = Winner(name: string, score: real, model: ModelKind)

  /** Lines 149-153: pick the first best-scoring report entry, then look its
      name up among the candidates. */
  function ChooseModel(report: Report): (r: Result<Winner>)
    ensures report == [] ==> r.Err?
    ensures r.Err? ==> report == [] || exists i :: FirstArgmax(report, i) && report[i].0 !in ModelNames()
    ensures r.Ok? ==> && (exists i :: FirstArgmax(report, i) && report[i] == (r.value.name, r.value.score))
                      && (r.value.name, r.value.model) in Models
  {
    var best :- SelectBest(report);
    var model :- LookupModel(best.0);
    Ok(Winner(best.0, best.1, model))
  }

  /** The choice fails exactly when the report is empty or its first best
      entry names no candidate. */
  lemma ChooseModelOutcome(report: Report)
    ensures ChooseModel(report).Ok? <==>
      report != [] && forall i :: FirstArgmax(report, i) ==> report[i].0 in ModelNames()
  {
    if report != [] {
      var s := SelectBest(report);
      var i :| FirstArgmax(report, i) && s.value == report[i];
      forall j | FirstArgmax(report, j)
        ensures report[j].0 == s.value.0
      {
        FirstArgmaxUnique(report, i, j);
      }
    }
  }

  /** Lines 194-198: the preprocessor and the model are saved together under
      the configured path, then the bare model under `final_model/`; the final
      write wins when the two paths coincide. */
  function SaveModels(store: Store, path: string, preprocessor: Pickled, model: ModelKind): (r: Store)
    ensures FinalModelPath in r && r[FinalModelPath] == Pickle(PickledEstimator(model))
    ensures path != FinalModelPath ==> path in r && r[path] == Pickle(PickledNetworkModel(preprocessor, model))
    ensures forall p :: p in store && p != FinalModelPath && p != path ==> p in r && r[p] == store[p]
    ensures r.Keys == store.Keys + {path, FinalModelPath}
  {
    store[path := Pickle(PickledNetworkModel(preprocessor, model))][FinalModelPath := Pickle(PickledEstimator(model))]
  }

  /** Both splits' metrics for the winning model, as `train_model` computes
      them: predict on train and on test, score both, then track them. */
  function ScoreWinner(train: Separated, test: Separated, model: ModelKind, o: TrainerOracles)
    : (r: Result<(ClassificationMetricArtifact, ClassificationMetricArtifact)>)
    ensures var trainPredict := o.predict(model, train.features);
            var testPredict := o.predict(model, test.features);
      && (trainPredict.Err? ==> r == Err(trainPredict.error))
      && (r.Ok? <==>
            && trainPredict.Ok? && testPredict.Ok?
            && o.score(train.labels, trainPredict.value).Ok? && o.score(test.labels, testPredict.value).Ok?
            && o.track(model, o.score(train.labels, trainPredict.value).value,
                       o.score(test.labels, testPredict.value).value).None?)
      && (r.Ok? ==> r.value == (o.score(train.labels, trainPredict.value).value, o.score(test.labels, testPredict.value).value))
  {
    var trainPredict :- o.predict(model, train.features);
    var testPredict :- o.predict(model, test.features);
    var trainMetrics :- o.score(train.labels, trainPredict);
    var testMetrics :- o.score(test.labels, testPredict);
    match o.track(model, trainMetrics, testMetrics)
    case Some(e) => Err(e)
    case None => Ok((trainMetrics, testMetrics))
  }

  /** `train_model`. */
  function TrainModel(train: Separated, test: Separated, config: ModelTrainingConfig,
                      t: DataTransformationArtifact, o: TrainerOracles, store: Store): (r: Result<TrainingOutput>)
    ensures var report := o.evaluate(train.features, train.labels, test.features, test.labels);
      && (report.Err? ==> r == Err(report.error))
      && (r.Ok? <==> && report.Ok? && ChooseModel(report.value).Ok?
                     && ScoreWinner(train, test, ChooseModel(report.value).value.model, o).Ok?
                     && LoadObject(store, t.transformedObjectFilePath).Ok?)
      && (report.Ok? && report.value == [] ==> r.Err?)
      && (r.Ok? ==>
            && (exists i :: FirstArgmax(report.value, i) && report.value[i] == (r.value.bestName, r.value.bestScore))
            && (forall j :: 0 <= j < |report.value| ==> report.value[j].1 <= r.value.bestScore)
            && (r.value.bestName, r.value.bestModel) in Models)
    ensures r.Ok? ==>
      ScoreWinner(train, test, r.value.bestModel, o) ==
        Ok((r.value.artifact.trainMetricArtifact, r.value.artifact.testMetricArtifact))
    ensures r.Ok? ==> r.value.artifact.trainedModelPath == config.trainedModelFilePath
    ensures r.Ok? ==>
      && LoadObject(store, t.transformedObjectFilePath).Ok?
      && FinalModelPath in r.value.store
      && r.value.store[FinalModelPath] == Pickle(PickledEstimator(r.value.bestModel))
      && (config.trainedModelFilePath != FinalModelPath ==>
            config.trainedModelFilePath in r.value.store
            && r.value.store[config.trainedModelFilePath] ==
                 Pickle(PickledNetworkModel(LoadObject(store, t.transformedObjectFilePath).value, r.value.bestModel)))
    ensures r.Ok? ==> forall p :: p in store && p != FinalModelPath && p != config.trainedModelFilePath ==>
      p in r.value.store && r.value.store[p] == store[p]
  {
    var report :- o.evaluate(train.features, train.labels, test.features, test.labels);
    var best :- ChooseModel(report);
    var metrics :- ScoreWinner(train, test, best.model, o);
    var preprocessor :- LoadObject(store, t.transformedObjectFilePath);
    Ok(TrainingOutput(
         ModelTrainingArtifact(config.trainedModelFilePath, metrics.0, metrics.1),
         best.name, best.model, best.score,
         SaveModels(store, config.trainedModelFilePath, preprocessor, best.model)))
  }

  /** `initiate_model_training`: load both arrays, split them, train. */
  function InitiateModelTraining(config: ModelTrainingConfig, t: DataTransformationArtifact,
                                 o: TrainerOracles, store: Store): (r: Result<TrainingOutput>)
    ensures r.Err? ==> r.error.Wrapped?
    ensures r.Ok? <==>
      && LoadArray(store, t.transformedTrainFilePath).Ok?
      && LoadArray(store, t.transformedTestFilePath).Ok?
      && SplitLastColumn(LoadArray(store, t.transformedTrainFilePath).value).Ok?
      && SplitLastColumn(LoadArray(store, t.transformedTestFilePath).value).Ok?
      && TrainModel(SplitLastColumn(LoadArray(store, t.transformedTrainFilePath).value).value,
                    SplitLastColumn(LoadArray(store, t.transformedTestFilePath).value).value,
                    config, t, o, store).Ok?
    ensures (&& LoadArray(store, t.transformedTrainFilePath).Ok?
             && LoadArray(store, t.transformedTestFilePath).Ok?
             && SplitLastColumn(LoadArray(store, t.transformedTrainFilePath).value).Ok?
             && SplitLastColumn(LoadArray(store, t.transformedTestFilePath).value).Ok?) ==>
      r == Wrap(TrainModel(SplitLastColumn(LoadArray(store, t.transformedTrainFilePath).value).value,
                           SplitLastColumn(LoadArray(store, t.transformedTestFilePath).value).value,
                           config, t, o, store))
    ensures r.Ok? ==> r.value.artifact.trainedModelPath == config.trainedModelFilePath
  {
    Wrap(
      var trainArray :- LoadArray(store, t.transformedTrainFilePath);
      var testArray :- LoadArray(store, t.transformedTestFilePath);
      var train :- SplitLastColumn(trainArray);
      var test :- SplitLastColumn(testArray);
      TrainModel(train, test, config, t, o, store))
  }
}
