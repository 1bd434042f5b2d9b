/** The scikit-learn objects the pipeline creates, stores and reloads, as
    values.  Their numerical behaviour lives in oracles passed to the stages. */
module Estimators {
  import opened Frames

  /** The five candidate classifiers of the trainer's registry. */
  datatype ModelKind = RandomForest | DecisionTree | GradientBoosting | LogisticRegression | AdaBoost

  /** The fitted preprocessing pipeline (a single KNN imputer).  A KNN imputer
      keeps the rows it was fitted on, and its parameters are constant, so the
      fitted object is determined by the frame it was fitted on. */
  datatype Preprocessor = FittedImputer(fitData: Frame)

  /** `processor.fit(X)`. */
  function Fit(x: Frame): (p: Preprocessor)
    ensures p.fitData == x
  {
    FittedImputer(x)
  }
}
