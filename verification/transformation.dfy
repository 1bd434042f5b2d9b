/** The transformation stage (networksecurity/components/data_transformation.py):
    separate the target column, remap its -1 labels to 0, fit the imputer on
    the training features only, transform both splits and append the label
    as the last column of each array. */
module DataTransformation {
  import opened Errors
  import opened Frames
  import opened Store
  import opened Config
  import opened Artifacts
  import opened Estimators
  import opened Constants

  /** `pre_processor_obj.transform(X)`, the KNN imputation, as an oracle.  It
      raises on input the imputer cannot take, a text feature for instance;
      `fit` validates its input the same way, so a fit that would raise shows
      up as the transform of the training features raising. */
  type Transform = (Preprocessor, Frame) -> Result<Matrix>

  predicate IsMinusOne(c: Cell) {
    c == Int(-1) || c == Real(-1.0)
  }

  /** `Series.replace(-1, 0)` on one cell: a -1 of either numeric type becomes
      0 of that type; every other cell, including the text "-1", is kept. */
  function RemapLabel(c: Cell): (d: Cell)
    ensures c == Int(-1) ==> d == Int(0)
    ensures c == Real(-1.0) ==> d == Real(0.0)
    ensures !IsMinusOne(c) ==> d == c
  {
    match c
    case Int(v) => if v == -1 then Int(0) else c
    case Real(v) => if v == -1.0 then Real(0.0) else c
    case _ => c
  }

  function RemapLabels(cells: seq<Cell>): (r: seq<Cell>)
    ensures |r| == |cells|
    ensures forall i :: 0 <= i < |cells| ==> r[i] == RemapLabel(cells[i])
  {
    seq(|cells|, i requires 0 <= i < |cells| => RemapLabel(cells[i]))
  }

  /** After the remap no label is -1, and remapping again changes nothing. */
  lemma RemapLabelsIdempotent(cells: seq<Cell>)
    ensures forall i :: 0 <= i < |cells| ==> !IsMinusOne(RemapLabels(cells)[i])
    ensures RemapLabels(RemapLabels(cells)) == RemapLabels(cells)
  {
  }

  /** A cell numpy can hold in a float64 array. */
  predicate IsNumber(c: Cell) {
    c.Int? || c.Real? || c.Missing?
  }

  /** An integer cell as the float64 numpy converts it to. */
  function AsFloat(c: Cell): (d: Cell)
    ensures c.Int? ==> d == Real(c.i as real)
    ensures !c.Int? ==> d == c
  {
    match c
    case Int(v) => Real(v as real)
    case _ => c
  }

  /** The label column as it sits next to the float64 output of the imputer:
      numpy gives the array their common dtype, float64 when every label is a
      number and object (values kept) as soon as one is not. */
  function LabelColumn(y: seq<Cell>): (r: seq<Cell>)
    ensures |r| == |y|
    ensures (forall i :: 0 <= i < |y| ==> IsNumber(y[i])) ==>
              forall i :: 0 <= i < |y| ==> r[i] == AsFloat(y[i]) && !r[i].Int?
    ensures !(forall i :: 0 <= i < |y| ==> IsNumber(y[i])) ==> r == y
  {
    if forall i :: 0 <= i < |y| ==> IsNumber(y[i]) then
      seq(|y|, i requires 0 <= i < |y| => AsFloat(y[i]))
    else y
  }

  /** A stored label column is left alone by a second concatenation. */
  lemma LabelColumnIdempotent(y: seq<Cell>)
    ensures LabelColumn(LabelColumn(y)) == LabelColumn(y)
  {
  }

  /** `np.concatenate((x, y.reshape(-1, 1)), axis=1)`: `y` becomes the last
      column, converted as numpy's dtype promotion converts it; the row counts
      must agree or numpy raises. */
  function AppendColumn(x: Matrix, y: seq<Cell>): (r: Result<Matrix>)
    ensures r.Ok? <==> |x.rows| == |y|
    ensures r.Ok? ==> r.value.width == x.width + 1 && |r.value.rows| == |x.rows|
    ensures r.Ok? ==> forall i :: 0 <= i < |y| ==>
      r.value.rows[i][..x.width] == x.rows[i] && r.value.rows[i][x.width] == LabelColumn(y)[i]
  {
    if |x.rows| != |y| then Err(ValueError("all the input array dimensions except for the concatenation axis must match exactly"))
    else
      var labels := LabelColumn(y);
      var m: Matrix := Grid(seq(|y|, i requires 0 <= i < |y| => x.rows[i] + [labels[i]]), x.width + 1);
      Ok(m)
  }

  /** The remapped 0/1 labels reach the array as floats. */
  lemma IntegerLabelsBecomeFloats(x: Matrix, y: seq<Cell>)
    requires |x.rows| == |y|
    requires forall i :: 0 <= i < |y| ==> y[i] == Int(-1) || y[i] == Int(1)
    ensures var m := AppendColumn(x, RemapLabels(y)).value;
      forall i :: 0 <= i < |y| ==> m.rows[i][x.width] == (if y[i] == Int(1) then Real(1.0) else Real(0.0))
  {
    var labels := RemapLabels(y);
    assert forall i :: 0 <= i < |y| ==> labels[i] == (if y[i] == Int(1) then Int(1) else Int(0));
  }

  /** A frame's features and its remapped label column. */
  datatype Separated = Separated(features: Frame, labels: seq<Cell>)

  /** `df.drop(columns=[TARGET_COLUMN])` and `df[TARGET_COLUMN].replace(-1, 0)`. */
  function SeparateTarget(f: Frame): (r: Result<Separated>)
    ensures r.Ok? <==> HasColumn(f, TargetColumn)
    ensures r.Err? ==> r.error == KeyError(TargetColumn)
    ensures r.Ok? ==> && r.value.features.height == f.height
                      && !HasColumn(r.value.features, TargetColumn)
                      && (forall c :: c in r.value.features.columns <==> c in f.columns && c.name != TargetColumn)
                      && (exists k :: 0 <= k < |f.columns| && f.columns[k].name == TargetColumn
                                      && r.value.features.columns == f.columns[..k] + f.columns[k + 1..])
    ensures r.Ok? ==> && |r.value.labels| == f.height
                      && forall i :: 0 <= i < f.height ==>
                           r.value.labels[i] == RemapLabel(CellsOf(f, TargetColumn)[i])
  {
    var features :- Drop(f, TargetColumn);
    assert forall c :: c in features.columns ==> c.name != TargetColumn by {
      forall c | c in features.columns
        ensures c.name != TargetColumn
      {
        var i :| 0 <= i < |features.columns| && features.columns[i] == c;
        assert Names(features.columns)[i] == c.name;
      }
    }
    Ok(Separated(features, RemapLabels(CellsOf(f, TargetColumn))))
  }

  /** Where the target sat in `f`: the features are the other columns, in
      their original order. */
  lemma SeparatedAt(f: Frame) returns (k: nat)
    requires HasColumn(f, TargetColumn)
    ensures k < |f.columns| && f.columns[k].name == TargetColumn
    ensures SeparateTarget(f).Ok? && SeparateTarget(f).value.features.columns == f.columns[..k] + f.columns[k + 1..]
  {
    var s := SeparateTarget(f);
    assert s.Ok?;
    k :| 0 <= k < |f.columns| && f.columns[k].name == TargetColumn && s.value.features.columns == f.columns[..k] + f.columns[k + 1..];
  }

  /** Two splits with the same header keep the same feature columns, in the
      same order, once the target is dropped: the imputer fitted on the train
      features meets the test features in the order it was fitted on. */
  lemma FeaturesLineUp(train: Frame, test: Frame)
    requires Names(train.columns) == Names(test.columns)
    requires HasColumn(train, TargetColumn)
    ensures SeparateTarget(train).Ok? && SeparateTarget(test).Ok?
    ensures Names(SeparateTarget(train).value.features.columns) == Names(SeparateTarget(test).value.features.columns)
  {
    assert HasColumn(test, TargetColumn);
    var i := SeparatedAt(train);
    var j := SeparatedAt(test);
    RemoveSameName(train.columns, test.columns, i, j);
  }

  /** `read_data(path)` on a path the validation artifact may have left `None`. */
  function ReadValidated(store: Store, path: Option<string>): (r: Result<Frame>)
    ensures path.None? ==> r.Err?
    ensures path.Some? ==> r == Wrap(ReadCsv(store, path.value))
  {
    match path
    case None => Err(Wrapped(ValueError("Invalid file path or buffer object type: <class 'NoneType'>")))
    case Some(p) => Wrap(ReadCsv(store, p))
  }

  datatype TransformationOutput = TransformationOutput(
    artifact: DataTransformationArtifact,
    preprocessor: Preprocessor,
    trainArray: Matrix,
    testArray: Matrix,
    store: Store)

  /** The stage after both splits are read: separate the targets, fit on the
      training features, build both arrays and save the three objects. */
  function TransformSplits(train: Frame, test: Frame, config: DataTransformationConfig,
                           transform: Transform, store: Store): (r: Result<TransformationOutput>)
    ensures r.Ok? <==>
      && HasColumn(train, TargetColumn) && HasColumn(test, TargetColumn)
      && var fitted := Fit(SeparateTarget(train).value.features);
         var trainFeatures := transform(fitted, SeparateTarget(train).value.features);
         var testFeatures := transform(fitted, SeparateTarget(test).value.features);
         && trainFeatures.Ok? && testFeatures.Ok?
         && |trainFeatures.value.rows| == train.height && |testFeatures.value.rows| == test.height
    ensures HasColumn(train, TargetColumn) && HasColumn(test, TargetColumn) ==>
      var features := SeparateTarget(train).value.features;
      transform(Fit(features), features).Err? ==> r == Err(transform(Fit(features), features).error)
    ensures r.Ok? ==> r.value.artifact == DataTransformationArtifact(
      config.transformedObjFilePath, config.transformedTrainFilePath, config.transformedTestFilePath)
    ensures r.Ok? ==>
      && SeparateTarget(train) == Ok(Separated(r.value.preprocessor.fitData, RemapLabels(CellsOf(train, TargetColumn))))
      && transform(r.value.preprocessor, r.value.preprocessor.fitData).Ok?
      && AppendColumn(transform(r.value.preprocessor, r.value.preprocessor.fitData).value,
                      RemapLabels(CellsOf(train, TargetColumn))) == Ok(r.value.trainArray)
      && transform(r.value.preprocessor, SeparateTarget(test).value.features).Ok?
      && AppendColumn(transform(r.value.preprocessor, SeparateTarget(test).value.features).value,
                      RemapLabels(CellsOf(test, TargetColumn))) == Ok(r.value.testArray)
    ensures r.Ok? ==> r.value.store == store[config.transformedTrainFilePath := Npy(r.value.trainArray)]
                                            [config.transformedTestFilePath := Npy(r.value.testArray)]
                                            [config.transformedObjFilePath := Pickle(PickledPreprocessor(r.value.preprocessor))]
  {
    var trainParts :- SeparateTarget(train);
    var testParts :- SeparateTarget(test);
    var preprocessor := Fit(trainParts.features);
    var trainFeatures :- transform(preprocessor, trainParts.features);
    var testFeatures :- transform(preprocessor, testParts.features);
    var trainArray :- AppendColumn(trainFeatures, trainParts.labels);
    var testArray :- AppendColumn(testFeatures, testParts.labels);
    Ok(TransformationOutput(
         DataTransformationArtifact(config.transformedObjFilePath, config.transformedTrainFilePath,
                                    config.transformedTestFilePath),
         preprocessor,
         trainArray,
         testArray,
         store[config.transformedTrainFilePath := Npy(trainArray)]
              [config.transformedTestFilePath := Npy(testArray)]
              [config.transformedObjFilePath := Pickle(PickledPreprocessor(preprocessor))]))
  }

  /** `initiate_data_transformation`. */
  function InitiateDataTransformation(v: DataValidationArtifact, config: DataTransformationConfig,
                                      transform: Transform, store: Store): (r: Result<TransformationOutput>)
    ensures v.validTrainFilePath.None? || v.validTestFilePath.None? ==> r.Err?
    ensures r.Err? ==> r.error.Wrapped?
    ensures (&& v.validTrainFilePath.Some? && ReadCsv(store, v.validTrainFilePath.value).Ok?
             && v.validTestFilePath.Some? && ReadCsv(store, v.validTestFilePath.value).Ok?) ==>
      r == Wrap(TransformSplits(ReadCsv(store, v.validTrainFilePath.value).value,
                                ReadCsv(store, v.validTestFilePath.value).value, config, transform, store))
    ensures r.Ok? ==>
      && v.validTrainFilePath.Some? && ReadCsv(store, v.validTrainFilePath.value).Ok?
      && v.validTestFilePath.Some? && ReadCsv(store, v.validTestFilePath.value).Ok?
      && TransformSplits(ReadCsv(store, v.validTrainFilePath.value).value,
                         ReadCsv(store, v.validTestFilePath.value).value, config, transform, store) == r
  {
    Wrap(
      var train :- ReadValidated(store, v.validTrainFilePath);
      var test :- ReadValidated(store, v.validTestFilePath);
      TransformSplits(train, test, config, transform, store))
  }

  /** When the transform keeps one output row per input row, as KNN
      imputation does, each array has the input's row count, one column more
      than the transformed features, and the remapped label last. */
  lemma ArrayShape(v: DataValidationArtifact, config: DataTransformationConfig, transform: Transform, store: Store)
    requires forall p, x :: transform(p, x).Ok? ==> |transform(p, x).value.rows| == x.height
    ensures var r := InitiateDataTransformation(v, config, transform, store);
      r.Ok? ==>
        var train := ReadCsv(store, v.validTrainFilePath.value).value;
        var labels := RemapLabels(CellsOf(train, TargetColumn));
        && |r.value.trainArray.rows| == train.height
        && r.value.trainArray.width == transform(r.value.preprocessor, r.value.preprocessor.fitData).value.width + 1
        && forall i :: 0 <= i < train.height ==>
             r.value.trainArray.rows[i][r.value.trainArray.width - 1] == LabelColumn(labels)[i]
  {
  }
}
