/** The validation stage (networksecurity/components/data_validation.py):
    advisory schema checks, Kolmogorov-Smirnov drift detection between the
    train split (base) and the test split (current), and routing of both
    splits to the valid or the invalid location. */
module DataValidation {
  import opened Errors
  import opened Frames
  import opened Store
  import opened Config
  import opened Artifacts

  /** The schema document as loaded from YAML: the `columns` list of
      (normally single-key) dicts from column name to declared kind, and the
      optional `numerical_columns` list. */
  datatype Schema = Schema(columns: Option<seq<map<string, string>>>, numericalColumns: Option<seq<string>>)

  // ---------------------------------------------------------------------------
  // Column-count check
  // ---------------------------------------------------------------------------

  /** `{k: v for d in columns_list for k, v in d.items()}`: one dict, later
      entries overriding earlier ones. */
  function MergeEntries(entries: seq<map<string, string>>): map<string, string> {
    if entries == [] then map[]
    else MergeEntries(entries[..|entries| - 1]) + entries[|entries| - 1]
  }

  /** Every column name the schema mentions, each counted once. */
  ghost function SchemaNames(entries: seq<map<string, string>>): set<string> {
    set i, k | 0 <= i < |entries| && k in entries[i] :: k
  }

  lemma {:induction false} MergeEntriesKeys(entries: seq<map<string, string>>)
    ensures MergeEntries(entries).Keys == SchemaNames(entries)
  {
    if entries != [] {
      var init := entries[..|entries| - 1];
      var last := entries[|entries| - 1];
      MergeEntriesKeys(init);
      assert SchemaNames(entries) == SchemaNames(init) + last.Keys by {
        forall k | k in SchemaNames(entries)
          ensures k in SchemaNames(init) + last.Keys
        {
          var i :| 0 <= i < |entries| && k in entries[i];
          if i < |entries| - 1 {
            assert init[i] == entries[i];
          }
        }
        forall k | k in SchemaNames(init)
          ensures k in SchemaNames(entries)
        {
          var i :| 0 <= i < |init| && k in init[i];
          assert entries[i] == init[i];
        }
      }
    }
  }

  /** `vaidate_number_of_columns`: the frame's width against the number of
      distinct names in the schema.  A schema without `columns` raises. */
  function ColumnCountMatches(schema: Schema, f: Frame): (r: Result<bool>)
    ensures schema.columns.None? ==> r == Err(Wrapped(KeyError("columns")))
    ensures schema.columns.Some? ==> r == Ok(|f.columns| == |SchemaNames(schema.columns.value)|)
  {
    match schema.columns
    case None => Err(Wrapped(KeyError("columns")))
    case Some(entries) =>
      MergeEntriesKeys(entries);
      Ok(|f.columns| == |MergeEntries(entries).Keys|)
  }

  /** Repeated schema names collapse: two entries for `a` describe one column. */
  lemma DuplicateSchemaNamesCountOnce(f: Frame)
    requires |f.columns| == 1
    ensures ColumnCountMatches(Schema(Some([map["a" := "int64"], map["a" := "int64"]]), None), f) == Ok(true)
  {
    var entries := [map["a" := "int64"], map["a" := "int64"]];
    assert SchemaNames(entries) == {"a"} by {
      assert "a" in entries[0];
    }
  }

  // ---------------------------------------------------------------------------
  // Numerical-column check
  // ---------------------------------------------------------------------------

  predicate IsIntKind(k: Kind) {
    k == Int64 || k == Int32
  }

  /** `select_dtypes(include=['int64', 'int32']).columns.tolist()`. */
  function IntColumnNames(cols: seq<Column>): seq<string> {
    if cols == [] then []
    else
      var last := cols[|cols| - 1];
      IntColumnNames(cols[..|cols| - 1]) + (if IsIntKind(last.kind) then [last.name] else [])
  }

  ghost function IntColumnSet(cols: seq<Column>): set<string> {
    set c | c in cols && IsIntKind(c.kind) :: c.name
  }

  ghost function Elements(s: seq<string>): set<string> {
    set x | x in s
  }

  lemma ElementsAppend(a: seq<string>, b: seq<string>)
    ensures Elements(a + b) == Elements(a) + Elements(b)
  {
  }

  /** The integer columns of `cols` are those of all but the last, plus the
      last when it is integer-typed; with distinct names it is new. */
  lemma IntColumnSetLast(cols: seq<Column>)
    requires cols != [] && DistinctNames(cols)
    ensures var init, last := cols[..|cols| - 1], cols[|cols| - 1];
      && last.name !in IntColumnSet(init)
      && IntColumnSet(cols) == IntColumnSet(init) + (if IsIntKind(last.kind) then {last.name} else {})
  {
    var init, last := cols[..|cols| - 1], cols[|cols| - 1];
    assert forall c :: c in cols <==> c in init || c == last;
    forall c | c in init
      ensures c.name != last.name
    {
      var i :| 0 <= i < |init| && init[i] == c;
      assert cols[i] == c;
    }
  }

  /** With distinct column names the listed integer columns are exactly the
      integer-typed columns, each once. */
  lemma {:induction false} IntColumnNamesCount(cols: seq<Column>)
    requires DistinctNames(cols)
    ensures Elements(IntColumnNames(cols)) == IntColumnSet(cols)
    ensures |IntColumnNames(cols)| == |IntColumnSet(cols)|
  {
    if cols != [] {
      var init := cols[..|cols| - 1];
      var last := cols[|cols| - 1];
      var tail := if IsIntKind(last.kind) then [last.name] else [];
      assert DistinctNames(init);
      IntColumnNamesCount(init);
      IntColumnSetLast(cols);
      ElementsAppend(IntColumnNames(init), tail);
      assert Elements(tail) == if IsIntKind(last.kind) then {last.name} else {};
    }
  }

  function RequiredNumerical(schema: Schema): seq<string> {
    match schema.numericalColumns
    case None => []
    case Some(names) => names
  }

  /** The set differences logged on a mismatch. */
  datatype Diagnostics = Diagnostics(missing: set<string>, extra: set<string>)

  datatype NumericCheck = NumericCheck(matches: bool, logged: Option<Diagnostics>)

  /** `validate_number_of_numerical_columns`: compares the NUMBER of integer
      columns with the length of `numerical_columns` (default empty); the
      names themselves only feed the diagnostics logged on a mismatch. */
  function NumericalColumnsMatch(schema: Schema, f: Frame): (r: NumericCheck)
    ensures r.matches <==> |RequiredNumerical(schema)| == |IntColumnSet(f.columns)|
    ensures r.logged.Some? <==> !r.matches
    ensures r.logged.Some? ==>
      && r.logged.value.missing == Elements(RequiredNumerical(schema)) - IntColumnSet(f.columns)
      && r.logged.value.extra == IntColumnSet(f.columns) - Elements(RequiredNumerical(schema))
  {
    var required := RequiredNumerical(schema);
    var actual := IntColumnNames(f.columns);
    IntColumnNamesCount(f.columns);
    var missing := set n | n in required && n !in actual;
    var extra := set n | n in actual && n !in required;
    if |required| == |actual| then NumericCheck(true, None)
    else NumericCheck(false, Some(Diagnostics(missing, extra)))
  }

  /** The check compares counts only: a frame whose single integer column is
      not the one the schema names still passes. */
  lemma CountOnlyNumericalCheck()
    ensures var f := Table([Column("b", Int64, [])], 0);
            var check := NumericalColumnsMatch(Schema(None, Some(["a"])), f);
            check.matches && IntColumnSet(f.columns) == {"b"}
  {
    var f: Frame := Table([Column("b", Int64, [])], 0);
    assert IntColumnSet(f.columns) == {"b"} by {
      assert f.columns[0] in f.columns;
    }
  }

  // ---------------------------------------------------------------------------
  // Drift detection
  // ---------------------------------------------------------------------------

  type Probability = p: real | 0.0 <= p <= 1.0

  /** `ks_2samp(d1, d2).pvalue`, an oracle that always yields a probability:
      the library's raise and NaN paths are not modelled. */
  type KsTest = (seq<Cell>, seq<Cell>) -> Probability

  /** The threshold `validate_data_drift` uses when none is passed. */
  const DefaultThreshold: real := 0.05

  /** One report entry: a column drifted iff its p-value is strictly below
      the threshold. */
  function Judge(p: Probability, threshold: real): (e: DriftEntry)
    ensures e.pValue == p
    ensures e.driftStatus <==> p < threshold
  {
    DriftEntry(p, p < threshold)
  }

  datatype DriftSummary = DriftSummary(driftFound: bool, report: DriftReport)

  /** The names of the first `n` base columns. */
  ghost function BaseNames(base: Frame, n: nat): set<string>
    requires n <= |base.columns|
  {
    set i | 0 <= i < n :: base.columns[i].name
  }

  predicate AllPresent(base: Frame, current: Frame, n: nat)
    requires n <= |base.columns|
  {
    forall i :: 0 <= i < n ==> HasColumn(current, base.columns[i].name)
  }

  /** Base column `i` is the first of the first `n` that `current` lacks. */
  predicate FirstMissing(base: Frame, current: Frame, n: nat, i: nat)
    requires n <= |base.columns|
  {
    i < n && !HasColumn(current, base.columns[i].name) && AllPresent(base, current, i)
  }

  /** The loop of `validate_data_drift` over the first `n` columns of the
      base frame.  Only base columns are visited; a base column missing from
      the current frame raises a KeyError at the first such column. */
  function CompareColumns(base: Frame, current: Frame, n: nat, threshold: real, ks: KsTest): Result<DriftSummary>
    requires n <= |base.columns|
  {
    if n == 0 then Ok(DriftSummary(false, map[]))
    else Extend(CompareColumns(base, current, n - 1, threshold, ks), base.columns[n - 1],
                Select(current, base.columns[n - 1].name), threshold, ks)
  }

  /** One iteration: compare `column` with its namesake, or stop at the first
      error. */
  function Extend(prev: Result<DriftSummary>, column: Column, selected: Result<seq<Cell>>,
                  threshold: real, ks: KsTest): (r: Result<DriftSummary>)
    ensures r.Ok? <==> prev.Ok? && selected.Ok?
    ensures prev.Err? ==> r == prev
    ensures prev.Ok? && selected.Err? ==> r.error == selected.error
    ensures r.Ok? ==>
      var entry := Judge(ks(column.cells, selected.value), threshold);
      r.value == DriftSummary(prev.value.driftFound || entry.driftStatus, prev.value.report[column.name := entry])
  {
    match prev
    case Err(e) => Err(e)
    case Ok(p) =>
      match selected
      case Err(e) => Err(e)
      case Ok(d2) =>
        var entry := Judge(ks(column.cells, d2), threshold);
        Ok(DriftSummary(p.driftFound || entry.driftStatus, p.report[column.name := entry]))
  }

  /** The comparison succeeds exactly when every visited base column exists
      in the current frame, and otherwise fails with the KeyError of the first
      one that does not. */
  lemma {:induction false} CompareColumnsOutcome(base: Frame, current: Frame, n: nat, threshold: real, ks: KsTest)
    requires n <= |base.columns|
    ensures var r := CompareColumns(base, current, n, threshold, ks);
      && (r.Ok? <==> AllPresent(base, current, n))
      && (r.Err? ==> exists i: nat :: FirstMissing(base, current, n, i) && r.error == KeyError(base.columns[i].name))
  {
    if n > 0 {
      CompareColumnsOutcome(base, current, n - 1, threshold, ks);
      var prev := CompareColumns(base, current, n - 1, threshold, ks);
      if prev.Err? {
        var i: nat :| FirstMissing(base, current, n - 1, i) && prev.error == KeyError(base.columns[i].name);
        assert FirstMissing(base, current, n, i);
      } else if !HasColumn(current, base.columns[n - 1].name) {
        assert FirstMissing(base, current, n, n - 1);
      }
    }
  }

  /** The report has one key per visited base column. */
  lemma {:induction false} CompareColumnsKeys(base: Frame, current: Frame, n: nat, threshold: real, ks: KsTest)
    requires n <= |base.columns|
    ensures var r := CompareColumns(base, current, n, threshold, ks);
      r.Ok? ==> r.value.report.Keys == BaseNames(base, n)
  {
    if n > 0 && CompareColumns(base, current, n, threshold, ks).Ok? {
      CompareColumnsKeys(base, current, n - 1, threshold, ks);
      assert BaseNames(base, n) == BaseNames(base, n - 1) + {base.columns[n - 1].name};
    }
  }

  /** One step of `CompareColumns`: a successful comparison of `n` columns
      extends the comparison of the first `n - 1` by the entry of column
      `n - 1`. */
  lemma CompareColumnsStep(base: Frame, current: Frame, n: nat, threshold: real, ks: KsTest)
    requires 0 < n <= |base.columns|
    requires CompareColumns(base, current, n, threshold, ks).Ok?
    ensures HasColumn(current, base.columns[n - 1].name)
    ensures var prev := CompareColumns(base, current, n - 1, threshold, ks);
      var entry := Judge(PValue(base, current, n - 1, ks), threshold);
      && prev.Ok?
      && CompareColumns(base, current, n, threshold, ks).value ==
           DriftSummary(prev.value.driftFound || entry.driftStatus, prev.value.report[base.columns[n - 1].name := entry])
  {
  }

  /** Each visited base column has the entry its own p-value gives it. */
  lemma {:induction false} CompareColumnsEntries(base: Frame, current: Frame, n: nat, threshold: real, ks: KsTest)
    requires n <= |base.columns|
    ensures var r := CompareColumns(base, current, n, threshold, ks);
      r.Ok? ==> forall i :: 0 <= i < n ==>
        && base.columns[i].name in r.value.report
        && HasColumn(current, base.columns[i].name)
        && r.value.report[base.columns[i].name] == Judge(PValue(base, current, i, ks), threshold)
  {
    var r := CompareColumns(base, current, n, threshold, ks);
    if n > 0 && r.Ok? {
      CompareColumnsStep(base, current, n, threshold, ks);
      var prev := CompareColumns(base, current, n - 1, threshold, ks);
      CompareColumnsEntries(base, current, n - 1, threshold, ks);
      var name := base.columns[n - 1].name;
      forall i | 0 <= i < n - 1
        ensures && base.columns[i].name in r.value.report
                && r.value.report[base.columns[i].name] == prev.value.report[base.columns[i].name]
      {
        assert base.columns[i].name != name;
      }
    }
  }

  /** The p-value of base column `i` against its namesake in `current`. */
  function PValue(base: Frame, current: Frame, i: nat, ks: KsTest): Probability
    requires i < |base.columns| && HasColumn(current, base.columns[i].name)
  {
    ks(base.columns[i].cells, CellsOf(current, base.columns[i].name))
  }

  /** Some of the first `n` base columns has a p-value below the threshold,
      stated column by column from the last one down. */
  ghost predicate AnyDrift(base: Frame, current: Frame, n: nat, threshold: real, ks: KsTest)
    requires n <= |base.columns| && AllPresent(base, current, n)
  {
    n > 0 && (AnyDrift(base, current, n - 1, threshold, ks) || PValue(base, current, n - 1, ks) < threshold)
  }

  /** The column-by-column statement is the existential one. */
  lemma {:induction false} AnyDriftExists(base: Frame, current: Frame, n: nat, threshold: real, ks: KsTest)
    requires n <= |base.columns|
    ensures AllPresent(base, current, n) ==>
              (AnyDrift(base, current, n, threshold, ks) <==> exists i :: 0 <= i < n && PValue(base, current, i, ks) < threshold)
  {
    if n > 0 && AllPresent(base, current, n) {
      AnyDriftExists(base, current, n - 1, threshold, ks);
      if !AnyDrift(base, current, n, threshold, ks) {
        forall i | 0 <= i < n
          ensures PValue(base, current, i, ks) >= threshold
        {
          if i < n - 1 {
            assert !(exists j :: 0 <= j < n - 1 && PValue(base, current, j, ks) < threshold);
          }
        }
      }
    }
  }

  /** Drift is found exactly when some visited column's p-value is below the
      threshold: the per-column verdicts are OR-ed. */
  lemma {:induction false} CompareColumnsDriftFound(base: Frame, current: Frame, n: nat, threshold: real, ks: KsTest)
    requires n <= |base.columns|
    ensures var r := CompareColumns(base, current, n, threshold, ks);
      r.Ok? ==> && AllPresent(base, current, n)
                && (r.value.driftFound <==> AnyDrift(base, current, n, threshold, ks))
  {
    var r := CompareColumns(base, current, n, threshold, ks);
    CompareColumnsOutcome(base, current, n, threshold, ks);
    if n > 0 && r.Ok? {
      CompareColumnsStep(base, current, n, threshold, ks);
      CompareColumnsDriftFound(base, current, n - 1, threshold, ks);
    }
  }

  datatype DriftOutcome = DriftOutcome(driftFound: bool, report: DriftReport, store: Store)

  /** `validate_data_drift(base, current, threshold)`: one report entry per
      base column, drift found iff some column's p-value is below the
      threshold, and the report written to the configured path.  A base
      column the current frame lacks raises; the error is re-raised wrapped. */
  function ValidateDataDrift(base: Frame, current: Frame, threshold: real, ks: KsTest,
                             config: DataValidationConfig, store: Store): (r: Result<DriftOutcome>)
    ensures r.Ok? <==> AllPresent(base, current, |base.columns|)
    ensures r.Err? ==> exists i: nat :: FirstMissing(base, current, |base.columns|, i)
                                        && r.error == Wrapped(KeyError(base.columns[i].name))
    ensures r.Ok? ==> r.value.report.Keys == BaseNames(base, |base.columns|)
    ensures r.Ok? ==> forall i :: 0 <= i < |base.columns| ==>
                        r.value.report[base.columns[i].name] == Judge(PValue(base, current, i, ks), threshold)
    ensures r.Ok? ==> (r.value.driftFound <==>
                         exists i :: 0 <= i < |base.columns| && PValue(base, current, i, ks) < threshold)
    ensures r.Ok? ==> r.value.store == store[config.driftReportFilePath := Yaml(r.value.report)]
  {
    CompareColumnsOutcome(base, current, |base.columns|, threshold, ks);
    CompareColumnsKeys(base, current, |base.columns|, threshold, ks);
    CompareColumnsEntries(base, current, |base.columns|, threshold, ks);
    CompareColumnsDriftFound(base, current, |base.columns|, threshold, ks);
    AnyDriftExists(base, current, |base.columns|, threshold, ks);
    Wrap(
      var summary :- CompareColumns(base, current, |base.columns|, threshold, ks);
      Ok(DriftOutcome(summary.driftFound, summary.report,
                      store[config.driftReportFilePath := Yaml(summary.report)])))
  }

  /** Equivalently: drift is found iff some entry of the written report is
      flagged. */
  lemma DriftFoundIffFlaggedEntry(base: Frame, current: Frame, threshold: real, ks: KsTest,
                                  config: DataValidationConfig, store: Store)
    ensures var r := ValidateDataDrift(base, current, threshold, ks, config, store);
      r.Ok? ==> (r.value.driftFound <==> exists k :: k in r.value.report && r.value.report[k].driftStatus)
  {
    var r := ValidateDataDrift(base, current, threshold, ks, config, store);
    if r.Ok? {
      var report := r.value.report;
      if r.value.driftFound {
        var i :| 0 <= i < |base.columns| && PValue(base, current, i, ks) < threshold;
        assert base.columns[i].name in BaseNames(base, |base.columns|);
        assert report[base.columns[i].name].driftStatus;
      }
      if k :| k in report && report[k].driftStatus {
        var i :| 0 <= i < |base.columns| && base.columns[i].name == k;
        assert PValue(base, current, i, ks) < threshold;
      }
    }
  }

  /** Columns that only the current frame has are never compared: any two
      current frames that agree on the base frame's columns give the same
      verdicts. */
  lemma {:induction false} DriftIgnoresExtraCurrentColumns(
    base: Frame, c1: Frame, c2: Frame, n: nat, threshold: real, ks: KsTest)
    requires n <= |base.columns|
    requires forall i :: 0 <= i < |base.columns| ==>
      Select(c1, base.columns[i].name) == Select(c2, base.columns[i].name)
    ensures CompareColumns(base, c1, n, threshold, ks) == CompareColumns(base, c2, n, threshold, ks)
  {
    if n > 0 {
      var column := base.columns[n - 1];
      DriftIgnoresExtraCurrentColumns(base, c1, c2, n - 1, threshold, ks);
      var p1, p2 := CompareColumns(base, c1, n - 1, threshold, ks), CompareColumns(base, c2, n - 1, threshold, ks);
      var s1, s2 := Select(c1, column.name), Select(c2, column.name);
      assert p1 == p2 && s1 == s2;
      assert Extend(p1, column, s1, threshold, ks) == Extend(p2, column, s2, threshold, ks);
    }
  }

  // ---------------------------------------------------------------------------
  // The stage
  // ---------------------------------------------------------------------------

  /** The advisory warnings the stage logs; none of them stops it. */
  datatype Warning = TrainColumnCount | TestColumnCount | TrainNumericalColumns | TestNumericalColumns

  datatype ValidationOutput = ValidationOutput(
    artifact: DataValidationArtifact, report: DriftReport, warnings: seq<Warning>, store: Store)

  /** The warnings for the checks that failed, in check order. */
  function Flags(trainCount: bool, testCount: bool, trainNumerical: bool, testNumerical: bool): seq<Warning> {
    (if trainCount then [] else [TrainColumnCount])
    + (if testCount then [] else [TestColumnCount])
    + (if trainNumerical then [] else [TrainNumericalColumns])
    + (if testNumerical then [] else [TestNumericalColumns])
  }

  lemma FlagsMembership(trainCount: bool, testCount: bool, trainNumerical: bool, testNumerical: bool)
    ensures var w := Flags(trainCount, testCount, trainNumerical, testNumerical);
      && (TrainColumnCount in w <==> !trainCount)
      && (TestColumnCount in w <==> !testCount)
      && (TrainNumericalColumns in w <==> !trainNumerical)
      && (TestNumericalColumns in w <==> !testNumerical)
  {
  }

  /** The warnings of the four schema checks, in the order they are made.
      Only a schema without `columns` makes them raise. */
  function SchemaWarnings(schema: Schema, train: Frame, test: Frame): (r: Result<seq<Warning>>)
    ensures r.Ok? <==> schema.columns.Some?
    ensures r.Ok? ==> (TrainColumnCount in r.value <==> ColumnCountMatches(schema, train) == Ok(false))
    ensures r.Ok? ==> (TestColumnCount in r.value <==> ColumnCountMatches(schema, test) == Ok(false))
    ensures r.Ok? ==> (TrainNumericalColumns in r.value <==> !NumericalColumnsMatch(schema, train).matches)
    ensures r.Ok? ==> (TestNumericalColumns in r.value <==> !NumericalColumnsMatch(schema, test).matches)
  {
    match schema.columns
    case None => Err(Wrapped(KeyError("columns")))
    case Some(_) =>
      var trainCount := ColumnCountMatches(schema, train).value;
      var testCount := ColumnCountMatches(schema, test).value;
      var trainNumerical := NumericalColumnsMatch(schema, train).matches;
      var testNumerical := NumericalColumnsMatch(schema, test).matches;
      FlagsMembership(trainCount, testCount, trainNumerical, testNumerical);
      Ok(Flags(trainCount, testCount, trainNumerical, testNumerical))
  }

  /** The artifact's paths follow its status: the valid pair without drift,
      the invalid pair with it, and the drift report path always. */
  predicate Routed(a: DataValidationArtifact, config: DataValidationConfig) {
    && a.driftReportFilePath == config.driftReportFilePath
    && (a.validationStatus ==>
          && a.validTrainFilePath == Some(config.validTrainFilePath)
          && a.validTestFilePath == Some(config.validTestFilePath)
          && a.invalidTrainFilePath.None? && a.invalidTestFilePath.None?)
    && (!a.validationStatus ==>
          && a.invalidTrainFilePath == Some(config.invalidTrainFilePath)
          && a.invalidTestFilePath == Some(config.invalidTestFilePath)
          && a.validTrainFilePath.None? && a.validTestFilePath.None?)
  }

  /** Where the train split is written for a given verdict. */
  function TrainDestination(config: DataValidationConfig, valid: bool): string {
    if valid then config.validTrainFilePath else config.invalidTrainFilePath
  }

  function TestDestination(config: DataValidationConfig, valid: bool): string {
    if valid then config.validTestFilePath else config.invalidTestFilePath
  }

  /** The routing step: both frames are written, unchanged, to the pair the
      verdict selects, and the artifact records that pair. */
  function Route(config: DataValidationConfig, train: Frame, test: Frame,
                 drift: DriftOutcome, warnings: seq<Warning>): (o: ValidationOutput)
    ensures o.artifact.validationStatus == !drift.driftFound
    ensures Routed(o.artifact, config)
    ensures o.report == drift.report && o.warnings == warnings
    ensures var valid := o.artifact.validationStatus;
      && TrainDestination(config, valid) in o.store && TestDestination(config, valid) in o.store
      && o.store[TestDestination(config, valid)] == Csv(test)
      && (TrainDestination(config, valid) != TestDestination(config, valid) ==>
            o.store[TrainDestination(config, valid)] == Csv(train))
      && (forall p :: p in drift.store && p != TrainDestination(config, valid) && p != TestDestination(config, valid)
            ==> p in o.store && o.store[p] == drift.store[p])
  {
    var valid := !drift.driftFound;
    var outTrain := TrainDestination(config, valid);
    var outTest := TestDestination(config, valid);
    ValidationOutput(
      DataValidationArtifact(
        valid,
        if valid then Some(outTrain) else None,
        if valid then Some(outTest) else None,
        if valid then None else Some(outTrain),
        if valid then None else Some(outTest),
        config.driftReportFilePath),
      drift.report,
      warnings,
      drift.store[outTrain := Csv(train)][outTest := Csv(test)])
  }

  /** Routing after the drift report was written over `store` leaves every
      other file of `store` as it was. */
  lemma RouteKeepsOthers(config: DataValidationConfig, train: Frame, test: Frame,
                         drift: DriftOutcome, warnings: seq<Warning>, store: Store)
    requires drift.store == store[config.driftReportFilePath := Yaml(drift.report)]
    ensures var o := Route(config, train, test, drift, warnings);
      var valid := o.artifact.validationStatus;
      forall p ::
        (p in store && p != TrainDestination(config, valid) && p != TestDestination(config, valid)
         && p != config.driftReportFilePath) ==> p in o.store && o.store[p] == store[p]
  {
  }

  /** The verdicts of a validation of `train` against `test`: every train
      column is in the test split, the report has one entry per train column
      judging its p-value against 0.05, and the status holds iff no p-value is
      below 0.05. */
  ghost predicate JudgedReport(o: ValidationOutput, train: Frame, test: Frame, ks: KsTest) {
    && AllPresent(train, test, |train.columns|)
    && o.report.Keys == BaseNames(train, |train.columns|)
    && (forall i :: 0 <= i < |train.columns| ==>
          train.columns[i].name in o.report
          && o.report[train.columns[i].name] == Judge(PValue(train, test, i, ks), DefaultThreshold))
    && (o.artifact.validationStatus <==>
          forall i :: 0 <= i < |train.columns| ==> PValue(train, test, i, ks) >= DefaultThreshold)
  }

  /** What a validation leaves in the store it started from: the two splits
      at the pair of paths the status chose, the report at its path unless a
      split was written over it, and every other file as it was. */
  ghost predicate WrittenAsRouted(o: ValidationOutput, config: DataValidationConfig,
                                  trainBlob: Blob, testBlob: Blob, store: Store) {
    var valid := o.artifact.validationStatus;
    var outTrain := TrainDestination(config, valid);
    var outTest := TestDestination(config, valid);
    && outTrain in o.store && outTest in o.store
    && o.store[outTest] == testBlob
    && (outTrain != outTest ==> o.store[outTrain] == trainBlob)
    && (config.driftReportFilePath != outTrain && config.driftReportFilePath != outTest ==>
          config.driftReportFilePath in o.store && o.store[config.driftReportFilePath] == Yaml(o.report))
    && (forall p :: p in store && p != outTrain && p != outTest && p != config.driftReportFilePath ==>
          p in o.store && o.store[p] == store[p])
  }

  /** The drift test with the train split as base, then the routing. */
  function DriftAndRoute(train: Frame, test: Frame, config: DataValidationConfig,
                         warnings: seq<Warning>, ks: KsTest, store: Store): (r: Result<ValidationOutput>)
    ensures r.Ok? <==> AllPresent(train, test, |train.columns|)
    ensures r.Err? ==> r.error.Wrapped?
    ensures r.Ok? ==> r.value.warnings == warnings && Routed(r.value.artifact, config)
    ensures r.Ok? ==> JudgedReport(r.value, train, test, ks)
    ensures r.Ok? ==> WrittenAsRouted(r.value, config, Csv(train), Csv(test), store)
  {
    var drift :- ValidateDataDrift(train, test, DefaultThreshold, ks, config, store);
    RouteKeepsOthers(config, train, test, drift, warnings, store);
    Ok(Route(config, train, test, drift, warnings))
  }

  /** The stage after both splits are read: the advisory schema checks, the
      drift test with the train split as base, and the routing. */
  function ValidateSplits(train: Frame, test: Frame, config: DataValidationConfig,
                          schema: Schema, ks: KsTest, store: Store): (r: Result<ValidationOutput>)
    ensures r.Ok? <==> schema.columns.Some? && AllPresent(train, test, |train.columns|)
    ensures r.Err? ==> r.error.Wrapped?
    ensures r.Ok? ==> Routed(r.value.artifact, config)
    ensures r.Ok? ==> JudgedReport(r.value, train, test, ks)
    ensures r.Ok? ==> WrittenAsRouted(r.value, config, Csv(train), Csv(test), store)
  {
    var warnings :- SchemaWarnings(schema, train, test);
    DriftAndRoute(train, test, config, warnings, ks, store)
  }

  /** `initiate_data_validation`: read both splits, then validate them. */
  function InitiateDataValidation(ingestion: DataIngestionArtifact, config: DataValidationConfig,
                                  schema: Schema, ks: KsTest, store: Store): (r: Result<ValidationOutput>)
    ensures ingestion.trainedFilePath !in store ==>
      r == Err(Wrapped(Wrapped(FileNotFound(ingestion.trainedFilePath))))
    ensures ReadCsv(store, ingestion.trainedFilePath).Ok? && ReadCsv(store, ingestion.testFilePath).Ok? ==>
      r == Wrap(ValidateSplits(ReadCsv(store, ingestion.trainedFilePath).value, ReadCsv(store, ingestion.testFilePath).value,
                               config, schema, ks, store))
    ensures r.Ok? <==>
      && ReadCsv(store, ingestion.trainedFilePath).Ok? && ReadCsv(store, ingestion.testFilePath).Ok?
      && schema.columns.Some?
      && AllPresent(ReadCsv(store, ingestion.trainedFilePath).value, ReadCsv(store, ingestion.testFilePath).value,
                    |ReadCsv(store, ingestion.trainedFilePath).value.columns|)
    ensures r.Ok? ==> Routed(r.value.artifact, config)
    ensures r.Ok? ==>
      JudgedReport(r.value, ReadCsv(store, ingestion.trainedFilePath).value, ReadCsv(store, ingestion.testFilePath).value, ks)
    ensures r.Ok? ==>
      WrittenAsRouted(r.value, config, store[ingestion.trainedFilePath], store[ingestion.testFilePath], store)
  {
    Wrap(
      var train :- Wrap(ReadCsv(store, ingestion.trainedFilePath));
      var test :- Wrap(ReadCsv(store, ingestion.testFilePath));
      ValidateSplits(train, test, config, schema, ks, store))
  }

  /** The schema checks are advisory: two schemas that both list `columns`
      lead to the same artifact, report and written files; only the logged
      warnings may differ. */
  lemma SchemaChecksAreAdvisory(ingestion: DataIngestionArtifact, config: DataValidationConfig,
                                s1: Schema, s2: Schema, ks: KsTest, store: Store)
    requires s1.columns.Some? && s2.columns.Some?
    ensures var r1 := InitiateDataValidation(ingestion, config, s1, ks, store);
            var r2 := InitiateDataValidation(ingestion, config, s2, ks, store);
            && (r1.Ok? <==> r2.Ok?)
            && (r1.Ok? ==> r1.value.artifact == r2.value.artifact && r1.value.report == r2.value.report
                           && r1.value.store == r2.value.store)
  {
    var train := ReadCsv(store, ingestion.trainedFilePath);
    var test := ReadCsv(store, ingestion.testFilePath);
    if train.Ok? && test.Ok? {
      var w1 := SchemaWarnings(s1, train.value, test.value);
      var w2 := SchemaWarnings(s2, train.value, test.value);
      assert w1.Ok? && w2.Ok?;
      var drift := ValidateDataDrift(train.value, test.value, DefaultThreshold, ks, config, store);
      if drift.Ok? {
        var o1 := Route(config, train.value, test.value, drift.value, w1.value);
        var o2 := Route(config, train.value, test.value, drift.value, w2.value);
        assert o1.artifact == o2.artifact && o1.store == o2.store;
      }
    }
  }
}
