/** Run-scoped configuration (networksecurity/entity/config_entity.py): one
    timestamped artifact root per pipeline run, and the data-ingestion paths
    composed under it. */
module Config {
  import opened Errors
  import opened Constants

  // ---------------------------------------------------------------------------
  // Calendar moments and the `%m_%d_%Y_%H_%M_%S` rendering
  // ---------------------------------------------------------------------------

  datatype Moment = Moment(year: int, month: int, day: int, hour: int, minute: int, second: int)

  predicate IsLeapYear(y: int) {
    y % 4 == 0 && (y % 100 != 0 || y % 400 == 0)
  }

  function DaysInMonth(y: int, m: int): int {
    if m == 2 then (if IsLeapYear(y) then 29 else 28)
    else if m == 4 || m == 6 || m == 9 || m == 11 then 30
    else 31
  }

  /** The values a Python `datetime` can hold (to the second). */
  predicate ValidMoment(t: Moment) {
    && 1 <= t.year <= 9999
    && 1 <= t.month <= 12
    && 1 <= t.day <= DaysInMonth(t.year, t.month)
    && 0 <= t.hour < 24
    && 0 <= t.minute < 60
    && 0 <= t.second < 60
  }

  type DateTime = t: Moment | ValidMoment(t) witness Moment(1, 1, 1, 0, 0, 0)

  function Pow10(n: nat): nat {
    if n == 0 then 1 else 10 * Pow10(n - 1)
  }

  predicate IsDigit(c: char) {
    '0' <= c <= '9'
  }

  /** `n` as exactly `width` decimal digits, zero-padded on the left. */
  function Pad(n: nat, width: nat): (s: string)
    requires n < Pow10(width)
    ensures |s| == width
    ensures forall i :: 0 <= i < |s| ==> IsDigit(s[i])
  {
    if width == 0 then ""
    else Pad(n / 10, width - 1) + [(('0' as int) + n % 10) as char]
  }

  /** The value of a run of decimal digits. */
  function DigitsValue(s: string): nat
    requires forall i :: 0 <= i < |s| ==> IsDigit(s[i])
  {
    if s == [] then 0
    else
      assert IsDigit(s[|s| - 1]);
      10 * DigitsValue(s[..|s| - 1]) + ((s[|s| - 1] as int) - ('0' as int))
  }

  lemma {:induction false} PadValue(n: nat, width: nat)
    requires n < Pow10(width)
    ensures DigitsValue(Pad(n, width)) == n
  {
    if width > 0 {
      var s := Pad(n, width);
      assert s[..|s| - 1] == Pad(n / 10, width - 1);
      PadValue(n / 10, width - 1);
    }
  }

  predicate IsSeparatorPosition(i: int) {
    i == 2 || i == 5 || i == 10 || i == 13 || i == 16
  }

  /** The shape every rendered timestamp has: `MM_DD_YYYY_HH_MM_SS`. */
  predicate TimestampShape(s: string) {
    && |s| == 19
    && forall i :: 0 <= i < |s| ==>
         (IsSeparatorPosition(i) ==> s[i] == '_') && (!IsSeparatorPosition(i) ==> IsDigit(s[i]))
  }

  /** `strftime("%m_%d_%Y_%H_%M_%S")`. */
  function FormatTimestamp(t: DateTime): (s: string)
    ensures TimestampShape(s)
    ensures '/' !in s
  {
    var s := Pad(t.month, 2) + "_" + Pad(t.day, 2) + "_" + Pad(t.year, 4) + "_"
      + Pad(t.hour, 2) + "_" + Pad(t.minute, 2) + "_" + Pad(t.second, 2);
    assert forall i :: 0 <= i < |s| ==> IsSeparatorPosition(i) || IsDigit(s[i]);
    s
  }

  /** Reads the six fields back out of a rendered timestamp. */
  function ParseTimestamp(s: string): Moment
    requires TimestampShape(s)
  {
    Moment(DigitsValue(s[6..10]), DigitsValue(s[0..2]), DigitsValue(s[3..5]),
           DigitsValue(s[11..13]), DigitsValue(s[14..16]), DigitsValue(s[17..19]))
  }

  lemma {:induction false} TimestampRoundTrip(t: DateTime)
    ensures ParseTimestamp(FormatTimestamp(t)) == t
  {
    var s := FormatTimestamp(t);
    assert s[0..2] == Pad(t.month, 2);
    assert s[3..5] == Pad(t.day, 2);
    assert s[6..10] == Pad(t.year, 4);
    assert s[11..13] == Pad(t.hour, 2);
    assert s[14..16] == Pad(t.minute, 2);
    assert s[17..19] == Pad(t.second, 2);
    PadValue(t.month, 2);
    PadValue(t.day, 2);
    PadValue(t.year, 4);
    PadValue(t.hour, 2);
    PadValue(t.minute, 2);
    PadValue(t.second, 2);
  }

  /** Two runs started in different seconds get different artifact roots. */
  lemma TimestampInjective(a: DateTime, b: DateTime)
    ensures FormatTimestamp(a) == FormatTimestamp(b) ==> a == b
  {
    TimestampRoundTrip(a);
    TimestampRoundTrip(b);
  }

  // ---------------------------------------------------------------------------
  // Path composition
  // ---------------------------------------------------------------------------

  /** `os.path.join(a, b)` on POSIX: an absolute `b` replaces `a`; otherwise a
      separator is inserted unless `a` is empty or already ends in one. */
  function Join(a: string, b: string): (p: string)
    ensures |b| <= |p| && p[|p| - |b|..] == b
    ensures !(|b| > 0 && b[0] == '/') ==> |a| <= |p| && p[..|a|] == a
  {
    if |b| > 0 && b[0] == '/' then b
    else if |a| == 0 || a[|a| - 1] == '/' then a + b
    else a + "/" + b
  }

  /** Joining two relative components inserts exactly one separator. */
  lemma JoinRelative(a: string, b: string)
    requires |a| > 0 && a[|a| - 1] != '/'
    requires |b| > 0 && b[0] != '/'
    ensures Join(a, b) == a + "/" + b
  {
  }

  /** A file two relative components below a directory. */
  lemma JoinTwice(dir: string, sub: string, file: string)
    requires |dir| > 0 && dir[|dir| - 1] != '/'
    requires |sub| > 0 && sub[0] != '/' && sub[|sub| - 1] != '/'
    requires |file| > 0 && file[0] != '/'
    ensures Join(Join(dir, sub), file) == dir + "/" + sub + "/" + file
  {
    JoinRelative(dir, sub);
    var d := dir + "/" + sub;
    assert d[|d| - 1] == sub[|sub| - 1];
    JoinRelative(d, file);
  }

  predicate IsPrefix(p: string, s: string) {
    |p| <= |s| && s[..|p|] == p
  }

  // ---------------------------------------------------------------------------
  // TrainingPipeConfig
  // ---------------------------------------------------------------------------

  datatype TrainingPipeConfig = TrainingPipeConfig(
    pipelineName: string, artifactName: string, artifactDir: string, timestamp: string)

  /** `TrainingPipeConfig(timestamp)`.  The default `timestamp=datetime.now()`
      is evaluated once, when the class is defined; `definedAt` is that value,
      and it is what every call without an argument receives. */
  function NewTrainingPipeConfig(definedAt: DateTime, timestamp: Option<DateTime>): (c: TrainingPipeConfig)
    ensures TimestampShape(c.timestamp)
    ensures ParseTimestamp(c.timestamp) == (if timestamp.Some? then timestamp.value else definedAt)
    ensures c.artifactDir == ArtifactDirName + "/" + c.timestamp
    ensures c.pipelineName == PipelineName && c.artifactName == ArtifactDirName
  {
    var moment := if timestamp.Some? then timestamp.value else definedAt;
    var ts := FormatTimestamp(moment);
    TimestampRoundTrip(moment);
    TrainingPipeConfig(PipelineName, ArtifactDirName, Join(ArtifactDirName, ts), ts)
  }

  /** Configurations built without a timestamp in one process all share the
      timestamp fixed at class definition, so they share one artifact root. */
  lemma DefaultTimestampShared(definedAt: DateTime, other: DateTime)
    ensures NewTrainingPipeConfig(definedAt, None).artifactDir
         == NewTrainingPipeConfig(definedAt, Some(definedAt)).artifactDir
    ensures other != definedAt ==>
      NewTrainingPipeConfig(definedAt, None).artifactDir != NewTrainingPipeConfig(definedAt, Some(other)).artifactDir
  {
  }

  // ---------------------------------------------------------------------------
  // DataIngestionConfig
  // ---------------------------------------------------------------------------

  datatype DataIngestionConfig = DataIngestionConfig(
    dataIngestionDir: string,
    featureStoreFilePath: string,
    trainingFilePath: string,
    testingFilePath: string,
    trainTestSplitRatio: real,
    collectionName: string,
    databaseName: string)

  function NewDataIngestionConfig(p: TrainingPipeConfig): (c: DataIngestionConfig)
    ensures c.dataIngestionDir == Join(p.artifactDir, DataIngestionDirName)
    ensures c.featureStoreFilePath == c.dataIngestionDir + "/" + DataIngestionFeatureStoreDir + "/" + FeatureStoreFileName
    ensures c.trainingFilePath == c.dataIngestionDir + "/" + DataIngestionIngestedDir + "/" + TrainFileName
    ensures c.testingFilePath == c.dataIngestionDir + "/" + DataIngestionIngestedDir + "/" + TestFileName
    ensures c.trainTestSplitRatio == DataIngestionTrainTestSplitRatio
    ensures c.collectionName == DataIngestionCollectionName && c.databaseName == DataIngestionDatabaseName
  {
    var dir := Join(p.artifactDir, DataIngestionDirName);
    assert dir[|dir| - 1] == DataIngestionDirName[|DataIngestionDirName| - 1];
    JoinTwice(dir, DataIngestionFeatureStoreDir, FeatureStoreFileName);
    JoinTwice(dir, DataIngestionIngestedDir, TrainFileName);
    JoinTwice(dir, DataIngestionIngestedDir, TestFileName);
    DataIngestionConfig(
      dir,
      Join(Join(dir, DataIngestionFeatureStoreDir), FeatureStoreFileName),
      Join(Join(dir, DataIngestionIngestedDir), TrainFileName),
      Join(Join(dir, DataIngestionIngestedDir), TestFileName),
      DataIngestionTrainTestSplitRatio,
      DataIngestionCollectionName,
      DataIngestionDatabaseName)
  }

  /** Under any artifact root that is a plain relative directory, the
      ingestion paths are `<root>/data_ingestion/...`, and the train and test
      files are distinct siblings. */
  lemma IngestionPathsUnder(p: TrainingPipeConfig)
    requires |p.artifactDir| > 0 && p.artifactDir[|p.artifactDir| - 1] != '/'
    ensures var c := NewDataIngestionConfig(p);
            var root := p.artifactDir + "/";
            && c.dataIngestionDir == p.artifactDir + "/" + DataIngestionDirName
            && IsPrefix(root, c.featureStoreFilePath)
            && IsPrefix(root, c.trainingFilePath)
            && IsPrefix(root, c.testingFilePath)
            && c.trainingFilePath != c.testingFilePath
  {
    var c := NewDataIngestionConfig(p);
    var root := p.artifactDir + "/";
    JoinRelative(p.artifactDir, DataIngestionDirName);
    var dir := c.dataIngestionDir;
    assert dir == root + DataIngestionDirName;
    assert IsPrefix(root, dir + "/" + DataIngestionFeatureStoreDir + "/" + FeatureStoreFileName);
    assert IsPrefix(root, dir + "/" + DataIngestionIngestedDir + "/" + TrainFileName);
    assert IsPrefix(root, dir + "/" + DataIngestionIngestedDir + "/" + TestFileName);
    assert |c.trainingFilePath| != |c.testingFilePath|;
  }

  /** Every ingestion path of a run lies under `Artifacts/<timestamp>/`. */
  lemma IngestionPathsUnderRunRoot(definedAt: DateTime, timestamp: Option<DateTime>)
    ensures var p := NewTrainingPipeConfig(definedAt, timestamp);
            var c := NewDataIngestionConfig(p);
            var root := ArtifactDirName + "/" + p.timestamp + "/";
            && IsPrefix(root, c.featureStoreFilePath)
            && IsPrefix(root, c.trainingFilePath)
            && IsPrefix(root, c.testingFilePath)
            && c.trainingFilePath != c.testingFilePath
  {
    var p := NewTrainingPipeConfig(definedAt, timestamp);
    assert p.artifactDir[|p.artifactDir| - 1] == p.timestamp[18];
    IngestionPathsUnder(p);
  }

  // ---------------------------------------------------------------------------
  // Stage configurations whose constructors are not part of this model
  // ---------------------------------------------------------------------------

  /** The fields the validation stage reads from its configuration. */
  datatype DataValidationConfig = DataValidationConfig(
    validTrainFilePath: string,
    validTestFilePath: string,
    invalidTrainFilePath: string,
    invalidTestFilePath: string,
    driftReportFilePath: string)

  /** The fields the transformation stage reads from its configuration. */
  datatype DataTransformationConfig = DataTransformationConfig(
    transformedObjFilePath: string,
    transformedTrainFilePath: string,
    transformedTestFilePath: string)

  /** The field the trainer reads from its configuration. */
  datatype ModelTrainingConfig = ModelTrainingConfig(trainedModelFilePath: string)
}
