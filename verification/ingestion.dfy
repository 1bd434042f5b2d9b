/** The ingestion stage (networksecurity/components/data_ingestion.py): read
    the collection, drop Mongo's `_id`, turn "na" strings into NaN, save the
    feature store and a seeded train/test split. */
module DataIngestion {
  import opened Errors
  import opened Frames
  import opened Store
  import opened Config
  import opened Artifacts

  /** The records of `collection` in `database`, already as a frame, or the
      error the client raised (connection, authentication, ...). */
  type MongoSource = (string, string) -> Result<Frame>

  /** `train_test_split(df, test_size, random_state)`: the two parts, or the
      error scikit-learn raises (for instance on an empty frame). */
  type Splitter = (Frame, real, int) -> Result<(Frame, Frame)>

  /** The fixed `random_state` of the split. */
  const SplitSeed := 7

  /** The column Mongo adds to every record. */
  const MongoIdColumn := "_id"

  /** `df.replace({"na": np.nan})` on one cell: only the exact text "na". */
  function NaToMissing(c: Cell): (d: Cell)
    ensures c == Text("na") ==> d == Missing
    ensures c != Text("na") ==> d == c
  {
    if c == Text("na") then Missing else c
  }

  /** Lines 50-55: `_id` removed when present, then "na" replaced by NaN. */
  function CleanFrame(f: Frame): (r: Frame)
    ensures r.height == f.height
    ensures !HasColumn(r, MongoIdColumn)
    ensures |r.columns| == |f.columns| - (if HasColumn(f, MongoIdColumn) then 1 else 0)
    ensures forall c :: c in r.columns ==> exists d :: d in f.columns && d.name == c.name && d.kind == c.kind
    ensures forall d :: d in f.columns && d.name != MongoIdColumn ==> d.name in Names(r.columns)
    ensures forall i, j :: 0 <= i < |r.columns| && 0 <= j < r.height ==> r.columns[i].cells[j] != Text("na")
  {
    var kept := if HasColumn(f, MongoIdColumn) then Drop(f, MongoIdColumn).value else f;
    MapCellsColumns(kept, NaToMissing);
    MapCells(kept, NaToMissing)
  }

  /** Cleaning changes cells and nothing else: every kept column holds the
      input column's cells with "na" made missing, every other cell as it
      was, and only `_id` is dropped. */
  lemma CleanFrameCells(f: Frame)
    ensures var r := CleanFrame(f);
      && (forall n :: HasColumn(f, n) && n != MongoIdColumn <==> HasColumn(r, n))
      && (forall n :: HasColumn(r, n) ==>
            forall j :: 0 <= j < f.height ==> CellsOf(r, n)[j] == NaToMissing(CellsOf(f, n)[j]))
  {
    var r := CleanFrame(f);
    var kept := if HasColumn(f, MongoIdColumn) then Drop(f, MongoIdColumn).value else f;
    MapCellsColumns(kept, NaToMissing);
    forall n | HasColumn(f, n) && n != MongoIdColumn
      ensures HasColumn(kept, n)
    {
      var d := f.columns[IndexOf(f.columns, n)];
      assert d in f.columns;
      var i :| 0 <= i < |kept.columns| && kept.columns[i] == d;
      assert Names(kept.columns)[i] == n;
    }
    forall n | HasColumn(r, n)
      ensures HasColumn(f, n)
      ensures forall j :: 0 <= j < f.height ==> CellsOf(r, n)[j] == NaToMissing(CellsOf(f, n)[j])
    {
      CellsOfSubset(f, kept, n);
      MapCellsSelect(kept, NaToMissing, n);
    }
  }

  /** Cleaning a clean frame changes nothing. */
  lemma CleanFrameIdempotent(f: Frame)
    ensures CleanFrame(CleanFrame(f)) == CleanFrame(f)
  {
    var once := CleanFrame(f);
    var twice := CleanFrame(once);
    assert |twice.columns| == |once.columns|;
    forall i | 0 <= i < |once.columns|
      ensures twice.columns[i] == once.columns[i]
    {
      assert Names(twice.columns)[i] == Names(once.columns)[i];
      assert twice.columns[i].cells == once.columns[i].cells;
    }
  }

  datatype IngestionOutput = IngestionOutput(artifact: DataIngestionArtifact, store: Store)

  /** `initate_data_ingestion`: export, feature store, split. */
  function InitiateDataIngestion(config: DataIngestionConfig, source: MongoSource,
                                 split: Splitter, store: Store): (r: Result<IngestionOutput>)
    ensures var raw := source(config.databaseName, config.collectionName);
      && (raw.Err? ==> r == Err(Wrapped(Wrapped(raw.error))))
      && (raw.Ok? ==>
            var parts := split(CleanFrame(raw.value), config.trainTestSplitRatio, SplitSeed);
            && (parts.Err? ==> r == Err(Wrapped(Wrapped(parts.error))))
            && (parts.Ok? ==>
                  && r.Ok?
                  && r.value.artifact == DataIngestionArtifact(config.trainingFilePath, config.testingFilePath)
                  && ReadCsv(r.value.store, config.testingFilePath) == Ok(parts.value.1)
                  && (config.trainingFilePath != config.testingFilePath ==>
                        ReadCsv(r.value.store, config.trainingFilePath) == Ok(parts.value.0))
                  && (config.featureStoreFilePath != config.trainingFilePath
                      && config.featureStoreFilePath != config.testingFilePath ==>
                        ReadCsv(r.value.store, config.featureStoreFilePath) == Ok(CleanFrame(raw.value)))))
    ensures r.Ok? ==> forall p :: (p in store && p != config.featureStoreFilePath
                                   && p != config.trainingFilePath && p != config.testingFilePath) ==>
                        p in r.value.store && r.value.store[p] == store[p]
  {
    Wrap(
      var raw :- Wrap(source(config.databaseName, config.collectionName));
      var frame := CleanFrame(raw);
      var saved := store[config.featureStoreFilePath := Csv(frame)];
      var parts :- Wrap(split(frame, config.trainTestSplitRatio, SplitSeed));
      Ok(IngestionOutput(
           DataIngestionArtifact(config.trainingFilePath, config.testingFilePath),
           saved[config.trainingFilePath := Csv(parts.0)][config.testingFilePath := Csv(parts.1)])))
  }
}
