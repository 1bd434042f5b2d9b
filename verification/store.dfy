/** The artifact store: what the stages write to disk, as a map from path to
    the value written.  A read returns exactly what the last write to that path
    stored; serialisation formats are not modelled. */
module Store {
  import opened Errors
  import opened Frames
  import opened Estimators

  /** One entry of the drift report document. */
  datatype DriftEntry = DriftEntry(pValue: real, driftStatus: bool)

  /** The drift report: column name to its entry. */
  type DriftReport = map<string, DriftEntry>

  /** Objects written with `save_object` (pickle). */
  datatype Pickled =
    | PickledPreprocessor(preprocessor: Preprocessor)
    | PickledEstimator(model: ModelKind)
    | PickledNetworkModel(wrapped: Pickled, model: ModelKind)

  datatype Blob =
    | Csv(frame: Frame)        // DataFrame.to_csv
    | Yaml(report: DriftReport) // write_yaml_file
    | Npy(grid: Matrix)        // save_data_of_numpy_array
    | Pickle(obj: Pickled)     // save_object

  type Store = map<string, Blob>

  /** `pd.read_csv(path)`. */
  function ReadCsv(s: Store, path: string): (r: Result<Frame>)
    ensures r.Ok? <==> path in s && s[path].Csv?
    ensures r.Ok? ==> s[path] == Csv(r.value)
    ensures path !in s ==> r == Err(FileNotFound(path))
  {
    if path !in s then Err(FileNotFound(path))
    else if s[path].Csv? then Ok(s[path].frame)
    else Err(ValueError("not a CSV table: " + path))
  }

  /** `load_numpy_array_data(path)`. */
  function LoadArray(s: Store, path: string): (r: Result<Matrix>)
    ensures r.Ok? <==> path in s && s[path].Npy?
    ensures r.Ok? ==> s[path] == Npy(r.value)
  {
    if path !in s then Err(FileNotFound(path))
    else if s[path].Npy? then Ok(s[path].grid)
    else Err(ValueError("not a numpy array: " + path))
  }

  /** `load_object(path)`. */
  function LoadObject(s: Store, path: string): (r: Result<Pickled>)
    ensures r.Ok? <==> path in s && s[path].Pickle?
    ensures r.Ok? ==> s[path] == Pickle(r.value)
  {
    if path !in s then Err(FileNotFound(path))
    else if s[path].Pickle? then Ok(s[path].obj)
    else Err(ValueError("not a pickled object: " + path))
  }
}
