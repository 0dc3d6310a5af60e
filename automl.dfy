/**
 The boundary to the AutoML engine (PyCaret's `setup`, `compare_models`, `pull`
 and `predict_model`). What the engine computes is not modelled: an Oracle of
 total functions says what each call answers, and the Engine object records
 every call it receives, so that the callers' contracts can say which calls
 happen, in which order and with which arguments.
 */
module AutoML {
  import opened Frames

  /** The two PyCaret flavours the application imports. */
  datatype Task = Regression | Classification

  /** Keyword arguments of `setup` as the two callers pass them. */
  datatype SetupOptions =
    | Tuned(sessionId: int, normalize: bool, transformation: bool,
            removeMulticollinearity: bool, multicollinearityThreshold: real,
            logExperiment: bool, experimentName: string)
    | Seeded(sessionId: int)

  /** Keyword arguments of `compare_models`. */
  datatype CompareOptions = SortBy(metric: string) | IncludeWithFolds(models: seq<string>, fold: nat)

  /**
   A configured experiment. PyCaret keeps the last one set up as hidden global
   state; here it is the value `setup` is given and the later calls refer to.
   */
  datatype Experiment = Experiment(task: Task, data: Frame, target: string, options: SetupOptions)

  /** A trained model: an opaque token. */
  datatype Model = Model(token: nat)

  /** One row of the comparison grid that `pull` returns. */
  datatype ResultRow = ResultRow(modelName: string, scores: seq<real>)

  type Leaderboard = seq<ResultRow>

  /** The exceptions the callers distinguish: `ValueError` and anything else. */
  datatype EngineError = ValueError | OtherError

  /** What an engine call gives back: a value, or an exception it raises. */
  datatype Answer<T> = Returned(value: T) | Raised(error: EngineError)

  datatype Call =
    | SetupCall(experiment: Experiment)
    | CompareCall(experiment: Experiment, options: CompareOptions)
    | PullCall(experiment: Experiment, options: CompareOptions)
    | PredictCall(model: Model, row: Row)

  datatype Oracle = Oracle(
    setup: Experiment -> Option<EngineError>,
    compare: (Experiment, CompareOptions) -> Answer<Model>,
    pull: (Experiment, CompareOptions) -> Leaderboard,
    predict: (Model, Row) -> Answer<Cell>)

  /** `head(1)` of a results grid: its first row, or nothing when the grid is empty. */
  function Head(board: Leaderboard): (r: Leaderboard)
    ensures |r| <= 1 && |r| <= |board| && r == board[..|r|]
    ensures |r| == 1 <==> |board| > 0
  {
    if |board| == 0 then [] else board[..1]
  }

  class Engine {
    const oracle: Oracle
    var log: seq<Call>

    constructor (oracle: Oracle)
      ensures this.oracle == oracle && log == []
    {
      this.oracle := oracle;
      log := [];
    }

    method Setup(e: Experiment) returns (answer: Answer<Experiment>)
      modifies this
      ensures log == old(log) + [SetupCall(e)]
      ensures answer == if oracle.setup(e).Some? then Raised(oracle.setup(e).value) else Returned(e)
    {
      log := log + [SetupCall(e)];
      var failure := oracle.setup(e);
      if failure.Some? {
        answer := Raised(failure.value);
      } else {
        answer := Returned(e);
      }
    }

    method CompareModels(e: Experiment, options: CompareOptions) returns (answer: Answer<Model>)
      modifies this
      ensures log == old(log) + [CompareCall(e, options)]
      ensures answer == oracle.compare(e, options)
    {
      log := log + [CompareCall(e, options)];
      answer := oracle.compare(e, options);
    }

    method Pull(e: Experiment, options: CompareOptions) returns (board: Leaderboard)
      modifies this
      ensures log == old(log) + [PullCall(e, options)]
      ensures board == oracle.pull(e, options)
    {
      log := log + [PullCall(e, options)];
      board := oracle.pull(e, options);
    }

    method PredictModel(m: Model, row: Row) returns (answer: Answer<Cell>)
      modifies this
      ensures log == old(log) + [PredictCall(m, row)]
      ensures answer == oracle.predict(m, row)
    {
      log := log + [PredictCall(m, row)];
      answer := oracle.predict(m, row);
    }
  }
}
