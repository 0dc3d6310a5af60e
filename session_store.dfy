/**
 Streamlit's per-session key/value store as the dashboard uses it: the
 uploaded dataset under "data", and the cached model with its best results row
 under "model" and "model_results". A key that is absent is None here; the
 dashboard's entry point stores None under "data" when it is absent, so the
 two mean the same to every reader.
 */
module SessionStore {
  import opened Frames
  import opened AutoML

  datatype State = State(data: Option<Frame>, model: Option<Model>, modelResults: Option<Leaderboard>)

  /** The model and its results are stored together and deleted together. */
  predicate Consistent(s: State)
  {
    s.model.Some? <==> s.modelResults.Some?
  }

  class SessionState {
    var data: Option<Frame>
    var model: Option<Model>
    var modelResults: Option<Leaderboard>

    function Snapshot(): State
      reads this
    {
      State(data, model, modelResults)
    }

    predicate Valid()
      reads this
    {
      Consistent(Snapshot())
    }

    /** A fresh session: no dataset and no model. */
    constructor ()
      ensures Valid() && Snapshot() == State(None, None, None)
    {
      data := None;
      model := None;
      modelResults := None;
    }
  }
}
