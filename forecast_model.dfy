/**
 The forecasting page of the dashboard (Models/forcastmodel.py). One call of
 `Forecasting` is one run of the page's script: it reads the session's dataset,
 applies the user's column choices, derives the input widgets for the features,
 and, depending on the one button the user clicked, trains and caches a model,
 predicts one row with the cached model, or clears the cache.

 The pure function `Forecast` states what one run does to the session, what it
 shows and which engine calls it makes; the imperative `Forecasting` is proved
 to do exactly that, and the lemmas below are about `Forecast`.
 */
module ForecastModel {
  import opened Frames
  import opened AutoML
  import opened SessionStore

  // ---------------------------------------------------------------------------
  // Feature schema: the input widgets built for the non-target columns
  // ---------------------------------------------------------------------------

  /** A number input with its default (None stands for NaN), or a select box with its options. */
  datatype Input = NumberInput(default: Option<real>) | SelectInput(options: seq<Cell>)

  datatype Field = Field(name: string, input: Input)

  /** `np.issubdtype(dtype, np.number)`: booleans and texts are not numeric here. */
  predicate IsNumeric(c: Column)
  {
    c.kind == Numeric
  }

  function NotNamed(t: string): Column -> bool
  {
    (c: Column) => c.name != t
  }

  /** `df.select_dtypes(include=[np.number]).columns`. */
  function NumericColumns(df: Frame): seq<Column>
  {
    Filter(df.columns, IsNumeric)
  }

  /** `df.select_dtypes(exclude=[np.number]).columns`. */
  function CategoricalColumns(df: Frame): seq<Column>
  {
    Filter(df.columns, Not(IsNumeric))
  }

  /** The columns that get an input, in the order of the `input_data` keys. */
  function Features(df: Frame, t: string): seq<Column>
  {
    Filter(df.columns, Both(IsNumeric, NotNamed(t))) + CategoricalColumns(df)
  }

  /** The widget of one feature column: the mean as default, or the distinct values as options. */
  function FieldOf(c: Column): Field
  {
    if IsNumeric(c) then Field(c.name, NumberInput(Mean(c.cells)))
    else Field(c.name, SelectInput(Distinct(c.cells)))
  }

  function InputSchema(df: Frame, t: string): seq<Field>
  {
    var fs := Features(df, t);
    seq(|fs|, i requires 0 <= i < |fs| => FieldOf(fs[i]))
  }

  function FieldNames(fs: seq<Field>): seq<string>
  {
    seq(|fs|, i requires 0 <= i < |fs| => fs[i].name)
  }

  /**
   What a widget returns: the value the user entered when the widget accepts
   it, otherwise its default (a select box defaults to its first option).
   */
  function WidgetValue(f: Field, entered: map<string, Cell>): Cell
  {
    match f.input
    case NumberInput(d) =>
      if f.name in entered && entered[f.name].Num? then entered[f.name]
      else if d.Some? then Num(d.value) else Null
    case SelectInput(options) =>
      if f.name in entered && entered[f.name] in options then entered[f.name]
      else if |options| > 0 then options[0] else Null
  }

  /**
   A widget only returns what it offers: an accepted entry as entered, a
   select box one of its options, a number input a number unless its default
   is NaN and nothing numeric was entered.
   */
  lemma WidgetValueMeaning(f: Field, entered: map<string, Cell>)
    ensures var v := WidgetValue(f, entered);
      && (f.input.NumberInput? ==>
            (v.Num? <==> (f.name in entered && entered[f.name].Num?) || f.input.default.Some?)
            && (!v.Num? ==> v == Null))
      && (f.input.NumberInput? && f.name in entered && entered[f.name].Num? ==> v == entered[f.name])
      && (f.input.SelectInput? && |f.input.options| > 0 ==> v in f.input.options)
      && (f.input.SelectInput? && f.name in entered && entered[f.name] in f.input.options ==> v == entered[f.name])
      && (f.input.SelectInput? && |f.input.options| == 0 ==> v == Null)
  {
  }

  function Entry(c: Column, entered: map<string, Cell>): (string, Cell)
  {
    (c.name, WidgetValue(FieldOf(c), entered))
  }

  function Entries(cols: seq<Column>, entered: map<string, Cell>): Row
  {
    seq(|cols|, i requires 0 <= i < |cols| => Entry(cols[i], entered))
  }

  /** The `input_data` dictionary: one widget value per feature, in key order. */
  function InputRow(df: Frame, t: string, entered: map<string, Cell>): Row
  {
    Entries(Features(df, t), entered)
  }

  /** The column chosen as target exists and is numeric. */
  predicate IsNumericTarget(df: Frame, t: string)
  {
    Find(df, t).Some? && IsNumeric(Find(df, t).value)
  }

  lemma EntriesAppend(a: seq<Column>, b: seq<Column>, entered: map<string, Cell>)
    ensures Entries(a + b, entered) == Entries(a, entered) + Entries(b, entered)
  {
    assert forall i :: 0 <= i < |a| ==> (a + b)[i] == a[i];
  }

  /**
   The two loops that fill `input_data`: first every numeric column except the
   target, then every non-numeric column, each in frame order.
   */
  method BuildInputData(df: Frame, target: string, entered: map<string, Cell>) returns (inputData: Row)
    ensures inputData == InputRow(df, target, entered)
  {
    inputData := AddNumericEntries(NumericColumns(df), target, entered, []);
    inputData := AddCategoricalEntries(CategoricalColumns(df), entered, inputData);
    InputRowInTwoPasses(df, target, entered);
  }

  /** The first loop: a number widget's value for each numeric column but the target. */
  method AddNumericEntries(numericColumns: seq<Column>, target: string, entered: map<string, Cell>, start: Row)
    returns (inputData: Row)
    ensures inputData == start + Entries(Filter(numericColumns, NotNamed(target)), entered)
  {
    inputData := start;
    for i := 0 to |numericColumns|
      invariant inputData == start + Entries(Filter(numericColumns[..i], NotNamed(target)), entered)
    {
      var col := numericColumns[i];
      assert numericColumns[..i + 1][..i] == numericColumns[..i];
      ghost var kept := Filter(numericColumns[..i], NotNamed(target));
      if col.name != target {
        EntriesAppend(kept, [col], entered);
        inputData := inputData + [Entry(col, entered)];
      }
    }
    assert numericColumns[..|numericColumns|] == numericColumns;
  }

  /** The second loop: a select widget's value for each categorical column. */
  method AddCategoricalEntries(categoricalColumns: seq<Column>, entered: map<string, Cell>, start: Row)
    returns (inputData: Row)
    ensures inputData == start + Entries(categoricalColumns, entered)
  {
    inputData := start;
    for i := 0 to |categoricalColumns|
      invariant inputData == start + Entries(categoricalColumns[..i], entered)
    {
      EntriesAppend(categoricalColumns[..i], [categoricalColumns[i]], entered);
      assert categoricalColumns[..i + 1] == categoricalColumns[..i] + [categoricalColumns[i]];
      inputData := inputData + [Entry(categoricalColumns[i], entered)];
    }
    assert categoricalColumns[..|categoricalColumns|] == categoricalColumns;
  }

  /** `input_data` is the numeric pass followed by the categorical pass. */
  lemma InputRowInTwoPasses(df: Frame, t: string, entered: map<string, Cell>)
    ensures InputRow(df, t, entered) ==
      Entries(Filter(NumericColumns(df), NotNamed(t)), entered) + Entries(CategoricalColumns(df), entered)
  {
    FilterTwice(df.columns, IsNumeric, NotNamed(t));
    EntriesAppend(Filter(df.columns, Both(IsNumeric, NotNamed(t))), CategoricalColumns(df), entered);
  }

  // ---------------------------------------------------------------------------
  // Properties of the feature schema
  // ---------------------------------------------------------------------------

  /** Under unique labels, the feature columns are exactly the columns other than the numeric target. */
  lemma FeaturesAreNonTargetColumns(df: Frame, t: string)
    requires DistinctNames(df.columns) && IsNumericTarget(df, t)
    ensures forall c :: c in Features(df, t) <==> c in df.columns && c.name != t
  {
    FilterMembers(df.columns, Both(IsNumeric, NotNamed(t)));
    FilterMembers(df.columns, Not(IsNumeric));
    forall c | c in df.columns && c.name == t ensures IsNumeric(c) {
      var j :| 0 <= j < |df.columns| && df.columns[j] == c;
      FindUnique(df, j);
    }
    forall c ensures Both(IsNumeric, NotNamed(t))(c) == (IsNumeric(c) && c.name != t) {
    }
    forall c ensures Not(IsNumeric)(c) == !IsNumeric(c) {
    }
  }

  lemma NamesOf(cols: seq<Column>, n: string)
    ensures n in Names(cols) <==> exists c :: c in cols && c.name == n
  {
    if n in Names(cols) {
      var i :| 0 <= i < |cols| && Names(cols)[i] == n;
      assert cols[i] in cols;
    }
  }

  /**
   The schema has one field for every column except the target, and none for
   the target: the numeric target is excluded by name, and a numeric column
   is never among the categorical ones.
   */
  lemma InputSchemaKeys(df: Frame, t: string)
    requires DistinctNames(df.columns) && IsNumericTarget(df, t)
    ensures forall n :: n in FieldNames(InputSchema(df, t)) <==> n in Names(df.columns) && n != t
    ensures t !in FieldNames(InputSchema(df, t))
  {
    var fs := Features(df, t);
    assert FieldNames(InputSchema(df, t)) == Names(fs);
    FeaturesAreNonTargetColumns(df, t);
    forall n ensures n in Names(fs) <==> n in Names(df.columns) && n != t {
      NamesOf(fs, n);
      NamesOf(df.columns, n);
    }
  }

  /**
   Each field is built from the frame's column of the same name: a numeric
   column gets a number input defaulting to its mean, any other column a
   select box offering its distinct values.
   */
  lemma InputSchemaEntries(df: Frame, t: string, k: nat)
    requires DistinctNames(df.columns) && k < |InputSchema(df, t)|
    ensures var f := InputSchema(df, t)[k];
      && Find(df, f.name).Some?
      && var c := Find(df, f.name).value;
      && (IsNumeric(c) ==> c.name != t && f.input == NumberInput(Mean(c.cells)))
      && (!IsNumeric(c) ==> f.input == SelectInput(Distinct(c.cells)))
  {
    var fs := Features(df, t);
    FilterMembers(df.columns, Both(IsNumeric, NotNamed(t)));
    FilterMembers(df.columns, Not(IsNumeric));
    assert fs[k] in fs;
    var j :| 0 <= j < |df.columns| && df.columns[j] == fs[k];
    FindUnique(df, j);
  }

  /** Within one filtered group, the fields follow the frame's column order. */
  lemma FilterKeepsColumnOrder(df: Frame, p: Column -> bool, i: nat, j: nat)
    requires DistinctNames(df.columns) && i < j < |Filter(df.columns, p)|
    ensures var r := Filter(df.columns, p);
      ColumnIndex(df.columns, r[i].name) < ColumnIndex(df.columns, r[j].name)
  {
    var ix := Positions(df.columns, p);
    FindUnique(df, ix[i]);
    FindUnique(df, ix[j]);
  }

  lemma FilterPasses(s: seq<Column>, p: Column -> bool, k: nat)
    requires k < |Filter(s, p)|
    ensures p(Filter(s, p)[k])
  {
    FilterMembers(s, p);
    assert Filter(s, p)[k] in Filter(s, p);
  }

  /** A field is named after its feature column and is a select box exactly for a non-numeric column. */
  lemma SchemaField(df: Frame, t: string, k: nat)
    requires k < |InputSchema(df, t)|
    ensures InputSchema(df, t)[k].name == Features(df, t)[k].name
    ensures InputSchema(df, t)[k].input.SelectInput? <==> !IsNumeric(Features(df, t)[k])
  {
  }

  /** A feature column is numeric exactly when it comes from the first (numeric) pass. */
  lemma FeatureKind(df: Frame, t: string, k: nat)
    requires k < |Features(df, t)|
    ensures var num := Filter(df.columns, Both(IsNumeric, NotNamed(t)));
      (IsNumeric(Features(df, t)[k]) <==> k < |num|) && (k < |num| ==> Features(df, t)[k] == num[k])
  {
    var p, q := Both(IsNumeric, NotNamed(t)), Not(IsNumeric);
    var num, cat := Filter(df.columns, p), Filter(df.columns, q);
    var fs := Features(df, t);
    assert fs == num + cat;
    if k < |num| {
      assert fs[k] == num[k];
      FilterPasses(df.columns, p, k);
    } else {
      assert fs[k] == cat[k - |num|];
      FilterPasses(df.columns, q, k - |num|);
    }
  }

  /** The feature columns: numeric ones first, each group in frame order. */
  lemma FeatureOrder(df: Frame, t: string, i: nat, j: nat)
    requires DistinctNames(df.columns) && i < j < |Features(df, t)|
    ensures var fs := Features(df, t);
      && (!IsNumeric(fs[i]) ==> !IsNumeric(fs[j]))
      && (IsNumeric(fs[i]) == IsNumeric(fs[j]) ==>
            ColumnIndex(df.columns, fs[i].name) < ColumnIndex(df.columns, fs[j].name))
  {
    FeatureKind(df, t, i);
    FeatureKind(df, t, j);
    var num := Filter(df.columns, Both(IsNumeric, NotNamed(t)));
    if j < |num| {
      FilterKeepsColumnOrder(df, Both(IsNumeric, NotNamed(t)), i, j);
    } else if i >= |num| {
      CategoricalFeatureOrder(df, t, i, j);
    }
  }

  lemma CategoricalFeatureOrder(df: Frame, t: string, i: nat, j: nat)
    requires DistinctNames(df.columns) && i < j < |Features(df, t)|
    requires |Filter(df.columns, Both(IsNumeric, NotNamed(t)))| <= i
    ensures ColumnIndex(df.columns, Features(df, t)[i].name) < ColumnIndex(df.columns, Features(df, t)[j].name)
  {
    var num, cat := Filter(df.columns, Both(IsNumeric, NotNamed(t))), Filter(df.columns, Not(IsNumeric));
    var fs := Features(df, t);
    assert fs == num + cat;
    assert fs[i] == cat[i - |num|] && fs[j] == cat[j - |num|];
    FilterKeepsColumnOrder(df, Not(IsNumeric), i - |num|, j - |num|);
  }

  /**
   The key order of `input_data`, which becomes the column order of the row
   sent to `predict_model`: every number input comes before every select box,
   and within each group the fields follow the frame's column order.
   */
  lemma InputSchemaOrder(df: Frame, t: string, entered: map<string, Cell>, i: nat, j: nat)
    requires DistinctNames(df.columns) && i < j < |InputSchema(df, t)|
    ensures var schema, row := InputSchema(df, t), InputRow(df, t, entered);
      && row[i].0 == schema[i].name && row[j].0 == schema[j].name
      && (schema[i].input.SelectInput? ==> schema[j].input.SelectInput?)
      && (schema[i].input.SelectInput? == schema[j].input.SelectInput? ==>
            ColumnIndex(df.columns, schema[i].name) < ColumnIndex(df.columns, schema[j].name))
  {
    InputRowFollowsSchema(df, t, entered);
    SchemaField(df, t, i);
    SchemaField(df, t, j);
    FeatureOrder(df, t, i, j);
  }

  /** `input_data` holds one entry per widget, in widget order, each the value its widget returns. */
  lemma InputRowFollowsSchema(df: Frame, t: string, entered: map<string, Cell>)
    ensures var schema, row := InputSchema(df, t), InputRow(df, t, entered);
      && |row| == |schema|
      && forall k :: 0 <= k < |row| ==> row[k] == (schema[k].name, WidgetValue(schema[k], entered))
  {
  }

  // ---------------------------------------------------------------------------
  // One run of the page
  // ---------------------------------------------------------------------------

  /** Streamlit reruns the script once per click, so a run sees at most one clicked button. */
  datatype Action = NoClick | StartClicked | PredictClicked | RetrainClicked

  /** The widgets' state in one run: the columns to drop, the target picked, the entered values, the click. */
  datatype Ui = Ui(drop: set<string>, target: string, entered: map<string, Cell>, action: Action)

  /** Why a run returned early. */
  datatype Stop = NoData | NoColumnLeft | NonNumericTarget(column: string)

  datatype Prediction = NotRequested | Untrained | Predicted(target: string, predicted: Cell)

  datatype Outcome =
    | Stopped(stop: Stop)
    /** An engine call raised; Streamlit ends the run and shows the exception. */
    | Aborted(error: EngineError)
    | Completed(target: string, schema: seq<Field>, inputs: Row, board: Option<Leaderboard>,
                prediction: Prediction, rerun: bool)

  datatype Step = Step(after: State, outcome: Outcome, calls: seq<Call>)

  const RegressionSetup := Tuned(42, true, true, true, 0.95, false, "bat_forecast")
  const RmseSort := SortBy("RMSE")

  function TrainingExperiment(df: Frame, t: string): Experiment
  {
    Experiment(Regression, df, t, RegressionSetup)
  }

  /** The retrain button: delete the model and its results when a model is cached. */
  function Retrained(s: State): State
  {
    if s.model.Some? then State(s.data, None, None) else s
  }

  /** The training branch, reached only when no model is cached and the start button was clicked. */
  function Train(s: State, df: Frame, t: string, schema: seq<Field>, inputs: Row, o: Oracle): Step
  {
    var e := TrainingExperiment(df, t);
    if o.setup(e).Some? then Step(s, Aborted(o.setup(e).value), [SetupCall(e)])
    else
      match o.compare(e, RmseSort)
      case Raised(err) => Step(s, Aborted(err), [SetupCall(e), CompareCall(e, RmseSort)])
      case Returned(best) =>
        var results := Head(o.pull(e, RmseSort));
        Step(State(s.data, Some(best), Some(results)),
             Completed(t, schema, inputs, Some(results), NotRequested, false),
             [SetupCall(e), CompareCall(e, RmseSort), PullCall(e, RmseSort)])
  }

  /** The working frame of a run: the session's dataset without the dropped columns. */
  function WorkingFrame(s: State, ui: Ui): Frame
    requires s.data.Some?
  {
    Drop(s.data.value, ui.drop)
  }

  /** What one run of the page does, as a function of the session before it. */
  function Forecast(s: State, ui: Ui, o: Oracle): Step
  {
    if s.data.None? then Step(s, Stopped(NoData), [])
    else RunOn(s, WorkingFrame(s, ui), ui, o)
  }

  /** The target selection and its check, on the working frame. */
  function RunOn(s: State, df: Frame, ui: Ui, o: Oracle): Step
  {
    var choice := SelectColumn(df, ui.target);
    if choice.None? then Step(s, Stopped(NoColumnLeft), [])
    else if !IsNumericTarget(df, choice.value) then Step(s, Stopped(NonNumericTarget(choice.value)), [])
    else Act(s, df, choice.value, ui, o)
  }

  /** The buttons, once the working frame and a numeric target `t` are settled. */
  function Act(s: State, df: Frame, t: string, ui: Ui, o: Oracle): Step
  {
    var schema, inputs := InputSchema(df, t), InputRow(df, t, ui.entered);
    if s.model.None? && ui.action == StartClicked then Train(s, df, t, schema, inputs, o)
    else
      var board := if s.model.Some? then s.modelResults else None;
      if ui.action == PredictClicked then
        if s.model.None? then Step(s, Completed(t, schema, inputs, board, Untrained, false), [])
        else
          var call := [PredictCall(s.model.value, inputs)];
          match o.predict(s.model.value, inputs)
          case Raised(err) => Step(s, Aborted(err), call)
          case Returned(v) => Step(s, Completed(t, schema, inputs, board, Predicted(t, v), false), call)
      else if ui.action == RetrainClicked then
        Step(Retrained(s), Completed(t, schema, inputs, board, NotRequested, true), [])
      else Step(s, Completed(t, schema, inputs, board, NotRequested, false), [])
  }

  method Forecasting(session: SessionState, ui: Ui, engine: Engine) returns (outcome: Outcome)
    requires session.Valid()
    modifies session, engine
    ensures session.Valid()
    ensures var r := Forecast(old(session.Snapshot()), ui, engine.oracle);
      && session.Snapshot() == r.after
      && outcome == r.outcome
      && engine.log == old(engine.log) + r.calls
  {
    if session.data.None? {
      outcome := Stopped(NoData);
      return;
    }
    ghost var before := session.Snapshot();
    var df := Drop(session.data.value, ui.drop);
    assert Forecast(before, ui, engine.oracle) == RunOn(before, df, ui, engine.oracle);
    var choice := SelectColumn(df, ui.target);
    if choice.None? {
      outcome := Stopped(NoColumnLeft);
      return;
    }
    var target := choice.value;
    if !IsNumericTarget(df, target) {
      outcome := Stopped(NonNumericTarget(target));
      return;
    }
    assert Forecast(before, ui, engine.oracle) == Act(before, df, target, ui, engine.oracle);
    outcome := Settled(session, df, target, ui, engine);
  }

  /** The part of a run past the checks: the target `t` of the working frame `df` is numeric. */
  method Settled(session: SessionState, df: Frame, target: string, ui: Ui, engine: Engine) returns (outcome: Outcome)
    requires session.Valid()
    modifies session, engine
    ensures session.Valid()
    ensures var r := Act(old(session.Snapshot()), df, target, ui, engine.oracle);
      && session.Snapshot() == r.after
      && outcome == r.outcome
      && engine.log == old(engine.log) + r.calls
  {
    var schema := InputSchema(df, target);
    var inputData := BuildInputData(df, target, ui.entered);

    var board: Option<Leaderboard> := None;
    if session.model.None? {
      if ui.action == StartClicked {
        var e := TrainingExperiment(df, target);
        var configured := engine.Setup(e);
        if configured.Raised? {
          outcome := Aborted(configured.error);
          return;
        }
        var best := engine.CompareModels(e, RmseSort);
        if best.Raised? {
          outcome := Aborted(best.error);
          return;
        }
        var results := engine.Pull(e, RmseSort);
        board := Some(Head(results));
        session.model := Some(best.value);
        session.modelResults := Some(Head(results));
      }
    } else {
      board := session.modelResults;
    }

    var prediction := NotRequested;
    if ui.action == PredictClicked {
      if session.model.Some? {
        var answer := engine.PredictModel(session.model.value, inputData);
        if answer.Raised? {
          outcome := Aborted(answer.error);
          return;
        }
        prediction := Predicted(target, answer.value);
      } else {
        prediction := Untrained;
      }
    }

    var rerun := false;
    if ui.action == RetrainClicked {
      if session.model.Some? {
        session.model := None;
        session.modelResults := None;
      }
      rerun := true;
    }
    outcome := Completed(target, schema, inputData, board, prediction, rerun);
  }

  // ---------------------------------------------------------------------------
  // Properties of a run
  // ---------------------------------------------------------------------------

  /**
   Past the checks, a run is never stopped: any result shows the settled
   target with the schema and the input row of the working frame, the only
   setup is on that frame and target, and a training call happens only when
   no model is cached and the start button was clicked. With a model cached
   the stored results are shown; without one, and without a start click, none are.
   */
  lemma ActFacts(s: State, df: Frame, t: string, ui: Ui, o: Oracle)
    ensures var r := Act(s, df, t, ui, o);
      && !r.outcome.Stopped?
      && (r.outcome.Completed? ==>
            r.outcome.target == t && r.outcome.schema == InputSchema(df, t)
            && r.outcome.inputs == InputRow(df, t, ui.entered))
      && (forall c :: c in r.calls && c.SetupCall? ==> c.experiment == TrainingExperiment(df, t))
      && (forall c :: c in r.calls && !c.PredictCall? ==> s.model.None? && ui.action == StartClicked)
      && r.after.data == s.data
      && (s.model.Some? && ui.action != RetrainClicked ==> r.after == s)
      && (s.model.Some? && r.outcome.Completed? ==> r.outcome.board == s.modelResults)
      && (s.model.None? && ui.action != StartClicked && r.outcome.Completed? ==> r.outcome.board.None?)
  {
    if s.model.None? && ui.action == StartClicked {
      var e := TrainingExperiment(df, t);
      if o.setup(e).None? && o.compare(e, RmseSort).Returned? {
        assert Act(s, df, t, ui, o).calls == [SetupCall(e), CompareCall(e, RmseSort), PullCall(e, RmseSort)];
      }
    }
  }

  /**
   A run stops early exactly when there is no dataset, no column is left, or
   the target is not numeric; an early stop changes nothing and calls no engine.
   */
  lemma EarlyStops(s: State, ui: Ui, o: Oracle)
    ensures var r := Forecast(s, ui, o);
      && (r.outcome.Stopped? ==> r.after == s && r.calls == [])
      && (r.outcome == Stopped(NoData) <==> s.data.None?)
      && (s.data.Some? ==>
            (r.outcome == Stopped(NoColumnLeft) <==> |WorkingFrame(s, ui).columns| == 0))
      && (s.data.Some? && |WorkingFrame(s, ui).columns| > 0 ==>
            var t := SelectColumn(WorkingFrame(s, ui), ui.target).value;
            (r.outcome.Stopped? <==> !IsNumericTarget(WorkingFrame(s, ui), t))
            && (r.outcome.Stopped? ==> r.outcome == Stopped(NonNumericTarget(t))))
  {
    if s.data.Some? {
      var df := WorkingFrame(s, ui);
      if |df.columns| > 0 {
        ActFacts(s, df, SelectColumn(df, ui.target).value, ui, o);
      }
    }
  }

  /**
   A run that gets past the checks uses a target among the columns not
   dropped (the one the user picked, when it is still offered), builds the
   schema and the input row from the working frame, and sets up any
   experiment on that frame and target.
   */
  lemma RunUsesWorkingFrame(s: State, ui: Ui, o: Oracle)
    requires s.data.Some?
    ensures var r, df := Forecast(s, ui, o), WorkingFrame(s, ui);
      && (r.outcome.Completed? ==>
            && r.outcome.target in Names(df.columns)
            && r.outcome.target in Names(s.data.value.columns)
            && r.outcome.target !in ui.drop
            && (ui.target in Names(df.columns) ==> r.outcome.target == ui.target)
            && IsNumericTarget(df, r.outcome.target)
            && r.outcome.schema == InputSchema(df, r.outcome.target)
            && r.outcome.inputs == InputRow(df, r.outcome.target, ui.entered))
      && (forall c :: c in r.calls && c.SetupCall? ==>
            c.experiment == TrainingExperiment(df, SelectColumn(df, ui.target).value))
  {
    var df := WorkingFrame(s, ui);
    DropColumns(s.data.value, ui.drop);
    var choice := SelectColumn(df, ui.target);
    if choice.Some? && IsNumericTarget(df, choice.value) {
      ActFacts(s, df, choice.value, ui, o);
    }
  }

  /**
   Training is reachable only when no model is cached and the start button
   was clicked. A cached model survives every run except a retrain, whatever
   columns are dropped or picked as target, and then nothing is set up or
   compared; every completed run shows the stored results.
   */
  lemma TrainingGate(s: State, ui: Ui, o: Oracle)
    ensures var r := Forecast(s, ui, o);
      && (forall c :: c in r.calls && !c.PredictCall? ==> s.model.None? && ui.action == StartClicked)
      && (s.model.Some? && ui.action != RetrainClicked ==> r.after == s)
      && r.after.data == s.data
      && (s.model.Some? && r.outcome.Completed? ==> r.outcome.board == s.modelResults)
  {
    if s.data.Some? {
      var df := WorkingFrame(s, ui);
      var choice := SelectColumn(df, ui.target);
      if choice.Some? && IsNumericTarget(df, choice.value) {
        ActFacts(s, df, choice.value, ui, o);
      }
    }
  }

  /** Once a run has cached a model, no later run sets up or compares again until a retrain. */
  lemma NoSecondTraining(s: State, ui1: Ui, ui2: Ui, o: Oracle)
    requires s.model.None? && Forecast(s, ui1, o).after.model.Some?
    ensures forall c :: c in Forecast(Forecast(s, ui1, o).after, ui2, o).calls ==> c.PredictCall?
    ensures ui2.action != RetrainClicked ==>
      Forecast(Forecast(s, ui1, o).after, ui2, o).after == Forecast(s, ui1, o).after
  {
    TrainingGate(Forecast(s, ui1, o).after, ui2, o);
  }

  /**
   A successful training run stores the compared best model and the first
   row of the pulled results together, after exactly one setup, one compare
   and one pull on the working frame.
   */
  lemma TrainingStoresModelAndResults(s: State, ui: Ui, o: Oracle)
    requires s.model.None? && Forecast(s, ui, o).after.model.Some?
    ensures s.data.Some? && ui.action == StartClicked
    ensures var r, df := Forecast(s, ui, o), WorkingFrame(s, ui);
      var e := TrainingExperiment(df, SelectColumn(df, ui.target).value);
      && o.compare(e, RmseSort).Returned?
      && r.after == State(s.data, Some(o.compare(e, RmseSort).value), Some(Head(o.pull(e, RmseSort))))
      && r.calls == [SetupCall(e), CompareCall(e, RmseSort), PullCall(e, RmseSort)]
      && r.outcome.Completed? && r.outcome.board == Some(Head(o.pull(e, RmseSort)))
  {
  }

  /** Model and results are both present or both absent after every run. */
  lemma RunKeepsConsistency(s: State, ui: Ui, o: Oracle)
    requires Consistent(s)
    ensures Consistent(Forecast(s, ui, o).after)
  {
  }

  /** A failed setup or compare leaves the session as it was: no model, no results. */
  lemma FailedTrainingKeepsCacheEmpty(s: State, ui: Ui, o: Oracle)
    requires Consistent(s) && s.model.None? && Forecast(s, ui, o).outcome.Aborted?
    ensures Forecast(s, ui, o).after == s
    ensures Forecast(s, ui, o).after.modelResults.None?
  {
  }

  /**
   The predict button: with a cached model, exactly one `predict_model` call
   on the single row of the current inputs, and the label shown under the
   target's name, or the run ended by the exception `predict_model` raises;
   without one, only a warning and no engine call.
   */
  lemma PredictBehaviour(s: State, ui: Ui, o: Oracle)
    requires s.data.Some? && ui.action == PredictClicked
    requires |WorkingFrame(s, ui).columns| > 0
    requires IsNumericTarget(WorkingFrame(s, ui), SelectColumn(WorkingFrame(s, ui), ui.target).value)
    ensures var r, df := Forecast(s, ui, o), WorkingFrame(s, ui);
      var t := SelectColumn(df, ui.target).value;
      var row := InputRow(df, t, ui.entered);
      && r.after == s
      && (s.model.None? ==> r.calls == [] && r.outcome.Completed? && r.outcome.prediction == Untrained)
      && (s.model.Some? ==>
            && r.calls == [PredictCall(s.model.value, row)]
            && (o.predict(s.model.value, row).Returned? ==>
                  r.outcome.Completed? &&
                  r.outcome.prediction == Predicted(t, o.predict(s.model.value, row).value))
            && (o.predict(s.model.value, row).Raised? ==>
                  r.outcome == Aborted(o.predict(s.model.value, row).error)))
  {
  }

  /** Retrain clears the cache when it reaches the button, and a second retrain changes nothing. */
  lemma RetrainIdempotent(s: State, ui: Ui, o: Oracle)
    requires Consistent(s) && ui.action == RetrainClicked
    ensures var r := Forecast(s, ui, o);
      && (r.outcome.Completed? ==> r.after.model.None? && r.after.modelResults.None?)
      && Forecast(r.after, ui, o).after == r.after
      && Forecast(r.after, ui, o).calls == []
  {
  }
}
