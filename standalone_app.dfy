/**
 The standalone classification page: upload a CSV or Excel file, keep it in
 the session under "dataset", set up a PyCaret classification experiment on the
 chosen target, compare six common models and, on request, predict one row
 typed as comma-separated numbers. Nothing is cached: every pass through the
 page with a loaded file sets up and compares again.
 */
module StandaloneApp {
  import opened Frames
  import opened AutoML

  // ---------------------------------------------------------------------------
  // str.split and its inverse str.join
  // ---------------------------------------------------------------------------

  /** `s.split(sep)`: the pieces between the separators, always at least one. */
  function Split(s: string, sep: char): (r: seq<string>)
    ensures |r| > 0
  {
    if s == [] then [[]]
    else
      var pieces, c := Split(s[..|s| - 1], sep), s[|s| - 1];
      if c == sep then pieces + [[]]
      else pieces[..|pieces| - 1] + [pieces[|pieces| - 1] + [c]]
  }

  /** `sep.join(pieces)`. */
  function Join(pieces: seq<string>, sep: char): string
    requires |pieces| > 0
  {
    if |pieces| == 1 then pieces[0]
    else Join(pieces[..|pieces| - 1], sep) + [sep] + pieces[|pieces| - 1]
  }

  function Occurrences(s: string, c: char): nat
  {
    multiset(s)[c]
  }

  /** There is one piece per separator, plus one. */
  lemma {:induction false} SplitCount(s: string, sep: char)
    ensures |Split(s, sep)| == Occurrences(s, sep) + 1
  {
    if s != [] {
      SplitCount(s[..|s| - 1], sep);
      assert s == s[..|s| - 1] + [s[|s| - 1]];
    }
  }

  /** No piece contains the separator. */
  lemma {:induction false} SplitPieces(s: string, sep: char)
    ensures forall k :: 0 <= k < |Split(s, sep)| ==> sep !in Split(s, sep)[k]
  {
    if s != [] {
      SplitPieces(s[..|s| - 1], sep);
    }
  }

  /** Joining the pieces with the separator gives the text back. */
  lemma {:induction false} JoinSplit(s: string, sep: char)
    ensures Join(Split(s, sep), sep) == s
  {
    if s != [] {
      var init, c := s[..|s| - 1], s[|s| - 1];
      JoinSplit(init, sep);
      var pieces := Split(init, sep);
      var m := |pieces|;
      if c != sep && m > 1 {
        var r := pieces[..m - 1] + [pieces[m - 1] + [c]];
        assert r[..m - 1] == pieces[..m - 1];
      }
      assert s == init + [c];
    }
  }

  /** Text without the separator is a single piece. */
  lemma {:induction false} SplitWithout(t: string, sep: char)
    requires sep !in t
    ensures Split(t, sep) == [t]
  {
    if t != [] {
      SplitWithout(t[..|t| - 1], sep);
      assert t == t[..|t| - 1] + [t[|t| - 1]];
    }
  }

  /** Splitting one more character: a separator opens a new piece, anything else extends the last one. */
  lemma SplitLast(s: string, c: char, sep: char)
    ensures Split(s + [c], sep) ==
      var p := Split(s, sep);
      if c == sep then p + [[]] else p[..|p| - 1] + [p[|p| - 1] + [c]]
  {
    assert (s + [c])[..|s|] == s;
  }

  lemma ExtendLast<T>(x: seq<seq<T>>, y: seq<seq<T>>, c: T)
    requires |y| > 0
    ensures var xy := x + y;
      xy[..|xy| - 1] + [xy[|xy| - 1] + [c]] == x + (y[..|y| - 1] + [y[|y| - 1] + [c]])
  {
    var xy := x + y;
    assert xy[|xy| - 1] == y[|y| - 1];
    assert xy[..|xy| - 1] == x + y[..|y| - 1];
  }

  /** A separator between two texts splits them apart. */
  lemma {:induction false} SplitAround(a: string, sep: char, b: string)
    ensures Split(a + [sep] + b, sep) == Split(a, sep) + Split(b, sep)
  {
    if b == [] {
      assert a + [sep] + b == a + [sep];
      SplitLast(a, sep, sep);
    } else {
      var b', c := b[..|b| - 1], b[|b| - 1];
      SplitAround(a, sep, b');
      assert a + [sep] + b == (a + [sep] + b') + [c];
      assert b == b' + [c];
      var x, y := Split(a, sep), Split(b', sep);
      SplitLast(a + [sep] + b', c, sep);
      SplitLast(b', c, sep);
      if c == sep {
        assert Split(b, sep) == y + [[]];
        assert Split(a + [sep] + b, sep) == (x + y) + [[]];
        assert (x + y) + [[]] == x + (y + [[]]);
      } else {
        ExtendLast(x, y, c);
        assert Split(b, sep) == y[..|y| - 1] + [y[|y| - 1] + [c]];
      }
    }
  }

  /** Splitting a join of separator-free pieces gives the pieces back. */
  lemma {:induction false} SplitJoin(pieces: seq<string>, sep: char)
    requires |pieces| > 0
    requires forall k :: 0 <= k < |pieces| ==> sep !in pieces[k]
    ensures Split(Join(pieces, sep), sep) == pieces
  {
    var m := |pieces|;
    SplitWithout(pieces[m - 1], sep);
    if m > 1 {
      SplitJoin(pieces[..m - 1], sep);
      SplitAround(Join(pieces[..m - 1], sep), sep, pieces[m - 1]);
      assert pieces == pieces[..m - 1] + [pieces[m - 1]];
    }
  }

  // ---------------------------------------------------------------------------
  // load_data
  // ---------------------------------------------------------------------------

  /** `file.name.split(".")[-1]`. */
  function FileFormat(name: string): string
  {
    var pieces := Split(name, '.');
    pieces[|pieces| - 1]
  }

  /**
   The format is the text after the last dot, or the whole name when it has
   no dot.
   */
  lemma FileFormatAfterLastDot(name: string)
    ensures '.' !in FileFormat(name)
    ensures '.' !in name ==> FileFormat(name) == name
    ensures '.' in name ==> exists stem :: name == stem + "." + FileFormat(name)
  {
    var pieces := Split(name, '.');
    var m := |pieces|;
    SplitPieces(name, '.');
    SplitCount(name, '.');
    JoinSplit(name, '.');
    if '.' in name {
      assert m > 1;
      var stem := Join(pieces[..m - 1], '.');
      assert name == stem + "." + FileFormat(name);
    } else {
      assert m == 1;
    }
  }

  /** Whatever comes before it, a dot-free extension is the format. */
  lemma FileFormatOfExtension(stem: string, ext: string)
    requires '.' !in ext
    ensures FileFormat(stem + "." + ext) == ext
  {
    SplitAround(stem, '.', ext);
    SplitWithout(ext, '.');
  }

  /** The two pandas readers the page calls. */
  datatype Reader = CsvReader | ExcelReader

  /** An uploaded file: its name and its bytes. */
  datatype Upload = Upload(name: string, content: seq<bv8>)

  /**
   What a reader makes of a file: a frame, or None when it raises (the page
   does not catch it).
   */
  type Readers = (Reader, Upload) -> Option<Frame>

  /**
   The reader for a format, compared exactly and case-sensitively: "csv" goes
   to the CSV reader, "xlsx" and "xls" to the Excel reader, anything else to neither.
   */
  function ReaderFor(format: string): (r: Option<Reader>)
    ensures r == Some(CsvReader) <==> format == "csv"
    ensures r == Some(ExcelReader) <==> format == "xlsx" || format == "xls"
    ensures r.None? <==> format != "csv" && format != "xlsx" && format != "xls"
  {
    if format == "csv" then Some(CsvReader)
    else if format in ["xlsx", "xls"] then Some(ExcelReader)
    else None
  }

  datatype Load = Loaded(reader: Reader, frame: Frame) | ReaderRaised(reader: Reader) | Unsupported

  function LoadData(file: Upload, read: Readers): (r: Load)
    ensures r.Unsupported? <==> ReaderFor(FileFormat(file.name)).None?
    ensures !r.Unsupported? ==>
      && r.reader == ReaderFor(FileFormat(file.name)).value
      && (r.Loaded? <==> read(r.reader, file).Some?)
      && (r.Loaded? ==> r.frame == read(r.reader, file).value)
  {
    match ReaderFor(FileFormat(file.name))
    case None => Unsupported
    case Some(reader) =>
      match read(reader, file)
      case None => ReaderRaised(reader)
      case Some(frame) => Loaded(reader, frame)
  }

  /** An upper-case extension is not recognised: the upload is refused without reading it. */
  lemma UpperCaseExtensionRefused(read: Readers, content: seq<bv8>)
    ensures LoadData(Upload("report.CSV", content), read) == Unsupported
  {
    FileFormatOfExtension("report", "CSV");
    assert "report" + "." + "CSV" == "report.CSV";
  }

  /** A dot-less name is its own format, and only the last extension counts. */
  lemma FormatExamples()
    ensures ReaderFor(FileFormat("csv")) == Some(CsvReader)
    ensures ReaderFor(FileFormat("sales.2024.xls")) == Some(ExcelReader)
    ensures ReaderFor(FileFormat("sales.csv.txt")).None?
  {
    FileFormatAfterLastDot("csv");
    FileFormatOfExtension("sales.2024", "xls");
    assert "sales.2024" + "." + "xls" == "sales.2024.xls";
    FileFormatOfExtension("sales.csv", "txt");
    assert "sales.csv" + "." + "txt" == "sales.csv.txt";
  }

  // ---------------------------------------------------------------------------
  // The prediction row
  // ---------------------------------------------------------------------------

  /** Why the typed row is rejected; both are the ValueError the page catches. */
  datatype RowError = BadToken(token: string) | WrongCount(values: nat, columns: nat)

  /** `float(x)` for one token, reporting the token it rejects; `parseFloat` stands for Python's float parser. */
  function ParseToken(parseFloat: string -> Option<real>): string -> Result<real, string>
  {
    x => if parseFloat(x).Some? then Ok(parseFloat(x).value) else Err(x)
  }

  /** `[float(x) for x in text.split(",")]`. */
  function ParseTokens(text: string, parseFloat: string -> Option<real>): Result<seq<real>, string>
  {
    Traverse(Split(text, ','), ParseToken(parseFloat))
  }

  /** `data.columns[:-1]`: every column name but the last. */
  function FeatureNames(data: Frame): (r: seq<string>)
    ensures |r| == if |data.columns| == 0 then 0 else |data.columns| - 1
    ensures forall k :: 0 <= k < |r| ==> r[k] == data.columns[k].name
  {
    var names := Names(data.columns);
    if |names| == 0 then [] else names[..|names| - 1]
  }

  function Zip(names: seq<string>, values: seq<real>): (r: Row)
    requires |names| == |values|
    ensures |r| == |names|
    ensures forall k :: 0 <= k < |r| ==> r[k] == (names[k], Num(values[k]))
  {
    if names == [] then [] else [(names[0], Num(values[0]))] + Zip(names[1..], values[1..])
  }

  /** `pd.DataFrame([values], columns=data.columns[:-1])` from the typed text. */
  function PredictionRow(data: Frame, text: string, parseFloat: string -> Option<real>): Result<Row, RowError>
  {
    match ParseTokens(text, parseFloat)
    case Err(token) => Err(BadToken(token))
    case Ok(values) =>
      var names := FeatureNames(data);
      if |values| != |names| then Err(WrongCount(|values|, |names|))
      else Ok(Zip(names, values))
  }

  /**
   The row is accepted exactly when every comma-separated token parses and
   there is one token per column but the last; it then pairs each of those
   columns, in order, with its token's number. The target chosen on the page
   plays no part.
   */
  lemma PredictionRowShape(data: Frame, text: string, parseFloat: string -> Option<real>)
    ensures var tokens := Split(text, ',');
      && (PredictionRow(data, text, parseFloat).Ok? <==>
            && (forall k :: 0 <= k < |tokens| ==> parseFloat(tokens[k]).Some?)
            && Occurrences(text, ',') + 1 == |FeatureNames(data)|)
      && (PredictionRow(data, text, parseFloat).Ok? ==>
            var row := PredictionRow(data, text, parseFloat).value;
            && |row| == |tokens| == |data.columns| - 1
            && forall k :: 0 <= k < |row| ==>
                 row[k] == (data.columns[k].name, Num(parseFloat(tokens[k]).value)))
  {
    var tokens := Split(text, ',');
    SplitCount(text, ',');
    TraverseShape(tokens, ParseToken(parseFloat));
    assert forall k :: 0 <= k < |tokens| ==> (ParseToken(parseFloat)(tokens[k]).Ok? <==> parseFloat(tokens[k]).Some?);
  }

  /** A token that does not parse is reported, whatever the columns. */
  lemma BadTokenRejected(data: Frame, text: string, parseFloat: string -> Option<real>, k: nat)
    requires k < |Split(text, ',')| && parseFloat(Split(text, ',')[k]).None?
    ensures PredictionRow(data, text, parseFloat).Err?
    ensures PredictionRow(data, text, parseFloat).error.BadToken?
  {
    TraverseShape(Split(text, ','), ParseToken(parseFloat));
    assert ParseToken(parseFloat)(Split(text, ',')[k]).Err?;
  }

  // ---------------------------------------------------------------------------
  // One pass through main
  // ---------------------------------------------------------------------------

  const CommonModels: seq<string> := ["dt", "rf", "xgboost", "logistic", "svc", "mlp"]

  /** `compare_models(include=common_models, fold=5)`. */
  const Comparison: CompareOptions := IncludeWithFolds(CommonModels, 5)

  /** `setup(data, target=target_column, session_id=123)`. */
  function ClassificationExperiment(data: Frame, target: string): Experiment
  {
    Experiment(Classification, data, target, Seeded(123))
  }

  /** The widgets of one pass: the target chosen, the text typed, whether Predict was clicked. */
  datatype AppUi = AppUi(target: string, text: string, predictClicked: bool)

  datatype PredictionShown = NotAsked | InvalidData | PredictedValue(value: Cell)

  /** What one pass ends with. */
  datatype Page =
    | AwaitingUpload
    | UnsupportedFormat
    | ReadFailed(reader: Reader)
    | NoTargetColumn
    | EngineFailed(error: EngineError)
    | Compared(target: string, best: Model, prediction: PredictionShown)

  datatype AppStep = AppStep(dataset: Option<Frame>, page: Page, calls: seq<Call>)

  /** The pass once a frame is loaded and stored: setup, compare, and maybe predict. */
  function Classify(data: Frame, ui: AppUi, parseFloat: string -> Option<real>, o: Oracle): AppStep
  {
    match SelectColumn(data, ui.target)
    case None => AppStep(Some(data), NoTargetColumn, [])
    case Some(target) =>
      var e := ClassificationExperiment(data, target);
      if o.setup(e).Some? then AppStep(Some(data), EngineFailed(o.setup(e).value), [SetupCall(e)])
      else
        var trained := [SetupCall(e), CompareCall(e, Comparison)];
        match o.compare(e, Comparison)
        case Raised(err) => AppStep(Some(data), EngineFailed(err), trained)
        case Returned(best) =>
          var (page, more) := Predicting(data, target, best, ui, parseFloat, o);
          AppStep(Some(data), page, trained + more)
  }

  /** After the comparison: the page shown and the prediction call made, if any. */
  function Predicting(data: Frame, target: string, best: Model, ui: AppUi, parseFloat: string -> Option<real>,
                      o: Oracle): (Page, seq<Call>)
  {
    if !ui.predictClicked then (Compared(target, best, NotAsked), [])
    else
      match PredictionRow(data, ui.text, parseFloat)
      case Err(_) => (Compared(target, best, InvalidData), [])
      case Ok(row) =>
        var call := [PredictCall(best, row)];
        match o.predict(best, row)
        case Raised(ValueError) => (Compared(target, best, InvalidData), call)
        case Raised(OtherError) => (EngineFailed(OtherError), call)
        case Returned(v) => (Compared(target, best, PredictedValue(v)), call)
  }

  /** One pass through `main` with the dataset the session holds. */
  function AppPass(stored: Option<Frame>, upload: Option<Upload>, ui: AppUi, read: Readers,
                   parseFloat: string -> Option<real>, o: Oracle): AppStep
  {
    if upload.None? then AppStep(stored, AwaitingUpload, [])
    else
      match LoadData(upload.value, read)
      case Unsupported => AppStep(stored, UnsupportedFormat, [])
      case ReaderRaised(reader) => AppStep(stored, ReadFailed(reader), [])
      case Loaded(_, data) => Classify(data, ui, parseFloat, o)
  }

  /** `st.session_state` as this page uses it: only the "dataset" key. */
  class AppSession {
    var dataset: Option<Frame>

    constructor ()
      ensures dataset == None
    {
      dataset := None;
    }
  }

  method MainPass(session: AppSession, upload: Option<Upload>, ui: AppUi, read: Readers,
                  parseFloat: string -> Option<real>, engine: Engine) returns (page: Page)
    modifies session, engine
    ensures var r := AppPass(old(session.dataset), upload, ui, read, parseFloat, engine.oracle);
      && session.dataset == r.dataset
      && page == r.page
      && engine.log == old(engine.log) + r.calls
  {
    if upload.None? {
      page := AwaitingUpload;
      return;
    }
    var loaded := LoadData(upload.value, read);
    if loaded.Unsupported? {
      page := UnsupportedFormat;
      return;
    }
    if loaded.ReaderRaised? {
      page := ReadFailed(loaded.reader);
      return;
    }
    var data := loaded.frame;
    session.dataset := Some(data);
    page := RunClassification(data, ui, parseFloat, engine);
  }

  /** Setting up, comparing and predicting on the stored frame. */
  method RunClassification(data: Frame, ui: AppUi, parseFloat: string -> Option<real>, engine: Engine)
    returns (page: Page)
    modifies engine
    ensures var r := Classify(data, ui, parseFloat, engine.oracle);
      page == r.page && engine.log == old(engine.log) + r.calls
  {
    var choice := SelectColumn(data, ui.target);
    if choice.None? {
      page := NoTargetColumn;
      return;
    }
    var target := choice.value;
    var e := ClassificationExperiment(data, target);
    var configured := engine.Setup(e);
    if configured.Raised? {
      page := EngineFailed(configured.error);
      return;
    }
    var best := engine.CompareModels(e, Comparison);
    if best.Raised? {
      page := EngineFailed(best.error);
      return;
    }
    if !ui.predictClicked {
      page := Compared(target, best.value, NotAsked);
      return;
    }
    var row := PredictionRow(data, ui.text, parseFloat);
    if row.Err? {
      page := Compared(target, best.value, InvalidData);
      return;
    }
    var answer := engine.PredictModel(best.value, row.value);
    if answer.Raised? {
      if answer.error == ValueError {
        page := Compared(target, best.value, InvalidData);
      } else {
        page := EngineFailed(OtherError);
      }
      return;
    }
    page := Compared(target, best.value, PredictedValue(answer.value));
  }

  // ---------------------------------------------------------------------------
  // Properties of a pass
  // ---------------------------------------------------------------------------

  /** The session's dataset is replaced exactly when the upload loads, and by the loaded frame. */
  lemma DatasetWrittenOnlyOnLoad(stored: Option<Frame>, upload: Option<Upload>, ui: AppUi, read: Readers,
                                 parseFloat: string -> Option<real>, o: Oracle)
    ensures var r := AppPass(stored, upload, ui, read, parseFloat, o);
      && (upload.Some? && LoadData(upload.value, read).Loaded? ==> r.dataset == Some(LoadData(upload.value, read).frame))
      && (upload.None? || !LoadData(upload.value, read).Loaded? ==> r.dataset == stored && r.calls == [])
  {
  }

  /** With a column to target, the pass sets up a seeded classification experiment and then compares the six common models with five folds. */
  lemma ClassifyTrains(data: Frame, ui: AppUi, parseFloat: string -> Option<real>, o: Oracle)
    requires |data.columns| > 0
    ensures var r := Classify(data, ui, parseFloat, o);
      var target := SelectColumn(data, ui.target).value;
      var e := ClassificationExperiment(data, target);
      var trained := [SetupCall(e), CompareCall(e, IncludeWithFolds(CommonModels, 5))];
      && r.dataset == Some(data)
      && (o.setup(e).Some? ==> r.calls == [SetupCall(e)] && r.page == EngineFailed(o.setup(e).value))
      && (o.setup(e).None? && o.compare(e, Comparison).Raised? ==>
            r.calls == trained && r.page == EngineFailed(o.compare(e, Comparison).error))
      && (o.setup(e).None? && o.compare(e, Comparison).Returned? ==>
            var step := Predicting(data, target, o.compare(e, Comparison).value, ui, parseFloat, o);
            r.calls == trained + step.1 && r.page == step.0)
  {
  }

  /**
   Every pass with a loaded frame trains again, whatever the session held
   before: there is no model cache.
   */
  lemma EveryPassTrains(stored1: Option<Frame>, stored2: Option<Frame>, file: Upload, ui: AppUi, read: Readers,
                        parseFloat: string -> Option<real>, o: Oracle)
    requires LoadData(file, read).Loaded?
    ensures AppPass(stored1, Some(file), ui, read, parseFloat, o) == AppPass(stored2, Some(file), ui, read, parseFloat, o)
    ensures AppPass(stored1, Some(file), ui, read, parseFloat, o) == Classify(LoadData(file, read).frame, ui, parseFloat, o)
  {
  }

  /**
   A predict click with a row that does not parse or does not fit the columns
   shows the invalid-data message and makes no prediction call; a prediction
   call is made only on a click, at most once, for the compared model on the
   row built from the text. A ValueError from the engine gets the same message.
   */
  lemma PredictionNeedsAValidRow(data: Frame, target: string, best: Model, ui: AppUi,
                                 parseFloat: string -> Option<real>, o: Oracle)
    ensures var (page, calls) := Predicting(data, target, best, ui, parseFloat, o);
      var row := PredictionRow(data, ui.text, parseFloat);
      && |calls| <= 1
      && (!ui.predictClicked ==> page == Compared(target, best, NotAsked) && calls == [])
      && (ui.predictClicked && row.Err? ==> page == Compared(target, best, InvalidData) && calls == [])
      && (ui.predictClicked && row.Ok? ==>
            && calls == [PredictCall(best, row.value)]
            && (o.predict(best, row.value) == Raised(ValueError) ==> page == Compared(target, best, InvalidData)))
  {
  }
}
