/**
 The customer-data dashboard (Models/utils.py): uploading a CSV into the
 session, the missing-value report of the analysis page, the split of the
 selected columns into numeric and categorical ones, the quick overview, and
 the list of insights. Rendering, charts and the wording of the messages are
 not modelled; each page's result is a value saying which branch it took and
 with which data.
 */
module Dashboard {
  import opened Frames
  import opened SessionStore

  // ---------------------------------------------------------------------------
  // Data ingestion
  // ---------------------------------------------------------------------------

  /** What `pd.read_csv` does with the uploaded file: a frame, or the exception it raises. */
  datatype CsvParse = Parsed(frame: Frame) | EmptyData | Unparsable | ReadFailed(message: string)

  /** The message the ingestion page shows. */
  datatype Notice =
    | AwaitingUpload
    | Uploaded(rows: nat, columns: nat)
    | EmptyFile
    | InvalidCsv
    | UnexpectedUploadError(message: string)

  /** One run of the ingestion page, given what the uploader holds (None: no file). */
  function Ingest(s: State, upload: Option<CsvParse>): (State, Notice)
  {
    match upload
    case None => (s, AwaitingUpload)
    case Some(Parsed(f)) => (State(Some(f), s.model, s.modelResults), Uploaded(RowCount(f), |f.columns|))
    case Some(EmptyData) => (s, EmptyFile)
    case Some(Unparsable) => (s, InvalidCsv)
    case Some(ReadFailed(m)) => (s, UnexpectedUploadError(m))
  }

  method DataIngestion(session: SessionState, upload: Option<CsvParse>) returns (notice: Notice)
    requires session.Valid()
    modifies session
    ensures session.Valid()
    ensures (session.Snapshot(), notice) == Ingest(old(session.Snapshot()), upload)
  {
    if upload.None? {
      notice := AwaitingUpload;
      return;
    }
    match upload.value
    case Parsed(data) =>
      session.data := Some(data);
      notice := Uploaded(RowCount(data), |data.columns|);
    case EmptyData =>
      notice := EmptyFile;
    case Unparsable =>
      notice := InvalidCsv;
    case ReadFailed(m) =>
      notice := UnexpectedUploadError(m);
  }

  /**
   The dataset is replaced exactly when the file parsed, and then by the parsed
   frame; every failure keeps the previous dataset. The model and its results
   are never touched, so a model trained on an earlier upload stays cached.
   */
  lemma IngestReplacesOnlyOnSuccess(s: State, upload: Option<CsvParse>)
    ensures var (t, notice) := Ingest(s, upload);
      && t.model == s.model && t.modelResults == s.modelResults
      && (notice.Uploaded? <==> upload.Some? && upload.value.Parsed?)
      && (notice.Uploaded? ==> t.data == Some(upload.value.frame))
      && (!notice.Uploaded? ==> t == s)
      && (Consistent(s) ==> Consistent(t))
  {
  }

  // ---------------------------------------------------------------------------
  // Missing values on the analysis page
  // ---------------------------------------------------------------------------

  predicate HasMissing(c: Column)
  {
    NullCount(c.cells) > 0
  }

  /** `missing[missing > 0]`: the null count of every column that has a null, in column order. */
  function MissingReport(f: Frame): seq<(string, nat)>
  {
    var cols := Filter(f.columns, HasMissing);
    seq(|cols|, i requires 0 <= i < |cols| => (cols[i].name, NullCount(cols[i].cells)))
  }

  /** The report lists exactly the columns with at least one null, each with its null count. */
  lemma MissingReportExact(f: Frame)
    ensures forall c :: c in f.columns && NullCount(c.cells) > 0 ==> (c.name, NullCount(c.cells)) in MissingReport(f)
    ensures forall e :: e in MissingReport(f) ==>
      e.1 > 0 && exists c :: c in f.columns && c.name == e.0 && NullCount(c.cells) == e.1
    ensures |MissingReport(f)| == 0 <==> forall c :: c in f.columns ==> Null !in c.cells
  {
    var cols := Filter(f.columns, HasMissing);
    FilterMembers(f.columns, HasMissing);
    var r := MissingReport(f);
    forall c | c in f.columns && NullCount(c.cells) > 0 ensures (c.name, NullCount(c.cells)) in r {
      var i :| 0 <= i < |cols| && cols[i] == c;
      assert r[i] == (c.name, NullCount(c.cells));
    }
    forall e | e in r ensures e.1 > 0 && exists c :: c in f.columns && c.name == e.0 && NullCount(c.cells) == e.1 {
      var i :| 0 <= i < |r| && r[i] == e;
      assert cols[i] in cols;
    }
    if |r| > 0 {
      assert cols[0] in cols;
      assert Null in cols[0].cells;
    }
  }

  /** The analysis page: a warning, describe's error, the missing values, or the all-clear. */
  datatype Analysis = NothingToAnalyse | AnalysisError | MissingValues(report: seq<(string, nat)>) | NoMissingValues

  /**
   `describe(include="all")` raises ValueError on a frame without columns,
   which the page reports; otherwise the missing-value branch is taken exactly
   when some column has a null.
   */
  function DataAnalysis(data: Option<Frame>): (r: Analysis)
    ensures data.None? <==> r == NothingToAnalyse
    ensures r == AnalysisError <==> data.Some? && |data.value.columns| == 0
    ensures r.MissingValues? ==> r.report == MissingReport(data.value) && |r.report| > 0
    ensures r == NoMissingValues <==>
      data.Some? && |data.value.columns| > 0 && forall c :: c in data.value.columns ==> Null !in c.cells
  {
    if data.None? then NothingToAnalyse
    else if |data.value.columns| == 0 then AnalysisError
    else
      MissingReportExact(data.value);
      var report := MissingReport(data.value);
      if |report| > 0 then MissingValues(report) else NoMissingValues
  }

  // ---------------------------------------------------------------------------
  // The numeric/categorical split of the selected columns
  // ---------------------------------------------------------------------------

  /** `pd.api.types.is_numeric_dtype`: numbers and booleans. */
  predicate IsNumericDtype(c: Column)
  {
    c.kind == Numeric || c.kind == Boolean
  }

  function NamesNumericColumn(f: Frame): string -> bool
  {
    n => Find(f, n).Some? && IsNumericDtype(Find(f, n).value)
  }

  /** The first selected name the frame does not have, if any: the KeyError the comprehension raises. */
  function FirstMissing(f: Frame, selected: seq<string>): (r: Option<string>)
    ensures r.None? <==> forall n :: n in selected ==> n in Names(f.columns)
    ensures r.Some? ==> r.value in selected && r.value !in Names(f.columns)
  {
    if selected == [] then None
    else if selected[0] !in Names(f.columns) then Some(selected[0])
    else FirstMissing(f, selected[1..])
  }

  /** The two list comprehensions over the selected columns. */
  function Partition(f: Frame, selected: seq<string>): Result<(seq<string>, seq<string>), string>
  {
    var missing := FirstMissing(f, selected);
    if missing.Some? then Err(missing.value)
    else Ok((Filter(selected, NamesNumericColumn(f)), Filter(selected, Not(NamesNumericColumn(f)))))
  }

  lemma FirstIndexOfDistinct(s: seq<string>, k: nat)
    requires NoDuplicates(s) && k < |s|
    ensures FirstIndex(s, s[k]) == k
  {
  }

  /** A sublist given by increasing positions keeps the order of a duplicate-free list. */
  lemma FilterKeepsOrder(s: seq<string>, p: string -> bool, i: nat, j: nat)
    requires NoDuplicates(s) && i < j < |Filter(s, p)|
    ensures FirstIndex(s, Filter(s, p)[i]) < FirstIndex(s, Filter(s, p)[j])
  {
    var ix := Positions(s, p);
    FirstIndexOfDistinct(s, ix[i]);
    FirstIndexOfDistinct(s, ix[j]);
  }

  /**
   The split fails on a name the frame lacks; otherwise the numeric and the
   categorical names are disjoint, together are the selection (each name as
   often as it was selected), and are classified by `is_numeric_dtype`.
   */
  lemma PartitionProperties(f: Frame, selected: seq<string>)
    ensures Partition(f, selected).Err? <==> exists n :: n in selected && n !in Names(f.columns)
    ensures Partition(f, selected).Ok? ==>
      var (num, cat) := Partition(f, selected).value;
      && multiset(num) + multiset(cat) == multiset(selected)
      && (forall n :: n in num ==> n !in cat)
      && (forall n :: n in num <==> n in selected && IsNumericDtype(Find(f, n).value))
      && (forall n :: n in cat <==> n in selected && !IsNumericDtype(Find(f, n).value))
  {
    if Partition(f, selected).Ok? {
      var p := NamesNumericColumn(f);
      FilterSplits(selected, p);
      FilterMembers(selected, p);
      FilterMembers(selected, Not(p));
    }
  }

  /** Without repeated names, both lists keep the selection order. */
  lemma PartitionKeepsOrder(f: Frame, selected: seq<string>)
    requires Partition(f, selected).Ok? && NoDuplicates(selected)
    ensures var (num, cat) := Partition(f, selected).value;
      && (forall i, j :: 0 <= i < j < |num| ==> FirstIndex(selected, num[i]) < FirstIndex(selected, num[j]))
      && (forall i, j :: 0 <= i < j < |cat| ==> FirstIndex(selected, cat[i]) < FirstIndex(selected, cat[j]))
  {
    var p := NamesNumericColumn(f);
    forall i, j | 0 <= i < j < |Filter(selected, p)|
      ensures FirstIndex(selected, Filter(selected, p)[i]) < FirstIndex(selected, Filter(selected, p)[j])
    {
      FilterKeepsOrder(selected, p, i, j);
    }
    forall i, j | 0 <= i < j < |Filter(selected, Not(p))|
      ensures FirstIndex(selected, Filter(selected, Not(p))[i]) < FirstIndex(selected, Filter(selected, Not(p))[j])
    {
      FilterKeepsOrder(selected, Not(p), i, j);
    }
  }

  // ---------------------------------------------------------------------------
  // value_counts().index[0] and nlargest(5, "revenue")
  // ---------------------------------------------------------------------------

  function Count(cells: seq<Cell>, v: Cell): nat
  {
    multiset(cells)[v]
  }

  /** The first candidate with the largest count. */
  function MostFrequent(candidates: seq<Cell>, cells: seq<Cell>): (v: Cell)
    requires |candidates| > 0
    ensures v in candidates
    ensures forall w :: w in candidates ==> Count(cells, w) <= Count(cells, v)
  {
    if |candidates| == 1 then candidates[0]
    else
      var best := MostFrequent(candidates[1..], cells);
      if Count(cells, candidates[0]) >= Count(cells, best) then candidates[0] else best
  }

  function IsPresent(v: Cell): bool
  {
    !v.Null?
  }

  /**
   The top entry of `value_counts()`, which skips missing cells: the most
   frequent present value with its count, or None when every cell is missing
   (where `index[0]` raises IndexError). Ties go to the value seen first.
   */
  function TopCategory(cells: seq<Cell>): Option<(Cell, nat)>
  {
    var candidates := Filter(Distinct(cells), IsPresent);
    if |candidates| == 0 then None
    else
      var top := MostFrequent(candidates, cells);
      Some((top, Count(cells, top)))
  }

  /** The top category is a present value of the column with the largest count; there is none exactly when every cell is missing. */
  lemma TopCategoryMeaning(cells: seq<Cell>)
    ensures TopCategory(cells).None? <==> forall v :: v in cells ==> v.Null?
    ensures TopCategory(cells).Some? ==>
      var (top, n) := TopCategory(cells).value;
      && !top.Null? && top in cells && n == Count(cells, top) > 0
      && forall w: Cell :: !w.Null? ==> Count(cells, w) <= n
  {
    FilterMembers(Distinct(cells), IsPresent);
    var candidates := Filter(Distinct(cells), IsPresent);
    if |candidates| > 0 {
      assert candidates[0] in candidates;
      assert forall w: Cell :: !w.Null? && w in cells ==> w in candidates;
    }
  }

  function Min(a: nat, b: nat): nat
  {
    if a < b then a else b
  }

  /** Inserts `x` into a sequence sorted largest first, before the first value it is at least. */
  function Insert(x: real, s: seq<real>): (r: seq<real>)
    ensures |r| == |s| + 1
  {
    if s == [] || x >= s[0] then [x] + s else [s[0]] + Insert(x, s[1..])
  }

  /** The values sorted largest first. */
  function SortDescending(s: seq<real>): (r: seq<real>)
    ensures |r| == |s|
  {
    if s == [] then [] else Insert(s[0], SortDescending(s[1..]))
  }

  predicate Descending(s: seq<real>)
  {
    forall i, j :: 0 <= i < j < |s| ==> s[j] <= s[i]
  }

  lemma {:induction false} InsertMembers(x: real, s: seq<real>)
    ensures forall v :: v in Insert(x, s) <==> v == x || v in s
  {
    if s != [] && x >= s[0] {
    } else if s != [] {
      InsertMembers(x, s[1..]);
      assert s == [s[0]] + s[1..];
    }
  }

  lemma {:induction false} InsertMultiset(x: real, s: seq<real>)
    ensures multiset(Insert(x, s)) == multiset(s) + multiset{x}
  {
    if s != [] && x < s[0] {
      InsertMultiset(x, s[1..]);
      assert s == [s[0]] + s[1..];
    }
  }

  lemma {:induction false} InsertSum(x: real, s: seq<real>)
    ensures Sum(Insert(x, s)) == x + Sum(s)
  {
    if s != [] && x < s[0] {
      InsertSum(x, s[1..]);
      assert ([s[0]] + Insert(x, s[1..]))[1..] == Insert(x, s[1..]);
    } else {
      assert ([x] + s)[1..] == s;
    }
  }

  lemma {:induction false} InsertDescending(x: real, s: seq<real>)
    requires Descending(s)
    ensures Descending(Insert(x, s))
  {
    if s != [] && x < s[0] {
      var tail := Insert(x, s[1..]);
      InsertDescending(x, s[1..]);
      InsertMembers(x, s[1..]);
      var r := [s[0]] + tail;
      forall i, j | 0 <= i < j < |r| ensures r[j] <= r[i] {
        if i == 0 {
          assert r[j] in tail;
          if r[j] != x {
            var w :| 0 <= w < |s[1..]| && s[1..][w] == r[j];
            assert s[w + 1] == r[j];
          }
        } else {
          assert r[i] == tail[i - 1] && r[j] == tail[j - 1];
        }
      }
    } else if s != [] {
      var r := [x] + s;
      forall i, j | 0 <= i < j < |r| ensures r[j] <= r[i] {
        if i > 0 {
          assert r[i] == s[i - 1] && r[j] == s[j - 1];
        } else {
          assert r[j] == s[j - 1];
        }
      }
    }
  }

  /** Sorting orders the values largest first, keeps each value as often as it occurs, and keeps the sum. */
  lemma {:induction false} SortDescendingProperties(s: seq<real>)
    ensures Descending(SortDescending(s))
    ensures multiset(SortDescending(s)) == multiset(s)
    ensures Sum(SortDescending(s)) == Sum(s)
  {
    if s != [] {
      SortDescendingProperties(s[1..]);
      InsertDescending(s[0], SortDescending(s[1..]));
      InsertMultiset(s[0], SortDescending(s[1..]));
      InsertSum(s[0], SortDescending(s[1..]));
      assert s == [s[0]] + s[1..];
    }
  }

  /** `nlargest(k)` of a column's values: the k largest, largest first, or all of them when there are fewer. */
  function Largest(vals: seq<real>, k: nat): seq<real>
  {
    SortDescending(vals)[..Min(k, |vals|)]
  }

  /** The values `nlargest(k)` leaves out. */
  function Leftover(vals: seq<real>, k: nat): seq<real>
  {
    SortDescending(vals)[Min(k, |vals|)..]
  }

  /**
   `nlargest(k)` picks min(k, n) of the values, largest first; with the values
   it leaves out they are all the values, each as often as it occurs; every
   value picked is at least every value left out; and with no more than k
   values, the picked values sum to the sum of all of them.
   */
  lemma LargestProperties(vals: seq<real>, k: nat)
    ensures |Largest(vals, k)| == Min(k, |vals|)
    ensures Descending(Largest(vals, k))
    ensures multiset(Largest(vals, k)) + multiset(Leftover(vals, k)) == multiset(vals)
    ensures |vals| <= k ==> Sum(Largest(vals, k)) == Sum(vals)
  {
    var d, n := SortDescending(vals), Min(k, |vals|);
    SortDescendingProperties(vals);
    assert d == d[..n] + d[n..];
    if |vals| <= k {
      assert d[..n] == d;
    }
  }

  /** No value left out by `Largest` exceeds a value it picks. */
  lemma LargestDominates(vals: seq<real>, k: nat)
    ensures forall x, y :: x in Largest(vals, k) && y in Leftover(vals, k) ==> y <= x
  {
    SortDescendingProperties(vals);
    DescendingSplit(SortDescending(vals), Min(k, |vals|));
  }

  /** Cutting a descending list leaves nothing in the tail above anything in the head. */
  lemma DescendingSplit(d: seq<real>, n: nat)
    requires Descending(d) && n <= |d|
    ensures forall x, y :: x in d[..n] && y in d[n..] ==> y <= x
  {
    forall x, y | x in d[..n] && y in d[n..] ensures y <= x {
      var i :| 0 <= i < n && d[..n][i] == x;
      var j :| 0 <= j < |d| - n && d[n..][j] == y;
      assert d[i] == x && d[n + j] == y;
    }
  }

  /** `data.nlargest(5, "revenue")["revenue"].sum()`: missing revenues are skipped. */
  function TopCustomersRevenue(cells: seq<Cell>): real
  {
    Sum(Largest(Values(cells), 5))
  }

  /**
   With no negative revenue, the top five customers contribute at most the
   total revenue, and all of it when there are at most five revenues.
   */
  lemma TopCustomersAtMostTotal(cells: seq<Cell>)
    requires forall k :: 0 <= k < |Values(cells)| ==> 0.0 <= Values(cells)[k]
    ensures TopCustomersRevenue(cells) <= Sum(Values(cells))
    ensures |Values(cells)| <= 5 ==> TopCustomersRevenue(cells) == Sum(Values(cells))
  {
    var vals := Values(cells);
    var d, n := SortDescending(vals), Min(5, |vals|);
    SortDescendingProperties(vals);
    assert d == d[..n] + d[n..];
    SumConcat(d[..n], d[n..]);
    LeftoverNonNegative(vals, n);
    SumAtLeast(d[n..], 0.0);
  }

  lemma LeftoverNonNegative(vals: seq<real>, n: nat)
    requires n <= |vals|
    requires forall k :: 0 <= k < |vals| ==> 0.0 <= vals[k]
    ensures forall k :: 0 <= k < |vals| - n ==> 0.0 <= SortDescending(vals)[n..][k]
  {
    var d := SortDescending(vals);
    SortDescendingProperties(vals);
    forall k | 0 <= k < |vals| - n ensures 0.0 <= d[n..][k] {
      var x := d[n..][k];
      assert x in multiset(d);
      var i :| 0 <= i < |vals| && vals[i] == x;
    }
  }

  // ---------------------------------------------------------------------------
  // Insights
  // ---------------------------------------------------------------------------

  /** An insight with the figures its message reports. */
  datatype Insight =
    | TopCustomers(revenue: real)
    | CommonSegment(column: string, top: Cell, count: nat, rows: nat)
    | AverageAge(age: Option<real>)

  /** Why `generate_insights` raises: a KeyError, an IndexError on an all-missing column, or a TypeError. */
  datatype InsightFailure = MissingColumn(name: string) | NoTopValue(column: string) | NotNumeric(column: string)

  /**
   The top-customers insight, when "revenue" is among the numeric names.
   `nlargest` orders numbers and booleans (True above False) and rejects texts;
   a boolean revenue adds up its True rows among the top five.
   */
  function RevenueInsights(data: Frame, numeric: seq<string>): Result<seq<Insight>, InsightFailure>
  {
    if "revenue" !in numeric then Ok([])
    else
      var c := Find(data, "revenue");
      if c.None? then Err(MissingColumn("revenue"))
      else if c.value.kind == Other then Err(NotNumeric("revenue"))
      else Ok([TopCustomers(TopCustomersRevenue(c.value.cells))])
  }

  function SegmentInsight(data: Frame, col: string): Result<Insight, InsightFailure>
  {
    var c := Find(data, col);
    if c.None? then Err(MissingColumn(col))
    else
      var top := TopCategory(c.value.cells);
      if top.None? then Err(NoTopValue(col))
      else Ok(CommonSegment(col, top.value.0, top.value.1, RowCount(data)))
  }

  function SegmentOf(data: Frame): string -> Result<Insight, InsightFailure>
  {
    col => SegmentInsight(data, col)
  }

  /** One segment insight per categorical name, in list order; the first failure ends the loop. */
  function SegmentInsights(data: Frame, categorical: seq<string>): Result<seq<Insight>, InsightFailure>
  {
    Traverse(categorical, SegmentOf(data))
  }

  /** The average-age insight, when "age" is among the numeric names; the mean of a text column raises. */
  function AgeInsights(data: Frame, numeric: seq<string>): Result<seq<Insight>, InsightFailure>
  {
    if "age" !in numeric then Ok([])
    else
      var c := Find(data, "age");
      if c.None? then Err(MissingColumn("age"))
      else if c.value.kind == Other then Err(NotNumeric("age"))
      else Ok([AverageAge(Mean(c.value.cells))])
  }

  /** What `generate_insights` returns, or the exception it raises first. */
  function Insights(data: Frame, numeric: seq<string>, categorical: seq<string>): Result<seq<Insight>, InsightFailure>
  {
    var revenue := RevenueInsights(data, numeric);
    if revenue.Err? then revenue
    else
      var segments := SegmentInsights(data, categorical);
      if segments.Err? then segments
      else
        var age := AgeInsights(data, numeric);
        if age.Err? then age
        else Ok(revenue.value + segments.value + age.value)
  }

  method GenerateInsights(data: Frame, numeric: seq<string>, categorical: seq<string>)
    returns (r: Result<seq<Insight>, InsightFailure>)
    ensures r == Insights(data, numeric, categorical)
  {
    var insights: seq<Insight> := [];
    if "revenue" in numeric {
      var c := Find(data, "revenue");
      if c.None? {
        return Err(MissingColumn("revenue"));
      }
      if c.value.kind == Other {
        return Err(NotNumeric("revenue"));
      }
      insights := insights + [TopCustomers(TopCustomersRevenue(c.value.cells))];
    }
    if "revenue" in numeric {
      assert insights == [TopCustomers(TopCustomersRevenue(Find(data, "revenue").value.cells))];
    } else {
      assert insights == [];
    }
    assert RevenueInsights(data, numeric) == Ok(insights);
    ghost var revenuePart := insights;
    var segments := AppendSegments(data, categorical, insights);
    if segments.Err? {
      return segments;
    }
    insights := segments.value;
    ghost var segmentPart := SegmentInsights(data, categorical).value;
    assert insights == revenuePart + segmentPart;
    if "age" in numeric {
      var c := Find(data, "age");
      if c.None? {
        return Err(MissingColumn("age"));
      }
      if c.value.kind == Other {
        return Err(NotNumeric("age"));
      }
      insights := insights + [AverageAge(Mean(c.value.cells))];
    }
    if "age" in numeric {
      assert insights == revenuePart + segmentPart + [AverageAge(Mean(Find(data, "age").value.cells))];
      assert AgeInsights(data, numeric) == Ok([AverageAge(Mean(Find(data, "age").value.cells))]);
    } else {
      assert insights == revenuePart + segmentPart + [];
      assert AgeInsights(data, numeric) == Ok([]);
    }
    return Ok(insights);
  }

  /** The loop over the categorical names: one segment insight appended per name, or the first failure. */
  method AppendSegments(data: Frame, categorical: seq<string>, start: seq<Insight>)
    returns (r: Result<seq<Insight>, InsightFailure>)
    ensures r == match SegmentInsights(data, categorical)
                 case Err(e) => Err(e)
                 case Ok(segments) => Ok(start + segments)
  {
    var insights := start;
    for i := 0 to |categorical|
      invariant Traverse(categorical[..i], SegmentOf(data)).Ok?
      invariant insights == start + Traverse(categorical[..i], SegmentOf(data)).value
    {
      var segment := SegmentInsight(data, categorical[i]);
      TraverseStep(categorical, SegmentOf(data), i);
      if segment.Err? {
        TraverseFailureStops(categorical, SegmentOf(data), i + 1);
        return Err(segment.error);
      }
      insights := insights + [segment.value];
    }
    assert categorical[..|categorical|] == categorical;
    return Ok(insights);
  }

  /** A segment insight names its column and reports its most frequent present value. */
  lemma SegmentInsightMeaning(data: Frame, col: string)
    ensures SegmentInsight(data, col).Ok? <==>
      col in Names(data.columns) && exists v :: v in Find(data, col).value.cells && !v.Null?
    ensures SegmentInsight(data, col).Ok? ==>
      var s := SegmentInsight(data, col).value;
      && s.column == col && s.rows == RowCount(data)
      && s.count == Count(Find(data, col).value.cells, s.top) > 0
      && forall w: Cell :: !w.Null? ==> Count(Find(data, col).value.cells, w) <= s.count
  {
    if Find(data, col).Some? {
      TopCategoryMeaning(Find(data, col).value.cells);
    }
  }

  /**
   The insights come in a fixed order: the revenue insight first when "revenue"
   is a numeric name, then one segment insight per categorical name in list
   order, then the age insight last when "age" is a numeric name; so there are
   exactly [revenue] + |categorical| + [age] of them.
   */
  lemma InsightsShape(data: Frame, numeric: seq<string>, categorical: seq<string>)
    requires Insights(data, numeric, categorical).Ok?
    ensures var r := Insights(data, numeric, categorical).value;
      var first := if "revenue" in numeric then 1 else 0;
      var last := if "age" in numeric then 1 else 0;
      && |r| == first + |categorical| + last
      && ("revenue" in numeric ==> r[0] == TopCustomers(TopCustomersRevenue(Find(data, "revenue").value.cells)))
      && SegmentsAt(r, first, categorical)
      && ("age" in numeric ==> r[|r| - 1] == AverageAge(Mean(Find(data, "age").value.cells)))
  {
    var revenue, segments, age := RevenueInsights(data, numeric), SegmentInsights(data, categorical), AgeInsights(data, numeric);
    assert revenue.Ok? && segments.Ok? && age.Ok?;
    var r := Insights(data, numeric, categorical).value;
    assert r == revenue.value + segments.value + age.value;
    var first := |revenue.value|;
    assert first == if "revenue" in numeric then 1 else 0;
    assert |age.value| == if "age" in numeric then 1 else 0;
    TraverseShape(categorical, SegmentOf(data));
    assert |segments.value| == |categorical|;
    if "revenue" in numeric {
      assert r[0] == revenue.value[0];
    }
    if "age" in numeric {
      assert r[|r| - 1] == age.value[0];
    }
    SegmentsNameTheirColumns(data, categorical);
    SegmentsInTheMiddle(r, revenue.value, segments.value, age.value, categorical, first);
  }

  /** Each segment insight of a successful loop names the categorical column it was made for. */
  lemma SegmentsNameTheirColumns(data: Frame, categorical: seq<string>)
    requires SegmentInsights(data, categorical).Ok?
    ensures var b := SegmentInsights(data, categorical).value;
      |b| == |categorical| &&
      forall k :: 0 <= k < |b| ==> b[k].CommonSegment? && b[k].column == categorical[k]
  {
    TraverseShape(categorical, SegmentOf(data));
    var b := SegmentInsights(data, categorical).value;
    forall k | 0 <= k < |b| ensures b[k].CommonSegment? && b[k].column == categorical[k] {
      assert b[k] == SegmentOf(data)(categorical[k]).value;
      SegmentNamesColumn(data, categorical[k]);
    }
  }

  /** From position `first` on, `r` holds one segment insight per name of `categorical`, in order. */
  predicate SegmentsAt(r: seq<Insight>, first: nat, categorical: seq<string>)
  {
    first + |categorical| <= |r| &&
    forall k :: 0 <= k < |categorical| ==> r[first + k].CommonSegment? && r[first + k].column == categorical[k]
  }

  lemma IndexMiddle<T>(a: seq<T>, b: seq<T>, c: seq<T>, k: int)
    requires 0 <= k < |b|
    ensures (a + b + c)[|a| + k] == b[k]
  {
  }

  /** The segment insights sit between the revenue and age insights, in list order. */
  lemma SegmentsInTheMiddle(r: seq<Insight>, a: seq<Insight>, b: seq<Insight>, c: seq<Insight>, categorical: seq<string>, first: nat)
    requires r == a + b + c && |b| == |categorical| && |a| == first
    requires forall k :: 0 <= k < |b| ==> b[k].CommonSegment? && b[k].column == categorical[k]
    ensures SegmentsAt(r, first, categorical)
  {
    forall k | 0 <= k < |categorical| ensures r[first + k] == b[k] {
      IndexMiddle(a, b, c, k);
    }
  }

  lemma SegmentNamesColumn(data: Frame, col: string)
    requires SegmentInsight(data, col).Ok?
    ensures SegmentInsight(data, col).value.CommonSegment? && SegmentInsight(data, col).value.column == col
  {
  }

  /** generate_insights fails exactly when one of its three parts fails. */
  lemma InsightsSucceed(data: Frame, numeric: seq<string>, categorical: seq<string>)
    ensures Insights(data, numeric, categorical).Ok? <==>
      && ("revenue" in numeric ==> Find(data, "revenue").Some? && Find(data, "revenue").value.kind != Other)
      && (forall k :: 0 <= k < |categorical| ==> SegmentInsight(data, categorical[k]).Ok?)
      && ("age" in numeric ==> Find(data, "age").Some? && Find(data, "age").value.kind != Other)
  {
    TraverseShape(categorical, SegmentOf(data));
  }

  // ---------------------------------------------------------------------------
  // The visualization page
  // ---------------------------------------------------------------------------

  /**
   The quick overview: the customer count, the total and the average revenue
   when the frame has a "revenue" column (None for an average of no value), and
   the top category of the first three categorical columns.
   */
  datatype Overview = Overview(customers: nat, revenue: Option<(real, Option<real>)>, topCategories: seq<(string, Cell, nat)>)

  /** `data["revenue"].sum()` and `.mean()`, when the column exists; the mean of a text column raises. */
  function RevenueMetrics(data: Frame): Result<Option<(real, Option<real>)>, string>
  {
    match Find(data, "revenue")
    case None => Ok(None)
    case Some(c) =>
      if c.kind == Other then Err("revenue")
      else Ok(Some((Sum(Values(c.cells)), Mean(c.cells))))
  }

  /** `data[col].value_counts().index[0]` and its count for one column; an all-missing column raises. */
  function TopOf(data: Frame): string -> Result<(string, Cell, nat), string>
  {
    col =>
      if Find(data, col).None? then Err(col)
      else
        match TopCategory(Find(data, col).value.cells)
        case None => Err(col)
        case Some((v, n)) => Ok((col, v, n))
  }

  /** The loop over the first categorical columns of the overview, stopping at the first that raises. */
  function TopCategories(data: Frame, categorical: seq<string>): Result<seq<(string, Cell, nat)>, string>
  {
    Traverse(categorical, TopOf(data))
  }

  /** What the page shows after the button, or why it stopped. */
  datatype Visualization =
    | NothingToShow
    | AwaitingClick
    | ColumnNotFound(name: string)
    | VisualizationFailed
    | InsightsShown(numeric: seq<string>, categorical: seq<string>, overview: Overview, insights: seq<Insight>)

  /**
   One run of the visualization page with the columns selected and whether the
   button was clicked. A text "revenue" column makes `mean` raise and an
   all-missing categorical column makes `index[0]` raise; both end in the
   page's generic error.
   */
  function DataVisualization(data: Option<Frame>, selected: seq<string>, clicked: bool): Visualization
  {
    if data.None? then NothingToShow
    else if !clicked then AwaitingClick
    else
      var df := data.value;
      match Partition(df, selected)
      case Err(name) => ColumnNotFound(name)
      case Ok((num, cat)) =>
        var revenue := RevenueMetrics(df);
        var tops := TopCategories(df, cat[..Min(3, |cat|)]);
        if revenue.Err? || tops.Err? then VisualizationFailed
        else
          var overview := Overview(RowCount(df), revenue.value, tops.value);
          match Insights(df, num, cat)
          case Err(MissingColumn(n)) => ColumnNotFound(n)
          case Err(_) => VisualizationFailed
          case Ok(insights) => InsightsShown(num, cat, overview, insights)
  }

  /** Each overview entry is the top category of its own column, in column order. */
  lemma TopCategoriesShape(data: Frame, categorical: seq<string>)
    ensures TopCategories(data, categorical).Ok? <==>
      forall k :: 0 <= k < |categorical| ==>
        Find(data, categorical[k]).Some? && TopCategory(Find(data, categorical[k]).value.cells).Some?
    ensures TopCategories(data, categorical).Ok? ==>
      var t := TopCategories(data, categorical).value;
      && |t| == |categorical|
      && forall k :: 0 <= k < |t| ==>
           t[k].0 == categorical[k] && Some((t[k].1, t[k].2)) == TopCategory(Find(data, categorical[k]).value.cells)
  {
    TraverseShape(categorical, TopOf(data));
    forall k | 0 <= k < |categorical|
      ensures TopOf(data)(categorical[k]).Ok? <==>
        Find(data, categorical[k]).Some? && TopCategory(Find(data, categorical[k]).value.cells).Some?
      ensures TopOf(data)(categorical[k]).Ok? ==>
        var e := TopOf(data)(categorical[k]).value;
        e.0 == categorical[k] && Some((e.1, e.2)) == TopCategory(Find(data, categorical[k]).value.cells)
    {
      TopOfColumn(data, categorical[k]);
    }
  }

  lemma TopOfColumn(data: Frame, col: string)
    ensures TopOf(data)(col).Ok? <==> Find(data, col).Some? && TopCategory(Find(data, col).value.cells).Some?
    ensures TopOf(data)(col).Ok? ==>
      var e := TopOf(data)(col).value;
      e.0 == col && Some((e.1, e.2)) == TopCategory(Find(data, col).value.cells)
  {
  }

  lemma OverviewShowsAtMostThree(data: Frame, selected: seq<string>)
    requires DataVisualization(Some(data), selected, true).InsightsShown?
    ensures var v := DataVisualization(Some(data), selected, true);
      var tops := v.overview.topCategories;
      && |tops| == Min(3, |v.categorical|)
      && (forall k :: 0 <= k < |tops| ==> tops[k].0 == v.categorical[k])
      && (v.overview.revenue.Some? <==> "revenue" in Names(data.columns))
      && (v.overview.revenue.Some? ==>
            var c := Find(data, "revenue").value;
            c.kind != Other && v.overview.revenue.value == (Sum(Values(c.cells)), Mean(c.cells)))
  {
    var (num, cat) := Partition(data, selected).value;
    TopCategoriesShape(data, cat[..Min(3, |cat|)]);
  }

  /** A text "revenue" column stops the page with the generic error, whatever else was selected. */
  lemma TextRevenueFails(data: Frame, selected: seq<string>)
    requires Partition(data, selected).Ok?
    requires Find(data, "revenue").Some? && Find(data, "revenue").value.kind == Other
    ensures DataVisualization(Some(data), selected, true) == VisualizationFailed
  {
  }
}
