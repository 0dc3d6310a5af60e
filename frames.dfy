/**
 The tabular data the dashboard works on, seen abstractly: a data frame is an
 ordered sequence of named columns, each with a dtype kind and its cells.
 Parsing, pandas internals and floating-point rounding are not modelled; numbers
 are Dafny reals.
 */
module Frames {

  datatype Option<T> = None | Some(value: T)

  datatype Result<T, E> = Ok(value: T) | Err(error: E)

  /** One cell of a frame: pandas' missing marker (NaN/None), a number, a boolean or a text. */
  datatype Cell = Null | Num(x: real) | Flag(b: bool) | Text(s: string)

  /**
   The dtype of a column as far as the application looks at it. NumPy's
   `np.number` covers only Numeric; pandas' `is_numeric_dtype` covers Numeric and Boolean.
   */
  datatype Kind = Numeric | Boolean | Other

  datatype Column = Column(name: string, kind: Kind, cells: seq<Cell>)

  datatype Frame = Frame(columns: seq<Column>)

  /** One row handed to the engine: column names with their values, in column order. */
  type Row = seq<(string, Cell)>

  // ---------------------------------------------------------------------------
  // Filtering: list comprehensions, select_dtypes and drop all keep the
  // elements that satisfy a test, in their original order.
  // ---------------------------------------------------------------------------

  function Filter<T(!new)>(s: seq<T>, p: T -> bool): (r: seq<T>)
    ensures |r| <= |s|
  {
    if s == [] then []
    else Filter(s[..|s| - 1], p) + (if p(s[|s| - 1]) then [s[|s| - 1]] else [])
  }

  /** Filter keeps exactly the elements that pass the test. */
  lemma {:induction false} FilterMembers<T(!new)>(s: seq<T>, p: T -> bool)
    ensures forall x :: x in Filter(s, p) <==> x in s && p(x)
  {
    if s != [] {
      FilterMembers(s[..|s| - 1], p);
      assert s == s[..|s| - 1] + [s[|s| - 1]];
    }
  }

  function Not<T(!new)>(p: T -> bool): T -> bool
  {
    x => !p(x)
  }

  function Both<T(!new)>(p: T -> bool, q: T -> bool): T -> bool
  {
    x => p(x) && q(x)
  }

  /**
   The positions in `s` of the elements Filter keeps: strictly increasing, so
   Filter keeps the original order, and they cover every element that passes.
   */
  function Positions<T(!new)>(s: seq<T>, p: T -> bool): (ix: seq<nat>)
    ensures |ix| == |Filter(s, p)|
    ensures forall k :: 0 <= k < |ix| ==> ix[k] < |s| && s[ix[k]] == Filter(s, p)[k]
    ensures forall k, l :: 0 <= k < l < |ix| ==> ix[k] < ix[l]
    ensures forall i :: 0 <= i < |s| && p(s[i]) ==> i in ix
  {
    if s == [] then []
    else
      var init, last := s[..|s| - 1], s[|s| - 1];
      assert Filter(s, p) == Filter(init, p) + (if p(last) then [last] else []);
      assert forall i :: 0 <= i < |init| ==> s[i] == init[i];
      Positions(init, p) + (if p(last) then [|s| - 1] else [])
  }

  /** Filtering twice is filtering once by both tests. */
  lemma {:induction false} FilterTwice<T(!new)>(s: seq<T>, p: T -> bool, q: T -> bool)
    ensures Filter(Filter(s, p), q) == Filter(s, Both(p, q))
  {
    if s != [] {
      var init, last := s[..|s| - 1], s[|s| - 1];
      FilterTwice(init, p, q);
      var fp := Filter(init, p);
      if p(last) {
        assert Filter(s, p) == fp + [last];
        assert (fp + [last])[..|fp + [last]| - 1] == fp;
      } else {
        assert Filter(s, p) == fp;
      }
    }
  }

  /** A test and its negation split a sequence into two parts that together hold every element once. */
  lemma {:induction false} FilterSplits<T(!new)>(s: seq<T>, p: T -> bool)
    ensures multiset(Filter(s, p)) + multiset(Filter(s, Not(p))) == multiset(s)
  {
    if s != [] {
      var init, last := s[..|s| - 1], s[|s| - 1];
      FilterSplits(init, p);
      assert s == init + [last];
    }
  }

  /** Applies `f` to each element in order and collects the results; the first failure is the result. */
  function Traverse<A, B, E>(xs: seq<A>, f: A -> Result<B, E>): Result<seq<B>, E>
  {
    if xs == [] then Ok([])
    else
      var before := Traverse(xs[..|xs| - 1], f);
      if before.Err? then before
      else
        match f(xs[|xs| - 1])
        case Err(e) => Err(e)
        case Ok(b) => Ok(before.value + [b])
  }

  /** One more element of a traversal. */
  lemma TraverseStep<A, B, E>(xs: seq<A>, f: A -> Result<B, E>, i: nat)
    requires i < |xs|
    ensures var before := Traverse(xs[..i], f);
      Traverse(xs[..i + 1], f) ==
        if before.Err? then before
        else if f(xs[i]).Err? then Err(f(xs[i]).error)
        else Ok(before.value + [f(xs[i]).value])
  {
    assert xs[..i + 1][..i] == xs[..i];
  }

  /** A failure on a prefix is the failure of the whole traversal. */
  lemma {:induction false} TraverseFailureStops<A, B, E>(xs: seq<A>, f: A -> Result<B, E>, n: nat)
    requires n <= |xs| && Traverse(xs[..n], f).Err?
    ensures Traverse(xs, f) == Traverse(xs[..n], f)
    decreases |xs| - n
  {
    if n < |xs| {
      TraverseStep(xs, f, n);
      TraverseFailureStops(xs, f, n + 1);
    } else {
      assert xs[..n] == xs;
    }
  }

  /** A traversal succeeds exactly when every element succeeds, with one result per element in order. */
  lemma {:induction false} TraverseShape<A, B, E>(xs: seq<A>, f: A -> Result<B, E>)
    ensures Traverse(xs, f).Ok? <==> forall k :: 0 <= k < |xs| ==> f(xs[k]).Ok?
    ensures Traverse(xs, f).Ok? ==>
      |Traverse(xs, f).value| == |xs| &&
      forall k :: 0 <= k < |xs| ==> Traverse(xs, f).value[k] == f(xs[k]).value
  {
    if xs != [] {
      var n := |xs| - 1;
      TraverseShape(xs[..n], f);
      TraverseStep(xs, f, n);
      assert xs[..n + 1] == xs;
      assert forall k :: 0 <= k < n ==> xs[..n][k] == xs[k];
    }
  }

  // ---------------------------------------------------------------------------
  // Column names and lookup
  // ---------------------------------------------------------------------------

  function Names(cols: seq<Column>): (r: seq<string>)
    ensures |r| == |cols|
    ensures forall i :: 0 <= i < |cols| ==> r[i] == cols[i].name
  {
    seq(|cols|, i requires 0 <= i < |cols| => cols[i].name)
  }

  predicate DistinctNames(cols: seq<Column>)
  {
    forall i, j :: 0 <= i < j < |cols| ==> cols[i].name != cols[j].name
  }

  /**
   A frame as pandas' readers produce it: column labels are unique (duplicates
   are renamed on read), all columns have the same length, and the cells of a
   column agree with its dtype.
   */
  predicate WellFormed(f: Frame)
  {
    && DistinctNames(f.columns)
    && (forall i, j :: 0 <= i < |f.columns| && 0 <= j < |f.columns| ==>
          |f.columns[i].cells| == |f.columns[j].cells|)
    && (forall i :: 0 <= i < |f.columns| ==> CellsAgree(f.columns[i]))
  }

  predicate CellsAgree(c: Column)
  {
    forall v :: v in c.cells ==>
      match c.kind
      case Numeric => v.Null? || v.Num?
      case Boolean => v.Flag?
      case Other => true
  }

  /** Position of the first column called `name`, or the column count when there is none. */
  function ColumnIndex(cols: seq<Column>, name: string): (i: nat)
    ensures i <= |cols|
    ensures i < |cols| ==> cols[i].name == name
    ensures forall j :: 0 <= j < i ==> cols[j].name != name
    ensures i == |cols| <==> name !in Names(cols)
  {
    if cols == [] then 0
    else if cols[0].name == name then 0
    else 1 + ColumnIndex(cols[1..], name)
  }

  /** `df[name]`: the column called `name`, if the frame has one. */
  function Find(f: Frame, name: string): (r: Option<Column>)
    ensures r.Some? <==> name in Names(f.columns)
    ensures r.Some? ==> r.value in f.columns && r.value.name == name
  {
    var i := ColumnIndex(f.columns, name);
    if i < |f.columns| then Some(f.columns[i]) else None
  }

  /** In a frame with unique labels every column is the one found under its name. */
  lemma FindUnique(f: Frame, k: nat)
    requires DistinctNames(f.columns) && k < |f.columns|
    ensures ColumnIndex(f.columns, f.columns[k].name) == k
    ensures Find(f, f.columns[k].name) == Some(f.columns[k])
  {
  }

  function RowCount(f: Frame): nat
  {
    if |f.columns| == 0 then 0 else |f.columns[0].cells|
  }

  /** `len(df)`: in a well-formed frame, the length of every column. */
  lemma RowCountIsColumnLength(f: Frame)
    requires WellFormed(f)
    ensures forall i :: 0 <= i < |f.columns| ==> |f.columns[i].cells| == RowCount(f)
  {
  }

  // ---------------------------------------------------------------------------
  // Frame operations the application calls
  // ---------------------------------------------------------------------------

  function NameNotIn(names: set<string>): Column -> bool
  {
    (c: Column) => c.name !in names
  }

  /**
   `df.drop(columns=names)`. The selection widget offers only the frame's own
   labels, so a name the frame does not have is never selected; such names are
   ignored here.
   */
  function Drop(f: Frame, names: set<string>): Frame
  {
    Frame(Filter(f.columns, NameNotIn(names)))
  }

  /** Dropping keeps exactly the columns whose names were not selected. */
  lemma DropColumns(f: Frame, names: set<string>)
    ensures forall c :: c in Drop(f, names).columns <==> c in f.columns && c.name !in names
    ensures forall n :: n in Names(Drop(f, names).columns) <==> n in Names(f.columns) && n !in names
  {
    var r := Drop(f, names);
    FilterMembers(f.columns, NameNotIn(names));
    forall n | n in Names(r.columns) ensures n in Names(f.columns) && n !in names {
      var i :| 0 <= i < |r.columns| && r.columns[i].name == n;
      assert r.columns[i] in f.columns;
    }
    forall n | n in Names(f.columns) && n !in names ensures n in Names(r.columns) {
      var i :| 0 <= i < |f.columns| && f.columns[i].name == n;
      assert f.columns[i] in r.columns;
      var j :| 0 <= j < |r.columns| && r.columns[j] == f.columns[i];
      assert Names(r.columns)[j] == n;
    }
  }

  /** Dropping columns keeps a frame well-formed. */
  lemma DropWellFormed(f: Frame, names: set<string>)
    requires WellFormed(f)
    ensures WellFormed(Drop(f, names))
  {
    var s, p := f.columns, NameNotIn(names);
    var r, ix := Drop(f, names).columns, Positions(s, p);
    forall i, j | 0 <= i < j < |r| ensures r[i].name != r[j].name {
      assert ix[i] < ix[j];
    }
    forall i, j | 0 <= i < |r| && 0 <= j < |r| ensures |r[i].cells| == |r[j].cells| {
      assert r[i] == s[ix[i]] && r[j] == s[ix[j]];
    }
    forall i | 0 <= i < |r| ensures CellsAgree(r[i]) {
      assert r[i] == s[ix[i]];
    }
  }

  /**
   `st.selectbox(label, options)` over the columns of a frame: the name the user
   picked when it is still an option, otherwise the widget's default, the first
   option; no value at all when there are no options.
   */
  function SelectColumn(f: Frame, wanted: string): (r: Option<string>)
    ensures r.Some? <==> |f.columns| > 0
    ensures r.Some? ==> r.value in Names(f.columns)
    ensures wanted in Names(f.columns) ==> r == Some(wanted)
  {
    if wanted in Names(f.columns) then Some(wanted)
    else if |f.columns| > 0 then Some(f.columns[0].name)
    else None
  }

  // ---------------------------------------------------------------------------
  // Column statistics: unique, mean, isnull().sum()
  // ---------------------------------------------------------------------------

  predicate NoDuplicates<T(==)>(s: seq<T>)
  {
    forall i, j :: 0 <= i < j < |s| ==> s[i] != s[j]
  }

  /** `Series.unique()`: the distinct cells, missing marker included, in order of first appearance. */
  function Distinct(cells: seq<Cell>): (r: seq<Cell>)
    ensures forall v :: v in r <==> v in cells
    ensures NoDuplicates(r)
    ensures |r| <= |cells|
  {
    if cells == [] then []
    else
      var d, last := Distinct(cells[..|cells| - 1]), cells[|cells| - 1];
      if last in d then d else d + [last]
  }

  /** Position of the first occurrence of `v` in `s`, or `|s|` when it does not occur. */
  function FirstIndex<T(==)>(s: seq<T>, v: T): (i: nat)
    ensures i <= |s|
    ensures i < |s| ==> s[i] == v
    ensures forall j :: 0 <= j < i ==> s[j] != v
  {
    if s == [] then 0 else if s[0] == v then 0 else 1 + FirstIndex(s[1..], v)
  }

  lemma FirstIndexInPrefix<T>(s: seq<T>, n: nat, v: T)
    requires n <= |s| && v in s[..n]
    ensures FirstIndex(s, v) == FirstIndex(s[..n], v)
  {
    var i, k := FirstIndex(s, v), FirstIndex(s[..n], v);
    var w :| 0 <= w < n && s[..n][w] == v;
    assert k <= w;
    assert s[k] == v;
    assert i <= k;
    assert s[..n][i] == v;
  }

  /** The values of `unique()` come in the order in which they first appear in the column. */
  lemma {:induction false} DistinctFirstSeenOrder(cells: seq<Cell>, i: nat, j: nat)
    requires i < j < |Distinct(cells)|
    ensures FirstIndex(cells, Distinct(cells)[i]) < FirstIndex(cells, Distinct(cells)[j])
  {
    var n := |cells| - 1;
    var init, last := cells[..n], cells[n];
    var d := Distinct(init);
    assert cells[..n] == init;
    var r := Distinct(cells);
    assert r[i] in init by {
      if last in d { assert r == d; assert r[i] in d; } else { assert r == d + [last]; assert i < |d|; assert r[i] in d; }
    }
    FirstIndexInPrefix(cells, n, r[i]);
    if last in d {
      assert r == d;
      assert r[j] in init;
      FirstIndexInPrefix(cells, n, r[j]);
      DistinctFirstSeenOrder(init, i, j);
    } else if j < |d| {
      assert r[i] == d[i] && r[j] == d[j];
      assert r[j] in init;
      FirstIndexInPrefix(cells, n, r[j]);
      DistinctFirstSeenOrder(init, i, j);
    } else {
      assert r[j] == last && last !in init;
      assert FirstIndex(cells, last) == n by {
        assert forall k :: 0 <= k < n ==> cells[k] == init[k];
      }
    }
  }

  /** The numeric reading of a cell, as pandas' sum and mean see it (a boolean counts as 0 or 1). */
  function Magnitude(v: Cell): Option<real>
  {
    match v
    case Num(x) => Some(x)
    case Flag(b) => Some(if b then 1.0 else 0.0)
    case _ => None
  }

  /** The numeric readings of the cells that have one, missing cells skipped, in order. */
  function Values(cells: seq<Cell>): (r: seq<real>)
    ensures |r| <= |cells|
    ensures |r| == 0 <==> forall i :: 0 <= i < |cells| ==> Magnitude(cells[i]).None?
  {
    if cells == [] then []
    else
      var m := Magnitude(cells[|cells| - 1]);
      Values(cells[..|cells| - 1]) + (if m.Some? then [m.value] else [])
  }

  function Sum(s: seq<real>): real
  {
    if s == [] then 0.0 else s[0] + Sum(s[1..])
  }

  lemma {:induction false} SumConcat(a: seq<real>, b: seq<real>)
    ensures Sum(a + b) == Sum(a) + Sum(b)
  {
    if a != [] {
      SumConcat(a[1..], b);
      assert (a + b)[1..] == a[1..] + b;
    } else {
      assert a + b == b;
    }
  }

  /** `Series.mean()` with missing cells skipped; None stands for NaN (no value to average). */
  function Mean(cells: seq<Cell>): (r: Option<real>)
    ensures r.None? <==> forall i :: 0 <= i < |cells| ==> Magnitude(cells[i]).None?
  {
    var vs := Values(cells);
    if |vs| == 0 then None else Some(Sum(vs) / (|vs| as real))
  }

  lemma DivisionUndone(x: real, n: real, q: real)
    requires n != 0.0 && q == x / n
    ensures q * n == x
  {
  }

  /** The mean lies between any lower and any upper bound of the readings it averages. */
  lemma MeanWithinBounds(cells: seq<Cell>, lo: real, hi: real)
    requires Mean(cells).Some?
    requires forall k :: 0 <= k < |Values(cells)| ==> lo <= Values(cells)[k] <= hi
    ensures lo <= Mean(cells).value <= hi
  {
    AverageBounds(Values(cells), lo, hi);
  }

  lemma AverageBounds(vs: seq<real>, lo: real, hi: real)
    requires |vs| > 0
    requires forall k :: 0 <= k < |vs| ==> lo <= vs[k] <= hi
    ensures lo <= Sum(vs) / (|vs| as real) <= hi
  {
    SumAtMost(vs, hi);
    SumAtLeast(vs, lo);
    var total, n := Sum(vs), |vs| as real;
    DivisionUndone(total, n, total / n);
    AverageWithin(total, n, total / n, lo, hi);
  }

  lemma AverageWithin(total: real, n: real, m: real, lo: real, hi: real)
    requires n > 0.0 && m * n == total && lo * n <= total <= hi * n
    ensures lo <= m <= hi
  {
    FactorCancels(m, hi, n);
    FactorCancels(lo, m, n);
  }

  lemma {:induction false} SumAtMost(s: seq<real>, b: real)
    requires forall k :: 0 <= k < |s| ==> s[k] <= b
    ensures Sum(s) <= b * (|s| as real)
  {
    if s != [] {
      SumAtMost(s[1..], b);
    }
  }

  lemma {:induction false} SumAtLeast(s: seq<real>, b: real)
    requires forall k :: 0 <= k < |s| ==> b <= s[k]
    ensures b * (|s| as real) <= Sum(s)
  {
    if s != [] {
      SumAtLeast(s[1..], b);
    }
  }

  lemma FactorCancels(x: real, y: real, n: real)
    requires n > 0.0 && x * n <= y * n
    ensures x <= y
  {
  }

  /** `isnull().sum()` of one column. */
  function NullCount(cells: seq<Cell>): nat
  {
    multiset(cells)[Null]
  }
}
