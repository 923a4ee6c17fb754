/** `analyze_chart_data`: per-column statistics, outlier and dominant
    category insights, and strong correlations between number columns. */
module ChartAnalysis {
  import opened Wrappers
  import opened Text
  import opened Frames

  /** The float statistics and float formatting pandas and Python provide,
      taken as given: `mean`, `median`, `quantile`, Pearson `corr` (None
      where pandas gives NaN), `str()` of a cell and the `.1f` and `.2f`
      format specifications. */
  datatype Statistics = Statistics(
    mean: seq<Cell> -> Option<real>,
    median: seq<Cell> -> Option<real>,
    quantile: (seq<Cell>, real) -> Option<real>,
    corr: (seq<Cell>, seq<Cell>) -> Option<real>,
    show: Cell -> string,
    fixed1: real -> string,
    fixed2: real -> string)

  function Abs(x: real): real {
    if x < 0.0 then -x else x
  }

  /** `float(col.min())`, or None when the column holds no number. */
  function MinOf(cells: seq<Cell>): (m: Option<real>)
    ensures m.None? <==> forall i :: 0 <= i < |cells| ==> !cells[i].Number?
    ensures m.Some? ==> exists i :: 0 <= i < |cells| && cells[i] == Number(m.value)
    ensures m.Some? ==> forall i :: 0 <= i < |cells| && cells[i].Number? ==> m.value <= cells[i].x
    decreases |cells|
  {
    if |cells| == 0 then None
    else
      var rest := MinOf(cells[1..]);
      assert forall i :: 1 <= i < |cells| ==> cells[i] == cells[1..][i - 1];
      if !cells[0].Number? then rest
      else if rest.Some? && rest.value < cells[0].x then rest
      else Some(cells[0].x)
  }

  /** `float(col.max())`, or None when the column holds no number. */
  function MaxOf(cells: seq<Cell>): (m: Option<real>)
    ensures m.None? <==> forall i :: 0 <= i < |cells| ==> !cells[i].Number?
    ensures m.Some? ==> exists i :: 0 <= i < |cells| && cells[i] == Number(m.value)
    ensures m.Some? ==> forall i :: 0 <= i < |cells| && cells[i].Number? ==> cells[i].x <= m.value
    decreases |cells|
  {
    if |cells| == 0 then None
    else
      var rest := MaxOf(cells[1..]);
      assert forall i :: 1 <= i < |cells| ==> cells[i] == cells[1..][i - 1];
      if !cells[0].Number? then rest
      else if rest.Some? && rest.value > cells[0].x then rest
      else Some(cells[0].x)
  }

  /** A column's minimum never exceeds its maximum. */
  lemma MinAtMostMax(cells: seq<Cell>)
    requires MinOf(cells).Some?
    ensures MaxOf(cells).Some? && MinOf(cells).value <= MaxOf(cells).value
  {
    var i :| 0 <= i < |cells| && cells[i] == Number(MinOf(cells).value);
    assert cells[i].Number?;
  }

  /** The number of values strictly outside `[lower, upper]`. */
  function OutlierCount(cells: seq<Cell>, lower: real, upper: real): (n: nat)
    ensures n <= |cells| - Count(cells, Missing)
    decreases |cells|
  {
    if |cells| == 0 then 0
    else
      (if cells[0].Number? && (cells[0].x < lower || cells[0].x > upper) then 1 else 0)
      + OutlierCount(cells[1..], lower, upper)
  }

  /** The interquartile-range rule: values below `q1 - 1.5 * iqr` or above
      `q3 + 1.5 * iqr`. A NaN quartile makes every comparison false, so no
      value counts. */
  function Outliers(stats: Statistics, cells: seq<Cell>): nat {
    match (stats.quantile(cells, 0.25), stats.quantile(cells, 0.75))
    case (Some(q1), Some(q3)) =>
      var iqr := q3 - q1;
      OutlierCount(cells, q1 - 1.5 * iqr, q3 + 1.5 * iqr)
    case _ => 0
  }

  /** A value at or between the quartiles is never an outlier. */
  lemma {:induction false} ValuesBetweenQuartilesAreNotOutliers(cells: seq<Cell>, q1: real, q3: real)
    requires q1 <= q3
    requires forall i :: 0 <= i < |cells| && cells[i].Number? ==> q1 <= cells[i].x <= q3
    ensures OutlierCount(cells, q1 - 1.5 * (q3 - q1), q3 + 1.5 * (q3 - q1)) == 0
    decreases |cells|
  {
    if |cells| > 0 {
      assert forall i :: 1 <= i < |cells| ==> cells[1..][i - 1] == cells[i];
      ValuesBetweenQuartilesAreNotOutliers(cells[1..], q1, q3);
    }
  }

  /** `value_counts()` as a map: every distinct value to its count. */
  function CategoryCounts(cells: seq<Cell>): map<Cell, nat> {
    map c | c in Distinct(cells) :: Count(cells, c)
  }

  lemma {:induction false} CountOfPresent(cells: seq<Cell>, i: nat)
    requires i < |cells|
    ensures Count(cells, cells[i]) >= 1
    decreases |cells|
  {
    if i > 0 {
      assert cells[1..][i - 1] == cells[i];
      CountOfPresent(cells[1..], i - 1);
    }
  }

  /** Every listed category occurs in the column, at most once per row. */
  lemma CategoryCountsArePositive(cells: seq<Cell>)
    ensures forall c :: c in CategoryCounts(cells) ==> 1 <= CategoryCounts(cells)[c] <= |cells|
  {
    forall c | c in CategoryCounts(cells)
      ensures 1 <= CategoryCounts(cells)[c]
    {
      var i :| 0 <= i < |cells| && cells[i] != Missing && cells[i] == c;
      CountOfPresent(cells, i);
    }
  }

  /** Two different values together occupy at most all the rows. */
  lemma {:induction false} CountsOfTwoValues(cells: seq<Cell>, a: Cell, b: Cell)
    requires a != b
    ensures Count(cells, a) + Count(cells, b) <= |cells|
    decreases |cells|
  {
    if |cells| > 0 {
      CountsOfTwoValues(cells[1..], a, b);
    }
  }

  /** At most one value can fill more than half the rows. */
  lemma MajorityIsUnique(cells: seq<Cell>, a: Cell, b: Cell)
    requires 2 * Count(cells, a) > |cells| && 2 * Count(cells, b) > |cells|
    ensures a == b
  {
    if a != b {
      CountsOfTwoValues(cells, a, b);
    }
  }

  /** The first value, from position `k` on, that fills more than half of
      `rows`. */
  function MajorityFrom(cells: seq<Cell>, rows: nat, k: nat): (r: Option<Cell>)
    ensures r.Some? ==> r.value in Distinct(cells) && 2 * Count(cells, r.value) > rows
    ensures r.None? ==> forall i :: k <= i < |cells| && cells[i] != Missing ==> 2 * Count(cells, cells[i]) <= rows
    decreases |cells| - k
  {
    if k >= |cells| then None
    else if cells[k] != Missing && 2 * Count(cells, cells[k]) > rows then Some(cells[k])
    else MajorityFrom(cells, rows, k + 1)
  }

  /** The dominant category. The code compares the largest count,
      `value_counts.iloc[0]`, with half the rows and names the value at
      the head of `value_counts`; the largest count exceeds half exactly
      when some value's count does, and that value is then the one with
      the largest count. */
  function Majority(cells: seq<Cell>, rows: nat): (r: Option<Cell>)
    ensures r.Some? <==> exists c :: c in Distinct(cells) && 2 * Count(cells, c) > rows
    ensures r.Some? ==> r.value in Distinct(cells) && 2 * Count(cells, r.value) > rows
  {
    MajorityFrom(cells, rows, 0)
  }

  /** The dominant value has the largest count of the column. */
  lemma MajorityHasLargestCount(cells: seq<Cell>, c: Cell)
    requires Majority(cells, |cells|).Some?
    ensures Count(cells, c) <= Count(cells, Majority(cells, |cells|).value)
  {
    var m := Majority(cells, |cells|).value;
    if c != m {
      CountsOfTwoValues(cells, c, m);
    }
  }

  datatype NumericSummary = NumericSummary(
    min: Option<real>, max: Option<real>, mean: Option<real>, median: Option<real>, outliers: nat)

  /** The `col_data` dictionary of one column. */
  datatype ColumnSummary = ColumnSummary(
    typeName: string,
    missing: nat,
    uniqueValues: nat,
    numeric: Option<NumericSummary>,
    categories: Option<map<Cell, nat>>)

  /** The report, or `{"error": "Empty dataset"}`. Columns keep the frame's
      order; the correlation keys are `"<col1>-<col2>"`. */
  datatype Analysis =
    | AnalysisError(error: string)
    | Report(rowCount: nat, columnCount: nat, columns: seq<(string, ColumnSummary)>,
             correlations: map<string, real>, insights: seq<string>)

  const EmptyDataset := "Empty dataset"
  /** The IndexError pandas raises for `iloc[0]` on an empty series. */
  const EmptyIndexError := "single positional indexer is out-of-bounds"

  function OutlierInsight(name: string, n: nat): string {
    "Column '" + name + "' has " + Decimal(n) + " potential outliers"
  }

  function DominantInsight(stats: Statistics, name: string, top: Cell, count: nat, rows: nat): string
    requires rows > 0
  {
    "Column '" + name + "' has a dominant category '" + stats.show(top) + "' ("
    + stats.fixed1(count as real / rows as real * 100.0) + "% of data)"
  }

  function CorrelationInsight(stats: Statistics, first: string, second: string, r: real): string {
    "There is a " + (if r > 0.0 then "strong positive" else "strong negative")
    + " correlation (" + stats.fixed2(r) + ") between '" + first + "' and '" + second + "'"
  }

  /** An object or category column without a single value: its
      `value_counts()` is empty, so reading the top count raises. */
  predicate HasNoValueCounts(col: Column) {
    !IsNumericDtype(col.dtype) && IsObjectOrCategory(col.dtype) && Nunique(col.cells) == 0
  }

  /** One pass of the column loop: the summary and the insights the
      column adds, or the exception it raises. */
  function ColumnReport(stats: Statistics, rows: nat, col: Column): (r: Result<(ColumnSummary, seq<string>), string>)
    requires rows > 0
    ensures r.Failure? <==> HasNoValueCounts(col)
    ensures r.Success? ==> |r.value.1| <= 1
    ensures r.Success? ==> r.value.0.typeName == DTypeName(col.dtype)
                           && r.value.0.missing == Count(col.cells, Missing)
                           && r.value.0.uniqueValues == Nunique(col.cells)
                           && (r.value.0.numeric.Some? <==> IsNumericDtype(col.dtype))
    // A number column: its statistics, and the outlier insight exactly
    // when some value lies outside the IQR bounds.
    ensures r.Success? && IsNumericDtype(col.dtype) ==>
              && r.value.0.numeric == Some(NumericSummary(MinOf(col.cells), MaxOf(col.cells), stats.mean(col.cells),
                                                          stats.median(col.cells), Outliers(stats, col.cells)))
              && (r.value.1 != [] <==> Outliers(stats, col.cells) > 0)
              && (r.value.1 != [] ==> r.value.1 == [OutlierInsight(col.name, Outliers(stats, col.cells))])
    // The category counts are kept exactly for an object or category
    // column with at most ten distinct values, and the dominant insight is
    // added exactly when one value fills more than half the rows.
    ensures r.Success? ==>
              (r.value.0.categories.Some?
               <==> !IsNumericDtype(col.dtype) && IsObjectOrCategory(col.dtype) && Nunique(col.cells) <= 10)
    ensures r.Success? && r.value.0.categories.Some? ==>
              && r.value.0.categories.value == CategoryCounts(col.cells)
              && (r.value.1 != [] <==> Majority(col.cells, rows).Some?)
              && (r.value.1 != [] ==>
                    var top := Majority(col.cells, rows).value;
                    r.value.1 == [DominantInsight(stats, col.name, top, Count(col.cells, top), rows)])
    // Any other column adds no insight.
    ensures r.Success? && r.value.0.numeric.None? && r.value.0.categories.None? ==> r.value.1 == []
  {
    var cells := col.cells;
    var plain := ColumnSummary(DTypeName(col.dtype), Count(cells, Missing), Nunique(cells), None, None);
    if IsNumericDtype(col.dtype) then
      var n := Outliers(stats, cells);
      var numeric := NumericSummary(MinOf(cells), MaxOf(cells), stats.mean(cells), stats.median(cells), n);
      Success((plain.(numeric := Some(numeric)), if n > 0 then [OutlierInsight(col.name, n)] else []))
    else if IsObjectOrCategory(col.dtype) && Nunique(cells) <= 10 then
      if Nunique(cells) == 0 then Failure(EmptyIndexError)
      else
        var insights :=
          match Majority(cells, rows)
          case Some(top) => [DominantInsight(stats, col.name, top, Count(cells, top), rows)]
          case None => [];
        Success((plain.(categories := Some(CategoryCounts(cells))), insights))
    else
      Success((plain, []))
  }

  /** The column loop over `cols`: summaries keyed by name, in order, and
      the insights in the order the columns add them. */
  function ColumnPass(stats: Statistics, rows: nat, cols: seq<Column>)
    : (r: Result<(seq<(string, ColumnSummary)>, seq<string>), string>)
    requires rows > 0
    decreases |cols|
  {
    if |cols| == 0 then Success(([], []))
    else
      var last := cols[|cols| - 1];
      match ColumnPass(stats, rows, cols[..|cols| - 1])
      case Failure(e) => Failure(e)
      case Success((summaries, insights)) =>
        match ColumnReport(stats, rows, last)
        case Failure(e) => Failure(e)
        case Success((summary, extra)) => Success((summaries + [(last.name, summary)], insights + extra))
  }

  /** The insights the columns add, column after column: each column's
      own insights, in frame order. */
  function ColumnInsights(stats: Statistics, rows: nat, cols: seq<Column>): seq<string>
    requires rows > 0
  {
    Flatten(seq(|cols|, i requires 0 <= i < |cols| => ColumnExtra(stats, rows, cols[i])))
  }

  /** The insights one column adds; a column that raises adds none. */
  function ColumnExtra(stats: Statistics, rows: nat, col: Column): seq<string>
    requires rows > 0
  {
    match ColumnReport(stats, rows, col)
    case Success((_, extra)) => extra
    case Failure(_) => []
  }

  /** The parts one after another. */
  function Flatten(parts: seq<seq<string>>): seq<string>
    decreases |parts|
  {
    if |parts| == 0 then [] else parts[0] + Flatten(parts[1..])
  }

  /** Flattening taken from the other end: the last part comes last. */
  lemma {:induction false} FlattenSnoc(parts: seq<seq<string>>, last: seq<string>)
    ensures Flatten(parts + [last]) == Flatten(parts) + last
    decreases |parts|
  {
    if |parts| == 0 {
      assert [] + [last] == [last];
      assert Flatten([last]) == last + Flatten([]);
    } else {
      assert (parts + [last])[1..] == parts[1..] + [last];
      FlattenSnoc(parts[1..], last);
    }
  }

  /** Parts of at most one element flatten to at most one element each. */
  lemma {:induction false} FlattenShort(parts: seq<seq<string>>)
    requires forall i :: 0 <= i < |parts| ==> |parts[i]| <= 1
    ensures |Flatten(parts)| <= |parts|
    decreases |parts|
  {
    if |parts| > 0 {
      FlattenShort(parts[1..]);
    }
  }

  /** Each column adds at most one insight. */
  lemma ColumnInsightsLength(stats: Statistics, rows: nat, cols: seq<Column>)
    requires rows > 0
    ensures |ColumnInsights(stats, rows, cols)| <= |cols|
  {
    var parts := seq(|cols|, i requires 0 <= i < |cols| => ColumnExtra(stats, rows, cols[i]));
    forall i | 0 <= i < |parts|
      ensures |parts[i]| <= 1
    {
      assert parts[i] == ColumnExtra(stats, rows, cols[i]);
    }
    FlattenShort(parts);
  }

  lemma ColumnInsightsSnoc(stats: Statistics, rows: nat, cols: seq<Column>)
    requires rows > 0 && |cols| > 0
    requires ColumnReport(stats, rows, cols[|cols| - 1]).Success?
    ensures ColumnInsights(stats, rows, cols)
         == ColumnInsights(stats, rows, cols[..|cols| - 1]) + ColumnReport(stats, rows, cols[|cols| - 1]).value.1
  {
    var n := |cols| - 1;
    var parts := seq(n, i requires 0 <= i < n => ColumnExtra(stats, rows, cols[..n][i]));
    var last := ColumnExtra(stats, rows, cols[n]);
    assert seq(|cols|, i requires 0 <= i < |cols| => ColumnExtra(stats, rows, cols[i])) == parts + [last];
    FlattenSnoc(parts, last);
  }

  /** `df.select_dtypes(include=['number']).columns`. */
  function NumberColumns(cols: seq<Column>): (nc: seq<Column>)
    ensures forall c :: c in nc <==> c in cols && IsNumberDtype(c.dtype)
    decreases |cols|
  {
    if |cols| == 0 then []
    else NumberColumns(cols[..|cols| - 1]) + (if IsNumberDtype(cols[|cols| - 1].dtype) then [cols[|cols| - 1]] else [])
  }

  /** The positions of the number columns among the first `n` columns,
      in increasing order. */
  function NumberPositions(cols: seq<Column>, n: nat): seq<nat>
    requires n <= |cols|
    decreases n
  {
    if n == 0 then []
    else NumberPositions(cols, n - 1) + (if IsNumberDtype(cols[n - 1].dtype) then [n - 1] else [])
  }

  /** `nc` lists the number columns among the first `n` of `cols` in
      their order: its `k`-th entry is the column at position `idx[k]`,
      the positions increase, and every number column has one. */
  predicate FilteredInOrder(cols: seq<Column>, n: nat, nc: seq<Column>, idx: seq<nat>)
    requires n <= |cols|
  {
    && |idx| == |nc|
    && (forall k :: 0 <= k < |idx| ==> idx[k] < n && nc[k] == cols[idx[k]])
    && (forall k, l :: 0 <= k < l < |idx| ==> idx[k] < idx[l])
    && (forall i :: 0 <= i < n && IsNumberDtype(cols[i].dtype) ==> i in idx)
  }

  /** The number columns keep the frame's order. */
  lemma NumberColumnsInOrder(cols: seq<Column>)
    ensures FilteredInOrder(cols, |cols|, NumberColumns(cols), NumberPositions(cols, |cols|))
  {
    NumberPrefixInOrder(cols, |cols|);
    assert cols[..|cols|] == cols;
  }

  lemma {:induction false} NumberPrefixInOrder(cols: seq<Column>, n: nat)
    requires n <= |cols|
    ensures FilteredInOrder(cols, n, NumberColumns(cols[..n]), NumberPositions(cols, n))
    decreases n
  {
    if n > 0 {
      NumberPrefixInOrder(cols, n - 1);
      var nc0, idx0 := NumberColumns(cols[..n - 1]), NumberPositions(cols, n - 1);
      assert cols[..n][..n - 1] == cols[..n - 1];
      assert cols[..n][n - 1] == cols[n - 1];
      if IsNumberDtype(cols[n - 1].dtype) {
        NumberStep(cols, n, nc0, idx0);
        assert NumberColumns(cols[..n]) == nc0 + [cols[n - 1]];
      } else {
        assert NumberColumns(cols[..n]) == nc0;
        NumberSkip(cols, n, nc0, idx0);
      }
    }
  }

  /** Passing over a column of another type keeps the order. */
  lemma NumberSkip(cols: seq<Column>, n: nat, nc0: seq<Column>, idx0: seq<nat>)
    requires 0 < n <= |cols| && !IsNumberDtype(cols[n - 1].dtype)
    requires FilteredInOrder(cols, n - 1, nc0, idx0)
    ensures FilteredInOrder(cols, n, nc0, idx0)
  {
    forall i | 0 <= i < n && IsNumberDtype(cols[i].dtype)
      ensures i in idx0
    {
      assert i < n - 1;
    }
  }

  /** Appending a number column at position `n - 1` keeps the order. */
  lemma NumberStep(cols: seq<Column>, n: nat, nc0: seq<Column>, idx0: seq<nat>)
    requires 0 < n <= |cols| && IsNumberDtype(cols[n - 1].dtype)
    requires FilteredInOrder(cols, n - 1, nc0, idx0)
    ensures FilteredInOrder(cols, n, nc0 + [cols[n - 1]], idx0 + [n - 1])
  {
    var nc, idx := nc0 + [cols[n - 1]], idx0 + [n - 1];
    forall k | 0 <= k < |idx|
      ensures idx[k] < n && nc[k] == cols[idx[k]]
    {
      if k < |idx0| {
        assert idx[k] == idx0[k] && nc[k] == nc0[k];
      }
    }
    forall i | 0 <= i < n && IsNumberDtype(cols[i].dtype)
      ensures i in idx
    {
      if i < n - 1 {
        assert i in idx0;
      } else {
        assert idx[|idx0|] == i;
      }
    }
  }

  /** A pair of number columns whose correlation is strong. */
  datatype Hit = Hit(first: string, second: string, r: real)

  /** The correlation of columns `i` and `j` when it is defined and beyond
      0.7 in absolute value (`0.7` as a double lies just below 7/10, and
      no double lies strictly between the two, so the comparison agrees). */
  function StrongCorrelation(stats: Statistics, nc: seq<Column>, i: nat, j: nat): Option<real>
    requires i < |nc| && j < |nc|
  {
    match stats.corr(nc[i].cells, nc[j].cells)
    case Some(r) => if Abs(r) > 0.7 then Some(r) else None
    case None => None
  }

  /** The strong pairs `(i, k)` with `i < k < j`, by increasing `k`. */
  function RowHits(stats: Statistics, nc: seq<Column>, i: nat, j: nat): seq<Hit>
    requires i < |nc| && j <= |nc|
    decreases j
  {
    if j <= i + 1 then []
    else
      RowHits(stats, nc, i, j - 1)
      + match StrongCorrelation(stats, nc, i, j - 1)
        case Some(r) => [Hit(nc[i].name, nc[j - 1].name, r)]
        case None => []
  }

  /** The strong pairs whose first column comes before `i`, row by row. */
  function HitsBefore(stats: Statistics, nc: seq<Column>, i: nat): seq<Hit>
    requires i <= |nc|
    decreases i
  {
    if i == 0 then [] else HitsBefore(stats, nc, i - 1) + RowHits(stats, nc, i - 1, |nc|)
  }

  function Key(h: Hit): string {
    h.first + "-" + h.second
  }

  /** Writing the hits into the dictionary `m` one after the other. */
  function WriteHits(m: map<string, real>, hits: seq<Hit>): map<string, real>
    decreases |hits|
  {
    if |hits| == 0 then m
    else WriteHits(m, hits[..|hits| - 1])[Key(hits[|hits| - 1]) := hits[|hits| - 1].r]
  }

  function CorrelationMap(hits: seq<Hit>): map<string, real> {
    WriteHits(map[], hits)
  }

  function HitInsights(stats: Statistics, hits: seq<Hit>): seq<string>
    decreases |hits|
  {
    if |hits| == 0 then []
    else HitInsights(stats, hits[..|hits| - 1]) + [CorrelationInsight(stats, hits[|hits| - 1].first, hits[|hits| - 1].second, hits[|hits| - 1].r)]
  }

  function StrongPairs(stats: Statistics, cols: seq<Column>): seq<Hit> {
    var nc := NumberColumns(cols);
    if |nc| >= 2 then HitsBefore(stats, nc, |nc|) else []
  }

  /** What `analyze_chart_data` returns (Success) or raises (Failure). */
  function AnalysisOf(stats: Statistics, frame: Frame): Result<Analysis, string> {
    if IsEmpty(frame) then Success(AnalysisError(EmptyDataset))
    else
      match ColumnPass(stats, frame.rowCount, frame.columns)
      case Failure(e) => Failure(e)
      case Success((summaries, insights)) =>
        var hits := StrongPairs(stats, frame.columns);
        Success(Report(frame.rowCount, |frame.columns|, summaries, CorrelationMap(hits),
                       insights + HitInsights(stats, hits)))
  }

  lemma {:induction false} ColumnPassFailureSticks(stats: Statistics, rows: nat, cols: seq<Column>, k: nat)
    requires rows > 0 && k <= |cols|
    requires ColumnPass(stats, rows, cols[..k]).Failure?
    ensures ColumnPass(stats, rows, cols) == ColumnPass(stats, rows, cols[..k])
    decreases |cols| - k
  {
    if k < |cols| {
      assert cols[..k + 1][..k] == cols[..k];
      ColumnPassFailureSticks(stats, rows, cols, k + 1);
    } else {
      assert cols[..k] == cols;
    }
  }

  /** Analyses the frame column by column, then every pair of number
      columns, appending insights as it goes. */
  method AnalyzeChartData(stats: Statistics, frame: Frame) returns (r: Result<Analysis, string>)
    ensures r == AnalysisOf(stats, frame)
  {
    if IsEmpty(frame) {
      return Success(AnalysisError(EmptyDataset));
    }
    var cols := frame.columns;
    var rows := frame.rowCount;
    var summaries: seq<(string, ColumnSummary)> := [];
    var insights: seq<string> := [];
    for i := 0 to |cols|
      invariant ColumnPass(stats, rows, cols[..i]) == Success((summaries, insights))
    {
      assert cols[..i + 1][..i] == cols[..i];
      match ColumnReport(stats, rows, cols[i]) {
        case Failure(e) =>
          ColumnPassFailureSticks(stats, rows, cols, i + 1);
          return Failure(e);
        case Success((summary, extra)) =>
          summaries := summaries + [(cols[i].name, summary)];
          insights := insights + extra;
      }
    }
    assert cols[..|cols|] == cols;
    var correlations;
    correlations, insights := AddCorrelations(stats, cols, insights);
    return Success(Report(rows, |cols|, summaries, correlations, insights));
  }

  /** The correlation section: every pair of number columns, the first
      before the second, recording the strong ones. */
  method AddCorrelations(stats: Statistics, cols: seq<Column>, insights0: seq<string>)
    returns (correlations: map<string, real>, insights: seq<string>)
    ensures correlations == CorrelationMap(StrongPairs(stats, cols))
    ensures insights == insights0 + HitInsights(stats, StrongPairs(stats, cols))
  {
    correlations, insights := map[], insights0;
    var nc := NumberColumns(cols);
    if |nc| >= 2 {
      var found;
      correlations, found := AllPairs(stats, nc);
      insights := insights + found;
    }
  }

  /** The outer loop over the first column of each pair. */
  method AllPairs(stats: Statistics, nc: seq<Column>) returns (correlations: map<string, real>, insights: seq<string>)
    ensures correlations == CorrelationMap(HitsBefore(stats, nc, |nc|))
    ensures insights == HitInsights(stats, HitsBefore(stats, nc, |nc|))
  {
    correlations, insights := map[], [];
    for i := 0 to |nc|
      invariant correlations == CorrelationMap(HitsBefore(stats, nc, i))
      invariant insights == HitInsights(stats, HitsBefore(stats, nc, i))
    {
      HitsBeforeStep(stats, nc, i);
      correlations, insights := AddRowCorrelations(stats, nc, i, correlations, insights);
    }
  }

  /** The inner loop for the first column `i`. */
  method AddRowCorrelations(stats: Statistics, nc: seq<Column>, i: nat, m0: map<string, real>, insights0: seq<string>)
    returns (m: map<string, real>, insights: seq<string>)
    requires i < |nc|
    ensures m == WriteHits(m0, RowHits(stats, nc, i, |nc|))
    ensures insights == insights0 + HitInsights(stats, RowHits(stats, nc, i, |nc|))
  {
    m, insights := m0, insights0;
    for j := i + 1 to |nc|
      invariant m == WriteHits(m0, RowHits(stats, nc, i, j))
      invariant insights == insights0 + HitInsights(stats, RowHits(stats, nc, i, j))
    {
      var c := stats.corr(nc[i].cells, nc[j].cells);
      if c.Some? && Abs(c.value) > 0.7 {
        var h := Hit(nc[i].name, nc[j].name, c.value);
        var line := CorrelationInsight(stats, h.first, h.second, h.r);
        RowHitsStrong(stats, nc, i, j, m0, h);
        InsightsAppend(insights0, HitInsights(stats, RowHits(stats, nc, i, j)), line);
        m := m[Key(h) := h.r];
        insights := insights + [line];
      } else {
        RowHitsWeak(stats, nc, i, j);
      }
    }
  }

  /** A strong pair `(i, j)` adds one entry and one insight. */
  lemma RowHitsStrong(stats: Statistics, nc: seq<Column>, i: nat, j: nat, m0: map<string, real>, h: Hit)
    requires i < j < |nc| && h == Hit(nc[i].name, nc[j].name, h.r)
    requires StrongCorrelation(stats, nc, i, j) == Some(h.r)
    ensures WriteHits(m0, RowHits(stats, nc, i, j + 1)) == WriteHits(m0, RowHits(stats, nc, i, j))[Key(h) := h.r]
    ensures HitInsights(stats, RowHits(stats, nc, i, j + 1))
         == HitInsights(stats, RowHits(stats, nc, i, j)) + [CorrelationInsight(stats, h.first, h.second, h.r)]
  {
    var before := RowHits(stats, nc, i, j);
    assert RowHits(stats, nc, i, j + 1) == before + [h];
    assert (before + [h])[..|before|] == before;
  }

  lemma InsightsAppend(a: seq<string>, b: seq<string>, line: string)
    ensures a + b + [line] == a + (b + [line])
  {
  }

  /** Any other pair adds nothing. */
  lemma RowHitsWeak(stats: Statistics, nc: seq<Column>, i: nat, j: nat)
    requires i < j < |nc| && StrongCorrelation(stats, nc, i, j).None?
    ensures RowHits(stats, nc, i, j + 1) == RowHits(stats, nc, i, j)
  {
  }

  lemma HitsBeforeStep(stats: Statistics, nc: seq<Column>, i: nat)
    requires i < |nc|
    ensures CorrelationMap(HitsBefore(stats, nc, i + 1))
         == WriteHits(CorrelationMap(HitsBefore(stats, nc, i)), RowHits(stats, nc, i, |nc|))
    ensures HitInsights(stats, HitsBefore(stats, nc, i + 1))
         == HitInsights(stats, HitsBefore(stats, nc, i)) + HitInsights(stats, RowHits(stats, nc, i, |nc|))
  {
    WriteHitsConcat(map[], HitsBefore(stats, nc, i), RowHits(stats, nc, i, |nc|));
    HitInsightsConcat(stats, HitsBefore(stats, nc, i), RowHits(stats, nc, i, |nc|));
  }

  lemma {:induction false} WriteHitsConcat(m: map<string, real>, a: seq<Hit>, b: seq<Hit>)
    ensures WriteHits(m, a + b) == WriteHits(WriteHits(m, a), b)
    decreases |b|
  {
    if |b| == 0 {
      assert a + b == a;
    } else {
      assert (a + b)[..|a + b| - 1] == a + b[..|b| - 1];
      WriteHitsConcat(m, a, b[..|b| - 1]);
    }
  }

  lemma {:induction false} HitInsightsConcat(stats: Statistics, a: seq<Hit>, b: seq<Hit>)
    ensures HitInsights(stats, a + b) == HitInsights(stats, a) + HitInsights(stats, b)
    decreases |b|
  {
    if |b| == 0 {
      assert a + b == a;
    } else {
      assert (a + b)[..|a + b| - 1] == a + b[..|b| - 1];
      HitInsightsConcat(stats, a, b[..|b| - 1]);
    }
  }

  /** The column loop fails exactly at a column without value counts, and
      otherwise keeps one summary per column, in order, and at most one
      insight per column. */
  lemma ColumnPassOutcome(stats: Statistics, rows: nat, cols: seq<Column>)
    requires rows > 0
    ensures ColumnPass(stats, rows, cols).Failure?
        <==> exists i :: 0 <= i < |cols| && HasNoValueCounts(cols[i])
    ensures ColumnPass(stats, rows, cols).Failure? ==> ColumnPass(stats, rows, cols).error == EmptyIndexError
    ensures ColumnPass(stats, rows, cols).Success? ==>
        var (summaries, insights) := ColumnPass(stats, rows, cols).value;
        && |summaries| == |cols|
        && insights == ColumnInsights(stats, rows, cols)
        && forall i :: 0 <= i < |cols| ==>
             && ColumnReport(stats, rows, cols[i]).Success?
             && summaries[i] == (cols[i].name, ColumnReport(stats, rows, cols[i]).value.0)
  {
    ColumnPassFailure(stats, rows, cols);
    ColumnPassSummaries(stats, rows, cols);
  }

  lemma {:induction false} ColumnPassFailure(stats: Statistics, rows: nat, cols: seq<Column>)
    requires rows > 0
    ensures ColumnPass(stats, rows, cols).Failure?
        <==> exists i :: 0 <= i < |cols| && HasNoValueCounts(cols[i])
    ensures ColumnPass(stats, rows, cols).Failure? ==> ColumnPass(stats, rows, cols).error == EmptyIndexError
    decreases |cols|
  {
    if |cols| > 0 {
      var init := cols[..|cols| - 1];
      ColumnPassFailure(stats, rows, init);
      SomeColumnWithoutCounts(init, cols);
    }
  }

  /** A column without value counts among `init + [last]` is one of `init`
      or `last`. */
  lemma SomeColumnWithoutCounts(init: seq<Column>, cols: seq<Column>)
    requires |cols| > 0 && init == cols[..|cols| - 1]
    ensures (exists i :: 0 <= i < |cols| && HasNoValueCounts(cols[i]))
        <==> (exists i :: 0 <= i < |init| && HasNoValueCounts(init[i])) || HasNoValueCounts(cols[|cols| - 1])
  {
    if exists i :: 0 <= i < |cols| && HasNoValueCounts(cols[i]) {
      var i :| 0 <= i < |cols| && HasNoValueCounts(cols[i]);
      if i < |init| {
        assert init[i] == cols[i];
      }
    }
    if exists i :: 0 <= i < |init| && HasNoValueCounts(init[i]) {
      var i :| 0 <= i < |init| && HasNoValueCounts(init[i]);
      assert cols[i] == init[i];
    }
  }

  lemma {:induction false} ColumnPassSummaries(stats: Statistics, rows: nat, cols: seq<Column>)
    requires rows > 0
    ensures ColumnPass(stats, rows, cols).Success? ==>
        var (summaries, insights) := ColumnPass(stats, rows, cols).value;
        && |summaries| == |cols|
        && insights == ColumnInsights(stats, rows, cols)
        && forall i :: 0 <= i < |cols| ==>
             && ColumnReport(stats, rows, cols[i]).Success?
             && summaries[i] == (cols[i].name, ColumnReport(stats, rows, cols[i]).value.0)
    decreases |cols|
  {
    if |cols| > 0 && ColumnPass(stats, rows, cols).Success? {
      var init, last := cols[..|cols| - 1], cols[|cols| - 1];
      ColumnPassSummaries(stats, rows, init);
      var (s0, i0) := ColumnPass(stats, rows, init).value;
      var (s, ins) := ColumnPass(stats, rows, cols).value;
      var rep := ColumnReport(stats, rows, last);
      assert s == s0 + [(last.name, rep.value.0)] && ins == i0 + rep.value.1;
      ColumnInsightsSnoc(stats, rows, cols);
      forall i | 0 <= i < |cols|
        ensures ColumnReport(stats, rows, cols[i]).Success?
        ensures s[i] == (cols[i].name, ColumnReport(stats, rows, cols[i]).value.0)
      {
        if i < |init| {
          assert init[i] == cols[i] && s[i] == s0[i];
        } else {
          var entry := (last.name, rep.value.0);
          assert i == |s0| && cols[i] == last;
          assert s[i] == (s0 + [entry])[|s0|] == entry;
        }
      }
    }
  }

  /** What the analysis of a frame is: the empty-dataset error, the
      IndexError of a column without values, or a report with the frame's
      sizes, one summary per column in order, and the strong pairs. */
  lemma AnalysisOutcome(stats: Statistics, frame: Frame)
    ensures IsEmpty(frame) ==> AnalysisOf(stats, frame) == Success(AnalysisError(EmptyDataset))
    ensures AnalysisOf(stats, frame).Failure?
        <==> !IsEmpty(frame) && exists i :: 0 <= i < |frame.columns| && HasNoValueCounts(frame.columns[i])
    ensures AnalysisOf(stats, frame).Failure? ==> AnalysisOf(stats, frame).error == EmptyIndexError
    ensures AnalysisOf(stats, frame).Success? ==> (AnalysisOf(stats, frame).value.Report? <==> !IsEmpty(frame))
    ensures AnalysisOf(stats, frame).Success? && AnalysisOf(stats, frame).value.Report? ==>
        var a := AnalysisOf(stats, frame).value;
        && a.rowCount == frame.rowCount
        && a.columnCount == |frame.columns| == |a.columns|
        && (forall i :: 0 <= i < |frame.columns| ==>
              && ColumnReport(stats, frame.rowCount, frame.columns[i]).Success?
              && a.columns[i] == (frame.columns[i].name, ColumnReport(stats, frame.rowCount, frame.columns[i]).value.0))
        && a.insights == ColumnInsights(stats, frame.rowCount, frame.columns)
                         + HitInsights(stats, StrongPairs(stats, frame.columns))
        && a.correlations == CorrelationMap(StrongPairs(stats, frame.columns))
  {
    if !IsEmpty(frame) {
      ColumnPassOutcome(stats, frame.rowCount, frame.columns);
    }
  }

  lemma {:induction false} HitInsightsLength(stats: Statistics, hits: seq<Hit>)
    ensures |HitInsights(stats, hits)| == |hits|
    decreases |hits|
  {
    if |hits| > 0 {
      HitInsightsLength(stats, hits[..|hits| - 1]);
    }
  }

  /** `h` is the hit for columns `a` and `b` of `nc`: it names them and
      carries their strong correlation. */
  predicate HitFor(stats: Statistics, nc: seq<Column>, a: nat, b: nat, h: Hit) {
    a < |nc| && b < |nc| && StrongCorrelation(stats, nc, a, b) == Some(h.r)
    && h.first == nc[a].name && h.second == nc[b].name
  }

  /** `h` is the hit of row `i` for some column `k` with `i < k < j`. */
  predicate HitInRow(stats: Statistics, nc: seq<Column>, i: nat, j: nat, h: Hit) {
    exists k :: i < k < j && HitFor(stats, nc, i, k, h)
  }

  /** `h` is the hit of some pair `a < b` whose row `a` is below `i`. */
  predicate HitInRows(stats: Statistics, nc: seq<Column>, i: nat, h: Hit) {
    exists a, b :: 0 <= a < i && a < b < |nc| && HitFor(stats, nc, a, b, h)
  }

  /** The hits of row `i` below `j` are exactly its strong pairs. */
  lemma {:induction false} RowHitsExact(stats: Statistics, nc: seq<Column>, i: nat, j: nat, h: Hit)
    requires i < |nc| && j <= |nc|
    ensures h in RowHits(stats, nc, i, j) <==> HitInRow(stats, nc, i, j, h)
    decreases j
  {
    if j > i + 1 {
      RowHitsExact(stats, nc, i, j - 1, h);
      if HitFor(stats, nc, i, j - 1, h) {
        assert h in RowHits(stats, nc, i, j);
      }
      if h in RowHits(stats, nc, i, j) && h !in RowHits(stats, nc, i, j - 1) {
        assert HitFor(stats, nc, i, j - 1, h);
      }
      if HitInRow(stats, nc, i, j, h) {
        var k :| i < k < j && HitFor(stats, nc, i, k, h);
        if k < j - 1 {
          assert HitInRow(stats, nc, i, j - 1, h);
        }
      }
    }
  }

  /** The hits of the rows before `i` are exactly their strong pairs. */
  lemma {:induction false} HitsBeforeExact(stats: Statistics, nc: seq<Column>, i: nat, h: Hit)
    requires i <= |nc|
    ensures h in HitsBefore(stats, nc, i) <==> HitInRows(stats, nc, i, h)
    decreases i
  {
    if i > 0 {
      var inAll, inEarlier, inRow := h in HitsBefore(stats, nc, i), h in HitsBefore(stats, nc, i - 1),
                                     h in RowHits(stats, nc, i - 1, |nc|);
      var all, earlier, row := HitInRows(stats, nc, i, h), HitInRows(stats, nc, i - 1, h),
                               HitInRow(stats, nc, i - 1, |nc|, h);
      assert inEarlier == earlier by { HitsBeforeExact(stats, nc, i - 1, h); }
      assert inRow == row by { RowHitsExact(stats, nc, i - 1, |nc|, h); }
      assert inAll == (inEarlier || inRow) by { HitsBeforeSnoc(stats, nc, i, h); }
      assert all == (earlier || row) by { HitInRowsStep(stats, nc, i, h); }
      assert inAll == all;
    } else {
      assert !HitInRows(stats, nc, 0, h);
    }
  }

  /** The hits of the rows below `i` are those below `i - 1` followed by
      those of row `i - 1`. */
  lemma HitsBeforeSnoc(stats: Statistics, nc: seq<Column>, i: nat, h: Hit)
    requires 0 < i <= |nc|
    ensures h in HitsBefore(stats, nc, i) <==> h in HitsBefore(stats, nc, i - 1) || h in RowHits(stats, nc, i - 1, |nc|)
  {
    var earlier, row := HitsBefore(stats, nc, i - 1), RowHits(stats, nc, i - 1, |nc|);
    assert HitsBefore(stats, nc, i) == earlier + row;
  }

  /** The pairs of the rows below `i` are those of the rows below `i - 1`
      and those of row `i - 1`. */
  lemma HitInRowsStep(stats: Statistics, nc: seq<Column>, i: nat, h: Hit)
    requires 0 < i <= |nc|
    ensures HitInRows(stats, nc, i, h) <==> HitInRows(stats, nc, i - 1, h) || HitInRow(stats, nc, i - 1, |nc|, h)
  {
    if HitInRow(stats, nc, i - 1, |nc|, h) {
      var k :| 0 <= i - 1 < k < |nc| && HitFor(stats, nc, i - 1, k, h);
      assert HitInRows(stats, nc, i, h);
    }
    if HitInRows(stats, nc, i - 1, h) {
      var a, b :| 0 <= a < i - 1 && a < b < |nc| && HitFor(stats, nc, a, b, h);
      assert HitInRows(stats, nc, i, h);
    }
    if HitInRows(stats, nc, i, h) {
      var a, b :| 0 <= a < i && a < b < |nc| && HitFor(stats, nc, a, b, h);
      if a == i - 1 {
        assert HitInRow(stats, nc, i - 1, |nc|, h);
      } else {
        assert HitInRows(stats, nc, i - 1, h);
      }
    }
  }

  /** `h` names columns `a < b` of `nc` whose correlation is defined and
      beyond 0.7 in absolute value, and carries that correlation. */
  predicate IsStrongPair(stats: Statistics, nc: seq<Column>, h: Hit) {
    exists a, b :: 0 <= a < b < |nc| && stats.corr(nc[a].cells, nc[b].cells) == Some(h.r)
                   && Abs(h.r) > 0.7 && h.first == nc[a].name && h.second == nc[b].name
  }

  /** A pair of number columns, the first before the second, is reported
      exactly when its correlation is defined and beyond 0.7 in absolute
      value. */
  lemma StrongPairsExact(stats: Statistics, cols: seq<Column>, h: Hit)
    ensures h in StrongPairs(stats, cols) <==> IsStrongPair(stats, NumberColumns(cols), h)
  {
    var nc := NumberColumns(cols);
    StrongHitsExact(stats, nc, h);
    if |nc| >= 2 {
      assert StrongPairs(stats, cols) == HitsBefore(stats, nc, |nc|);
    } else {
      assert StrongPairs(stats, cols) == [];
      assert HitsBefore(stats, nc, |nc|) == [];
    }
  }

  /** `HitsBeforeExact` for all rows, with the strength test spelled out. */
  lemma StrongHitsExact(stats: Statistics, nc: seq<Column>, h: Hit)
    ensures h in HitsBefore(stats, nc, |nc|) <==> IsStrongPair(stats, nc, h)
  {
    HitsBeforeExact(stats, nc, |nc|, h);
    if HitInRows(stats, nc, |nc|, h) {
      var a, b :| 0 <= a < |nc| && a < b < |nc| && HitFor(stats, nc, a, b, h);
      assert stats.corr(nc[a].cells, nc[b].cells) == Some(h.r) && Abs(h.r) > 0.7;
    }
    if IsStrongPair(stats, nc, h) {
      var a, b :| 0 <= a < b < |nc| && stats.corr(nc[a].cells, nc[b].cells) == Some(h.r)
                  && Abs(h.r) > 0.7 && h.first == nc[a].name && h.second == nc[b].name;
      assert HitFor(stats, nc, a, b, h);
    }
  }

  /** Each key of the correlation dictionary comes from a hit, and holds
      the value of the last hit with that key. */
  lemma {:induction false} CorrelationMapLastWrite(hits: seq<Hit>, key: string)
    ensures key in CorrelationMap(hits) <==> exists k :: 0 <= k < |hits| && Key(hits[k]) == key
    ensures key in CorrelationMap(hits) ==>
        exists k :: 0 <= k < |hits| && Key(hits[k]) == key && CorrelationMap(hits)[key] == hits[k].r
                    && forall l :: k < l < |hits| ==> Key(hits[l]) != key
    decreases |hits|
  {
    if |hits| > 0 {
      var init := hits[..|hits| - 1];
      CorrelationMapLastWrite(init, key);
      assert forall k :: 0 <= k < |init| ==> init[k] == hits[k];
    }
  }

  /** The position of the first dash of `s`, or `|s|` when it has none. */
  function FirstDash(s: string): (n: nat)
    ensures n <= |s|
    decreases |s|
  {
    if |s| == 0 || s[0] == '-' then 0 else 1 + FirstDash(s[1..])
  }

  lemma {:induction false} FirstDashFollowsPrefix(a: string, b: string)
    requires '-' !in a
    ensures FirstDash(a + "-" + b) == |a|
    decreases |a|
  {
    if |a| > 0 {
      assert (a + "-" + b)[1..] == a[1..] + "-" + b;
      FirstDashFollowsPrefix(a[1..], b);
    }
  }

  /** `"<a>-<b>"` determines `a` and `b` when `a` has no dash. */
  lemma KeyDeterminesPair(h1: Hit, h2: Hit)
    requires '-' !in h1.first && '-' !in h2.first
    requires Key(h1) == Key(h2)
    ensures h1.first == h2.first && h1.second == h2.second
  {
    var s := Key(h1);
    var n1 := |h1.first|;
    FirstDashFollowsPrefix(h1.first, h1.second);
    FirstDashFollowsPrefix(h2.first, h2.second);
    assert h1.first == s[..n1] == h2.first;
    assert h1.second == s[n1 + 1..] == h2.second;
  }
}
