/** `prepare_data_for_chart`: parse the records, sort the columns into
    numeric, datetime, categorical and text ones, and recommend a chart. */
module ChartPreparation {
  import opened Wrappers
  import opened PyValue
  import opened Frames

  datatype ColumnKind = NumericKind | DatetimeKind | CategoricalKind | TextKind

  /** The first test a column passes, in the order the classifier tries
      them: a numeric dtype, a datetime dtype, fewer distinct values than
      half the rows, and otherwise free text. `nunique < rows * 0.5` is
      `2 * nunique < rows` on whole numbers. */
  function KindOf(col: Column, rows: nat): ColumnKind {
    if IsNumericDtype(col.dtype) then NumericKind
    else if IsDatetimeDtype(col.dtype) then DatetimeKind
    else if 2 * Nunique(col.cells) < rows then CategoricalKind
    else TextKind
  }

  /** The names of the columns of kind `k`, in column order. */
  function NamesOfKind(cols: seq<Column>, rows: nat, k: ColumnKind): (names: seq<string>)
    ensures |names| <= |cols|
    decreases |cols|
  {
    if |cols| == 0 then []
    else
      var last := cols[|cols| - 1];
      NamesOfKind(cols[..|cols| - 1], rows, k) + (if KindOf(last, rows) == k then [last.name] else [])
  }

  /** The positions of the columns of kind `k` among the first `n`, in
      increasing order. */
  function KindPositions(cols: seq<Column>, rows: nat, k: ColumnKind, n: nat): seq<nat>
    requires n <= |cols|
    decreases n
  {
    if n == 0 then []
    else KindPositions(cols, rows, k, n - 1) + (if KindOf(cols[n - 1], rows) == k then [n - 1] else [])
  }

  /** `names` lists the columns of kind `k` among the first `n` of `cols`
      in their order: its `j`-th entry names the column at position
      `idx[j]`, the positions increase, and every column of that kind has
      one. */
  predicate NamedInOrder(cols: seq<Column>, rows: nat, k: ColumnKind, n: nat, names: seq<string>, idx: seq<nat>)
    requires n <= |cols|
  {
    && |idx| == |names|
    && (forall j :: 0 <= j < |idx| ==> idx[j] < n && KindOf(cols[idx[j]], rows) == k && names[j] == cols[idx[j]].name)
    && (forall j, l :: 0 <= j < l < |idx| ==> idx[j] < idx[l])
    && (forall i :: 0 <= i < n && KindOf(cols[i], rows) == k ==> i in idx)
  }

  /** The names of each kind keep the frame's column order. */
  lemma NamesOfKindInOrder(cols: seq<Column>, rows: nat, k: ColumnKind)
    ensures NamedInOrder(cols, rows, k, |cols|, NamesOfKind(cols, rows, k), KindPositions(cols, rows, k, |cols|))
  {
    KindPrefixInOrder(cols, rows, k, |cols|);
    assert cols[..|cols|] == cols;
  }

  lemma {:induction false} KindPrefixInOrder(cols: seq<Column>, rows: nat, k: ColumnKind, n: nat)
    requires n <= |cols|
    ensures NamedInOrder(cols, rows, k, n, NamesOfKind(cols[..n], rows, k), KindPositions(cols, rows, k, n))
    decreases n
  {
    if n > 0 {
      KindPrefixInOrder(cols, rows, k, n - 1);
      var names0, idx0 := NamesOfKind(cols[..n - 1], rows, k), KindPositions(cols, rows, k, n - 1);
      assert cols[..n][..n - 1] == cols[..n - 1];
      assert cols[..n][n - 1] == cols[n - 1];
      if KindOf(cols[n - 1], rows) == k {
        KindStep(cols, rows, k, n, names0, idx0);
        assert NamesOfKind(cols[..n], rows, k) == names0 + [cols[n - 1].name];
      } else {
        assert NamesOfKind(cols[..n], rows, k) == names0;
        KindSkip(cols, rows, k, n, names0, idx0);
      }
    }
  }

  /** Passing over a column of another kind keeps the order. */
  lemma KindSkip(cols: seq<Column>, rows: nat, k: ColumnKind, n: nat, names0: seq<string>, idx0: seq<nat>)
    requires 0 < n <= |cols| && KindOf(cols[n - 1], rows) != k
    requires NamedInOrder(cols, rows, k, n - 1, names0, idx0)
    ensures NamedInOrder(cols, rows, k, n, names0, idx0)
  {
    forall i | 0 <= i < n && KindOf(cols[i], rows) == k
      ensures i in idx0
    {
      assert i < n - 1;
    }
  }

  /** Appending a column of kind `k` at position `n - 1` keeps the order. */
  lemma KindStep(cols: seq<Column>, rows: nat, k: ColumnKind, n: nat, names0: seq<string>, idx0: seq<nat>)
    requires 0 < n <= |cols| && KindOf(cols[n - 1], rows) == k
    requires NamedInOrder(cols, rows, k, n - 1, names0, idx0)
    ensures NamedInOrder(cols, rows, k, n, names0 + [cols[n - 1].name], idx0 + [n - 1])
  {
    var names, idx := names0 + [cols[n - 1].name], idx0 + [n - 1];
    forall j | 0 <= j < |idx|
      ensures idx[j] < n && KindOf(cols[idx[j]], rows) == k && names[j] == cols[idx[j]].name
    {
      if j < |idx0| {
        assert idx[j] == idx0[j] && names[j] == names0[j];
      }
    }
    forall i | 0 <= i < n && KindOf(cols[i], rows) == k
      ensures i in idx
    {
      if i < n - 1 {
        assert i in idx0;
      } else {
        assert idx[|idx0|] == i;
      }
    }
  }

  /** Sorts the column names into the four lists, visiting the columns in
      order and appending each name to the list of its kind. */
  method ClassifyColumns(frame: Frame)
    returns (categorical: seq<string>, numeric: seq<string>, datetime: seq<string>, text: seq<string>)
    ensures numeric == NamesOfKind(frame.columns, frame.rowCount, NumericKind)
    ensures datetime == NamesOfKind(frame.columns, frame.rowCount, DatetimeKind)
    ensures categorical == NamesOfKind(frame.columns, frame.rowCount, CategoricalKind)
    ensures text == NamesOfKind(frame.columns, frame.rowCount, TextKind)
  {
    var cols := frame.columns;
    var rows := frame.rowCount;
    categorical, numeric, datetime, text := [], [], [], [];
    for i := 0 to |cols|
      invariant numeric == NamesOfKind(cols[..i], rows, NumericKind)
      invariant datetime == NamesOfKind(cols[..i], rows, DatetimeKind)
      invariant categorical == NamesOfKind(cols[..i], rows, CategoricalKind)
      invariant text == NamesOfKind(cols[..i], rows, TextKind)
    {
      assert cols[..i + 1][..i] == cols[..i];
      var col := cols[i];
      if IsNumericDtype(col.dtype) {
        numeric := numeric + [col.name];
      } else if IsDatetimeDtype(col.dtype) {
        datetime := datetime + [col.name];
      } else if 2 * Nunique(col.cells) < rows {
        categorical := categorical + [col.name];
      } else {
        text := text + [col.name];
      }
    }
    assert cols[..|cols|] == cols;
  }

  /** A name is listed under kind `k` exactly when some column of that
      kind carries it. */
  lemma {:induction false} NamesOfKindIff(cols: seq<Column>, rows: nat, k: ColumnKind, name: string)
    ensures name in NamesOfKind(cols, rows, k)
        <==> exists i :: 0 <= i < |cols| && cols[i].name == name && KindOf(cols[i], rows) == k
    decreases |cols|
  {
    if |cols| > 0 {
      var init := cols[..|cols| - 1];
      NamesOfKindIff(init, rows, k, name);
      if exists i :: 0 <= i < |cols| && cols[i].name == name && KindOf(cols[i], rows) == k {
        var i :| 0 <= i < |cols| && cols[i].name == name && KindOf(cols[i], rows) == k;
        if i < |init| {
          assert init[i] == cols[i];
        }
      }
      if name in NamesOfKind(init, rows, k) {
        var i :| 0 <= i < |init| && init[i].name == name && KindOf(init[i], rows) == k;
        assert cols[i] == init[i];
      }
    }
  }

  /** Every column lands in exactly one of the four lists. */
  lemma {:induction false} KindsPartitionColumns(cols: seq<Column>, rows: nat)
    ensures |NamesOfKind(cols, rows, NumericKind)| + |NamesOfKind(cols, rows, DatetimeKind)|
          + |NamesOfKind(cols, rows, CategoricalKind)| + |NamesOfKind(cols, rows, TextKind)| == |cols|
    decreases |cols|
  {
    if |cols| > 0 {
      KindsPartitionColumns(cols[..|cols| - 1], rows);
    }
  }

  /** When names are distinct, a column's name is listed under its own kind
      and under no other. */
  lemma ColumnListedUnderItsKindOnly(frame: Frame, i: nat, k: ColumnKind)
    requires WellFormed(frame)
    requires i < |frame.columns|
    ensures frame.columns[i].name in NamesOfKind(frame.columns, frame.rowCount, k)
        <==> KindOf(frame.columns[i], frame.rowCount) == k
  {
    var cols := frame.columns;
    NamesOfKindIff(cols, frame.rowCount, k, cols[i].name);
    if cols[i].name in NamesOfKind(cols, frame.rowCount, k) {
      var j :| 0 <= j < |cols| && cols[j].name == cols[i].name && KindOf(cols[j], frame.rowCount) == k;
      assert j == i;
    }
  }

  /** The `{"chart_type", "x_column", "y_column", "options"}` dictionary,
      with the only option ever set, `group_column`; or `{"error": ...}`. */
  datatype Recommendation =
    | Recommendation(chartType: Option<string>, xColumn: Option<string>,
                     yColumn: Option<string>, groupColumn: Option<string>)
    | RecommendationError(error: string)

  /** The heuristic chain: category against number gives a bar chart, two
      numbers a scatter plot, time against number a line chart, categories
      alone a histogram; a second categorical column then turns the choice
      into a grouped bar chart. The ensures clauses give the outcome with
      the precedence of the chain worked out. */
  function Recommend(categorical: seq<string>, numeric: seq<string>, datetime: seq<string>): (r: Recommendation)
    ensures r.Recommendation?
    ensures r.chartType == Some("grouped_bar") <==> |categorical| >= 2 && |numeric| >= 1
    ensures r.chartType == Some("bar") <==> |categorical| == 1 && |numeric| >= 1
    ensures r.chartType == Some("scatter") <==> |categorical| == 0 && |numeric| >= 2
    ensures r.chartType == Some("line") <==> |categorical| == 0 && |numeric| == 1 && |datetime| >= 1
    ensures r.chartType == Some("histogram") <==> |categorical| >= 1 && |numeric| == 0
    ensures r.chartType.None? <==> |categorical| == 0 && (|numeric| == 0 || (|numeric| == 1 && |datetime| == 0))
    ensures r.groupColumn.Some? <==> r.chartType == Some("grouped_bar")
    ensures r.groupColumn.Some? ==> r.groupColumn.value == categorical[1]
    ensures r.chartType.Some? && r.chartType != Some("scatter") && r.chartType != Some("line")
        ==> r.xColumn == Some(categorical[0])
    ensures r.chartType == Some("scatter") ==> r.xColumn == Some(numeric[0]) && r.yColumn == Some(numeric[1])
    ensures r.chartType == Some("line") ==> r.xColumn == Some(datetime[0]) && r.yColumn == Some(numeric[0])
    ensures r.chartType == Some("bar") || r.chartType == Some("grouped_bar") ==> r.yColumn == Some(numeric[0])
    ensures r.chartType == Some("histogram") || r.chartType.None? ==> r.yColumn.None?
    ensures r.chartType.None? ==> r.xColumn.None?
  {
    var base :=
      if |numeric| >= 1 && |categorical| >= 1 then
        Recommendation(Some("bar"), Some(categorical[0]), Some(numeric[0]), None)
      else if |numeric| >= 2 then
        Recommendation(Some("scatter"), Some(numeric[0]), Some(numeric[1]), None)
      else if |datetime| >= 1 && |numeric| >= 1 then
        Recommendation(Some("line"), Some(datetime[0]), Some(numeric[0]), None)
      else if |categorical| >= 1 && |numeric| == 0 then
        Recommendation(Some("histogram"), Some(categorical[0]), None, None)
      else
        Recommendation(None, None, None, None);
    if |categorical| >= 2 && |numeric| >= 1 then
      base.(groupColumn := Some(categorical[1]), chartType := Some("grouped_bar"))
    else
      base
  }

  const InvalidJsonPrefix := "Invalid JSON data: "
  const EmptyDataset := "Empty dataset"

  /** The triple the function returns. */
  datatype Prepared = Prepared(frame: Frame, names: seq<string>, recommendation: Recommendation)

  /** `json.loads` for text input, and `pd.DataFrame(records)`, which may
      raise for input it cannot shape into a table. */
  datatype Loader = Loader(codec: Codec, toFrame: Value -> Result<Frame, string>)

  /** Success carries the returned triple; Failure an exception from the
      DataFrame constructor, which the function does not catch. */
  method PrepareDataForChart(loader: Loader, data: Value) returns (r: Result<Prepared, string>)
    ensures data.Str? && loader.codec.loads(data.s).Failure?
        ==> r == Success(Prepared(EmptyFrame, [], RecommendationError(InvalidJsonPrefix + loader.codec.loads(data.s).error)))
    ensures r.Success? && r.value.frame != EmptyFrame ==> !IsEmpty(r.value.frame) || r.value.recommendation == RecommendationError(EmptyDataset)
    ensures r.Success? && r.value.recommendation.Recommendation? ==>
        var f := r.value.frame;
        && !IsEmpty(f)
        && r.value.names == ColumnNames(f)
        && r.value.recommendation == Recommend(NamesOfKind(f.columns, f.rowCount, CategoricalKind),
                                               NamesOfKind(f.columns, f.rowCount, NumericKind),
                                               NamesOfKind(f.columns, f.rowCount, DatetimeKind))
    ensures (!data.Str? || loader.codec.loads(data.s).Success?) ==>
        var parsed := if data.Str? then loader.codec.loads(data.s).value else data;
        match loader.toFrame(parsed)
        case Failure(e) => r == Failure(e)
        case Success(f) =>
          && r.Success?
          && r.value.frame == f
          && (IsEmpty(f) <==> r.value.recommendation == RecommendationError(EmptyDataset))
          && (IsEmpty(f) ==> r.value.names == [])
          && (!IsEmpty(f) ==>
                && r.value.names == ColumnNames(f)
                && r.value.recommendation == Recommend(NamesOfKind(f.columns, f.rowCount, CategoricalKind),
                                                       NamesOfKind(f.columns, f.rowCount, NumericKind),
                                                       NamesOfKind(f.columns, f.rowCount, DatetimeKind)))
  {
    var parsed := data;
    if data.Str? {
      match loader.codec.loads(data.s) {
        case Failure(e) =>
          return Success(Prepared(EmptyFrame, [], RecommendationError(InvalidJsonPrefix + e)));
        case Success(v) =>
          parsed := v;
      }
    }
    var frame;
    match loader.toFrame(parsed) {
      case Failure(e) => return Failure(e);
      case Success(f) => frame := f;
    }
    if IsEmpty(frame) {
      return Success(Prepared(frame, [], RecommendationError(EmptyDataset)));
    }
    var names := ColumnNames(frame);
    var categorical, numeric, datetime, text := ClassifyColumns(frame);
    return Success(Prepared(frame, names, Recommend(categorical, numeric, datetime)));
  }

  /** A recommended column is a column of the frame, of the kind the chart
      type needs: a bar chart's x axis is categorical and its y axis
      numeric, a scatter plot's axes are both numeric, and so on. */
  lemma RecommendedColumnsHaveTheirKinds(frame: Frame)
    requires !IsEmpty(frame)
    ensures
      var rows := frame.rowCount;
      var cat := NamesOfKind(frame.columns, rows, CategoricalKind);
      var num := NamesOfKind(frame.columns, rows, NumericKind);
      var dt := NamesOfKind(frame.columns, rows, DatetimeKind);
      var r := Recommend(cat, num, dt);
      && (r.chartType == Some("bar") || r.chartType == Some("grouped_bar") || r.chartType == Some("histogram")
          ==> exists i :: 0 <= i < |frame.columns| && Some(frame.columns[i].name) == r.xColumn
                          && KindOf(frame.columns[i], rows) == CategoricalKind)
      && (r.chartType == Some("line")
          ==> exists i :: 0 <= i < |frame.columns| && Some(frame.columns[i].name) == r.xColumn
                          && KindOf(frame.columns[i], rows) == DatetimeKind)
      && (r.chartType == Some("scatter")
          ==> exists i :: 0 <= i < |frame.columns| && Some(frame.columns[i].name) == r.xColumn
                          && KindOf(frame.columns[i], rows) == NumericKind)
      && (r.yColumn.Some?
          ==> exists i :: 0 <= i < |frame.columns| && Some(frame.columns[i].name) == r.yColumn
                          && KindOf(frame.columns[i], rows) == NumericKind)
  {
    var rows := frame.rowCount;
    var cat := NamesOfKind(frame.columns, rows, CategoricalKind);
    var num := NamesOfKind(frame.columns, rows, NumericKind);
    var dt := NamesOfKind(frame.columns, rows, DatetimeKind);
    if |cat| > 0 { NamesOfKindIff(frame.columns, rows, CategoricalKind, cat[0]); }
    if |num| > 0 { NamesOfKindIff(frame.columns, rows, NumericKind, num[0]); }
    if |num| > 1 { NamesOfKindIff(frame.columns, rows, NumericKind, num[1]); }
    if |dt| > 0 { NamesOfKindIff(frame.columns, rows, DatetimeKind, dt[0]); }
  }
}
