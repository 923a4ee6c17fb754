/** `generate_chart` of the ENEM analyst's visualization agent: default
    the chart type, parse the records, pick the columns of a bar chart
    when they are missing, check each kind's required columns, build the
    Altair chart, and return its JSON only when the validator accepts it. */
module EnemVisualization {
  import opened Wrappers
  import opened Text
  import opened PyValue
  import opened Frames
  import opened ChartValidation
  import opened AltairCharts
  import opened ToolResults

  const NoData := "No data provided for chart generation."
  const InvalidJsonPrefix := "Invalid JSON data provided: "
  const EmptyFrameMessage := "DataFrame is empty, cannot create bar chart."
  const NoAutoColumns :=
    "Could not automatically determine appropriate x and y columns for bar chart. Please specify them manually."
  const LineNeeds := "x_column and y_column are required for line chart."
  const PieNeeds := "x_column (for categories) and y_column (for values) are required for pie chart."
  const ScatterNeeds := "x_column and y_column are required for scatter plot."
  const HistogramNeeds := "x_column is required for histogram."
  const InvalidSpecPrefix := "Invalid chart specification: "
  const ExceptionPrefix := "An exception occurred during chart generation: "
  const SupportedTypes := ["bar", "line", "pie", "scatter", "histogram"]
  const HistogramBins := 20

  /** Why no chart is built; each reason has its message below. */
  datatype Refusal = EmptyFrameRefusal | NoAutoColumnsRefusal | MissingColumns(kind: string) | UnsupportedType(kind: string)

  function RefusalMessage(r: Refusal): string {
    match r
    case EmptyFrameRefusal => EmptyFrameMessage
    case NoAutoColumnsRefusal => NoAutoColumns
    case MissingColumns(kind) =>
      if kind == "line" then LineNeeds
      else if kind == "pie" then PieNeeds
      else if kind == "scatter" then ScatterNeeds
      else HistogramNeeds
    case UnsupportedType(kind) =>
      "Unsupported chart_type: " + kind + ". Supported types: 'bar', 'line', 'pie', 'scatter', 'histogram'."
  }

  /** A missing or empty chart type, or `table` in any letter case, means a
      bar chart; any other type is kept as given. */
  function EffectiveType(chartType: Option<string>): (kind: string)
    ensures !Given(chartType) ==> kind == "bar"
    ensures Given(chartType) && Lower(chartType.value) == "table" ==> kind == "bar"
    ensures Given(chartType) && Lower(chartType.value) != "table" ==> kind == chartType.value
  {
    if !Given(chartType) || Lower(chartType.value) == "table" then "bar" else chartType.value
  }

  /** The records: text input parsed as JSON, anything else as given. */
  function Records(codec: Codec, data: Value): Option<Value> {
    if data.Str? then
      match codec.loads(data.s)
      case Success(v) => Some(v)
      case Failure(_) => None
    else Some(data)
  }

  /** The names of the numeric columns, in column order. */
  function NumericNames(cols: seq<Column>): (names: seq<string>)
    ensures forall n :: n in names <==> exists i :: 0 <= i < |cols| && cols[i].name == n && IsNumericDtype(cols[i].dtype)
    ensures |names| > 0 ==> exists i :: 0 <= i < |cols| && cols[i].name == names[0] && IsNumericDtype(cols[i].dtype)
                                       && forall j :: 0 <= j < i ==> !IsNumericDtype(cols[j].dtype)
    decreases |cols|
  {
    if |cols| == 0 then []
    else
      var rest := NumericNames(cols[1..]);
      assert forall i :: 1 <= i < |cols| ==> cols[i] == cols[1..][i - 1];
      if IsNumericDtype(cols[0].dtype) then [cols[0].name] + rest else rest
  }

  /** The x and y columns of a bar chart. Given columns are kept; when one
      is missing the frame must be non-empty, x defaults to the first
      column, and y (with at least two columns) to the first numeric column
      unless that is x, in which case to the second column. */
  function BarColumns(frame: Frame, x: Option<string>, y: Option<string>): (r: Result<(string, string), Refusal>)
    ensures Given(x) && Given(y) ==> r == Success((x.value, y.value))
    ensures !(Given(x) && Given(y)) && IsEmpty(frame) ==> r == Failure(EmptyFrameRefusal)
    ensures r.Failure? ==> r.error == EmptyFrameRefusal || r.error == NoAutoColumnsRefusal
    ensures r.Success? ==> r.value.0 != "" && r.value.1 != ""
    ensures r.Success? && Given(x) ==> r.value.0 == x.value
    ensures r.Success? && Given(y) ==> r.value.1 == y.value
    ensures r.Success? && !Given(x) ==> r.value.0 == frame.columns[0].name
    ensures r.Success? && !Given(y) ==>
        |frame.columns| >= 2
        && var numeric := NumericNames(frame.columns);
           r.value.1 == (if |numeric| > 0 && numeric[0] != r.value.0 then numeric[0] else frame.columns[1].name)
    ensures !Given(y) && !IsEmpty(frame) && |frame.columns| < 2 ==> r == Failure(NoAutoColumnsRefusal)
    // Auto-selection succeeds exactly when the chosen x name, and the
    // given or chosen y name, are non-empty.
    ensures !(Given(x) && Given(y)) && !IsEmpty(frame) ==>
        var xs := if Given(x) then x.value else frame.columns[0].name;
        var numeric := NumericNames(frame.columns);
        (r.Success? <==>
           && xs != ""
           && (Given(y)
               || (|frame.columns| >= 2
                   && (if |numeric| > 0 && numeric[0] != xs then numeric[0] else frame.columns[1].name) != "")))
  {
    if Given(x) && Given(y) then Success((x.value, y.value))
    else if IsEmpty(frame) then Failure(EmptyFrameRefusal)
    else
      var columns := ColumnNames(frame);
      var xs := if !Given(x) then columns[0] else x.value;
      var numeric := NumericNames(frame.columns);
      var ys :=
        if Given(y) then y
        else if |columns| > 1 then Some(if |numeric| > 0 && numeric[0] != xs then numeric[0] else columns[1])
        else y;
      if xs == "" || !Given(ys) then Failure(NoAutoColumnsRefusal) else Success((xs, ys.value))
  }

  /** `x=alt.X(x, title=xlabel or x), y=alt.Y(y, title=ylabel or y)`. */
  function AxisChannels(x: string, y: string, xlabel: Option<string>, ylabel: Option<string>): seq<(string, Channel)> {
    [("x", Channel(x, None, OrElse(xlabel, x), None)), ("y", Channel(y, None, OrElse(ylabel, y), None))]
  }

  /** The Altair chart each supported type builds, or the message of the
      check that stops it. */
  function BuildRequest(kind: string, frame: Frame, title: Option<string>, x: Option<string>, y: Option<string>,
                        xlabel: Option<string>, ylabel: Option<string>): Result<ChartRequest, Refusal>
  {
    if kind == "bar" then
      match BarColumns(frame, x, y)
      case Failure(m) => Failure(m)
      case Success((xs, ys)) =>
        Success(ChartRequest(BarMark, AxisChannels(xs, ys, xlabel, ylabel), [Plain(xs), Plain(ys)],
                             Some(OrElse(title, ys + " by " + xs)), frame))
    else if kind == "line" then
      if !Given(x) || !Given(y) then Failure(MissingColumns("line"))
      else Success(ChartRequest(LineMark, AxisChannels(x.value, y.value, xlabel, ylabel),
                                [Plain(x.value), Plain(y.value)], title, frame))
    else if kind == "pie" then
      if !Given(x) || !Given(y) then Failure(MissingColumns("pie"))
      else Success(ChartRequest(ArcMark,
                                [("theta", Channel(y.value, Some("quantitative"), OrElse(ylabel, y.value), None)),
                                 ("color", Channel(x.value, Some("nominal"), OrElse(xlabel, x.value), None))],
                                [Plain(x.value), Plain(y.value)], title, frame))
    else if kind == "scatter" then
      if !Given(x) || !Given(y) then Failure(MissingColumns("scatter"))
      else Success(ChartRequest(PointMark, AxisChannels(x.value, y.value, xlabel, ylabel),
                                [Plain(x.value), Plain(y.value)], title, frame))
    else if kind == "histogram" then
      if !Given(x) then Failure(MissingColumns("histogram"))
      else Success(ChartRequest(BarMark,
                                [("x", Channel(x.value, None, OrElse(xlabel, x.value), Some(HistogramBins))),
                                 ("y", Channel(CountField, None, OrElse(ylabel, "Count"), None))],
                                [Binned(x.value, HistogramBins), Plain(CountField)], title, frame))
    else Failure(UnsupportedType(kind))
  }

  /** The tail every built chart goes through: render, validate, print. */
  function Finish(toolkit: Toolkit, request: Result<ChartRequest, Refusal>): Outcome {
    match request
    case Failure(refusal) => Error(RefusalMessage(refusal))
    case Success(req) =>
      match toolkit.render(req)
      case Failure(e) => Error(ExceptionPrefix + e)
      case Success(spec) =>
        var check := ValidateChartSpec(spec);
        if !check.valid then Error(InvalidSpecPrefix + check.error.value)
        else
          match Dumps(toolkit.codec, spec)
          case Failure(e) => Error(ExceptionPrefix + e)
          case Success(text) => Json(text)
  }

  /** `generate_chart`. The parameters are rebound step by step as in the
      tool: the chart type, then the records, then the bar chart's
      columns. An exception of the DataFrame constructor escapes, since
      the tool builds the frame before its `try`. */
  method GenerateChart(toolkit: Toolkit, chartType: Option<string>, data: Value, title: Option<string>,
                       x: Option<string>, y: Option<string>, xlabel: Option<string>, ylabel: Option<string>)
    returns (r: Outcome)
    ensures !Truthy(data) ==> r == Error(NoData)
    ensures Truthy(data) && Records(toolkit.codec, data).None?
        ==> r == Error(InvalidJsonPrefix + toolkit.codec.loads(data.s).error)
    ensures Truthy(data) && Records(toolkit.codec, data).Some? ==>
        match toolkit.toFrame(Records(toolkit.codec, data).value)
        case Failure(e) => r == Raised(e)
        case Success(frame) =>
          r == Finish(toolkit, BuildRequest(EffectiveType(chartType), frame, title, x, y, xlabel, ylabel))
  {
    var kind := if chartType.Some? then chartType.value else "";
    if !Given(chartType) || Lower(kind) == "table" {
      kind := "bar";
    }
    if !Truthy(data) {
      return Error(NoData);
    }
    var records := data;
    if data.Str? {
      match toolkit.codec.loads(data.s) {
        case Failure(e) => return Error(InvalidJsonPrefix + e);
        case Success(v) => records := v;
      }
    }
    assert Records(toolkit.codec, data) == Some(records);
    var frame;
    match toolkit.toFrame(records) {
      case Failure(e) => return Raised(e);
      case Success(f) => frame := f;
    }
    var xs, ys := x, y;
    if kind == "bar" {
      var columns := AutoSelectBarColumns(frame, xs, ys);
      if columns.Failure? {
        return Error(RefusalMessage(columns.error));
      }
      xs, ys := Some(columns.value.0), Some(columns.value.1);
      ChosenBarColumnsSettle(frame, title, x, y, xlabel, ylabel);
    }
    assert kind == EffectiveType(chartType);
    r := Finish(toolkit, BuildRequest(kind, frame, title, xs, ys, xlabel, ylabel));
  }

  /** Rebinding x and y to the selected columns, as the bar branch does,
      builds the same chart as the columns it started from: both
      selected names are non-empty, so a second selection keeps them. */
  lemma ChosenBarColumnsSettle(frame: Frame, title: Option<string>, x: Option<string>, y: Option<string>,
                               xlabel: Option<string>, ylabel: Option<string>)
    requires BarColumns(frame, x, y).Success?
    ensures var chosen := BarColumns(frame, x, y).value;
      && BarColumns(frame, Some(chosen.0), Some(chosen.1)) == Success(chosen)
      && BuildRequest("bar", frame, title, Some(chosen.0), Some(chosen.1), xlabel, ylabel)
         == BuildRequest("bar", frame, title, x, y, xlabel, ylabel)
  {
  }

  /** Lines 62-85 of the tool: fill in the missing columns of a bar chart. */
  method AutoSelectBarColumns(frame: Frame, x: Option<string>, y: Option<string>)
    returns (r: Result<(string, string), Refusal>)
    ensures r == BarColumns(frame, x, y)
  {
    var xs, ys := x, y;
    if !Given(xs) || !Given(ys) {
      if IsEmpty(frame) {
        return Failure(EmptyFrameRefusal);
      }
      var columns := ColumnNames(frame);
      if !Given(xs) && |columns| > 0 {
        xs := Some(columns[0]);
      }
      if !Given(ys) && |columns| > 1 {
        var numeric := NumericNames(frame.columns);
        if |numeric| > 0 && Some(numeric[0]) != xs {
          ys := Some(numeric[0]);
        } else {
          ys := Some(columns[1]);
        }
      }
      if !Given(xs) || !Given(ys) {
        return Failure(NoAutoColumnsRefusal);
      }
    }
    return Success((xs.value, ys.value));
  }

  /** `'table'` is matched in any letter case. */
  lemma TableInAnyCaseIsBar()
    ensures EffectiveType(Some("TABLE")) == "bar"
    ensures EffectiveType(Some("Table")) == "bar"
    ensures EffectiveType(None) == "bar" && EffectiveType(Some("")) == "bar"
  {
    assert Lower("TABLE") == "table";
    assert Lower("Table") == "table";
  }

  /** Every other type is matched exactly: `"Bar"` is not a bar chart. */
  lemma TypeMatchIsCaseSensitive(frame: Frame, title: Option<string>, x: Option<string>, y: Option<string>,
                                 xlabel: Option<string>, ylabel: Option<string>)
    ensures EffectiveType(Some("Bar")) == "Bar"
    ensures BuildRequest("Bar", frame, title, x, y, xlabel, ylabel) == Failure(UnsupportedType("Bar"))
  {
    assert Lower("Bar") == "bar";
  }

  /** The unsupported-type message is given exactly for the types outside
      the five supported ones. */
  lemma UnsupportedIff(kind: string, frame: Frame, title: Option<string>, x: Option<string>, y: Option<string>,
                       xlabel: Option<string>, ylabel: Option<string>)
    ensures BuildRequest(kind, frame, title, x, y, xlabel, ylabel) == Failure(UnsupportedType(kind))
        <==> kind !in SupportedTypes
  {
  }

  /** Line, pie and scatter charts need both columns, a histogram only x;
      each missing column gives that kind's message. */
  lemma RequiredColumns(frame: Frame, title: Option<string>, x: Option<string>, y: Option<string>,
                        xlabel: Option<string>, ylabel: Option<string>)
    ensures BuildRequest("line", frame, title, x, y, xlabel, ylabel).Failure? <==> !Given(x) || !Given(y)
    ensures BuildRequest("pie", frame, title, x, y, xlabel, ylabel).Failure? <==> !Given(x) || !Given(y)
    ensures BuildRequest("scatter", frame, title, x, y, xlabel, ylabel).Failure? <==> !Given(x) || !Given(y)
    ensures BuildRequest("histogram", frame, title, x, y, xlabel, ylabel).Failure? <==> !Given(x)
    ensures !Given(x) || !Given(y) ==>
        && BuildRequest("line", frame, title, x, y, xlabel, ylabel) == Failure(MissingColumns("line"))
        && BuildRequest("pie", frame, title, x, y, xlabel, ylabel) == Failure(MissingColumns("pie"))
        && BuildRequest("scatter", frame, title, x, y, xlabel, ylabel) == Failure(MissingColumns("scatter"))
    ensures !Given(x) ==> BuildRequest("histogram", frame, title, x, y, xlabel, ylabel) == Failure(MissingColumns("histogram"))
  {
  }

  /** A histogram bins x into at most 20 bins and counts rows on y, titled
      by the y label or "Count", whatever y column was passed. */
  lemma HistogramCountsBinnedX(frame: Frame, title: Option<string>, x: Option<string>, y: Option<string>,
                               xlabel: Option<string>, ylabel: Option<string>)
    requires Given(x)
    ensures
      var r := BuildRequest("histogram", frame, title, x, y, xlabel, ylabel);
      && r.Success?
      && r.value.mark == BarMark
      && r.value.channels[0] == ("x", Channel(x.value, None, OrElse(xlabel, x.value), Some(20)))
      && r.value.channels[1] == ("y", Channel("count()", None, OrElse(ylabel, "Count"), None))
      && r.value.tooltip == [Binned(x.value, 20), Plain("count()")]
      && r == BuildRequest("histogram", frame, title, x, None, xlabel, ylabel)
  {
  }

  /** A bar chart without a title is titled "<y> by <x>"; the other kinds
      pass the caller's title through unchanged. */
  lemma Titles(kind: string, frame: Frame, title: Option<string>, x: Option<string>, y: Option<string>,
               xlabel: Option<string>, ylabel: Option<string>)
    requires BuildRequest(kind, frame, title, x, y, xlabel, ylabel).Success?
    ensures
      var req := BuildRequest(kind, frame, title, x, y, xlabel, ylabel).value;
      if kind == "bar" then
        var (xs, ys) := BarColumns(frame, x, y).value;
        req.title == Some(if Given(title) then title.value else ys + " by " + xs)
      else req.title == title
  {
  }

  /** Chart JSON is returned only for a chart the validator accepts, and
      it is that chart printed; every other outcome is an error text. */
  lemma JsonOnlyWhenValid(toolkit: Toolkit, request: Result<ChartRequest, Refusal>)
    ensures !Finish(toolkit, request).Raised?
    ensures Finish(toolkit, request).Json?
        <==> && request.Success?
             && toolkit.render(request.value).Success?
             && ValidateChartSpec(toolkit.render(request.value).value).valid
             && Serialisable(toolkit.render(request.value).value)
    ensures Finish(toolkit, request).Json? ==>
        Finish(toolkit, request).text == toolkit.codec.dumps(toolkit.render(request.value).value)
    ensures request.Success? && toolkit.render(request.value).Success?
            && !ValidateChartSpec(toolkit.render(request.value).value).valid ==>
        Finish(toolkit, request)
        == Error(InvalidSpecPrefix + ValidateChartSpec(toolkit.render(request.value).value).error.value)
  {
    if request.Success? && toolkit.render(request.value).Success? {
      var spec := toolkit.render(request.value).value;
      if ValidateChartSpec(spec).valid && Serialisable(spec) {
        FirstUnserialisableIffNotSerialisable(spec);
      }
    }
  }
}
