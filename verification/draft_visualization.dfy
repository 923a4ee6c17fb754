/** `generate_chart` of the early draft agent: bar and line charts only,
    with results as `{"status": ..., "message": ...}` dictionaries. */
module DraftVisualization {
  import opened Wrappers
  import opened PyValue
  import opened Frames
  import opened AltairCharts
  import opened ToolResults

  const NoData := "No data provided for chart generation."
  const SuccessMessage := "Altair chart specification generated."
  const ExceptionPrefix := "Error generating chart: "

  /** The result before it is written as a dictionary; an exception of the
      DataFrame constructor escapes, as it is raised before the `try`. */
  datatype DraftResult = Generated(spec: Value) | Refused(message: string) | Escaped(exception: string)

  /** The dictionary the tool returns. */
  function AsDict(r: DraftResult): (d: Value)
    requires !r.Escaped?
    ensures d.Dict? && Lookup(d.fields, "status") == Some(Str(if r.Generated? then "success" else "error"))
  {
    match r
    case Generated(spec) =>
      Dict([("status", Str("success")), ("message", Str(SuccessMessage)),
            ("chart_type", Str("altair")), ("chart_spec", spec)])
    case Refused(message) => Dict([("status", Str("error")), ("message", Str(message))])
  }

  /** `f"{chart_type}"`, which prints None as `None`. */
  function Shown(chartType: Option<string>): string {
    if chartType.Some? then chartType.value else "None"
  }

  function MissingColumns(kind: string): string {
    "x_column and y_column are required for " + kind + " chart."
  }

  function Unsupported(chartType: Option<string>): string {
    "Unsupported chart_type: " + Shown(chartType) + ". Supported types: 'bar', 'line'."
  }

  /** The Altair chart of a bar or line request. */
  function Request(mark: Mark, frame: Frame, title: Option<string>, x: string, y: string,
                   xlabel: Option<string>, ylabel: Option<string>): ChartRequest {
    ChartRequest(mark,
                 [("x", Channel(x, None, OrElse(xlabel, x), None)), ("y", Channel(y, None, OrElse(ylabel, y), None))],
                 [Plain(x), Plain(y)], title, frame)
  }

  /** `generate_chart`. */
  function GenerateChart(toolkit: Toolkit, chartType: Option<string>, data: Value, title: Option<string>,
                         x: Option<string>, y: Option<string>, xlabel: Option<string>, ylabel: Option<string>)
    : (r: DraftResult)
    ensures !Truthy(data) ==> r == Refused(NoData)
    ensures r.Escaped? <==> Truthy(data) && toolkit.toFrame(data).Failure?
    ensures Truthy(data) && toolkit.toFrame(data).Success? && chartType != Some("bar") && chartType != Some("line")
        ==> r == Refused(Unsupported(chartType))
    ensures Truthy(data) && toolkit.toFrame(data).Success? && (chartType == Some("bar") || chartType == Some("line"))
            && !(Given(x) && Given(y))
        ==> r == Refused(MissingColumns(chartType.value))
    // A bar or line request with both columns is rendered: its spec on
    // success, the exception text after the "Error generating chart: "
    // prefix on failure.
    ensures Truthy(data) && toolkit.toFrame(data).Success? && (chartType == Some("bar") || chartType == Some("line"))
            && Given(x) && Given(y)
        ==> r == match toolkit.render(Request(if chartType == Some("bar") then BarMark else LineMark,
                                              toolkit.toFrame(data).value, title, x.value, y.value, xlabel, ylabel))
                 case Success(spec) => Generated(spec)
                 case Failure(e) => Refused(ExceptionPrefix + e)
    ensures r.Generated? <==>
        && Truthy(data) && toolkit.toFrame(data).Success?
        && (chartType == Some("bar") || chartType == Some("line")) && Given(x) && Given(y)
        && toolkit.render(Request(if chartType == Some("bar") then BarMark else LineMark,
                                  toolkit.toFrame(data).value, title, x.value, y.value, xlabel, ylabel))
           .Success?
    ensures r.Generated? ==>
        toolkit.render(Request(if chartType == Some("bar") then BarMark else LineMark,
                               toolkit.toFrame(data).value, title, x.value, y.value, xlabel, ylabel))
        == Success(r.spec)
  {
    if !Truthy(data) then Refused(NoData)
    else
      match toolkit.toFrame(data)
      case Failure(e) => Escaped(e)
      case Success(frame) =>
        if chartType == Some("bar") || chartType == Some("line") then
          if !Given(x) || !Given(y) then Refused(MissingColumns(chartType.value))
          else
            var mark := if chartType == Some("bar") then BarMark else LineMark;
            match toolkit.render(Request(mark, frame, title, x.value, y.value, xlabel, ylabel))
            case Failure(e) => Refused(ExceptionPrefix + e)
            case Success(spec) => Generated(spec)
        else Refused(Unsupported(chartType))
  }

  /** Every dictionary the tool returns has status "success" or "error",
      and a success names the spec type "altair" and carries the spec. */
  lemma ResultDictionaries(toolkit: Toolkit, chartType: Option<string>, data: Value, title: Option<string>,
                           x: Option<string>, y: Option<string>, xlabel: Option<string>, ylabel: Option<string>)
    requires !GenerateChart(toolkit, chartType, data, title, x, y, xlabel, ylabel).Escaped?
    ensures
      var r := GenerateChart(toolkit, chartType, data, title, x, y, xlabel, ylabel);
      var d := AsDict(r);
      && (Lookup(d.fields, "status") == Some(Str("success")) || Lookup(d.fields, "status") == Some(Str("error")))
      && (r.Generated? ==> Lookup(d.fields, "chart_type") == Some(Str("altair"))
                           && Lookup(d.fields, "chart_spec") == Some(r.spec))
      && (r.Refused? ==> Lookup(d.fields, "message") == Some(Str(r.message)))
  {
    var r := GenerateChart(toolkit, chartType, data, title, x, y, xlabel, ylabel);
    var f := AsDict(r).fields;
    if r.Generated? {
      var t, c := "chart_type", "chart_spec";
      assert f[0].0 != t && f[1].0 != t && f[2].0 == t && f[1..][1..] == f[2..];
      assert f[0].0 != c && f[1].0 != c && f[2].0 != c && f[3].0 == c && f[2..][1..] == f[3..];
      assert Lookup(f, t) == Lookup(f[1..], t) == Lookup(f[2..], t) == Some(Str("altair"));
      assert Lookup(f, c) == Lookup(f[1..], c) == Lookup(f[2..], c) == Lookup(f[3..], c) == Some(r.spec);
    } else {
      assert f[1..][0] == ("message", Str(r.message));
    }
  }
}
