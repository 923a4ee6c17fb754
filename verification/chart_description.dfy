/** `format_chart_description`: a few sentences about a chart, built from
    the chart type, its axes and the report of `analyze_chart_data`. */
module ChartDescription {
  import opened Wrappers
  import opened Text
  import opened PyValue
  import opened Frames
  import opened ChartAnalysis

  /** The TypeError Python raises for `f"{None:.2f}"`. */
  const NoneFormatError := "unsupported format string passed to NoneType.__format__"

  /** The opening sentence for a known chart type, when the x axis is
      given and, except for a histogram, the y axis too. */
  function Intro(chartType: string, x: Option<string>, y: Option<string>): seq<string> {
    if chartType != "" && Given(x) then
      var xs := x.value;
      if chartType == "bar" && Given(y) then ["This bar chart shows " + y.value + " by " + xs + "."]
      else if chartType == "line" && Given(y) then ["This line chart shows the trend of " + y.value + " over " + xs + "."]
      else if chartType == "pie" && Given(y) then
        ["This pie chart shows the distribution of " + y.value + " across different " + xs + " categories."]
      else if chartType == "scatter" && Given(y) then
        ["This scatter plot shows the relationship between " + xs + " and " + y.value + "."]
      else if chartType == "histogram" then ["This histogram shows the distribution of " + xs + "."]
      else if chartType == "donut" && Given(y) then
        ["This donut chart shows the proportion of " + y.value + " for each " + xs + "."]
      else if chartType == "stacked_bar" && Given(y) then
        ["This stacked bar chart shows " + y.value + " by " + xs + " with breakdown by category."]
      else if chartType == "grouped_bar" && Given(y) then
        ["This grouped bar chart compares " + y.value + " across " + xs + " grouped by category."]
      else []
    else []
  }

  const TypesWithY := {"bar", "line", "pie", "scatter", "donut", "stacked_bar", "grouped_bar"}

  /** There is an opening sentence exactly for a known chart type with its
      axes given. */
  lemma IntroIff(chartType: string, x: Option<string>, y: Option<string>)
    ensures |Intro(chartType, x, y)| <= 1
    ensures |Intro(chartType, x, y)| == 1
        <==> Given(x) && (chartType == "histogram" || (chartType in TypesWithY && Given(y)))
  {
    assert "bar"[0] != "pie"[0] && "stacked_bar"[0] != "grouped_bar"[0];
    if chartType == "histogram" {
      assert "histogram" !in TypesWithY;
    } else if chartType in TypesWithY {
      IntroWithY(chartType, x, y);
    } else {
      assert Intro(chartType, x, y) == [];
    }
  }

  lemma IntroWithY(chartType: string, x: Option<string>, y: Option<string>)
    requires chartType in TypesWithY
    ensures |Intro(chartType, x, y)| == if Given(x) && Given(y) then 1 else 0
  {
    assert "bar"[0] != "pie"[0] && "stacked_bar"[0] != "grouped_bar"[0];
    if chartType == "bar" {
    } else if chartType == "line" {
    } else if chartType == "pie" {
    } else if chartType == "scatter" {
    } else if chartType == "donut" {
    } else if chartType == "stacked_bar" {
    } else {
      assert chartType == "grouped_bar";
    }
  }

  /** `analysis["columns"][name]`: the summary stored last under `name`. */
  function SummaryIn(columns: seq<(string, ColumnSummary)>, name: string): (r: Option<ColumnSummary>)
    ensures r.Some? <==> exists i :: 0 <= i < |columns| && columns[i].0 == name
    decreases |columns|
  {
    if |columns| == 0 then None
    else if columns[|columns| - 1].0 == name then Some(columns[|columns| - 1].1)
    else SummaryIn(columns[..|columns| - 1], name)
  }

  function SummaryOf(analysis: Analysis, name: string): Option<ColumnSummary> {
    if analysis.Report? then SummaryIn(analysis.columns, name) else None
  }

  /** The y column has numeric statistics, but its minimum, maximum or
      mean is None. */
  predicate RangeStatisticMissing(analysis: Analysis, y: Option<string>) {
    && Given(y)
    && SummaryOf(analysis, y.value).Some?
    && var sy := SummaryOf(analysis, y.value).value;
       sy.numeric.Some? && (sy.numeric.value.min.None? || sy.numeric.value.max.None? || sy.numeric.value.mean.None?)
  }

  function RowsSentence(rows: nat): string {
    "The chart contains data for " + Decimal(rows) + " records."
  }

  function UniqueSentence(x: string, n: nat): string {
    "There are " + Decimal(n) + " unique values in the " + x + " column."
  }

  function RangeSentence(fixed2: real -> string, y: string, lo: real, hi: real, mean: real): string {
    "The " + y + " ranges from " + fixed2(lo) + " to " + fixed2(hi) + " with an average of " + fixed2(mean) + "."
  }

  function XLines(analysis: Analysis, x: Option<string>): seq<string> {
    if Given(x) && SummaryOf(analysis, x.value).Some? then
      [UniqueSentence(x.value, SummaryOf(analysis, x.value).value.uniqueValues)]
    else []
  }

  /** The range sentence, when the y column has all three statistics. */
  function YLines(fixed2: real -> string, analysis: Analysis, y: Option<string>): seq<string> {
    if Given(y) && SummaryOf(analysis, y.value).Some? && SummaryOf(analysis, y.value).value.numeric.Some? then
      var n := SummaryOf(analysis, y.value).value.numeric.value;
      if n.min.Some? && n.max.Some? && n.mean.Some? then
        [RangeSentence(fixed2, y.value, n.min.value, n.max.value, n.mean.value)]
      else []
    else []
  }

  function Bullets(insights: seq<string>): (lines: seq<string>)
    ensures |lines| == |insights|
  {
    seq(|insights|, k requires 0 <= k < |insights| => "- " + insights[k])
  }

  /** The heading and the first three insights as bullets. */
  function InsightLines(insights: seq<string>): seq<string> {
    if |insights| == 0 then []
    else ["\nKey insights:"] + Bullets(if |insights| <= 3 then insights else insights[..3])
  }

  /** The record-count sentence of a report. */
  function RowsLines(analysis: Analysis): seq<string> {
    if analysis.Report? then [RowsSentence(analysis.rowCount)] else []
  }

  /** The insights of a report; an error analysis has none. */
  function InsightsOf(analysis: Analysis): seq<string> {
    if analysis.Report? then analysis.insights else []
  }

  /** The y column has numeric statistics in the report. */
  predicate HasNumericSummary(analysis: Analysis, y: Option<string>) {
    Given(y) && SummaryOf(analysis, y.value).Some? && SummaryOf(analysis, y.value).value.numeric.Some?
  }

  /** The lines of the description. */
  function DescriptionLines(fixed2: real -> string, analysis: Analysis, chartType: string,
                            x: Option<string>, y: Option<string>): seq<string> {
    Intro(chartType, x, y)
    + RowsLines(analysis)
    + XLines(analysis, x)
    + YLines(fixed2, analysis, y)
    + InsightLines(InsightsOf(analysis))
  }

  /** Builds the description line by line; a missing statistic of the y
      column makes the `.2f` formatting of None raise. */
  method FormatChartDescription(fixed2: real -> string, analysis: Analysis, chartType: string,
                                x: Option<string>, y: Option<string>) returns (r: Result<string, string>)
    ensures r.Failure? <==> RangeStatisticMissing(analysis, y)
    ensures r.Failure? ==> r.error == NoneFormatError
    ensures r.Success? ==> r.value == CorrectedDescription(fixed2, analysis, chartType, x, y)
  {
    var description := Intro(chartType, x, y);
    if analysis.Report? {
      description := description + [RowsSentence(analysis.rowCount)];
    }
    assert description == Intro(chartType, x, y) + RowsLines(analysis);
    ghost var opening := description;
    if Given(x) {
      var sx := SummaryOf(analysis, x.value);
      if sx.Some? {
        description := description + [UniqueSentence(x.value, sx.value.uniqueValues)];
      }
    }
    assert description == opening + XLines(analysis, x);
    ghost var withX := description;
    if Given(y) {
      var sy := SummaryOf(analysis, y.value);
      if sy.Some? && sy.value.numeric.Some? {
        var n := sy.value.numeric.value;
        if n.min.None? || n.max.None? || n.mean.None? {
          return Failure(NoneFormatError);
        }
        description := description + [RangeSentence(fixed2, y.value, n.min.value, n.max.value, n.mean.value)];
      }
    }
    assert description == withX + YLines(fixed2, analysis, y);
    description := AppendInsights(description, InsightsOf(analysis));
    return Success(Join(description, "\n"));
  }

  /** Appends the heading and a bullet for each of the first three
      insights. */
  method AppendInsights(description: seq<string>, insights: seq<string>) returns (d: seq<string>)
    ensures d == description + InsightLines(insights)
  {
    d := description;
    if |insights| > 0 {
      var top := if |insights| <= 3 then insights else insights[..3];
      d := d + ["\nKey insights:"];
      for k := 0 to |top|
        invariant d == description + ["\nKey insights:"] + Bullets(top[..k])
      {
        assert Bullets(top[..k + 1]) == Bullets(top[..k]) + ["- " + top[k]];
        d := d + ["- " + top[k]];
      }
      assert top[..|top|] == top;
    }
  }

  /** At most three insights are shown, the first three, each as a bullet
      under the heading. */
  lemma InsightLinesShowFirstThree(insights: seq<string>)
    ensures |insights| == 0 ==> InsightLines(insights) == []
    ensures |insights| > 0 ==>
        && InsightLines(insights)[0] == "\nKey insights:"
        && |InsightLines(insights)| == 1 + (if |insights| < 3 then |insights| else 3)
        && forall k :: 1 <= k < |InsightLines(insights)| ==> InsightLines(insights)[k] == "- " + insights[k - 1]
  {
  }

  /** Describing an `{"error": ...}` analysis gives the opening sentence
      alone, or nothing. */
  lemma ErrorAnalysisGivesIntroOnly(fixed2: real -> string, error: string, chartType: string,
                                    x: Option<string>, y: Option<string>)
    ensures DescriptionLines(fixed2, AnalysisError(error), chartType, x, y) == Intro(chartType, x, y)
  {
  }

  /** The description of a report always states its record count. */
  lemma ReportStatesRecordCount(fixed2: real -> string, analysis: Analysis, chartType: string,
                                x: Option<string>, y: Option<string>)
    requires analysis.Report?
    ensures RowsSentence(analysis.rowCount) in DescriptionLines(fixed2, analysis, chartType, x, y)
  {
    var lines := DescriptionLines(fixed2, analysis, chartType, x, y);
    assert lines[|Intro(chartType, x, y)|] == RowsSentence(analysis.rowCount);
  }

  lemma {:induction false} SummaryInFindsUnique(columns: seq<(string, ColumnSummary)>, i: nat)
    requires i < |columns|
    requires forall a, b :: 0 <= a < b < |columns| ==> columns[a].0 != columns[b].0
    ensures SummaryIn(columns, columns[i].0) == Some(columns[i].1)
    decreases |columns|
  {
    if i < |columns| - 1 {
      var init := columns[..|columns| - 1];
      assert init[i] == columns[i];
      SummaryInFindsUnique(init, i);
    }
  }

  /** A numeric column holding no number (every value NaN) has no minimum,
      so describing a chart with it on the y axis raises instead of
      returning a description. */
  lemma NumericColumnWithoutValuesBreaksDescription(stats: Statistics, frame: Frame, i: nat,
                                                    chartType: string, x: Option<string>)
    requires WellFormed(frame) && !IsEmpty(frame)
    requires forall j :: 0 <= j < |frame.columns| ==> !HasNoValueCounts(frame.columns[j])
    requires i < |frame.columns| && IsNumericDtype(frame.columns[i].dtype) && frame.columns[i].name != ""
    requires forall j :: 0 <= j < |frame.columns[i].cells| ==> frame.columns[i].cells[j] == Missing
    ensures AnalysisOf(stats, frame).Success? && AnalysisOf(stats, frame).value.Report?
    ensures RangeStatisticMissing(AnalysisOf(stats, frame).value, Some(frame.columns[i].name))
  {
    var col := frame.columns[i];
    ReportedSummary(stats, frame, i);
    var a := AnalysisOf(stats, frame).value;
    SummaryInFindsUnique(a.columns, i);
    EmptyNumericSummary(stats, frame.rowCount, col);
    assert SummaryOf(a, col.name) == Some(ColumnReport(stats, frame.rowCount, col).value.0);
  }

  /** A column that raises nowhere is reported under its own name. */
  lemma ReportedSummary(stats: Statistics, frame: Frame, i: nat)
    requires !IsEmpty(frame)
    requires forall j :: 0 <= j < |frame.columns| ==> !HasNoValueCounts(frame.columns[j])
    requires i < |frame.columns|
    ensures AnalysisOf(stats, frame).Success? && AnalysisOf(stats, frame).value.Report?
    ensures var a := AnalysisOf(stats, frame).value;
            && |a.columns| == |frame.columns|
            && (forall j :: 0 <= j < |frame.columns| ==> a.columns[j].0 == frame.columns[j].name)
            && ColumnReport(stats, frame.rowCount, frame.columns[i]).Success?
            && a.columns[i] == (frame.columns[i].name, ColumnReport(stats, frame.rowCount, frame.columns[i]).value.0)
  {
    AnalysisOutcome(stats, frame);
  }

  /** A numeric column with no values has a summary whose minimum is None. */
  lemma EmptyNumericSummary(stats: Statistics, rows: nat, col: Column)
    requires rows > 0 && IsNumericDtype(col.dtype)
    requires forall j :: 0 <= j < |col.cells| ==> col.cells[j] == Missing
    ensures ColumnReport(stats, rows, col).Success?
    ensures ColumnReport(stats, rows, col).value.0.numeric.Some?
    ensures ColumnReport(stats, rows, col).value.0.numeric.value.min.None?
  {
    assert MinOf(col.cells).None?;
  }

  /** The corrected description: the range sentence is left out when a
      statistic is missing, every other line is kept, and so a description
      is always given. It is also the text the original returns whenever
      it does not raise (see `FormatChartDescription`). */
  function CorrectedDescription(fixed2: real -> string, analysis: Analysis, chartType: string,
                                x: Option<string>, y: Option<string>): (d: string)
    ensures !(HasNumericSummary(analysis, y) && !RangeStatisticMissing(analysis, y)) ==>
              d == Join(Intro(chartType, x, y) + RowsLines(analysis) + XLines(analysis, x)
                        + InsightLines(InsightsOf(analysis)), "\n")
    ensures HasNumericSummary(analysis, y) && !RangeStatisticMissing(analysis, y) ==>
              var n := SummaryOf(analysis, y.value).value.numeric.value;
              d == Join(Intro(chartType, x, y) + RowsLines(analysis) + XLines(analysis, x)
                        + [RangeSentence(fixed2, y.value, n.min.value, n.max.value, n.mean.value)]
                        + InsightLines(InsightsOf(analysis)), "\n")
  {
    var lines := DescriptionLines(fixed2, analysis, chartType, x, y);
    if HasNumericSummary(analysis, y) && !RangeStatisticMissing(analysis, y) then
      var n := SummaryOf(analysis, y.value).value.numeric.value;
      assert YLines(fixed2, analysis, y) == [RangeSentence(fixed2, y.value, n.min.value, n.max.value, n.mean.value)];
      Join(lines, "\n")
    else
      var opening := Intro(chartType, x, y) + RowsLines(analysis) + XLines(analysis, x);
      assert YLines(fixed2, analysis, y) == [] && opening + [] == opening;
      assert lines == opening + InsightLines(InsightsOf(analysis));
      Join(lines, "\n")
  }

  /** The range sentence appears exactly when the y column has numeric
      statistics and none of the three is missing. */
  lemma RangeSentenceIffStatistics(fixed2: real -> string, analysis: Analysis, y: Option<string>)
    ensures |YLines(fixed2, analysis, y)| <= 1
    ensures |YLines(fixed2, analysis, y)| == 1
        <==> Given(y) && SummaryOf(analysis, y.value).Some? && SummaryOf(analysis, y.value).value.numeric.Some?
             && !RangeStatisticMissing(analysis, y)
  {
  }
}
