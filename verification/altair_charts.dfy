/** The Altair calls the chart tools make, as data: which mark, which
    encoding channels with which field, type, title and binning, which
    tooltip, which title, over which frame. What Altair's `to_dict()`
    makes of such a request is left to the `render` oracle. */
module AltairCharts {
  import opened Wrappers
  import opened PyValue
  import opened Frames

  datatype Mark = BarMark | LineMark | ArcMark | PointMark

  /** `alt.X(field, title=...)`, `alt.Theta(field=..., type=..., title=...)`,
      with `bin=alt.Bin(maxbins=n)` when `maxBins` is given. */
  datatype Channel = Channel(field: string, fieldType: Option<string>, title: string, maxBins: Option<nat>)

  /** A tooltip entry: a plain field, or `alt.Tooltip(field, bin=...)`. */
  datatype TooltipItem = Plain(field: string) | Binned(field: string, maxBins: nat)

  /** `alt.Chart(frame).mark_*().encode(...).properties(title=...)`. */
  datatype ChartRequest = ChartRequest(
    mark: Mark,
    channels: seq<(string, Channel)>,
    tooltip: seq<TooltipItem>,
    title: Option<string>,
    frame: Frame)

  /** The libraries a chart tool calls: `json`, the DataFrame constructor
      and Altair's `to_dict()`; each Failure is the text of an exception. */
  datatype Toolkit = Toolkit(
    codec: Codec,
    toFrame: Value -> Result<Frame, string>,
    render: ChartRequest -> Result<Value, string>)

  /** The shorthand Altair reads as a count aggregate. */
  const CountField := "count()"
}
