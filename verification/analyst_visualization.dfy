/** `generate_chart` of the data analyst's visualization agent: it takes a
    complete Vega-Lite specification, validates it and prints it back. */
module AnalystVisualization {
  import opened Wrappers
  import opened PyValue
  import opened ChartValidation
  import opened ToolResults

  const NoSpec := "No chart specification provided."
  const InvalidJsonPrefix := "Invalid JSON in chart specification: "
  const InvalidSpecPrefix := "Invalid chart specification: "
  const ExceptionPrefix := "An exception occurred during chart processing: "

  /** The specification: text parsed as JSON, anything else as given. */
  function Parsed(codec: Codec, chartSpec: Value): Result<Value, string> {
    if chartSpec.Str? then codec.loads(chartSpec.s) else Success(chartSpec)
  }

  /** `generate_chart(chart_type, chart_spec)`. The chart type is only
      logged, so it does not appear. The log line before the checks takes
      `len(chart_spec)` of a non-empty input, hence the precondition. */
  function GenerateChart(codec: Codec, chartSpec: Value): (r: Outcome)
    requires !Truthy(chartSpec) || chartSpec.Str? || chartSpec.List? || chartSpec.Dict?
    ensures !r.Raised?
    ensures !Truthy(chartSpec) ==> r == Error(NoSpec)
    ensures Truthy(chartSpec) && Parsed(codec, chartSpec).Failure?
        ==> r == Error(InvalidJsonPrefix + Parsed(codec, chartSpec).error)
    ensures r.Json? <==>
        && Truthy(chartSpec)
        && Parsed(codec, chartSpec).Success?
        && ValidateChartSpec(Parsed(codec, chartSpec).value).valid
        && Serialisable(Parsed(codec, chartSpec).value)
    ensures r.Json? ==> r.text == codec.dumps(Parsed(codec, chartSpec).value)
    ensures Truthy(chartSpec) && Parsed(codec, chartSpec).Success?
            && !ValidateChartSpec(Parsed(codec, chartSpec).value).valid
        ==> r == Error(InvalidSpecPrefix + ValidateChartSpec(Parsed(codec, chartSpec).value).error.value)
  {
    if !Truthy(chartSpec) then Error(NoSpec)
    else
      match Parsed(codec, chartSpec)
      case Failure(e) => Error(InvalidJsonPrefix + e)
      case Success(chartData) =>
        var check := ValidateChartSpec(chartData);
        if !check.valid then Error(InvalidSpecPrefix + check.error.value)
        else
          match Dumps(codec, chartData)
          case Failure(e) => Error(ExceptionPrefix + e)
          case Success(text) => Json(text)
  }

  /** A JSON library whose parser yields only printable values, and whose
      printed text parses back to the value printed. */
  ghost predicate LawfulCodec(codec: Codec) {
    && (forall s :: codec.loads(s).Success? ==> Serialisable(codec.loads(s).value))
    && (forall v :: Serialisable(v) ==> codec.loads(codec.dumps(v)) == Success(v))
  }

  /** With such a library, text input never reaches the exception branch,
      and accepted output parses back to the specification unmodified. */
  lemma AcceptedSpecIsReturnedUnmodified(codec: Codec, chartSpec: Value)
    requires LawfulCodec(codec)
    requires !Truthy(chartSpec) || chartSpec.Str? || chartSpec.List? || chartSpec.Dict?
    ensures chartSpec.Str? && Truthy(chartSpec) && Parsed(codec, chartSpec).Success?
            && ValidateChartSpec(Parsed(codec, chartSpec).value).valid
        ==> GenerateChart(codec, chartSpec).Json?
    ensures GenerateChart(codec, chartSpec).Json?
        ==> codec.loads(GenerateChart(codec, chartSpec).text) == Parsed(codec, chartSpec)
  {
  }
}
