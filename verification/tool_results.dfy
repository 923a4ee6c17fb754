/** The text convention of the chart tools: a tool either returns chart
    JSON, returns an error text, or lets an exception escape. */
module ToolResults {
  import opened Wrappers
  import opened Text
  import opened PyValue

  datatype Outcome =
    | Json(text: string)
    | Error(message: string)
    | Raised(exception: string)

  const ErrorPrefix := "Error: "

  /** The string a tool returns when it does not raise. */
  function Returned(o: Outcome): (s: string)
    requires !o.Raised?
    ensures o.Error? ==> StartsWith(s, ErrorPrefix) && s[|ErrorPrefix|..] == o.message
    ensures o.Json? ==> s == o.text
  {
    match o
    case Json(text) => text
    case Error(message) => ErrorPrefix + message
  }

  /** `a or b` on an optional string. */
  function OrElse(a: Option<string>, b: string): string {
    if Given(a) then a.value else b
  }
}
