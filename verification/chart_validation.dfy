/** `validate_chart_spec`: the structural checks a Vega-Lite chart
    specification must pass before it is handed to the renderer. The checks
    run in a fixed order and the first one that fails decides the message. */
module ChartValidation {
  import opened Wrappers
  import opened PyValue

  /** The encoding channels of which at least one must be present. */
  const Channels: seq<string> := ["x", "y", "color", "size", "theta"]

  const NotDictionary := "Chart specification must be a dictionary"
  const MissingMark := "Chart specification missing 'mark' field"
  const MissingEncoding := "Chart specification missing 'encoding' field"
  const EncodingNotDictionary := "'encoding' must be a dictionary"
  const MissingChannel := "Chart encoding must include at least one channel (x, y, color, etc.)"
  const MissingData := "Chart specification missing 'data' field"
  const DataNotDictionary := "'data' must be a dictionary"
  const MissingValues := "Chart data must include 'values' field"
  const NotSerialisablePrefix := "Chart data is not JSON serializable: "
  const EmptyValues := "Chart data values must be a non-empty list"

  /** The pair `(is_valid, error_message)` the Python function returns. */
  datatype Validation = Validation(valid: bool, error: Option<string>)

  predicate HasChannel(encoding: seq<(string, Value)>) {
    exists ch | ch in Channels :: HasKey(encoding, ch)
  }

  /** `validate_chart_spec(chart_spec)`. A missing `$schema` is only logged,
      so it does not appear here. */
  function ValidateChartSpec(spec: Value): (r: Validation)
    ensures r.valid <==> r.error.None?
  {
    if !spec.Dict? then Validation(false, Some(NotDictionary))
    else if !HasKey(spec.fields, "mark") then Validation(false, Some(MissingMark))
    else if !HasKey(spec.fields, "encoding") then Validation(false, Some(MissingEncoding))
    else
      var encoding := Lookup(spec.fields, "encoding").value;
      if !encoding.Dict? then Validation(false, Some(EncodingNotDictionary))
      else if !HasChannel(encoding.fields) then Validation(false, Some(MissingChannel))
      else if !HasKey(spec.fields, "data") then Validation(false, Some(MissingData))
      else
        var data := Lookup(spec.fields, "data").value;
        if !data.Dict? then Validation(false, Some(DataNotDictionary))
        else if !HasKey(data.fields, "values") then Validation(false, Some(MissingValues))
        else match FirstUnserialisable(data)
          case Some(typeName) =>
            Validation(false, Some(NotSerialisablePrefix + TypeErrorMessage(typeName)))
          case None =>
            FirstUnserialisableIffNotSerialisable(data);
            var values := Lookup(data.fields, "values").value;
            if !values.List? || |values.items| == 0 then Validation(false, Some(EmptyValues))
            else Validation(true, None)
  }

  // ---------------------------------------------------------------------
  // The checks as a table: each check on its own, its rank in the order
  // the function applies them, and the message it produces.

  datatype Check =
    | IsDictionary
    | HasMark
    | HasEncoding
    | EncodingIsDictionary
    | HasEncodingChannel
    | HasData
    | DataIsDictionary
    | HasValues
    | DataSerialisable
    | ValuesNonEmptyList

  function Rank(c: Check): nat {
    match c
    case IsDictionary => 0
    case HasMark => 1
    case HasEncoding => 2
    case EncodingIsDictionary => 3
    case HasEncodingChannel => 4
    case HasData => 5
    case DataIsDictionary => 6
    case HasValues => 7
    case DataSerialisable => 8
    case ValuesNonEmptyList => 9
  }

  /** `spec[key]` when `spec` is a dict that has `key`. */
  function Field(spec: Value, key: string): Option<Value> {
    if spec.Dict? then Lookup(spec.fields, key) else None
  }

  function DataValues(spec: Value): Option<Value> {
    match Field(spec, "data")
    case Some(data) => Field(data, "values")
    case None => None
  }

  /** Each check, stated on its own. */
  predicate Passes(c: Check, spec: Value) {
    match c
    case IsDictionary => spec.Dict?
    case HasMark => Field(spec, "mark").Some?
    case HasEncoding => Field(spec, "encoding").Some?
    case EncodingIsDictionary => Field(spec, "encoding").Some? && Field(spec, "encoding").value.Dict?
    case HasEncodingChannel =>
      Field(spec, "encoding").Some? && Field(spec, "encoding").value.Dict?
      && HasChannel(Field(spec, "encoding").value.fields)
    case HasData => Field(spec, "data").Some?
    case DataIsDictionary => Field(spec, "data").Some? && Field(spec, "data").value.Dict?
    case HasValues => DataValues(spec).Some?
    case DataSerialisable => Field(spec, "data").Some? && Serialisable(Field(spec, "data").value)
    case ValuesNonEmptyList => DataValues(spec).Some? && DataValues(spec).value.List? && |DataValues(spec).value.items| > 0
  }

  /** The message a failing check reports. */
  function Message(c: Check, spec: Value): string {
    match c
    case IsDictionary => NotDictionary
    case HasMark => MissingMark
    case HasEncoding => MissingEncoding
    case EncodingIsDictionary => EncodingNotDictionary
    case HasEncodingChannel => MissingChannel
    case HasData => MissingData
    case DataIsDictionary => DataNotDictionary
    case HasValues => MissingValues
    case DataSerialisable =>
      var typeName :=
        if Field(spec, "data").Some? && FirstUnserialisable(Field(spec, "data").value).Some?
        then FirstUnserialisable(Field(spec, "data").value).value else "";
      NotSerialisablePrefix + TypeErrorMessage(typeName)
    case ValuesNonEmptyList => EmptyValues
  }

  /** The checks in the order `validate_chart_spec` applies them. */
  const CheckOrder: seq<Check> := [
    IsDictionary, HasMark, HasEncoding, EncodingIsDictionary, HasEncodingChannel,
    HasData, DataIsDictionary, HasValues, DataSerialisable, ValuesNonEmptyList
  ]

  lemma CheckOrderFollowsRank()
    ensures |CheckOrder| == 10
    ensures forall c :: CheckOrder[Rank(c)] == c
    ensures forall k :: 0 <= k < |CheckOrder| ==> Rank(CheckOrder[k]) == k
  {
  }

  /** The first check, from position `k` of the order on, that fails. */
  function FirstFailureFrom(spec: Value, k: nat): Option<Check>
    requires k <= |CheckOrder|
    decreases |CheckOrder| - k
  {
    if k == |CheckOrder| then None
    else if !Passes(CheckOrder[k], spec) then Some(CheckOrder[k])
    else FirstFailureFrom(spec, k + 1)
  }

  function FirstFailure(spec: Value): Option<Check> {
    FirstFailureFrom(spec, 0)
  }

  /** The scan finds a failing check all of whose predecessors pass, or
      reports that every check passes. */
  lemma {:induction false} FirstFailureFromIsFirst(spec: Value, k: nat)
    requires k <= |CheckOrder|
    ensures match FirstFailureFrom(spec, k)
      case Some(c) => k <= Rank(c) && !Passes(c, spec) && forall d :: k <= Rank(d) < Rank(c) ==> Passes(d, spec)
      case None => forall d :: k <= Rank(d) ==> Passes(d, spec)
    decreases |CheckOrder| - k
  {
    CheckOrderFollowsRank();
    if k < |CheckOrder| {
      var c := CheckOrder[k];
      if Passes(c, spec) {
        FirstFailureFromIsFirst(spec, k + 1);
        forall d | Rank(d) == k
          ensures Passes(d, spec)
        {
          assert d == c;
        }
      } else {
        assert Rank(c) == k;
      }
    }
  }

  /** When `c` fails and every check before it passes, the validator
      reports `c`'s message. */
  lemma ValidateReportsFailing(spec: Value, c: Check)
    requires !Passes(c, spec)
    requires forall d :: Rank(d) < Rank(c) ==> Passes(d, spec)
    ensures ValidateChartSpec(spec) == Validation(false, Some(Message(c, spec)))
  {
    if Rank(c) > 0 { assert Passes(IsDictionary, spec); }
    if Rank(c) > 1 { assert Passes(HasMark, spec); }
    if Rank(c) > 2 { assert Passes(HasEncoding, spec); }
    if Rank(c) > 3 { assert Passes(EncodingIsDictionary, spec); }
    if Rank(c) > 4 { assert Passes(HasEncodingChannel, spec); }
    if Rank(c) > 5 { assert Passes(HasData, spec); }
    if Rank(c) > 6 { assert Passes(DataIsDictionary, spec); }
    if Rank(c) > 7 { assert Passes(HasValues, spec); }
    if Rank(c) > 8 {
      assert Passes(DataSerialisable, spec);
      FirstUnserialisableIffNotSerialisable(Field(spec, "data").value);
    }
    if c == DataSerialisable {
      FirstUnserialisableIffNotSerialisable(Field(spec, "data").value);
    }
  }

  /** When every check passes, the validator accepts. */
  lemma ValidateAcceptsPassing(spec: Value)
    requires forall d :: Passes(d, spec)
    ensures ValidateChartSpec(spec) == Validation(true, None)
  {
    assert Passes(IsDictionary, spec) && Passes(HasMark, spec) && Passes(HasEncoding, spec);
    assert Passes(EncodingIsDictionary, spec) && Passes(HasEncodingChannel, spec);
    assert Passes(HasData, spec) && Passes(DataIsDictionary, spec) && Passes(HasValues, spec);
    assert Passes(DataSerialisable, spec) && Passes(ValuesNonEmptyList, spec);
    FirstUnserialisableIffNotSerialisable(Field(spec, "data").value);
  }

  /** What `validate_chart_spec` returns is the message of the first
      failing check in the order of `CheckOrder`, or `(True, None)`. */
  lemma ValidateReportsFirstFailure(spec: Value)
    ensures ValidateChartSpec(spec) ==
      match FirstFailure(spec)
      case None => Validation(true, None)
      case Some(c) => Validation(false, Some(Message(c, spec)))
  {
    FirstFailureFromIsFirst(spec, 0);
    match FirstFailure(spec)
    case None => ValidateAcceptsPassing(spec);
    case Some(c) => ValidateReportsFailing(spec, c);
  }

  /** A specification is accepted exactly when every check passes. */
  lemma AcceptedIffAllChecksPass(spec: Value)
    ensures ValidateChartSpec(spec).valid <==> forall c :: Passes(c, spec)
  {
    ValidateReportsFirstFailure(spec);
    FirstFailureFromIsFirst(spec, 0);
  }

  /** A rejection carries the message of a failing check all of whose
      predecessors in the order pass. */
  lemma RejectionIsFirstFailingCheck(spec: Value)
    requires !ValidateChartSpec(spec).valid
    ensures exists c ::
      && !Passes(c, spec)
      && ValidateChartSpec(spec).error == Some(Message(c, spec))
      && forall d :: Rank(d) < Rank(c) ==> Passes(d, spec)
  {
    ValidateReportsFirstFailure(spec);
    FirstFailureFromIsFirst(spec, 0);
    var c := FirstFailure(spec).value;
    assert !Passes(c, spec) && ValidateChartSpec(spec).error == Some(Message(c, spec));
  }

  // ---------------------------------------------------------------------
  // Consequences the callers rely on.

  /** The verdict depends only on whether `mark` is present and on what
      `encoding` and `data` hold. */
  lemma VerdictDependsOnThreeKeys(a: seq<(string, Value)>, b: seq<(string, Value)>)
    requires HasKey(a, "mark") == HasKey(b, "mark")
    requires Lookup(a, "encoding") == Lookup(b, "encoding")
    requires Lookup(a, "data") == Lookup(b, "data")
    ensures ValidateChartSpec(Dict(a)) == ValidateChartSpec(Dict(b))
  {
  }

  /** `$schema` is never required: with or without it, and whatever it
      holds, the verdict is the same. */
  lemma SchemaNeverDecides(fields: seq<(string, Value)>, schema: Value)
    ensures ValidateChartSpec(Dict(SetField(fields, "$schema", schema)))
         == ValidateChartSpec(Dict(RemoveKey(fields, "$schema")))
  {
    VerdictDependsOnThreeKeys(SetField(fields, "$schema", schema), RemoveKey(fields, "$schema"));
  }

  /** Only the presence of `mark` is checked, not what it holds. */
  lemma MarkValueUnconstrained(fields: seq<(string, Value)>, m1: Value, m2: Value)
    ensures ValidateChartSpec(Dict(SetField(fields, "mark", m1)))
         == ValidateChartSpec(Dict(SetField(fields, "mark", m2)))
  {
    VerdictDependsOnThreeKeys(SetField(fields, "mark", m1), SetField(fields, "mark", m2));
  }

  /** An encoding with only a tooltip, or with nothing, has no channel. */
  lemma ChannelCheckExamples(mark: Value, tooltip: Value, data: Value)
    ensures ValidateChartSpec(Dict([("mark", mark), ("encoding", Dict([])), ("data", data)]))
         == Validation(false, Some(MissingChannel))
    ensures ValidateChartSpec(Dict([("mark", mark), ("encoding", Dict([("tooltip", tooltip)])), ("data", data)]))
         == Validation(false, Some(MissingChannel))
  {
    NoChannelInEmpty();
    NoChannelInTooltip(tooltip);
    MissingChannelReported(mark, [], data);
    MissingChannelReported(mark, [("tooltip", tooltip)], data);
  }

  lemma MissingChannelReported(mark: Value, enc: seq<(string, Value)>, data: Value)
    requires !HasChannel(enc)
    ensures ValidateChartSpec(Dict([("mark", mark), ("encoding", Dict(enc)), ("data", data)]))
         == Validation(false, Some(MissingChannel))
  {
    var s := [("mark", mark), ("encoding", Dict(enc)), ("data", data)];
    var k := "encoding";
    assert s[0].0 != k && s[1].0 == k;
    assert HasKey(s, "mark");
    assert Lookup(s, k) == Lookup(s[1..], k) == Some(Dict(enc));
  }

  lemma NoChannelInEmpty()
    ensures !HasChannel([])
  {
    var e: seq<(string, Value)> := [];
    forall ch | ch in Channels
      ensures !HasKey(e, ch)
    {
      assert Lookup(e, ch) == None;
    }
    assert !HasChannel(e);
  }

  lemma NoChannelInTooltip(tooltip: Value)
    ensures !HasChannel([("tooltip", tooltip)])
  {
    var e := [("tooltip", tooltip)];
    forall ch | ch in Channels
      ensures !HasKey(e, ch)
    {
      assert |ch| <= 5;
      assert e[0].0 != ch;
      assert e[1..] == [];
      assert Lookup(e, ch) == Lookup(e[1..], ch) == None;
    }
  }

  /** An empty `values` list is rejected with the non-empty-list message. */
  lemma EmptyValuesExample(mark: Value, x: Value)
    ensures ValidateChartSpec(Dict([("mark", mark), ("encoding", Dict([("x", x)])), ("data", Dict([("values", List([]))]))]))
         == Validation(false, Some(EmptyValues))
  {
    var enc := [("x", x)];
    var data := Dict([("values", List([]))]);
    var s := [("mark", mark), ("encoding", Dict(enc)), ("data", data)];
    assert HasKey(enc, "x");
    assert Lookup(s, "encoding") == Some(Dict(enc));
    assert Lookup(s[2..], "data") == Some(data);
    assert Lookup(s, "data") == Some(data);
    assert Lookup(data.fields, "values") == Some(List([]));
    assert FirstUnserialisable(List([])) == None;
    assert FirstUnserialisable(data) == None by {
      var opts := seq(1, i requires 0 <= i < 1 => FirstUnserialisable(data.fields[i].1));
      assert opts == [None];
    }
  }

  /** Serialisability of `data` is checked before the shape of `values`:
      data holding a non-JSON object reports the serialisation error even
      when `values` is empty. */
  lemma SerialisationCheckedBeforeValues(spec: Value, typeName: string)
    requires spec.Dict? && HasKey(spec.fields, "mark")
    requires Field(spec, "encoding") == Some(Dict([("x", Str("a"))]))
    requires Field(spec, "data") == Some(Dict([("values", List([])), ("extra", Object(typeName))]))
    ensures ValidateChartSpec(spec)
         == Validation(false, Some(NotSerialisablePrefix + TypeErrorMessage(typeName)))
  {
    var data := Dict([("values", List([])), ("extra", Object(typeName))]);
    assert HasKey([("x", Str("a"))], "x");
    var opts := seq(2, i requires 0 <= i < 2 => FirstUnserialisable(data.fields[i].1));
    assert opts == [None, Some(typeName)];
    assert FirstUnserialisable(data) == FirstSome(opts);
  }
}
