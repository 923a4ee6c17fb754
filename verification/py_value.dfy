/** The Python values that travel through the chart tools: what `json.loads`
    produces (None, booleans, numbers, strings, lists, dicts) plus `Object`,
    any other Python object, which `json.dumps` refuses. A dict keeps its
    entries in insertion order, as Python dicts do. */
module PyValue {
  import opened Wrappers

  datatype Value =
    | Null
    | Bool(b: bool)
    | Num(x: real)
    | Str(s: string)
    | List(items: seq<Value>)
    | Dict(fields: seq<(string, Value)>)
    | Object(typeName: string)

  /** Python truthiness (`if not v`), for the values modelled here; any
      other object counts as true. */
  predicate Truthy(v: Value) {
    match v
    case Null => false
    case Bool(b) => b
    case Num(x) => x != 0.0
    case Str(s) => |s| > 0
    case List(items) => |items| > 0
    case Dict(fields) => |fields| > 0
    case Object(_) => true
  }

  /** Python truthiness of an optional string argument (`if not x_column`). */
  predicate Given(s: Option<string>) {
    s.Some? && |s.value| > 0
  }

  /** `d.get(key)`: the value stored under `key`. */
  function Lookup(fields: seq<(string, Value)>, key: string): Option<Value>
    decreases |fields|
  {
    if |fields| == 0 then None
    else if fields[0].0 == key then Some(fields[0].1)
    else Lookup(fields[1..], key)
  }

  /** `d.get(key)` finds a value exactly when some entry has that key, and
      the value it finds is stored under the key. */
  lemma {:induction false} LookupFinds(fields: seq<(string, Value)>, key: string)
    ensures Lookup(fields, key).Some? <==> exists i :: 0 <= i < |fields| && fields[i].0 == key
    ensures Lookup(fields, key).Some? ==> exists i :: 0 <= i < |fields| && fields[i] == (key, Lookup(fields, key).value)
    decreases |fields|
  {
    if |fields| > 0 && fields[0].0 != key {
      LookupFinds(fields[1..], key);
      assert forall i :: 1 <= i < |fields| ==> fields[i] == fields[1..][i - 1];
    }
  }

  /** `key in d`. */
  predicate HasKey(fields: seq<(string, Value)>, key: string) {
    Lookup(fields, key).Some?
  }

  /** `d[key] = v`: overwrite the entry in place, or append a new one. */
  function SetField(fields: seq<(string, Value)>, key: string, v: Value): (r: seq<(string, Value)>)
    ensures Lookup(r, key) == Some(v)
    ensures forall k :: k != key ==> Lookup(r, k) == Lookup(fields, k)
    decreases |fields|
  {
    if |fields| == 0 then [(key, v)]
    else if fields[0].0 == key then [(key, v)] + fields[1..]
    else [fields[0]] + SetField(fields[1..], key, v)
  }

  /** `d.pop(key, None)`: the dict without `key`. */
  function RemoveKey(fields: seq<(string, Value)>, key: string): (r: seq<(string, Value)>)
    ensures Lookup(r, key) == None
    ensures forall k :: k != key ==> Lookup(r, k) == Lookup(fields, k)
    decreases |fields|
  {
    if |fields| == 0 then []
    else if fields[0].0 == key then RemoveKey(fields[1..], key)
    else [fields[0]] + RemoveKey(fields[1..], key)
  }

  /** `json.dumps(v)` succeeds: no object outside the JSON types occurs
      anywhere inside `v`. */
  predicate Serialisable(v: Value)
    decreases v
  {
    match v
    case Object(_) => false
    case List(items) => forall i :: 0 <= i < |items| ==> Serialisable(items[i])
    case Dict(fields) => forall i :: 0 <= i < |fields| ==> Serialisable(fields[i].1)
    case _ => true
  }

  function FirstSome(opts: seq<Option<string>>): (r: Option<string>)
    ensures r.None? <==> forall i :: 0 <= i < |opts| ==> opts[i].None?
    decreases |opts|
  {
    if |opts| == 0 then None
    else if opts[0].Some? then opts[0]
    else
      var r := FirstSome(opts[1..]);
      assert forall i :: 1 <= i < |opts| ==> opts[i] == opts[1..][i - 1];
      r
  }

  /** The type name of the first non-JSON object `json.dumps` meets on its
      depth-first, left-to-right walk of `v`. */
  function FirstUnserialisable(v: Value): Option<string>
    decreases v
  {
    match v
    case Object(name) => Some(name)
    case List(items) => FirstSome(seq(|items|, i requires 0 <= i < |items| => FirstUnserialisable(items[i])))
    case Dict(fields) => FirstSome(seq(|fields|, i requires 0 <= i < |fields| => FirstUnserialisable(fields[i].1)))
    case _ => None
  }

  /** `json.dumps` fails exactly when its walk meets a non-JSON object. */
  lemma {:induction false} FirstUnserialisableIffNotSerialisable(v: Value)
    ensures FirstUnserialisable(v).None? <==> Serialisable(v)
    decreases v
  {
    match v
    case List(items) =>
      var opts := seq(|items|, i requires 0 <= i < |items| => FirstUnserialisable(items[i]));
      forall i | 0 <= i < |items|
        ensures opts[i].None? <==> Serialisable(items[i])
      {
        FirstUnserialisableIffNotSerialisable(items[i]);
      }
    case Dict(fields) =>
      var opts := seq(|fields|, i requires 0 <= i < |fields| => FirstUnserialisable(fields[i].1));
      forall i | 0 <= i < |fields|
        ensures opts[i].None? <==> Serialisable(fields[i].1)
      {
        FirstUnserialisableIffNotSerialisable(fields[i].1);
      }
    case _ =>
  }

  /** The text of the `TypeError` `json.dumps` raises for an object of the
      named type. */
  function TypeErrorMessage(typeName: string): string {
    "Object of type " + typeName + " is not JSON serializable"
  }

  /** The JSON library, which the model does not implement: `loads` parses
      text or gives the decoder's error message, `dumps` prints a
      serialisable value. */
  datatype Codec = Codec(loads: string -> Result<Value, string>, dumps: Value -> string)

  /** `json.dumps(v)`: the printed text, or the message of the `TypeError`
      it raises. */
  function Dumps(codec: Codec, v: Value): (r: Result<string, string>)
    ensures r.Success? <==> Serialisable(v)
  {
    FirstUnserialisableIffNotSerialisable(v);
    match FirstUnserialisable(v)
    case None => Success(codec.dumps(v))
    case Some(name) => Failure(TypeErrorMessage(name))
  }
}
