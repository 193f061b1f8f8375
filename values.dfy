/** Structured data as a YAML loader hands it to the manifest classes, and the
    failures Python raises when that data is indexed or iterated. */
module Values {

  /** A loaded YAML value. `Num(text)` carries the number's Python `str()`
      rendering (so a YAML `1.0` is `Num("1.0")`); mapping keys are strings. */
  datatype Value =
    | Null
    | Bool(b: bool)
    | Num(text: string)
    | Str(s: string)
    | List(items: seq<Value>)
    | Dict(fields: map<string, Value>)

  datatype Result<+T, +E> = Success(value: T) | Failure(error: E) {
    predicate IsFailure() { Failure? }
    function PropagateFailure<U>(): Result<U, E> requires Failure? { Failure(error) }
    function Extract(): T requires Success? { value }
  }

  /** What a manifest constructor can raise: `KeyError` for a missing key,
      `TypeError` for indexing or iterating the wrong kind of value, and the
      test manifest's `ValueError` for a schema version other than "1.0". */
  datatype LoadError = KeyError(key: string) | TypeError | UnsupportedSchemaVersion(version: string)

  /** Python's `str(v)` (and f-string formatting) for scalars. Containers are
      rendered only by their opening bracket, which is all the model needs. */
  function StrOf(v: Value): string
  {
    match v
    case Null => "None"
    case Bool(b) => if b then "True" else "False"
    case Num(t) => t
    case Str(s) => s
    case List(_) => "[...]"
    case Dict(_) => "{...}"
  }

  /** `data[key]`: a missing key is a `KeyError`, anything but a mapping a `TypeError`. */
  function Get(data: Value, key: string): (r: Result<Value, LoadError>)
    ensures r.Success? <==> data.Dict? && key in data.fields
    ensures r.Success? ==> r.value == data.fields[key]
    ensures r.Failure? ==> r.error == (if data.Dict? then KeyError(key) else TypeError)
  {
    if !data.Dict? then Failure(TypeError)
    else if key !in data.fields then Failure(KeyError(key))
    else Success(data.fields[key])
  }

  /** The entries `map(f, v)` hands to `f`. A list yields its items; an empty
      string or mapping yields nothing; a non-empty string or mapping yields
      strings, which the manifest entry constructors cannot index (`TypeError`,
      reported here at once); a scalar is not iterable (`TypeError`). */
  function Entries(v: Value): (r: Result<seq<Value>, LoadError>)
    ensures v.List? ==> r == Success(v.items)
    ensures r.Success? ==> v.List? || r.value == []
  {
    match v
    case List(items) => Success(items)
    case Str(s) => if s == "" then Success([]) else Failure(TypeError)
    case Dict(m) => if |m| == 0 then Success([]) else Failure(TypeError)
    case _ => Failure(TypeError)
  }

  /** The entries of `m` whose key is one of `keys`. */
  function Restrict(m: map<string, Value>, keys: set<string>): (r: map<string, Value>)
    ensures r.Keys == m.Keys * keys
    ensures forall k :: k in r ==> r[k] == m[k]
  {
    map k | k in m && k in keys :: m[k]
  }

  /** `list(map(load, entries))`: every entry loaded in order; the first one
      that fails decides the error. */
  function LoadEach<T>(entries: seq<Value>, load: Value -> Result<T, LoadError>): (r: Result<seq<T>, LoadError>)
    ensures r.Success? <==> forall i :: 0 <= i < |entries| ==> load(entries[i]).Success?
    ensures r.Success? ==> |r.value| == |entries| && forall i :: 0 <= i < |entries| ==> r.value[i] == load(entries[i]).value
    ensures r.Failure? ==>
      exists i :: 0 <= i < |entries| && load(entries[i]) == Failure(r.error) &&
        forall j :: 0 <= j < i ==> load(entries[j]).Success?
    decreases |entries|
  {
    if |entries| == 0 then Success([])
    else
      var first :- load(entries[0]);
      var rest :- LoadEach(entries[1..], load);
      Success([first] + rest)
  }

  /** The position of the first of `order` that `m` lacks, or `|order|`. */
  function FirstMissing(order: seq<string>, m: map<string, Value>): (i: nat)
    ensures i <= |order|
    ensures forall j :: 0 <= j < i ==> order[j] in m
    ensures i < |order| ==> order[i] !in m
    decreases |order|
  {
    if |order| == 0 then 0 else if order[0] !in m then 0 else 1 + FirstMissing(order[1..], m)
  }
}
