/**
  The untyped message values that cross the plugin's platform channel, and the
  primitive extractors (`asString`, `asInt`, `asDouble`, `asDict`, `asArr`) that
  the converter calls on them. The extractors live in a file outside this model;
  here each one is a partial function that fails with `ShapeMismatch` when the
  value does not have the expected kind.
 */
module Values {

  /** Why a conversion failed. */
  datatype DecodeError =
    | ShapeMismatch              // the value is not of the kind an extractor expects
    | MissingKey(key: string)    // a forced unwrap `d[key]!` of an absent key
    | UnknownName(name: string)  // a string outside a closed vocabulary that has no default

  datatype Result<+T> = Ok(value: T) | Err(error: DecodeError) {
    predicate IsFailure() { Err? }

    function PropagateFailure<U>(): Result<U>
      requires Err?
    {
      Err(error)
    }

    function Extract(): T
      requires Ok?
    {
      value
    }
  }

  datatype Option<+T> = None | Some(value: T)

  /**
    A message value. Floating-point numbers are kept as `real`: the converter
    only copies them from one side to the other and never computes with them.
   */
  datatype Value =
    | Null
    | Bool(b: bool)
    | Int(i: int)
    | Double(d: real)
    | Str(s: string)
    | Arr(items: seq<Value>)
    | Dict(entries: map<string, Value>)

  function AsString(v: Value): Result<string> {
    if v.Str? then Ok(v.s) else Err(ShapeMismatch)
  }

  function AsInt(v: Value): Result<int> {
    if v.Int? then Ok(v.i) else Err(ShapeMismatch)
  }

  function AsDouble(v: Value): Result<real> {
    if v.Double? then Ok(v.d) else Err(ShapeMismatch)
  }

  /** `asDict(v)`: the dictionary itself, values left untyped. */
  function AsDict(v: Value): Result<map<string, Value>> {
    if v.Dict? then Ok(v.entries) else Err(ShapeMismatch)
  }

  /** `asDict(v, valueCaster:)`: a dictionary every value of which the caster accepts. */
  function AsDictOf<T>(v: Value, cast: Value -> Result<T>): (r: Result<map<string, T>>)
    ensures r.Ok? <==> v.Dict? && forall k | k in v.entries :: cast(v.entries[k]).Ok?
    ensures r.Ok? ==> r.value.Keys == v.entries.Keys
    ensures r.Ok? ==> forall k | k in r.value :: cast(v.entries[k]) == Ok(r.value[k])
  {
    match v
    case Dict(m) =>
      if forall k | k in m :: cast(m[k]).Ok? then
        Ok(map k | k in m :: cast(m[k]).value)
      else
        Err(ShapeMismatch)
    case _ => Err(ShapeMismatch)
  }

  /**
    `asArr(v, elementCaster:)`: the array with every element cast, in order;
    it fails when the value is not an array or the caster rejects an element.
   */
  function AsArrOf<T>(v: Value, cast: Value -> Result<T>): (r: Result<seq<T>>)
    ensures r.Ok? <==> v.Arr? && forall i | 0 <= i < |v.items| :: cast(v.items[i]).Ok?
    ensures r.Ok? ==> |r.value| == |v.items|
    ensures r.Ok? ==> forall i | 0 <= i < |r.value| :: cast(v.items[i]) == Ok(r.value[i])
  {
    if v.Arr? then CastAll(v.items, cast) else Err(ShapeMismatch)
  }

  function CastAll<T>(items: seq<Value>, cast: Value -> Result<T>): (r: Result<seq<T>>)
    ensures r.Ok? <==> forall i | 0 <= i < |items| :: cast(items[i]).Ok?
    ensures r.Ok? ==> |r.value| == |items|
    ensures r.Ok? ==> forall i | 0 <= i < |r.value| :: cast(items[i]) == Ok(r.value[i])
    decreases |items|
  {
    if items == [] then Ok([])
    else
      var head :- cast(items[0]);
      var tail :- CastAll(items[1..], cast);
      Ok([head] + tail)
  }

  /** `d[key]!`: a forced unwrap, which fails when the key is absent. */
  function Lookup<T>(d: map<string, T>, key: string): (r: Result<T>)
    ensures r.Ok? <==> key in d
    ensures r.Ok? ==> r.value == d[key]
    ensures r.Err? ==> r.error == MissingKey(key)
  {
    if key in d then Ok(d[key]) else Err(MissingKey(key))
  }
}
