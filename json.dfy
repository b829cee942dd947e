/**
  Decoded JSON values as the client sees them after `json.loads`, together with
  the few Python operations the core applies to them: subscription `v[key]`,
  `dict.get`, `v[0]` and truthiness. Python exceptions become `Err` values.
 */
module Json {

  datatype Option<+T> = None | Some(value: T)

  /** The Python exceptions the modelled code can raise. */
  datatype Error = KeyError | TypeError | IndexError | AttributeError | ValueError

  /** A value, or the exception that replaced it; `:-` propagates the exception. */
  datatype Result<+T> = Ok(value: T) | Err(error: Error) {
    predicate IsFailure() { Err? }

    function PropagateFailure<U>(): Result<U>
      requires Err?
    {
      Err(error)
    }

    function Extract(): T
      requires Ok?
    {
      value
    }
  }

  /**
    A JSON value. Objects keep their members in insertion order, as Python
    dicts do; numbers are integers (they are only ever copied, never computed with).
    A dict that `json.loads` builds has distinct keys (a repeated key in the text
    keeps its last value), so an object with a repeated key stands for no
    decoded value: such objects are outside the model, and the contracts whose
    truth depends on it require `DistinctKeys`.
   */
  datatype Value =
    | Null
    | Bool(b: bool)
    | Num(n: int)
    | Str(s: string)
    | Arr(items: seq<Value>)
    | Obj(fields: seq<(string, Value)>)

  /** The keys of a dict are distinct. */
  predicate DistinctKeys(fields: seq<(string, Value)>)
  {
    forall i, j :: 0 <= i < j < |fields| ==> fields[i].0 != fields[j].0
  }

  /** Python truthiness: None, False, 0 and empty containers are false. */
  predicate Truthy(v: Value) {
    match v
    case Null => false
    case Bool(b) => b
    case Num(n) => n != 0
    case Str(s) => s != ""
    case Arr(items) => items != []
    case Obj(fields) => fields != []
  }

  /** The keys of an object's members, in order. */
  function Keys(fields: seq<(string, Value)>): (ks: seq<string>)
    ensures |ks| == |fields|
    ensures forall k :: 0 <= k < |fields| ==> ks[k] == fields[k].0
  {
    if fields == [] then [] else [fields[0].0] + Keys(fields[1..])
  }

  /** Member lookup in an object; on the distinct keys of a decoded dict the first match is the only one. */
  function Get(fields: seq<(string, Value)>, key: string): (r: Option<Value>)
    ensures r.None? <==> key !in Keys(fields)
    ensures r.Some? ==> exists k :: 0 <= k < |fields| && fields[k] == (key, r.value)
  {
    if fields == [] then None
    else if fields[0].0 == key then Some(fields[0].1)
    else Get(fields[1..], key)
  }

  /** `v[key]` with a string key. */
  function Lookup(v: Value, key: string): (r: Result<Value>)
    ensures r.Ok? <==> v.Obj? && key in Keys(v.fields)
    ensures r.Ok? ==> Get(v.fields, key) == Some(r.value)
    ensures r == Err(KeyError) <==> v.Obj? && key !in Keys(v.fields)
    ensures r == Err(TypeError) <==> !v.Obj?
  {
    match v
    case Obj(fields) =>
      (match Get(fields, key)
       case Some(x) => Ok(x)
       case None => Err(KeyError))
    case _ => Err(TypeError)
  }

  /** `v.get(key, default)`: only dicts have a `get` attribute. */
  function GetOr(v: Value, key: string, default: Value): (r: Result<Value>)
    ensures r.Err? <==> !v.Obj?
    ensures r.Err? ==> r.error == AttributeError
    ensures v.Obj? && key !in Keys(v.fields) ==> r == Ok(default)
    ensures v.Obj? && key in Keys(v.fields) ==> r == Lookup(v, key)
  {
    match v
    case Obj(fields) =>
      (match Get(fields, key)
       case Some(x) => Ok(x)
       case None => Ok(default))
    case _ => Err(AttributeError)
  }

  /**
    `v[0]`: the first element of a list, the first character of a string; a dict
    decoded from JSON has only string keys, so the integer key is missing.
   */
  function Head(v: Value): (r: Result<Value>)
    ensures v.Arr? && v.items != [] ==> r == Ok(v.items[0])
    ensures v.Str? && v.s != "" ==> r == Ok(Str([v.s[0]]))
    ensures (v.Arr? && v.items == []) || (v.Str? && v.s == "") ==> r == Err(IndexError)
    ensures v.Obj? ==> r == Err(KeyError)
    ensures v.Null? || v.Bool? || v.Num? ==> r == Err(TypeError)
  {
    match v
    case Arr(items) => if items == [] then Err(IndexError) else Ok(items[0])
    case Str(s) => if s == "" then Err(IndexError) else Ok(Str([s[0]]))
    case Obj(_) => Err(KeyError)
    case _ => Err(TypeError)
  }
}
