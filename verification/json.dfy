/**
 Runtime objects as `JSON.parse` produces them and as the document store keeps
 them, together with the semantics of object destructuring
 `const { a, b, ...rest } = obj`.
 */
module Json {
  import opened Base

  /** A JSON value, plus the identifier the document store generates on insert. */
  datatype Value =
    | Null
    | Bool(b: bool)
    | Num(n: int)
    | Str(s: string)
    | Arr(items: seq<Value>)
    | Obj(fields: map<string, Value>)
    | ObjectId(id: nat)

  /** The own properties of an object. */
  type Fields = map<string, Value>

  /** The named part of a destructuring: the listed properties the object has. */
  function Pick(obj: Fields, names: set<string>): (r: Fields)
    ensures r.Keys == obj.Keys * names
    ensures forall k :: k in r ==> r[k] == obj[k]
  {
    map k | k in obj && k in names :: obj[k]
  }

  /** The `...rest` part of a destructuring: every property that is not listed. */
  function Rest(obj: Fields, names: set<string>): (r: Fields)
    ensures r.Keys == obj.Keys - names
    ensures forall k :: k in r ==> r[k] == obj[k]
  {
    obj - names
  }

  /** Destructuring splits an object in two disjoint parts that together give it back. */
  lemma PickRestPartition(obj: Fields, names: set<string>)
    ensures Pick(obj, names).Keys !! Rest(obj, names).Keys
    ensures Pick(obj, names) + Rest(obj, names) == obj
    ensures Rest(obj, names) + Pick(obj, names) == obj
  {
  }

  // Reading typed properties back out of an object.

  function GetString(f: Fields, key: string): (r: Option<string>)
    ensures r.Some? <==> key in f && f[key].Str?
    ensures r.Some? ==> f[key] == Str(r.value)
  {
    if key in f && f[key].Str? then Some(f[key].s) else None
  }

  function GetNum(f: Fields, key: string): (r: Option<int>)
    ensures r.Some? <==> key in f && f[key].Num?
    ensures r.Some? ==> f[key] == Num(r.value)
  {
    if key in f && f[key].Num? then Some(f[key].n) else None
  }

  function GetBool(f: Fields, key: string): (r: Option<bool>)
    ensures r.Some? <==> key in f && f[key].Bool?
    ensures r.Some? ==> f[key] == Bool(r.value)
  {
    if key in f && f[key].Bool? then Some(f[key].b) else None
  }

  function GetArray(f: Fields, key: string): (r: Option<seq<Value>>)
    ensures r.Some? <==> key in f && f[key].Arr?
    ensures r.Some? ==> f[key] == Arr(r.value)
  {
    if key in f && f[key].Arr? then Some(f[key].items) else None
  }

  function GetObject(f: Fields, key: string): (r: Option<Fields>)
    ensures r.Some? <==> key in f && f[key].Obj?
    ensures r.Some? ==> f[key] == Obj(r.value)
  {
    if key in f && f[key].Obj? then Some(f[key].fields) else None
  }

  /**
   An optional string property (`key?: string`): absence is a valid reading
   (`Some(None)`), a property of another type is not (`None`).
   */
  function GetOptString(f: Fields, key: string): (r: Option<Option<string>>)
    ensures r == Some(None) <==> key !in f
    ensures forall s :: r == Some(Some(s)) <==> key in f && f[key] == Str(s)
  {
    if key !in f then Some(None)
    else if f[key].Str? then Some(Some(f[key].s))
    else None
  }

  /** Adds an optional string property to an object only when it is present. */
  function WithOptString(f: Fields, key: string, v: Option<string>): (r: Fields)
    ensures v.None? ==> r == f
    ensures v.Some? ==> r == f[key := Str(v.value)]
  {
    match v
    case None => f
    case Some(s) => f[key := Str(s)]
  }

  /** Reading an optional property back gives what was written, whatever the object held before. */
  lemma OptStringRoundTrip(f: Fields, key: string, v: Option<string>)
    requires key !in f
    ensures GetOptString(WithOptString(f, key, v), key) == Some(v)
  {
  }

  /** A `string[]` property. */
  function Strings(xs: seq<string>): (v: Value)
    ensures v.Arr? && |v.items| == |xs|
    ensures forall i :: 0 <= i < |xs| ==> v.items[i] == Str(xs[i])
  {
    Arr(seq(|xs|, i requires 0 <= i < |xs| => Str(xs[i])))
  }

  function AsStrings(items: seq<Value>): (r: Option<seq<string>>)
    ensures r.Some? <==> forall i :: 0 <= i < |items| ==> items[i].Str?
    ensures r.Some? ==> |r.value| == |items| && forall i :: 0 <= i < |items| ==> items[i] == Str(r.value[i])
  {
    if forall i :: 0 <= i < |items| ==> items[i].Str?
    then Some(seq(|items|, i requires 0 <= i < |items| && items[i].Str? => items[i].s))
    else None
  }

  lemma StringsRoundTrip(xs: seq<string>)
    ensures AsStrings(Strings(xs).items) == Some(xs)
  {
    var r := AsStrings(Strings(xs).items);
    assert r.Some?;
    assert r.value == xs;
  }
}
