/**
 * The structured tree that documents are encoded to and decoded from
 * (JSON and YAML alike), and the keyed-container operations of Swift's
 * Codable that the synthesized and hand-written coders use.
 */
module JsonValue {
  import opened Wrappers

  /** A JSON value. Numbers are integers; objects are unordered maps. */
  datatype Json =
    | JNull
    | JBool(b: bool)
    | JNumber(n: int)
    | JString(str: string)
    | JArray(items: seq<Json>)
    | JObject(fields: map<string, Json>)

  /** Swift's `DecodingError` cases, with the coding key they concern ("" for the value itself). */
  datatype DecodeError =
    | KeyNotFound(key: string)
    | ValueNotFound(key: string)
    | TypeMismatch(key: string)
    | DataCorrupted(key: string, message: string)

  type Decoded<T> = Result<T, DecodeError>

  // ---------------------------------------------------------------------------
  // Encoding helpers: a present optional becomes one entry, an absent one none.
  // ---------------------------------------------------------------------------

  /** `encodeIfPresent(v, forKey: key)`: the single entry `key: v`, or nothing. */
  function Opt(key: string, v: Option<Json>): (m: map<string, Json>)
    ensures m.Keys == if v.Some? then {key} else {}
    ensures v.Some? ==> m[key] == v.value
  {
    if v.Some? then map[key := v.value] else map[]
  }

  /** The key `encodeIfPresent(v, forKey: key)` writes: `key` when `v` is present, none otherwise. */
  function KeyIf<T>(key: string, v: Option<T>): set<string> {
    if v.Some? then {key} else {}
  }

  /** The entry of an optional member has exactly the key `KeyIf` names. */
  lemma OptKeys<T>(key: string, o: Option<T>, f: T -> Json)
    ensures Opt(key, OptOf(o, f)).Keys == KeyIf(key, o)
    ensures Opt(key, OptOf(o, f)) == if o.Some? then map[key := f(o.value)] else map[]
  {
  }

  /** The two required members of a record, written unconditionally. */
  lemma PairKeys(k1: string, v1: Json, k2: string, v2: Json)
    ensures map[k1 := v1, k2 := v2].Keys == {k1, k2}
  {
  }

  /** `encodeIfPresent(v, forKey: key)` into container `m`. */
  function Put(m: map<string, Json>, key: string, v: Option<Json>): (r: map<string, Json>)
    ensures r.Keys == if v.Some? then m.Keys + {key} else m.Keys
    ensures v.Some? ==> r[key] == v.value
    ensures forall k :: k != key && k in m ==> r[k] == m[k]
  {
    if v.Some? then m[key := v.value] else m
  }

  function OptOf<T>(o: Option<T>, f: T -> Json): Option<Json> {
    if o.Some? then Some(f(o.value)) else None
  }

  function Str(s: string): Json {
    JString(s)
  }

  function OptString(o: Option<string>): Option<Json> {
    OptOf(o, Str)
  }

  function Array<T>(xs: seq<T>, f: T -> Json): (j: Json)
    ensures j.JArray? && |j.items| == |xs|
    ensures forall i :: 0 <= i < |xs| ==> j.items[i] == f(xs[i])
  {
    JArray(seq(|xs|, i requires 0 <= i < |xs| => f(xs[i])))
  }

  function Object<T>(m: map<string, T>, f: T -> Json): (j: Json)
    ensures j.JObject? && j.fields.Keys == m.Keys
    ensures forall k :: k in m ==> j.fields[k] == f(m[k])
  {
    JObject(map k | k in m :: f(m[k]))
  }

  // ---------------------------------------------------------------------------
  // Decoding helpers: `decode(_:forKey:)` and `decodeIfPresent(_:forKey:)`.
  // ---------------------------------------------------------------------------

  /** A keyed container: only an object can be decoded as one; null is a missing value. */
  function Container(j: Json): (r: Decoded<map<string, Json>>)
    ensures r.Ok? <==> j.JObject?
    ensures r.Ok? ==> r.value == j.fields
    ensures r.Err? ==> r.error == if j.JNull? then ValueNotFound("") else TypeMismatch("")
  {
    if j.JObject? then Ok(j.fields)
    else if j.JNull? then Err(ValueNotFound(""))
    else Err(TypeMismatch(""))
  }

  /** `decode(String.self, forKey: key)`: the key must be there and hold a string. */
  function DecodeString(o: map<string, Json>, key: string): (r: Decoded<string>)
    ensures r.Ok? <==> key in o && o[key].JString?
    ensures r.Ok? ==> r.value == o[key].str
    ensures key !in o ==> r == Err(KeyNotFound(key))
    ensures key in o && o[key].JNull? ==> r == Err(ValueNotFound(key))
    ensures key in o && !o[key].JNull? && !o[key].JString? ==> r == Err(TypeMismatch(key))
  {
    if key !in o then Err(KeyNotFound(key))
    else match o[key]
      case JString(s) => Ok(s)
      case JNull => Err(ValueNotFound(key))
      case _ => Err(TypeMismatch(key))
  }

  /** `decodeIfPresent(String.self, forKey: key)`: absent or null is `nil`, any other non-string throws. */
  function DecodeStringIfPresent(o: map<string, Json>, key: string): (r: Decoded<Option<string>>)
    ensures key !in o || o[key].JNull? ==> r == Ok(None)
    ensures key in o && o[key].JString? ==> r == Ok(Some(o[key].str))
    ensures r.Err? <==> key in o && !o[key].JNull? && !o[key].JString?
    ensures r.Err? ==> r.error == TypeMismatch(key)
  {
    if key !in o || o[key].JNull? then Ok(None)
    else if o[key].JString? then Ok(Some(o[key].str))
    else Err(TypeMismatch(key))
  }

  /** `decodeIfPresent(T.self, forKey: key)` for a nested value with decoder `dec`. */
  function DecodeIfPresent<T>(o: map<string, Json>, key: string, dec: Json -> Decoded<T>): (r: Decoded<Option<T>>)
    ensures key !in o || o[key].JNull? ==> r == Ok(None)
    ensures key in o && !o[key].JNull? ==> (r.Ok? <==> dec(o[key]).Ok?)
    ensures key in o && !o[key].JNull? && r.Ok? ==> r.value == Some(dec(o[key]).value)
    ensures key in o && !o[key].JNull? && r.Err? ==> r.error == dec(o[key]).error
  {
    if key !in o || o[key].JNull? then Ok(None)
    else
      var v :- dec(o[key]);
      Ok(Some(v))
  }

  /** `items[n]` is the first element that `dec` fails on. */
  ghost predicate FirstDecodeError<T>(items: seq<Json>, dec: Json -> Decoded<T>, n: int) {
    0 <= n < |items| && dec(items[n]).Err? && forall i :: 0 <= i < n ==> dec(items[i]).Ok?
  }

  /** Decodes every element in order; the first failing element's error is the result. */
  function DecodeArray<T>(items: seq<Json>, dec: Json -> Decoded<T>): (r: Decoded<seq<T>>)
    ensures r.Ok? <==> forall i :: 0 <= i < |items| ==> dec(items[i]).Ok?
    ensures r.Ok? ==> |r.value| == |items| && forall i :: 0 <= i < |items| ==> dec(items[i]) == Ok(r.value[i])
    ensures r.Err? ==> exists n :: FirstDecodeError(items, dec, n) && r.error == dec(items[n]).error
  {
    if items == [] then Ok([])
    else
      var n := |items| - 1;
      var init := DecodeArray(items[..n], dec);
      assert forall i :: 0 <= i < n ==> items[..n][i] == items[i];
      if init.Err? then
        init.PropagateFailure()
      else if dec(items[n]).Err? then
        assert FirstDecodeError(items, dec, n);
        dec(items[n]).PropagateFailure()
      else
        Ok(init.value + [dec(items[n]).value])
  }

  /** An array of any elements decodes element by element; null is a missing value. */
  function DecodeArrayValue<T>(j: Json, dec: Json -> Decoded<T>): Decoded<seq<T>> {
    if j.JArray? then DecodeArray(j.items, dec)
    else if j.JNull? then Err(ValueNotFound(""))
    else Err(TypeMismatch(""))
  }

  /** Decoding an encoded array gives back the list when each element round-trips. */
  lemma {:induction false} ArrayRoundTrip<T>(xs: seq<T>, f: T -> Json, dec: Json -> Decoded<T>)
    requires forall i :: 0 <= i < |xs| ==> dec(f(xs[i])) == Ok(xs[i])
    ensures DecodeArrayValue(Array(xs, f), dec) == Ok(xs)
  {
    if xs != [] {
      var n := |xs| - 1;
      ArrayRoundTrip(xs[..n], f, dec);
      assert Array(xs, f).items[..n] == Array(xs[..n], f).items;
      assert xs[..n] + [xs[n]] == xs;
    }
  }

  /** `[String: String]`: an object whose values are all strings. */
  predicate AllStrings(o: map<string, Json>) {
    forall k :: k in o ==> o[k].JString?
  }

  function StringMapOf(o: map<string, Json>): (m: map<string, string>)
    requires AllStrings(o)
    ensures m.Keys == o.Keys
  {
    map k | k in o :: o[k].str
  }
}
