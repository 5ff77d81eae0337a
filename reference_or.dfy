/**
 * The Reference Object of AsyncAPI 3.0.0: a field that holds either a
 * pointer string into a document or an inline value, with the ordered
 * three-way decode of Sources/AsyncAPIGenerator/ReferenceOr.swift.
 */
module References {
  import opened Wrappers
  import opened JsonValue

  datatype ReferenceOr<T> = Reference(ref: string) | Value(value: T)

  const RefKey := "$ref"

  /** The pointer to the channel under `key`, built by plain concatenation (no pointer escaping). */
  function ChannelRef(key: string): (r: string)
    ensures |r| == |key| + 11 && r[11..] == key
  {
    "#/channels/" + key
  }

  /** The second shape: an object of strings only, one of them under `$ref`. */
  predicate IsRefObject(j: Json) {
    j.JObject? && AllStrings(j.fields) && RefKey in j.fields
  }

  /**
   * `init(from:)`: a bare string is a reference; else an all-string object
   * that has `$ref` is a reference to that entry; else the value's own decoder decides.
   */
  function Decode<T>(j: Json, decodeValue: Json -> Decoded<T>): Decoded<ReferenceOr<T>> {
    if j.JString? then Ok(Reference(j.str))
    else if IsRefObject(j) then Ok(Reference(j.fields[RefKey].str))
    else
      var v :- decodeValue(j);
      Ok(Value(v))
  }

  /** `encode(to:)`: a reference is the one-entry object `{"$ref": r}`; a value is encoded unchanged. */
  function Encode<T>(r: ReferenceOr<T>, encodeValue: T -> Json): Json {
    match r
    case Reference(ref) => JObject(map[RefKey := JString(ref)])
    case Value(v) => encodeValue(v)
  }

  /** A list of references-or-values, encoded element by element. */
  function EncodeArray<T>(xs: seq<ReferenceOr<T>>, encodeValue: T -> Json): Json {
    Array(xs, (r: ReferenceOr<T>) => Encode(r, encodeValue))
  }

  // ---------------------------------------------------------------------------
  // Decoding, shape by shape.
  // ---------------------------------------------------------------------------

  /** A bare string is always a reference, even when `T` itself could be decoded from it. */
  lemma DecodeBareString<T>(s: string, decodeValue: Json -> Decoded<T>)
    ensures Decode(JString(s), decodeValue) == Ok(Reference(s))
  {
  }

  /** An all-string object carrying `$ref` is a reference to that entry, whatever else it holds. */
  lemma DecodeRefObject<T>(o: map<string, Json>, decodeValue: Json -> Decoded<T>)
    requires AllStrings(o) && RefKey in o
    ensures Decode(JObject(o), decodeValue) == Ok(Reference(o[RefKey].str))
  {
  }

  /**
   * Any other input is decoded as a value: decode fails exactly when the
   * value decoder fails, with the value decoder's error.
   */
  lemma DecodeFallsThrough<T>(j: Json, decodeValue: Json -> Decoded<T>)
    requires !j.JString? && !IsRefObject(j)
    ensures decodeValue(j).Ok? ==> Decode(j, decodeValue) == Ok(Value(decodeValue(j).value))
    ensures decodeValue(j).Err? ==> Decode(j, decodeValue) == Err(decodeValue(j).error)
  {
  }

  /** Decoding fails only when the value decoder fails, and then with its error. */
  lemma DecodeFailsOnlyThroughValue<T>(j: Json, decodeValue: Json -> Decoded<T>)
    ensures Decode(j, decodeValue).Err? <==>
      !j.JString? && !IsRefObject(j) && decodeValue(j).Err?
    ensures Decode(j, decodeValue).Err? ==> Decode(j, decodeValue).error == decodeValue(j).error
  {
  }

  // ---------------------------------------------------------------------------
  // Encoding and the round trips.
  // ---------------------------------------------------------------------------

  /** A reference encodes to exactly one key, `$ref`, holding the pointer string. */
  lemma EncodeReferenceShape<T>(r: string, encodeValue: T -> Json)
    ensures var j := Encode(ReferenceOr<T>.Reference(r), encodeValue);
      j.JObject? && j.fields.Keys == {RefKey} && j.fields[RefKey] == JString(r)
  {
  }

  /** A value encodes to the value's own encoding, unchanged. */
  lemma EncodeValueUnchanged<T>(v: T, encodeValue: T -> Json)
    ensures Encode(Value(v), encodeValue) == encodeValue(v)
  {
  }

  /** Every reference round-trips, whatever the value type and its codec. */
  lemma ReferenceRoundTrip<T>(r: string, encodeValue: T -> Json, decodeValue: Json -> Decoded<T>)
    ensures Decode(Encode(Reference(r), encodeValue), decodeValue) == Ok(Reference(r))
  {
    var j := Encode(ReferenceOr<T>.Reference(r), encodeValue);
    assert IsRefObject(j);
  }

  /**
   * A value round-trips exactly when its encoding is neither a bare string nor
   * an all-string object holding `$ref`, and the value's own codec round-trips on it.
   */
  lemma ValueRoundTrip<T>(v: T, encodeValue: T -> Json, decodeValue: Json -> Decoded<T>)
    ensures Decode(Encode(Value(v), encodeValue), decodeValue) == Ok(Value(v)) <==>
      && !encodeValue(v).JString?
      && !IsRefObject(encodeValue(v))
      && decodeValue(encodeValue(v)) == Ok(v)
  {
    var j := encodeValue(v);
    if j.JString? || IsRefObject(j) {
      assert Decode(j, decodeValue).value.Reference?;
    } else if decodeValue(j).Ok? {
      assert Decode(j, decodeValue) == Ok(Value(decodeValue(j).value));
    }
  }

  /** Corollary: when the value codec round-trips and its encodings are never reference-shaped, so does this one. */
  lemma RoundTrip<T>(x: ReferenceOr<T>, encodeValue: T -> Json, decodeValue: Json -> Decoded<T>)
    requires x.Value? ==> !encodeValue(x.value).JString? && !IsRefObject(encodeValue(x.value))
    requires x.Value? ==> decodeValue(encodeValue(x.value)) == Ok(x.value)
    ensures Decode(Encode(x, encodeValue), decodeValue) == Ok(x)
  {
    match x
    case Reference(r) => ReferenceRoundTrip(r, encodeValue, decodeValue);
    case Value(v) => ValueRoundTrip(v, encodeValue, decodeValue);
  }
}
