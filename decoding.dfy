/** The rules `JSONDecoder` applies when it decodes a `Codable` struct from a JSON
    tree: a required field must be present, not null and of the right type; an
    optional field (`T?`) may be absent or null; arrays and dictionaries decode
    element by element and fail if any element fails; keys the struct does not
    declare are ignored. */
module Decoding {
  import opened Common
  import opened JsonTree

  /** The value under `key`, with an absent key read as null: `JSONDecoder` treats
      the two alike for optional fields and rejects both for required ones. */
  function At(m: map<string, Json>, key: string): (r: Json)
    ensures key !in m ==> r == JNull
  {
    if key in m then m[key] else JNull
  }

  function Str(j: Json): (r: Option<string>)
    ensures r.Some? <==> j.JStr?
  {
    if j.JStr? then Some(j.s) else None
  }

  function Bool(j: Json): (r: Option<bool>)
    ensures r.Some? <==> j.JBool?
  {
    if j.JBool? then Some(j.b) else None
  }

  /** An `Int` field: a number that fits Swift's 64-bit `Int`; `JSONDecoder`
      rejects a number outside that range. */
  function Int(j: Json): (r: Option<int>)
    ensures r.Some? <==> j.JNum? && IntMin <= j.n <= IntMax
    ensures r.Some? ==> r.value == j.n
  {
    if j.JNum? && IntMin <= j.n <= IntMax then Some(j.n) else None
  }

  /** A `Double` field: any number (numbers are integers in this model). */
  function Number(j: Json): (r: Option<int>)
    ensures r.Some? <==> j.JNum?
  {
    if j.JNum? then Some(j.n) else None
  }

  /** `decodeIfPresent`: null (or absent) gives `nil`; anything else must decode. */
  function Optional<T>(j: Json, decode: Json -> Option<T>): (r: Option<Option<T>>)
    ensures j.JNull? ==> r == Some(None)
    ensures !j.JNull? ==> (r.Some? <==> decode(j).Some?)
    ensures !j.JNull? && r.Some? ==> r.value == Some(decode(j).value)
  {
    if j.JNull? then Some(None)
    else match decode(j)
      case None => None
      case Some(x) => Some(Some(x))
  }

  /** `[T]`: every element must decode; order is kept. */
  function Array<T>(j: Json, decode: Json -> Option<T>): (r: Option<seq<T>>)
    ensures r.Some? <==> j.JArr? && forall i :: 0 <= i < |j.items| ==> decode(j.items[i]).Some?
    ensures r.Some? ==> |r.value| == |j.items|
    ensures r.Some? ==> forall i :: 0 <= i < |j.items| ==> r.value[i] == decode(j.items[i]).value
  {
    if j.JArr? && forall i :: 0 <= i < |j.items| ==> decode(j.items[i]).Some? then
      Some(seq(|j.items|, i requires 0 <= i < |j.items| => decode(j.items[i]).value))
    else None
  }

  /** `[String: T]`: every value must decode; the key set is kept. */
  function Dict<T>(j: Json, decode: Json -> Option<T>): (r: Option<map<string, T>>)
    ensures r.Some? <==> j.JObj? && forall k :: k in j.fields ==> decode(j.fields[k]).Some?
    ensures r.Some? ==> r.value.Keys == j.fields.Keys
    ensures r.Some? ==> forall k :: k in j.fields ==> r.value[k] == decode(j.fields[k]).value
  {
    if j.JObj? && forall k :: k in j.fields ==> decode(j.fields[k]).Some? then
      Some(map k | k in j.fields :: decode(j.fields[k]).value)
    else None
  }

  /** The JSON form of a `[String]` that `JSONSerialization` writes. */
  function StringArray(xs: seq<string>): (r: Json)
    ensures r.JArr? && |r.items| == |xs|
    ensures forall i :: 0 <= i < |xs| ==> r.items[i] == JStr(xs[i])
  {
    JArr(seq(|xs|, i requires 0 <= i < |xs| => JStr(xs[i])))
  }

  /** Writing a list of strings and decoding it as `[String]` gives the list back. */
  lemma StringArrayRoundTrip(xs: seq<string>)
    ensures Array(StringArray(xs), Str) == Some(xs)
  {
    var r := Array(StringArray(xs), Str);
    assert r.Some?;
    assert r.value == xs;
  }
}
