/**
 * The JSON library the client calls (MultiJson) is foreign code. The model
 * keeps only its interface: a value domain, a serializer that always
 * produces text, and a parser that may reject its input.
 */
module Json {
  import opened Wrappers
  import opened Text

  datatype Value =
    | Null
    | Bool(b: bool)
    | Number(n: real)
    | Str(s: string)
    | Array(items: seq<Value>)
    | Object(members: seq<(string, Value)>)

  /** `MultiJson.encode` and `MultiJson.decode`; `None` stands for a raised parse error. */
  datatype Codec = Codec(encode: Value -> Bytes, decode: Bytes -> Option<Value>)

  /**
   * Parsing what the library serialized gives `v` back. This is a property of
   * one value, not of the whole domain: numbers and objects with repeated
   * keys need not survive a round trip.
   */
  predicate RoundTripsOn(c: Codec, v: Value) {
    c.decode(c.encode(v)) == Some(v)
  }
}
