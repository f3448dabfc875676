/** An abstract JSON document and the two `encoding/json` calls the proxy
    makes. The byte-level encoder and decoder are not modelled: a `Codec`
    carries them as opaque functions. */
module Json {
  import opened Results

  /** One octet of a request body. */
  newtype byte = b: int | 0 <= b < 256

  type Bytes = seq<byte>

  /** A decoded JSON value, as `encoding/json` produces it for an
      `interface{}` target: null, bool, float64, string, []interface{},
      map[string]interface{}. */
  datatype Value =
    | Null
    | Bool(b: bool)
    | Number(n: real)
    | String(s: string)
    | Array(items: seq<Value>)
    | Object(fields: map<string, Value>)

  /** `json.Unmarshal` (None on a syntax error) and `json.Marshal` (None when
      encoding fails), both left opaque. */
  datatype Codec = Codec(unmarshal: Bytes -> Option<Value>, marshal: Value -> Option<Bytes>)

  /** A codec whose decoder reads back exactly what its encoder wrote. */
  ghost predicate Lawful(codec: Codec) {
    forall v :: codec.marshal(v).Some? ==> codec.unmarshal(codec.marshal(v).value) == Some(v)
  }

  /** `json.Unmarshal(body, &data)` with `data` of type
      `map[string]interface{}`: an object gives its fields, `null` leaves the
      map nil (which reads as empty), anything else is an error. */
  function DecodeObject(codec: Codec, body: Bytes): (r: Option<map<string, Value>>)
    ensures r.Some? <==> codec.unmarshal(body).Some? && (codec.unmarshal(body).value.Object? || codec.unmarshal(body).value.Null?)
    ensures r.Some? && codec.unmarshal(body).value.Object? ==> r.value == codec.unmarshal(body).value.fields
    ensures r.Some? && codec.unmarshal(body).value.Null? ==> r.value == map[]
  {
    match codec.unmarshal(body)
    case Some(Object(fields)) => Some(fields)
    case Some(Null) => Some(map[])
    case _ => None
  }

  /** Encoding an object with a lawful codec and decoding the bytes into a
      map gives back the same fields. */
  lemma DecodeEncodedObject(codec: Codec, fields: map<string, Value>)
    requires Lawful(codec)
    requires codec.marshal(Object(fields)).Some?
    ensures DecodeObject(codec, codec.marshal(Object(fields)).value) == Some(fields)
  {
  }
}
