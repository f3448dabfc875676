/** `loggingTransport.RoundTrip`: the hook that rewrites the `model` field of
    JSON POST bodies before the request is sent upstream. */
module Transport {
  import opened Results
  import opened Strings
  import opened Json
  import opened Http

  /** The media type whose bodies are considered for rewriting. */
  const JsonMediaType := "application/json"

  /** The content-type test of `RoundTrip`: exactly `application/json`, or
      `application/json;` followed by parameters. Character by character, the
      value starts with `application/json` and either ends there or continues
      with `;`. The comparison is case-sensitive and admits no blank before
      the `;`. */
  predicate IsJsonContentType(ct: string)
    ensures IsJsonContentType(ct)
        <==> HasPrefix(ct, JsonMediaType) && (|ct| == |JsonMediaType| || ct[|JsonMediaType|] == ';')
  {
    ct == JsonMediaType || HasPrefix(ct, JsonMediaType + ";")
  }

  /** Rewriting is attempted only for POST requests with a JSON content type. */
  predicate ShouldRewrite(verb: string, ct: string)
    ensures ShouldRewrite(verb, ct)
        <==> verb == "POST" && HasPrefix(ct, JsonMediaType) && (|ct| == |JsonMediaType| || ct[|JsonMediaType|] == ';')
  {
    verb == "POST" && IsJsonContentType(ct)
  }

  /** The content types of the test table: the bare and charset forms pass,
      `application/jsoninvalid` and a missing header do not, and no method but
      POST passes. */
  lemma GateExamples()
    ensures ShouldRewrite("POST", "application/json")
    ensures ShouldRewrite("POST", "application/json; charset=utf-8")
    ensures !ShouldRewrite("POST", "application/jsoninvalid")
    ensures !ShouldRewrite("POST", "")
    ensures !ShouldRewrite("GET", "application/json")
    ensures !ShouldRewrite("PUT", "application/json")
  {
  }

  /** The top-level `model` field when it holds a string. */
  function ModelName(fields: map<string, Value>): (r: Option<string>)
    ensures r.Some? <==> "model" in fields && fields["model"].String?
    ensures r.Some? ==> fields["model"] == String(r.value)
  {
    if "model" in fields && fields["model"].String? then Some(fields["model"].s) else None
  }

  /** Replaces a mapped `model` name; None when the field is missing, is not a
      string, or names a model the table does not map. */
  function RemapModel(fields: map<string, Value>, table: map<string, string>): (r: Option<map<string, Value>>)
    ensures r.Some? <==> ModelName(fields).Some? && ModelName(fields).value in table
    ensures r.Some? ==> r.value.Keys == fields.Keys
    ensures r.Some? ==> r.value["model"] == String(table[ModelName(fields).value])
    ensures r.Some? ==> forall k :: k in fields && k != "model" ==> r.value[k] == fields[k]
  {
    match ModelName(fields)
    case Some(name) =>
      if name in table then Some(fields["model" := String(table[name])]) else None
    case None => None
  }

  /** The replacement body for a JSON request, or None to keep the original
      bytes: the body must decode to an object whose `model` is mapped, and the
      updated object must encode. */
  function RewriteBody(codec: Codec, table: map<string, string>, body: Bytes): (r: Option<Bytes>)
    ensures r.Some? <==>
      && DecodeObject(codec, body).Some?
      && RemapModel(DecodeObject(codec, body).value, table).Some?
      && codec.marshal(Object(RemapModel(DecodeObject(codec, body).value, table).value)).Some?
    ensures r.Some? ==> r == codec.marshal(Object(RemapModel(DecodeObject(codec, body).value, table).value))
  {
    match DecodeObject(codec, body)
    case None => None
    case Some(fields) =>
      match RemapModel(fields, table)
      case None => None
      case Some(updated) => codec.marshal(Object(updated))
  }

  /** The request handed to the upstream transport. An unreadable body, a
      method or content type that fails the gate, or a body that is not
      rewritten leave the request as it was (the buffered bytes are put back
      unchanged); otherwise the body is replaced and `ContentLength` set to its
      length. */
  function Prepare(codec: Codec, table: map<string, string>, req: Request): (sent: Request)
    ensures sent.verb == req.verb && sent.url == req.url && sent.host == req.host && sent.header == req.header
    ensures !req.body.Readable? ==> sent == req
    ensures !ShouldRewrite(req.verb, ContentType(req)) ==> sent == req
    ensures sent.body != req.body ==> sent.body.Readable? && sent.contentLength == |sent.body.bytes|
    ensures sent.contentLength != req.contentLength ==> sent.body.Readable? && sent.contentLength == |sent.body.bytes|
  {
    match req.body
    case NoBody => req
    case Unreadable(_) => req
    case Readable(body) =>
      if !ShouldRewrite(req.verb, ContentType(req)) then req
      else
        match RewriteBody(codec, table, body)
        case None => req
        case Some(updated) => req.(body := Readable(updated), contentLength := |updated|)
  }

  /** What one call of `RoundTrip` did: either the request the upstream saw
      and what the caller gets back, or a panic in the handler, after which
      the server drops the client's connection and nothing is forwarded. */
  datatype Exchange = Forwarded(sent: Request, outcome: Result<Response, string>) | Crashed

  /** `RoundTrip` exactly as main.go writes it: `io.ReadAll` is called on the
      body with no nil check, so a request without a body panics. */
  function RoundTripAsWritten(codec: Codec, table: map<string, string>,
                              forward: Request -> Result<Response, string>, req: Request): (x: Exchange)
    ensures x.Crashed? <==> req.body.NoBody?
    ensures x.Forwarded? ==> x.sent == Prepare(codec, table, req) && x.outcome == forward(x.sent)
  {
    if req.body.NoBody? then Crashed
    else
      var sent := Prepare(codec, table, req);
      Forwarded(sent, forward(sent))
  }

  /** `RoundTrip` with the upstream transport as a parameter and a nil body
      treated as nothing to rewrite: prepare the request, forward it once, and
      return the upstream's response or error exactly as received. As in
      main.go, an upstream error comes back as `(nil, err)`, that is `Err` with
      no response, and an upstream response comes back unmodified. */
  function RoundTrip(codec: Codec, table: map<string, string>,
                     forward: Request -> Result<Response, string>, req: Request): (x: Exchange)
    ensures x.Forwarded?
    ensures x.outcome == forward(x.sent)
    ensures x.sent == Prepare(codec, table, req)
    ensures req.body.NoBody? ==> x.sent == req
  {
    var sent := Prepare(codec, table, req);
    Forwarded(sent, forward(sent))
  }

  /** The two versions differ only on requests without a body: on every
      request with a body they forward the same request and return the same
      outcome. */
  lemma AsWrittenAgreesWithBody(codec: Codec, table: map<string, string>,
                                forward: Request -> Result<Response, string>, req: Request)
    ensures !req.body.NoBody? ==> RoundTripAsWritten(codec, table, forward, req) == RoundTrip(codec, table, forward, req)
    ensures req.body.NoBody? ==>
      && RoundTripAsWritten(codec, table, forward, req).Crashed?
      && RoundTrip(codec, table, forward, req) == Forwarded(req, forward(req))
  {
  }

  /** The request is rewritten exactly when its body was read, the gate
      passes, and the body has a replacement. */
  predicate Rewrites(codec: Codec, table: map<string, string>, req: Request) {
    && req.body.Readable?
    && ShouldRewrite(req.verb, ContentType(req))
    && RewriteBody(codec, table, req.body.bytes).Some?
  }

  /** Either the replacement body goes out with a matching `ContentLength`, or
      the request goes out exactly as it came in. */
  lemma PrepareCases(codec: Codec, table: map<string, string>, req: Request)
    ensures Rewrites(codec, table, req) ==>
      var updated := RewriteBody(codec, table, req.body.bytes).value;
      Prepare(codec, table, req) == req.(body := Readable(updated), contentLength := |updated|)
    ensures !Rewrites(codec, table, req) ==> Prepare(codec, table, req) == req
  {
  }

  /** A mapped `model` reaches the upstream renamed, with every other
      top-level field as the client sent it, when the codec reads back what it
      writes. */
  lemma MappedModelIsRenamed(codec: Codec, table: map<string, string>, req: Request, fields: map<string, Value>, name: string)
    requires Lawful(codec)
    requires req.body.Readable? && ShouldRewrite(req.verb, ContentType(req))
    requires DecodeObject(codec, req.body.bytes) == Some(fields)
    requires ModelName(fields) == Some(name) && name in table
    requires codec.marshal(Object(fields["model" := String(table[name])])).Some?
    ensures var sent := Prepare(codec, table, req);
      && sent.body.Readable?
      && sent.contentLength == |sent.body.bytes|
      && DecodeObject(codec, sent.body.bytes).Some?
      && var out := DecodeObject(codec, sent.body.bytes).value;
      && ModelName(out) == Some(table[name])
      && out.Keys == fields.Keys
      && forall k :: k in fields && k != "model" ==> out[k] == fields[k]
  {
    var updated := fields["model" := String(table[name])];
    assert RemapModel(fields, table) == Some(updated);
    DecodeEncodedObject(codec, updated);
  }

  /** Fail-open: a body that does not decode to an object, or whose `model` is
      missing, not a string or not mapped, is forwarded byte for byte with its
      `ContentLength` untouched. */
  lemma UnmappedBodyIsForwardedAsIs(codec: Codec, table: map<string, string>, req: Request)
    requires req.body.Readable?
    requires || DecodeObject(codec, req.body.bytes).None?
             || ModelName(DecodeObject(codec, req.body.bytes).value).None?
             || ModelName(DecodeObject(codec, req.body.bytes).value).value !in table
    ensures Prepare(codec, table, req) == req
  {
  }

  /** Fail-open: when the updated object cannot be encoded the original body
      is forwarded. */
  lemma EncodeFailureKeepsBody(codec: Codec, table: map<string, string>, req: Request, fields: map<string, Value>)
    requires req.body.Readable?
    requires DecodeObject(codec, req.body.bytes) == Some(fields)
    requires RemapModel(fields, table).Some?
    requires codec.marshal(Object(RemapModel(fields, table).value)).None?
    ensures Prepare(codec, table, req) == req
  {
  }

  /** The mapping table of the test table. */
  const ExampleTable := map["some-dangerous-model" := "less-safe-model"]

  /** A POST to `/` with the given content type and body. */
  function ExampleRequest(ct: string, body: Bytes): (req: Request)
    ensures ContentType(req) == ct && req.verb == "POST" && req.body == Readable(body)
  {
    Request("POST", Url("http", "example.com", "/", "", ""), "example.com", map["Content-Type" := [ct]], Readable(body), |body|)
  }

  /** The rewriting rows of the test table: with the bare or the charset
      content type the dangerous model goes out as `less-safe-model`. */
  lemma ExampleDangerousModelRenamed(codec: Codec, ct: string, body: Bytes)
    requires Lawful(codec)
    requires ct == "application/json" || ct == "application/json; charset=utf-8"
    requires codec.unmarshal(body) == Some(Object(map["model" := String("some-dangerous-model")]))
    requires codec.marshal(Object(map["model" := String("less-safe-model")])).Some?
    ensures var sent := Prepare(codec, ExampleTable, ExampleRequest(ct, body));
      && sent.body.Readable?
      && DecodeObject(codec, sent.body.bytes) == Some(map["model" := String("less-safe-model")])
  {
    var fields := map["model" := String("some-dangerous-model")];
    GateExamples();
    assert fields["model" := String("less-safe-model")] == map["model" := String("less-safe-model")];
    MappedModelIsRenamed(codec, ExampleTable, ExampleRequest(ct, body), fields, "some-dangerous-model");
    DecodeEncodedObject(codec, map["model" := String("less-safe-model")]);
  }

  /** The non-rewriting rows of the test table: another model, a numeric
      model, no model field, and `application/jsoninvalid` all leave the
      request as it was. */
  lemma ExampleRequestsUnchanged(codec: Codec, ct: string, body: Bytes)
    requires
      || (ct == "application/json" && codec.unmarshal(body) == Some(Object(map["model" := String("some-other-model")])))
      || (ct == "application/json" && codec.unmarshal(body) == Some(Object(map["model" := Number(123.0)])))
      || (ct == "application/json" && codec.unmarshal(body) == Some(Object(map["other_field" := String("some-value")])))
      || (ct == "application/jsoninvalid" && codec.unmarshal(body) == Some(Object(map["model" := String("some-dangerous-model")])))
    ensures Prepare(codec, ExampleTable, ExampleRequest(ct, body)) == ExampleRequest(ct, body)
  {
    GateExamples();
  }
}
