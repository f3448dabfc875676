# llm-proxy: request rewriting, modelled in Dafny

llm-proxy is a reverse proxy between an LLM client and an upstream LLM API.
Before a request is forwarded, its transport (`loggingTransport.RoundTrip`)
may rename the model the client asked for: a POST whose `Content-Type` is
`application/json` (optionally followed by `;` and parameters) is decoded as a
JSON object, and a string `model` field that appears in the mapping table is
replaced by the mapped name. The object is re-encoded and `ContentLength` is
set to the new length. Every other case forwards the original bytes. The
mapping table comes from `--model FROM=TO` arguments. The Director sends each
request to the target's base path followed by the client's path.

The model is a set of pure functions over immutable data:

- `results.dfy` (`Results`): `Option` and `Result`.
- `strings.dfy` (`Strings`): `HasPrefix`, `IndexOf` and `SplitFirst`, which is `strings.SplitN(s, "=", 2)`.
- `json.dfy` (`Json`): the JSON value datatype. The encoder and decoder are opaque functions in a `Codec`. `DecodeObject` is `json.Unmarshal` into a `map[string]interface{}`.
- `http.dfy` (`Http`): requests, responses, headers and `Header.Get`.
- `mapping.dfy` (`ModelMapping`): parsing the `--model` arguments and the start-up checks of `Handle`.
- `transport.dfy` (`Transport`): the content-type and method gate, the remapper, the prepared request and `RoundTrip`.
- `proxy.dfy` (`Proxy`): the reverse proxy's outbound copy, the Director, and both followed by the transport.

Forwarding is a parameter `forward: Request -> Result<Response, string>`.
An `Err` stands for Go's `(nil, err)`. Where a property needs the decoder to
read back what the encoder wrote, the lemma assumes `Lawful(codec)`.

As written, `RoundTrip` reads the body without checking for a nil body, and
every request without a body crashes the handler (see "## Findings").
`RoundTripAsWritten` and `ServeAsWritten` model that. `RoundTrip` and `Serve`
are the guarded versions, which forward such a request unchanged. The rest of
the model uses the guarded versions.

## Model

| member | source | states |
|---|---|---|
| Strings.HasPrefix | main.go:120 | `strings.HasPrefix`: the string is at least as long as the prefix and agrees with it at every position of the prefix, in both directions |
| Strings.IndexOf | main.go:65 | the result is -1 exactly when the separator is absent; otherwise it is the position of its first occurrence |
| Strings.IndexOfJoin | main.go:65 | in `FROM=TO` with `=`-free `FROM`, the first `=` is the one right after `FROM` |
| Strings.SplitFirst | main.go:65 | one part (the whole string) when `=` is absent; otherwise two parts that rejoin with `=` to the argument, the first part free of `=` |
| Strings.SplitFirstOfJoin | main.go:65 | splitting `FROM=TO` with `=`-free `FROM` gives back `FROM` and `TO`, even when `TO` contains `=` |
| ModelMapping.ParseMapping | main.go:65-68 | an argument parses exactly when it contains `=`; the parts rejoin to the argument; the error names the argument |
| ModelMapping.ParseMappingRoundTrip | main.go:65-69 | parsing the text `FROM=TO` of a mapping whose `FROM` has no `=` returns that mapping |
| ModelMapping.ParseMappings | main.go:63-70 | the argument list yields a table exactly when every argument contains `=` |
| ModelMapping.SourcesAreKeys | main.go:63-70 | every argument's `FROM` is a key of the table |
| ModelMapping.KeysAreSources | main.go:63-70 | every key of the table is the `FROM` of some argument |
| ModelMapping.LastOccurrenceWins | main.go:69 | a repeated `FROM` maps to the `TO` of its last occurrence |
| ModelMapping.FirstInvalidReported | main.go:64-68 | the error reports the first argument without `=`, whatever follows it |
| ModelMapping.BuildModelMap | main.go:63-70 | the loop returns the table, or the error of the first bad argument, and succeeds exactly when every argument contains `=` |
| ModelMapping.Configure | main.go:56-70 | an empty base URL is an error checked before the mappings; an empty port becomes 8080; otherwise the outcome is the outcome of parsing the mappings |
| ModelMapping.ConfigureReportsMappings | main.go:63-68 | with a base URL given, start-up reports the first argument without `=` |
| Json.DecodeObject | main.go:121-122 | decoding into a map succeeds for an object (its fields) and for `null` (an empty map), and fails for every other value |
| Json.DecodeEncodedObject | main.go:122-126 | with a lawful codec, the encoded object decodes back to the same fields |
| Http.HeaderGet | main.go:119 | the first value stored under the name; "" when the header is absent |
| Http.ContentType | main.go:119 | `req.Header.Get("Content-Type")`: the first value stored under `Content-Type`, and "" when the header is absent or holds no value |
| Transport.IsJsonContentType | main.go:120 | the content type passes exactly when it starts with `application/json` and either ends there or continues with `;`, so the charset form passes and `application/jsoninvalid` does not |
| Transport.ShouldRewrite | main.go:120 | the gate passes exactly when the method is POST and the content type starts with `application/json` and either ends there or continues with `;` |
| Transport.GateExamples | main.go:120 | the bare and charset JSON types pass for POST; `application/jsoninvalid`, a missing header and any other method fail |
| Transport.ModelName | main.go:123 | a name is found exactly when `model` is present and holds a string, and it is that string |
| Transport.RemapModel | main.go:123-125 | a remap happens exactly when the string `model` is a key of the table; the result has the same keys, `model` holds the mapped name, and every other field is unchanged |
| Transport.RewriteBody | main.go:121-127 | a replacement exists exactly when the body decodes to a map, the model is mapped and the re-encoding succeeds; it is the encoding of the remapped object |
| Transport.Prepare | main.go:110-134 | method, URL, host and headers are never changed; an unreadable body or a failed gate forwards the request as is; a body or length that differs from the client's is a readable body whose length `ContentLength` equals |
| Transport.PrepareCases | main.go:119-134 | when a replacement exists, the request goes out with that body and its length; otherwise it goes out exactly as it came in, `ContentLength` included |
| Transport.MappedModelIsRenamed | main.go:121-129 | with a lawful codec, a mapped model arrives upstream renamed, with the same keys and every other top-level field unchanged, and with `ContentLength` equal to the new body's length |
| Transport.UnmappedBodyIsForwardedAsIs | main.go:115-124 | a body that is not an object, or whose `model` is missing, not a string or unmapped, is forwarded byte for byte with its length untouched |
| Transport.EncodeFailureKeepsBody | main.go:126-130 | if re-encoding fails, the original request is forwarded |
| Transport.RoundTripAsWritten | main.go:107-145 | as written: the handler panics exactly when the request has no body; otherwise the caller receives what the upstream returned for the prepared request |
| Transport.RoundTrip | main.go:107-145 | with the nil body guarded: every request is forwarded, a bodiless one unchanged, and the caller receives exactly what the upstream returned for the prepared request |
| Transport.AsWrittenAgreesWithBody | main.go:110-145 | the two versions agree on every request that has a body; without one, the handler in main.go panics and the guarded version forwards the request unchanged |
| Transport.ExampleDangerousModelRenamed | main_test.go:44-57 | with the bare or charset JSON type, `some-dangerous-model` reaches the upstream as `less-safe-model` |
| Transport.ExampleRequestsUnchanged | main_test.go:58-85 | another model, a numeric model, a missing model and `application/jsoninvalid` all forward the request unchanged |
| Proxy.UpstreamPath | main.go:94 | the upstream path is the base path followed by the client path, with nothing added or removed between them |
| Proxy.UpstreamPathInjective | main.go:94 | different client paths never map to the same upstream path |
| Proxy.UpstreamPathExamples | main.go:94 | an empty base keeps the client path; a trailing slash in the base gives a double slash |
| Proxy.Direct | main.go:90-95 | scheme and host come from the target; the path is joined; the escaped path, query, method, headers, body and length are the client's |
| Proxy.Outbound | main.go:89 | the reverse proxy gives a request with `ContentLength` 0 a nil body and leaves every other request as it is |
| Proxy.ServeAsWritten | main.go:88-99 | as written: the exchange crashes exactly when the request has no body or a zero `ContentLength`; otherwise the upstream sees the joined path and the caller gets its outcome |
| Proxy.BodilessRequestCrashes | main.go:110 | as written, `GET /v1/models` crashes the handler instead of reaching the upstream |
| Proxy.Serve | main.go:88-99 | with the nil body guarded: every request is forwarded, the upstream sees the joined path and the target host, and the reverse proxy (the caller of the transport, not the client) gets the upstream's outcome; an `Err` becomes the reverse proxy's 502 reply, which is not modelled |
| Proxy.ServeForwardsBodilessRequests | main.go:88-99 | with the guard, a request without a body reaches the upstream directed, with no body and otherwise unchanged |
| Proxy.ServeRewritesLikeClientRequest | main.go:88-99 | the Director does not change whether or how the body is rewritten |

## Left out

- Flag parsing, help text, `url.Parse` of the base URL, `ListenAndServe` and handler registration (main.go:19-55, 72-85). These are library calls and I/O. `Configure` starts from the already-parsed flag values, and the target URL is a parameter of `Serve`.
- Logging and timing (main.go:108, 112, 117, 141-142). They are diagnostic only.
- The byte-level behaviour of `encoding/json`. Field order, whitespace and escaping are not modelled. Numbers are decoded into float64 and re-encoded, so a large integer can change on a rewritten body. `Number` holds a `real`, and this rounding is not modelled.
- `http.DefaultTransport` and the `transport()` fallback (main.go:147-152). Forwarding is the `forward` parameter.
- The read-error path (main.go:110-114), for a body that exists but fails to read, is modelled only as forwarding the request unchanged. How much of the stream was consumed is not modelled.
- What `httputil.ReverseProxy` does beyond making the outbound copy (`Outbound`: a zero `ContentLength` gives a nil body), calling the Director and then the transport, such as hop-by-hop header removal, `X-Forwarded-For`, and the 502 reply its error handler sends the client when the transport returns an error. This is library code.
- Proxy.Direct: does not model how `net/url` escapes the path sent upstream. The Director changes `Path` but leaves the client's `RawPath`, which the contract states. When the base path is non-empty, that `RawPath` no longer encodes `Path`, so the request line is re-escaped from `Path`. A client path `/a%2Fb` then reaches the upstream as `/base/a/b`; with an empty base it stays `/a%2Fb`.
- `Header.Get` canonicalises the header name. The model looks up the exact name `Content-Type`, and assumes stored names are already canonical.
- Header values, arguments, paths and JSON strings are modelled as sequences of characters, while Go's strings are byte strings. Every operation used here gives the same answer under a one-byte-per-character reading: equality, a prefix test against an ASCII literal, and the position of the ASCII `=`.
- `ContentLength` is Go's `int64`. It is modelled as an unbounded `int`, because a body length always fits.
- Response post-processing. `RoundTrip` in main.go returns the upstream response untouched.

## Findings

| source | as written | input that shows it | evidently intended | confidence | as-written member | corrected member |
|---|---|---|---|---|---|---|
| main.go:110 | `io.ReadAll(req.Body)` is called with no nil check. `httputil.ReverseProxy` gives the outbound request a nil `Body` whenever `ContentLength` is 0, and reading a nil body panics, so the handler crashes and the client's connection is dropped | `GET /v1/models`, or a POST with `Content-Length: 0` | a request without a body is forwarded unchanged, since there is nothing to rewrite | medium: follows from the documented behaviour of `net/http/httputil` and `io`; not executed | Proxy.ServeAsWritten (shown by Proxy.BodilessRequestCrashes) | Proxy.Serve (proved by Proxy.ServeForwardsBodilessRequests) |
