/** The parts of `net/http` requests and responses that the proxy reads or
    writes. */
module Http {
  import opened Results
  import opened Json

  /** Header fields by canonical name; a name may carry several values. */
  type Header = map<string, seq<string>>

  /** `Header.Get`: the first value stored under `name`, or "" when there is
      none. Names are assumed already in canonical form. */
  function HeaderGet(h: Header, name: string): (v: string)
    ensures name !in h ==> v == ""
    ensures name in h && |h[name]| > 0 ==> v == h[name][0]
    ensures v != "" ==> name in h && v in h[name]
  {
    if name in h && |h[name]| > 0 then h[name][0] else ""
  }

  /** The fields of a `url.URL` the proxy touches. `rawPath` is the escaped
      form of `path` the client sent ("" when the default escaping gives it). */
  datatype Url = Url(scheme: string, host: string, path: string, rawPath: string, rawQuery: string)

  /** A request body: absent (Go's nil `Body`, as for a GET), or, as
      `io.ReadAll` sees it, the whole content or a read error. */
  datatype Body = NoBody | Readable(bytes: Bytes) | Unreadable(readError: string)

  /** An outbound request: method (`verb`), URL, `Host`, headers, body and the
      `ContentLength` field (-1 when unknown). */
  datatype Request = Request(
    verb: string,
    url: Url,
    host: string,
    header: Header,
    body: Body,
    contentLength: int)

  /** The upstream's answer; the proxy passes it on without looking inside. */
  datatype Response = Response(status: int, header: Header, body: Bytes, contentLength: int)

  /** The request's `Content-Type` header, "" when absent. */
  function ContentType(req: Request): (ct: string)
    ensures "Content-Type" !in req.header ==> ct == ""
    ensures "Content-Type" in req.header && |req.header["Content-Type"]| == 0 ==> ct == ""
    ensures "Content-Type" in req.header && |req.header["Content-Type"]| > 0 ==> ct == req.header["Content-Type"][0]
  {
    HeaderGet(req.header, "Content-Type")
  }
}
