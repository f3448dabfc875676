/** `newProxy`: the Director that points each request at the upstream, and
    the order in which the reverse proxy applies it and the transport. */
module Proxy {
  import opened Results
  import opened Json
  import opened Http
  import opened Transport

  /** The upstream path: the target's base path with the client's path
      appended, with no slash added, removed or merged. */
  function UpstreamPath(base: string, path: string): (r: string)
    ensures |r| == |base| + |path|
    ensures r[..|base|] == base && r[|base|..] == path
  {
    base + path
  }

  /** Splitting the upstream path at the base's length recovers the client's
      path, so two client paths never reach the same upstream path. */
  lemma UpstreamPathInjective(base: string, p1: string, p2: string)
    requires UpstreamPath(base, p1) == UpstreamPath(base, p2)
    ensures p1 == p2
  {
    assert p1 == UpstreamPath(base, p1)[|base|..];
  }

  /** Path joining as written: an empty base keeps the client's path, and
      a base with a trailing slash doubles the slash. */
  lemma UpstreamPathExamples()
    ensures UpstreamPath("", "/v1/chat") == "/v1/chat"
    ensures UpstreamPath("/api", "/v1/chat") == "/api/v1/chat"
    ensures UpstreamPath("/api/", "/v1/chat") == "/api//v1/chat"
  {
  }

  /** The Director: scheme, URL host and `Host` come from the target, the path
      is joined, and the rest of the request (escaped path, query, method,
      headers, body, length) is the client's. The target's own query is not
      used, and the client's `rawPath` is left as it was although `path`
      changed. */
  function Direct(target: Url, req: Request): (out: Request)
    ensures out.url.scheme == target.scheme && out.url.host == target.host && out.host == target.host
    ensures out.url.path == UpstreamPath(target.path, req.url.path)
    ensures out.url.rawPath == req.url.rawPath && out.url.rawQuery == req.url.rawQuery
    ensures out.verb == req.verb && out.header == req.header
    ensures out.body == req.body && out.contentLength == req.contentLength
  {
    req.(url := req.url.(scheme := target.scheme, host := target.host, path := target.path + req.url.path),
         host := target.host)
  }

  /** The outbound copy the reverse proxy makes before calling the Director: a
      request whose `ContentLength` is 0 gets a nil body. */
  function Outbound(req: Request): (out: Request)
    ensures out.body.NoBody? <==> req.contentLength == 0 || req.body.NoBody?
    ensures req.contentLength != 0 ==> out == req
    ensures out == req.(body := out.body)
  {
    if req.contentLength == 0 then req.(body := NoBody) else req
  }

  /** One proxied exchange as main.go wires it: the outbound copy, the
      Director, then `RoundTrip` as written. */
  function ServeAsWritten(codec: Codec, table: map<string, string>, target: Url,
                          forward: Request -> Result<Response, string>, req: Request): (x: Exchange)
    ensures x.Crashed? <==> req.contentLength == 0 || req.body.NoBody?
    ensures x.Forwarded? ==> x.sent.url.path == UpstreamPath(target.path, req.url.path) && x.outcome == forward(x.sent)
  {
    RoundTripAsWritten(codec, table, forward, Direct(target, Outbound(req)))
  }

  /** The defect: every request without a body, such as `GET /v1/models`,
      makes the handler panic instead of reaching the upstream. */
  lemma BodilessRequestCrashes(codec: Codec, table: map<string, string>, target: Url,
                               forward: Request -> Result<Response, string>, header: Header)
    ensures ServeAsWritten(codec, table, target, forward,
              Request("GET", Url("", "", "/v1/models", "", ""), "proxy", header, Readable([]), 0)).Crashed?
  {
  }

  /** One proxied exchange with the nil body guarded: the outbound copy, the
      Director, then the rewriting transport. */
  function Serve(codec: Codec, table: map<string, string>, target: Url,
                 forward: Request -> Result<Response, string>, req: Request): (x: Exchange)
    ensures x.Forwarded?
    ensures x.sent.url.path == UpstreamPath(target.path, req.url.path)
    ensures x.sent.url.host == target.host && x.sent.host == target.host
    ensures x.outcome == forward(x.sent)
  {
    RoundTrip(codec, table, forward, Direct(target, Outbound(req)))
  }

  /** Every request reaches the upstream; one without a body goes out
      directed but otherwise untouched, with no body. */
  lemma ServeForwardsBodilessRequests(codec: Codec, table: map<string, string>, target: Url,
                                      forward: Request -> Result<Response, string>, req: Request)
    requires req.contentLength == 0 || req.body.NoBody?
    ensures var x := Serve(codec, table, target, forward, req);
      && x.Forwarded?
      && x.sent == Direct(target, req).(body := NoBody)
      && x.outcome == forward(x.sent)
  {
  }

  /** Pointing the request at the upstream does not change whether, or how,
      its body is rewritten: the decision depends only on what the client
      sent, once the reverse proxy has dropped an empty body. */
  lemma ServeRewritesLikeClientRequest(codec: Codec, table: map<string, string>, target: Url,
                                       forward: Request -> Result<Response, string>, req: Request)
    ensures var x := Serve(codec, table, target, forward, req);
      var client := Outbound(req);
      && (Rewrites(codec, table, client) ==>
            var updated := RewriteBody(codec, table, client.body.bytes).value;
            x.sent.body == Readable(updated) && x.sent.contentLength == |updated|)
      && (!Rewrites(codec, table, client) ==>
            x.sent.body == client.body && x.sent.contentLength == req.contentLength)
  {
  }
}
