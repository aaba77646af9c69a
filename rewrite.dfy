/**
 * RewriteHTTP: builds the outbound request from the inbound one (the director),
 * and, once the backend has answered, passes its headers and trailers on to the
 * client. The network round trip, the body copy, Flush and WriteHeader are not
 * modelled; the backend's answer is an input.
 */
module Rewrite {
  import opened Wrappers
  import opened Text
  import opened Http
  import opened Director
  import opened HeaderOps

  const BadGateway: int := 502
  const UserAgent: string := "User-Agent"
  const TrailerKey: string := "Trailer"

  /**
   * The URL part of the director, on the URL shared by both requests: the target
   * comes from the Host value and the URL's own host, then scheme, host, path and
   * query are rewritten towards it.
   */
  method RewriteUrl(u: Url, host: string, mapping: Mapping)
    modifies u
    ensures u.Parts() == Directed(host, old(u.Parts()), mapping)
  {
    var target := ParseTarget(TargetHost(host, u.host, mapping));
    PointAt(u, target);
    u.rawQuery := MergeQuery(target.rawQuery, u.rawQuery);
  }

  /** The outbound URL takes the target's host, over http, with the target's path joined in front of its own. */
  method PointAt(u: Url, target: Target)
    modifies u
    ensures u.Parts() == UrlParts("http", target.host, SingleJoiningSlash(target.path, old(u.path)), old(u.rawQuery))
  {
    u.scheme := "http";
    u.host := target.host;
    u.path := SingleJoiningSlash(target.path, u.path);
  }

  /** An absent User-Agent is set to "", so that the transport does not add its own. */
  function WithUserAgent(h: HeaderMap): HeaderMap
  {
    if UserAgent in h then h else h[UserAgent := [""]]
  }

  /** The default adds User-Agent when it is missing and changes nothing else. */
  lemma WithUserAgentEffect(h: HeaderMap)
    ensures UserAgent in WithUserAgent(h) && WithUserAgent(h).Keys == h.Keys + {UserAgent}
    ensures forall k :: k in h ==> WithUserAgent(h)[k] == h[k]
    ensures UserAgent !in h ==> WithUserAgent(h)[UserAgent] == [""]
  {
  }

  /** The header the outbound request carries: a fresh copy of the inbound one, sanitised, then X-Forwarded-For added. */
  function OutboundHeader(inbound: HeaderMap, clientIP: Option<string>): HeaderMap
  {
    Forwarded(Sanitized(Copied(map[], inbound)), clientIP)
  }

  /**
   * The director part of RewriteHTTP. `*outreq = *r` shares the URL and the header
   * with the inbound request, so the URL rewrite and the User-Agent default also
   * change `r`, and the Host fallback reads the URL host after it was rewritten.
   * The outbound request then gets a header of its own: a copy of the inbound one,
   * sanitised and with X-Forwarded-For added.
   */
  method Direct(r: Request, mapping: Mapping) returns (out: Request)
    modifies r.url, r.header
    ensures fresh(out) && fresh(out.header) && out.url == r.url
    ensures r.url.Parts() == Directed(r.host, old(r.url.Parts()), mapping)
    ensures out.host == if r.host == "" then r.url.host else r.host
    ensures r.header.entries == WithUserAgent(old(r.header.entries))
    ensures out.header.entries == OutboundHeader(r.header.entries, r.remoteIP)
    ensures out.httpMethod == r.httpMethod && out.remoteIP == r.remoteIP && !out.close
  {
    out := DirectUrl(r, mapping);
    ReplaceHeader(out, r.header);
  }

  /** The director up to `outreq.Close = false`: the URL, the Host fallback and the User-Agent default. */
  method DirectUrl(r: Request, mapping: Mapping) returns (out: Request)
    modifies r.url, r.header
    ensures fresh(out) && out.url == r.url && out.header == r.header
    ensures r.url.Parts() == Directed(r.host, old(r.url.Parts()), mapping)
    ensures out.host == if r.host == "" then r.url.host else r.host
    ensures r.header.entries == WithUserAgent(old(r.header.entries))
    ensures out.httpMethod == r.httpMethod && out.remoteIP == r.remoteIP && !out.close
  {
    out := new Request.ShallowCopy(r);
    RewriteUrl(out.url, r.host, mapping);
    DefaultHost(out);
    DefaultUserAgent(out.header);
    out.close := false;
  }

  /** An empty Host falls back to the host of the (already rewritten) URL. */
  method DefaultHost(out: Request)
    modifies out
    ensures out.host == if old(out.host) == "" then out.url.host else old(out.host)
    ensures out.header == old(out.header) && out.close == old(out.close)
  {
    if out.host == "" {
      out.host := out.url.host;
    }
  }

  /** An absent User-Agent is set to "", so that the transport does not add its own. */
  method DefaultUserAgent(h: Header)
    modifies h
    ensures h.entries == WithUserAgent(old(h.entries))
  {
    if UserAgent !in h.entries {
      h.Set(UserAgent, "");
    }
  }

  /** The end of the director: a new header for `out`, copied from `inbound`, sanitised, with X-Forwarded-For. */
  method ReplaceHeader(out: Request, inbound: Header)
    modifies out
    ensures fresh(out.header) && out.host == old(out.host) && out.close == old(out.close)
    ensures out.header.entries == OutboundHeader(old(inbound.entries), out.remoteIP)
  {
    out.header := new Header();
    CopyHeader(out.header, inbound);
    RemoveHeaders(out.header);
    AddXForwardedForHeader(out);
  }

  /**
   * No hop-by-hop header with a value reaches the backend, and neither does any
   * header the inbound Connection header names (X-Forwarded-For aside, which the
   * proxy sets afresh); every other inbound header is forwarded unchanged.
   */
  lemma OutboundHeaderFiltered(inbound: HeaderMap, clientIP: Option<string>)
    requires forall k :: k in inbound ==> inbound[k] != []
    ensures forall j :: 0 <= j < |HopHeaders| ==> FirstValue(OutboundHeader(inbound, clientIP), HopHeaders[j]) == ""
    ensures forall t :: t in ConnectionTokens(inbound) && t != XForwardedFor ==> t !in OutboundHeader(inbound, clientIP)
    ensures forall k :: k in inbound && k != XForwardedFor && k !in ConnectionTokens(inbound) && k !in HopHeaders
                        ==> k in OutboundHeader(inbound, clientIP) && OutboundHeader(inbound, clientIP)[k] == inbound[k]
  {
    CopiedIntoEmpty(inbound);
    SanitizedEffect(inbound);
    forall j | 0 <= j < |HopHeaders|
      ensures FirstValue(OutboundHeader(inbound, clientIP), HopHeaders[j]) == ""
    {
      assert HopHeaders[j] != XForwardedFor;
    }
  }

  /** The client's header after the announcement: a Trailer value listing `names`, joined by ", ", when there are any. */
  function Announced(h: HeaderMap, names: seq<string>): HeaderMap
  {
    if names == [] then h else h[TrailerKey := Values(h, TrailerKey) + [Join(names, ", ")]]
  }

  /**
   * The response part of RewriteHTTP: sanitise the backend's header, copy it to
   * the client, announce the trailer names when there are trailers, and, after the
   * body, copy the trailer values. `bodyTrailer` holds the trailer values the
   * backend sent after its body.
   */
  method CopyResponse(rw: Header, res: Response, bodyTrailer: HeaderMap) returns (names: seq<string>)
    requires rw != res.header
    modifies rw, res.header
    ensures res.header.entries == Sanitized(old(res.header.entries))
    ensures forall i :: 0 <= i < |names| ==> names[i] in res.trailer
    ensures forall k :: k in res.trailer ==> k in names
    ensures forall i, j :: 0 <= i < j < |names| ==> names[i] != names[j]
    ensures rw.entries == Copied(Announced(Copied(old(rw.entries), res.header.entries), names), bodyTrailer)
  {
    RemoveHeaders(res.header);
    CopyHeader(rw, res.header);
    names := [];
    if |res.trailer| > 0 {
      names := TrailerNames(res.trailer);
      var some :| some in res.trailer;
      assert some in names;
      rw.Add(TrailerKey, Join(names, ", "));
    } else {
      assert res.trailer == map[];
    }
    var trailer := new Header.FromMap(bodyTrailer);
    CopyHeader(rw, trailer);
  }

  /**
   * RewriteHTTP: direct the request (Direct, whose contract states what that does
   * to `r` and to the outbound request); when the round trip fails the client gets
   * 502 Bad Gateway and nothing else, otherwise the backend's status with its
   * sanitised header, the trailer announcement and the trailers. `backend` is the
   * round trip's outcome, None for a transport error.
   */
  method RewriteHTTP(rw: Header, r: Request, mapping: Mapping, backend: Option<Response>, bodyTrailer: HeaderMap)
    returns (status: int, names: seq<string>)
    requires rw != r.header
    requires backend.Some? ==> backend.value.header != rw && backend.value.header != r.header
    modifies rw, r.url, r.header, if backend.Some? then {backend.value.header} else {}
    ensures backend.None? ==> status == BadGateway && rw.entries == old(rw.entries) && names == []
    ensures backend.Some? ==>
      && status == backend.value.statusCode
      && (forall k :: k in backend.value.trailer <==> k in names)
      && rw.entries == Copied(Announced(Copied(old(rw.entries), Sanitized(old(backend.value.header.entries))), names), bodyTrailer)
  {
    var out := Direct(r, mapping);
    status, names := Respond(rw, backend, bodyTrailer);
  }

  /** The part of RewriteHTTP after the round trip, whose outcome is `backend`. */
  method Respond(rw: Header, backend: Option<Response>, bodyTrailer: HeaderMap) returns (status: int, names: seq<string>)
    requires backend.Some? ==> backend.value.header != rw
    modifies rw, if backend.Some? then {backend.value.header} else {}
    ensures backend.None? ==> status == BadGateway && rw.entries == old(rw.entries) && names == []
    ensures backend.Some? ==>
      && status == backend.value.statusCode
      && (forall k :: k in backend.value.trailer <==> k in names)
      && rw.entries == Copied(Announced(Copied(old(rw.entries), Sanitized(old(backend.value.header.entries))), names), bodyTrailer)
  {
    if backend.None? {
      return BadGateway, [];
    }
    var res := backend.value;
    names := CopyResponse(rw, res, bodyTrailer);
    status := res.statusCode;
  }
}
