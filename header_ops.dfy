/**
 * The header sanitiser of the proxy: copying one header map into another,
 * stripping hop-by-hop headers (section 13.5.1 of RFC 2616, plus the names a
 * Connection header lists), adding X-Forwarded-For, and listing trailer names.
 * Each operation is a method that changes a Header in place, specified by a
 * function on header maps whose properties are proved below it.
 */
module HeaderOps {
  import opened Wrappers
  import opened Text
  import opened Http

  // ---------------------------------------------------------------- copyHeader

  /** The header `dst` becomes when every value of `src` is added to it: per key, the values of `dst` then those of `src`. */
  function Copied(dst: HeaderMap, src: HeaderMap): HeaderMap
  {
    map k | k in dst.Keys + (set k | k in src && src[k] != []) :: Values(dst, k) + Values(src, k)
  }

  /**
   * What copying means key by key: each key ends up with its old values followed
   * by the source's values in source order, and a key gains an entry only when the
   * source has at least one value for it.
   */
  lemma CopiedAppends(dst: HeaderMap, src: HeaderMap, k: string)
    ensures Values(Copied(dst, src), k) == Values(dst, k) + Values(src, k)
    ensures k in Copied(dst, src) <==> k in dst || Values(src, k) != []
  {
  }

  /** Copying into an empty header reproduces the source, except for keys whose value list is empty. */
  lemma CopiedIntoEmpty(src: HeaderMap)
    requires forall k :: k in src ==> src[k] != []
    ensures Copied(map[], src) == src
  {
    var c := Copied(map[], src);
    assert c.Keys == src.Keys;
    forall k | k in src ensures c[k] == src[k] {
      assert Values(map[], k) == [];
    }
  }

  /** Copying an empty header changes nothing. */
  lemma CopiedNothing(dst: HeaderMap)
    ensures Copied(dst, map[]) == dst
  {
    forall k | k in dst ensures Copied(dst, map[])[k] == dst[k] {
      assert Values(map[], k) == [];
    }
  }

  /** One more source key copied: that key gets its source values appended, nothing else changes. */
  lemma CopiedStep(dst: HeaderMap, src: HeaderMap, pending: set<string>, k: string)
    requires k in pending && pending <= src.Keys
    ensures Copied(dst, src - (pending - {k}))
         == if src[k] == [] then Copied(dst, src - pending)
            else Copied(dst, src - pending)[k := Values(dst, k) + src[k]]
  {
    var before, after := Copied(dst, src - pending), Copied(dst, src - (pending - {k}));
    var expected := if src[k] == [] then before else before[k := Values(dst, k) + src[k]];
    forall x ensures x in after <==> x in expected {
    }
    forall x | x in after ensures after[x] == expected[x] {
      if x != k {
        assert Values(src - (pending - {k}), x) == Values(src - pending, x);
      }
    }
  }

  /**
   * copyHeader(dst, src): for every key of `src`, in map order, add each of its
   * values to `dst`. The value list of each key is read before that key is
   * touched, so the result is the same even when `dst` and `src` are one map.
   */
  method CopyHeader(dst: Header, src: Header)
    modifies dst
    ensures dst.entries == Copied(old(dst.entries), old(src.entries))
  {
    var s := src.entries;
    ghost var d0 := dst.entries;
    var pending := s.Keys;
    assert s - pending == map[];
    CopiedNothing(d0);
    while pending != {}
      invariant pending <= s.Keys
      invariant dst.entries == Copied(d0, s - pending)
      decreases pending
    {
      var k :| k in pending;
      assert Values(dst.entries, k) == Values(d0, k);
      AddValues(dst, k, s[k]);
      CopiedStep(d0, s, pending, k);
      pending := pending - {k};
    }
    assert s - {} == s;
  }

  /** The inner loop of copyHeader: `dst.Add(k, v)` for each `v` of `vv`, in order. */
  method AddValues(dst: Header, k: string, vv: seq<string>)
    modifies dst
    ensures dst.entries == if vv == [] then old(dst.entries) else old(dst.entries)[k := Values(old(dst.entries), k) + vv]
  {
    ghost var base := dst.entries;
    var j := 0;
    while j < |vv|
      invariant 0 <= j <= |vv|
      invariant dst.entries == if j == 0 then base else base[k := Values(base, k) + vv[..j]]
    {
      assert Values(dst.entries, k) == Values(base, k) + vv[..j];
      assert Values(base, k) + vv[..j + 1] == Values(base, k) + vv[..j] + [vv[j]];
      dst.Add(k, vv[j]);
      j := j + 1;
    }
    assert vv[..|vv|] == vv;
  }

  // ------------------------------------------------------------- removeHeaders

  /** The hop-by-hop headers, in the order removeHeaders checks them ("Te" is the canonical form of TE). */
  const HopHeaders: seq<string> := [
    "Connection", "Proxy-Connection", "Keep-Alive", "Proxy-Authenticate",
    "Proxy-Authorization", "Te", "Trailer", "Transfer-Encoding", "Upgrade"
  ]

  /** The comma-separated fields of the first Connection value; none when that value is "". */
  function ConnectionFields(h: HeaderMap): seq<string>
  {
    var c := FirstValue(h, "Connection");
    if c == "" then [] else Split(c, ',')
  }

  /** The header names among the first `n` Connection fields: those fields trimmed, when not empty. */
  function ListedNames(fields: seq<string>, n: nat): set<string>
    requires n <= |fields|
  {
    if n == 0 then {}
    else ListedNames(fields, n - 1) + (if TrimSpace(fields[n - 1]) != "" then {TrimSpace(fields[n - 1])} else {})
  }

  lemma {:induction false} ListedNamesSound(fields: seq<string>, n: nat, t: string)
    requires n <= |fields| && t in ListedNames(fields, n)
    ensures t != "" && exists j :: 0 <= j < n && TrimSpace(fields[j]) == t
  {
    if t in ListedNames(fields, n - 1) {
      ListedNamesSound(fields, n - 1, t);
    } else {
      assert TrimSpace(fields[n - 1]) == t;
    }
  }

  lemma {:induction false} ListedNamesComplete(fields: seq<string>, n: nat, j: nat)
    requires j < n <= |fields| && TrimSpace(fields[j]) != ""
    ensures TrimSpace(fields[j]) in ListedNames(fields, n)
  {
    if j < n - 1 {
      ListedNamesComplete(fields, n - 1, j);
    }
  }

  /** The header names a Connection header lists: its trimmed, non-empty fields. */
  function ConnectionTokens(h: HeaderMap): set<string>
  {
    ListedNames(ConnectionFields(h), |ConnectionFields(h)|)
  }

  /** The first `n` hop-by-hop names whose first value in `h` is not "". */
  function PresentHopHeaders(h: HeaderMap, n: nat): set<string>
    requires n <= |HopHeaders|
  {
    if n == 0 then {}
    else PresentHopHeaders(h, n - 1) + (if FirstValue(h, HopHeaders[n - 1]) != "" then {HopHeaders[n - 1]} else {})
  }

  lemma {:induction false} PresentHopHeadersSound(h: HeaderMap, n: nat, k: string)
    requires n <= |HopHeaders| && k in PresentHopHeaders(h, n)
    ensures FirstValue(h, k) != "" && k in HopHeaders
  {
    if k in PresentHopHeaders(h, n - 1) {
      PresentHopHeadersSound(h, n - 1, k);
    } else {
      assert HopHeaders[n - 1] == k;
    }
  }

  lemma {:induction false} PresentHopHeadersComplete(h: HeaderMap, n: nat, j: nat)
    requires j < n <= |HopHeaders| && FirstValue(h, HopHeaders[j]) != ""
    ensures HopHeaders[j] in PresentHopHeaders(h, n)
  {
    if j < n - 1 {
      PresentHopHeadersComplete(h, n - 1, j);
    }
  }

  /** The header after removeHeaders: first the names Connection lists go, then the present hop-by-hop names. */
  function Sanitized(h: HeaderMap): HeaderMap
  {
    var listed := h - ConnectionTokens(h);
    listed - PresentHopHeaders(listed, |HopHeaders|)
  }

  /** Deleting one more key after a set of keys is deleting the enlarged set. */
  lemma RemoveOneMore(m: HeaderMap, done: set<string>, k: string)
    ensures m - (done + {k}) == (m - done) - {k}
  {
  }

  /** removeHeaders: deletes the headers the Connection value lists, then every hop-by-hop header whose Get is not "". */
  method RemoveHeaders(header: Header)
    modifies header
    ensures header.entries == Sanitized(old(header.entries))
  {
    ghost var h0 := header.entries;
    var c := header.Get("Connection");
    if c != "" {
      DeleteListed(header, Split(c, ','));
    } else {
      assert header.entries == h0 - {};
    }
    DeleteHopHeaders(header);
  }

  /** The first loop of removeHeaders: deletes each trimmed, non-empty field. */
  method DeleteListed(header: Header, fields: seq<string>)
    modifies header
    ensures header.entries == old(header.entries) - ListedNames(fields, |fields|)
  {
    ghost var h0 := header.entries;
    var i := 0;
    while i < |fields|
      invariant 0 <= i <= |fields|
      invariant header.entries == h0 - ListedNames(fields, i)
    {
      var f := TrimSpace(fields[i]);
      ghost var done := ListedNames(fields, i);
      if f != "" {
        assert ListedNames(fields, i + 1) == done + {f};
        RemoveOneMore(h0, done, f);
        header.Del(f);
      } else {
        assert ListedNames(fields, i + 1) == done;
      }
      i := i + 1;
    }
  }

  /** The second loop of removeHeaders: deletes each hop-by-hop header whose Get is not "". */
  method DeleteHopHeaders(header: Header)
    modifies header
    ensures header.entries == old(header.entries) - PresentHopHeaders(old(header.entries), |HopHeaders|)
  {
    ghost var h1 := header.entries;
    assert h1 - PresentHopHeaders(h1, 0) == h1;
    var i := 0;
    while i < |HopHeaders|
      invariant 0 <= i <= |HopHeaders|
      invariant header.entries == h1 - PresentHopHeaders(h1, i)
    {
      var name := HopHeaders[i];
      ghost var done := PresentHopHeaders(h1, i);
      if header.Get(name) != "" {
        assert name !in done && FirstValue(h1, name) != "";
        assert PresentHopHeaders(h1, i + 1) == done + {name};
        RemoveOneMore(h1, done, name);
        header.Del(name);
      } else {
        assert FirstValue(h1, name) != "" ==> name in done;
        assert PresentHopHeaders(h1, i + 1) == done;
      }
      i := i + 1;
    }
  }

  /**
   * What removeHeaders guarantees: no name the Connection header listed remains,
   * no hop-by-hop header with a non-empty first value remains, and every other key
   * keeps its values.
   */
  lemma SanitizedEffect(h: HeaderMap)
    ensures forall t :: t in ConnectionTokens(h) ==> t !in Sanitized(h)
    ensures forall j :: 0 <= j < |HopHeaders| ==> FirstValue(Sanitized(h), HopHeaders[j]) == ""
    ensures forall k :: k in h && k !in ConnectionTokens(h) && !(k in HopHeaders && FirstValue(h, k) != "")
                        ==> k in Sanitized(h) && Sanitized(h)[k] == h[k]
    ensures forall k :: k in Sanitized(h) ==> k in h && Sanitized(h)[k] == h[k]
  {
    var listed := h - ConnectionTokens(h);
    forall j | 0 <= j < |HopHeaders| ensures FirstValue(Sanitized(h), HopHeaders[j]) == "" {
      if FirstValue(listed, HopHeaders[j]) != "" {
        PresentHopHeadersComplete(listed, |HopHeaders|, j);
      }
    }
    forall k | k in h && k !in ConnectionTokens(h) && !(k in HopHeaders && FirstValue(h, k) != "")
      ensures k in Sanitized(h)
    {
      if k in PresentHopHeaders(listed, |HopHeaders|) {
        PresentHopHeadersSound(listed, |HopHeaders|, k);
      }
    }
  }

  /** removeHeaders is idempotent: a second pass finds nothing left to remove. */
  lemma SanitizedIdempotent(h: HeaderMap)
    ensures Sanitized(Sanitized(h)) == Sanitized(h)
  {
    var s := Sanitized(h);
    SanitizedEffect(h);
    assert FirstValue(s, HopHeaders[0]) == "";
    assert ConnectionFields(s) == [];
    assert ConnectionTokens(s) == {};
    assert s - {} == s;
    forall k | k in PresentHopHeaders(s, |HopHeaders|) ensures false {
      PresentHopHeadersSound(s, |HopHeaders|, k);
    }
    assert PresentHopHeaders(s, |HopHeaders|) == {};
  }

  /**
   * A hop-by-hop header is deleted only when its first value is non-empty: an
   * Upgrade header whose values are "" and "websocket" survives the pass.
   */
  lemma EmptyFirstValueSurvives()
    ensures var h := map["Upgrade" := ["", "websocket"]];
      Sanitized(h) == h
  {
    var h := map["Upgrade" := ["", "websocket"]];
    assert FirstValue(h, "Connection") == "";
    assert ConnectionTokens(h) == {};
    assert h - {} == h;
    forall k | k in PresentHopHeaders(h, |HopHeaders|) ensures false {
      PresentHopHeadersSound(h, |HopHeaders|, k);
    }
  }

  // ---------------------------------------------------- addXForwardedForHeader

  const XForwardedFor: string := "X-Forwarded-For"

  /**
   * The header after addXForwardedForHeader: unchanged when the remote address did
   * not parse; otherwise X-Forwarded-For holds one value, the prior values joined
   * by ", " and then the client IP, or the client IP alone when there was no prior
   * entry.
   */
  function Forwarded(h: HeaderMap, clientIP: Option<string>): HeaderMap
  {
    match clientIP
    case None => h
    case Some(ip) =>
      h[XForwardedFor := [if XForwardedFor in h then Join(h[XForwardedFor], ", ") + ", " + ip else ip]]
  }

  /** addXForwardedForHeader: folds the prior X-Forwarded-For values and the client IP into a single value. */
  method AddXForwardedForHeader(req: Request)
    modifies req.header
    ensures req.header.entries == Forwarded(old(req.header.entries), req.remoteIP)
  {
    if req.remoteIP.Some? {
      var clientIP := req.remoteIP.value;
      if XForwardedFor in req.header.entries {
        var prior := req.header.entries[XForwardedFor];
        clientIP := Join(prior, ", ") + ", " + clientIP;
      }
      req.header.Set(XForwardedFor, clientIP);
    }
  }

  /**
   * The forwarding chain grows by one: with prior values p1..pn the single new
   * value is the ", "-join of p1..pn and the client IP; other keys keep their values.
   */
  lemma ForwardedExtendsChain(h: HeaderMap, ip: string)
    requires XForwardedFor in h && h[XForwardedFor] != []
    ensures Forwarded(h, Some(ip))[XForwardedFor] == [Join(h[XForwardedFor] + [ip], ", ")]
    ensures forall k :: k in h && k != XForwardedFor ==> k in Forwarded(h, Some(ip)) && Forwarded(h, Some(ip))[k] == h[k]
  {
    JoinAppend(h[XForwardedFor], ip, ", ");
  }

  /**
   * The first proxy on the path starts the chain with the client IP alone; when
   * the remote address does not parse, the header is left as it was.
   */
  lemma ForwardedStartsOrSkips(h: HeaderMap, clientIP: Option<string>)
    ensures clientIP.None? ==> Forwarded(h, clientIP) == h
    ensures clientIP.Some? && XForwardedFor !in h ==> Forwarded(h, clientIP) == h[XForwardedFor := [clientIP.value]]
  {
  }

  /** A client at 5.6.7.8 behind a proxy that reported 1.2.3.4 is recorded as "1.2.3.4, 5.6.7.8". */
  lemma ForwardedExample()
    ensures Forwarded(map[XForwardedFor := ["1.2.3.4"]], Some("5.6.7.8"))[XForwardedFor] == ["1.2.3.4, 5.6.7.8"]
  {
    var h := map[XForwardedFor := ["1.2.3.4"]];
    assert XForwardedFor in h && h[XForwardedFor] == ["1.2.3.4"];
    assert Join(["1.2.3.4"], ", ") == "1.2.3.4";
    assert "1.2.3.4" + ", " + "5.6.7.8" == "1.2.3.4, 5.6.7.8";
  }

  // ------------------------------------------------------------ trailer names

  /**
   * The loop over res.Trailer that collects its keys for the Trailer announcement:
   * every trailer name exactly once, in map order.
   */
  method TrailerNames(trailer: HeaderMap) returns (names: seq<string>)
    ensures forall i :: 0 <= i < |names| ==> names[i] in trailer
    ensures forall k :: k in trailer ==> k in names
    ensures forall i, j :: 0 <= i < j < |names| ==> names[i] != names[j]
  {
    names := [];
    var pending := trailer.Keys;
    while pending != {}
      invariant pending <= trailer.Keys
      invariant forall i :: 0 <= i < |names| ==> names[i] in trailer && names[i] !in pending
      invariant forall k :: k in trailer ==> k in names || k in pending
      invariant forall i, j :: 0 <= i < j < |names| ==> names[i] != names[j]
      decreases pending
    {
      var k :| k in pending;
      names := names + [k];
      pending := pending - {k};
    }
  }
}
