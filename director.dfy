/**
 * The pure decisions of the rewrite pipeline and of the CONNECT tunnel: splitting
 * a Host value, looking it up in the host mapping, choosing the target authority,
 * stitching paths and queries, and choosing the address a tunnel dials.
 */
module Director {
  import opened Wrappers
  import opened Text
  import opened Http

  /** A host mapping as the proxy holds it: absent (nil) or a table from virtual host name to backend authority. */
  type Mapping = Option<map<string, string>>

  /**
   * splitNamePort: `s` split at its first ':' into a name and an optional port.
   * The name never holds ':'; without a colon the name is all of `s`, and with one,
   * name, ':' and port put back together give `s`.
   */
  function SplitNamePort(s: string): (r: (string, Option<string>))
    ensures ':' !in r.0
    ensures r.1.None? ==> r.0 == s
    ensures r.1.Some? ==> r.0 + ":" + r.1.value == s
  {
    match IndexOf(s, ':')
    case None => (s, None)
    case Some(i) =>
      assert s == s[..i] + ":" + s[i + 1..];
      (s[..i], Some(s[i + 1..]))
  }

  /** The converse: a colon-free name joined to a port by ':' splits back into exactly those two. */
  lemma SplitNamePortInverse(name: string, port: string)
    requires ':' !in name
    ensures SplitNamePort(name + ":" + port) == (name, Some(port))
  {
    var s := name + ":" + port;
    assert s[|name|] == ':';
    assert s[..|name|] == name && s[|name| + 1..] == port;
  }

  /** FindRewrite: the mapped authority for the name part of `host`, or "" when the mapping is absent or has no entry. */
  function FindRewrite(host: string, mapping: Mapping): (r: string)
    ensures r == "" || (mapping.Some? && r in mapping.value.Values)
    ensures mapping.None? || SplitNamePort(host).0 !in mapping.value ==> r == ""
  {
    if mapping.Some? && SplitNamePort(host).0 in mapping.value then mapping.value[SplitNamePort(host).0] else ""
  }

  /**
   * The target authority of the director. A mapped name gives the mapped value,
   * followed by ":" and the Host port when Host had one and the request URL carried
   * a host (the request came through a proxy); otherwise the Host value is kept.
   */
  function TargetHost(host: string, urlHost: string, mapping: Mapping): string
  {
    match mapping
    case None => host
    case Some(m) =>
      var (name, port) := SplitNamePort(host);
      if name in m then
        if port.Some? && urlHost != "" then m[name] + ":" + port.value else m[name]
      else host
  }

  /** TargetHost and FindRewrite agree: the target is what FindRewrite finds (plus the port), or Host itself when nothing is found. */
  lemma TargetHostFromFindRewrite(host: string, urlHost: string, mapping: Mapping)
    ensures var (name, port) := SplitNamePort(host);
      if mapping.Some? && name in mapping.value then
        && FindRewrite(host, mapping) == mapping.value[name]
        && TargetHost(host, urlHost, mapping)
           == FindRewrite(host, mapping) + (if port.Some? && urlHost != "" then ":" + port.value else "")
      else
        FindRewrite(host, mapping) == "" && TargetHost(host, urlHost, mapping) == host
  {
  }

  /** A Host with a port, through a proxy hop, is sent to the mapped host on that same port. */
  lemma TargetHostKeepsPort(name: string, port: string, urlHost: string, m: map<string, string>)
    requires ':' !in name && name in m && urlHost != ""
    ensures TargetHost(name + ":" + port, urlHost, Some(m)) == m[name] + ":" + port
  {
    SplitNamePortInverse(name, port);
  }

  /** Part of `s` before the first `c`, and the part after it ("" when there is no `c`): strings.Cut. */
  function Cut(s: string, c: char): (r: (string, string))
    ensures c !in r.0
    ensures c !in s ==> r == (s, "")
    ensures c in s ==> s == r.0 + [c] + r.1
  {
    match IndexOf(s, c)
    case None => (s, "")
    case Some(i) =>
      assert s == s[..i] + [c] + s[i + 1..];
      (s[..i], s[i + 1..])
  }

  /** The parts of "http://" + target that the director copies into the outbound URL. */
  datatype Target = Target(host: string, path: string, rawQuery: string)

  /**
   * url.Parse("http://" + authority), as a split: the fragment is cut off at the
   * first '#', the raw query at the first '?', and the host runs up to the first '/'.
   * The host then holds none of '/', '?', '#', and the path is empty or starts with '/'.
   */
  function ParseTarget(authority: string): (t: Target)
    ensures '/' !in t.host && '?' !in t.host && '#' !in t.host
    ensures t.path == [] || t.path[0] == '/'
  {
    var beforeFragment := Cut(authority, '#').0;
    var (rest, query) := Cut(beforeFragment, '?');
    match IndexOf(rest, '/')
    case None => Target(rest, "", query)
    case Some(i) =>
      assert rest == rest[..i] + rest[i..];
      Target(rest[..i], rest[i..], query)
  }

  /**
   * What the parse keeps of the authority: host and path together are all of it
   * before the query and the fragment, and the raw query is what lies between the
   * first '?' and the fragment.
   */
  lemma ParseTargetRejoins(authority: string)
    ensures var t := ParseTarget(authority);
      && t.host + t.path == Cut(Cut(authority, '#').0, '?').0
      && t.rawQuery == Cut(Cut(authority, '#').0, '?').1
  {
    var rest := Cut(Cut(authority, '#').0, '?').0;
    match IndexOf(rest, '/')
    case None =>
    case Some(i) =>
      assert rest == rest[..i] + rest[i..];
  }

  /** A plain "host" or "host:port" mapping value parses to that host with no path and no query. */
  lemma ParseTargetPlain(authority: string)
    requires '/' !in authority && '?' !in authority && '#' !in authority
    ensures ParseTarget(authority) == Target(authority, "", "")
  {
  }

  /** `a` with one trailing '/' removed, if it has one. */
  function DropTrailingSlash(a: string): string
  {
    if |a| > 0 && a[|a| - 1] == '/' then a[..|a| - 1] else a
  }

  /** `b` with one leading '/' removed, if it has one. */
  function DropLeadingSlash(b: string): string
  {
    if |b| > 0 && b[0] == '/' then b[1..] else b
  }

  /**
   * singleJoiningSlash: `a` and `b` joined with exactly one '/' at the seam. When
   * both sides bring a slash one is dropped, when neither does one is inserted, and
   * otherwise the two are concatenated.
   */
  function SingleJoiningSlash(a: string, b: string): (r: string)
    ensures r == DropTrailingSlash(a) + "/" + DropLeadingSlash(b)
  {
    var aslash := |a| > 0 && a[|a| - 1] == '/';
    var bslash := |b| > 0 && b[0] == '/';
    if aslash && bslash then
      assert a == a[..|a| - 1] + "/";
      a + b[1..]
    else if !aslash && !bslash then
      a + "/" + b
    else if aslash then
      assert a == a[..|a| - 1] + "/";
      a + b
    else
      assert b == "/" + b[1..];
      a + b
  }

  /** Two sample joins: "/a/" + "/b" and "/a" + "b" both give "/a/b", never "/a//b". */
  lemma SingleJoiningSlashExamples()
    ensures SingleJoiningSlash("/a/", "/b") == "/a/b"
    ensures SingleJoiningSlash("/a", "b") == "/a/b"
    ensures SingleJoiningSlash("/a/", "/b") != "/a//b"
  {
    assert DropTrailingSlash("/a/") == "/a";
    assert DropLeadingSlash("/b") == "b";
  }

  /**
   * The raw-query merge of the director: the two queries joined by '&' when both
   * are present, otherwise whichever one is. The '&'-separated parameters of the
   * result are those of the target query followed by those of the inbound query,
   * so the merge adds no empty parameter of its own.
   */
  function MergeQuery(targetQuery: string, query: string): (r: string)
    ensures targetQuery == "" ==> r == query
    ensures query == "" ==> r == targetQuery
    ensures targetQuery != "" && query != "" ==> Split(r, '&') == Split(targetQuery, '&') + Split(query, '&')
  {
    if targetQuery == "" || query == "" then targetQuery + query
    else
      SplitConcat(targetQuery, '&', query);
      targetQuery + "&" + query
  }

  /**
   * The outbound URL the director computes from the inbound Host, the inbound URL
   * and the mapping: scheme "http", the target's host, the joined path and the
   * merged query.
   */
  function Directed(host: string, url: UrlParts, mapping: Mapping): UrlParts
  {
    var target := ParseTarget(TargetHost(host, url.host, mapping));
    UrlParts("http", target.host, SingleJoiningSlash(target.path, url.path), MergeQuery(target.rawQuery, url.rawQuery))
  }

  /**
   * A mapped name without a port: the URL goes to the mapped target over plain
   * HTTP, the path gains a leading '/', and the query is kept.
   */
  lemma DirectedMapped(name: string, m: map<string, string>, url: UrlParts)
    requires ':' !in name && name in m
    requires '/' !in m[name] && '?' !in m[name] && '#' !in m[name]
    ensures Directed(name, url, Some(m)) == UrlParts("http", m[name], SingleJoiningSlash("", url.path), url.rawQuery)
  {
    assert SplitNamePort(name) == (name, None);
    ParseTargetPlain(m[name]);
  }

  /** Without a mapping entry the request keeps its own Host as the outbound host. */
  lemma DirectedUnmapped(host: string, url: UrlParts, mapping: Mapping)
    requires FindRewrite(host, mapping) == "" || mapping.None?
    requires '/' !in host && '?' !in host && '#' !in host
    requires mapping.Some? ==> SplitNamePort(host).0 !in mapping.value
    ensures Directed(host, url, mapping) == UrlParts("http", host, SingleJoiningSlash("", url.path), url.rawQuery)
  {
    TargetHostFromFindRewrite(host, url.host, mapping);
    ParseTargetPlain(host);
  }

  /** The fallback of ProxyHTTPS: dial the given target, or the request URL's host when none is given. */
  function DialTarget(targetHost: string, urlHost: string): (r: string)
    ensures targetHost != "" ==> r == targetHost
    ensures targetHost == "" ==> r == urlHost
  {
    if targetHost != "" then targetHost else urlHost
  }
}
