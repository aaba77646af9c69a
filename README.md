# rcomproxy in Dafny

rcomproxy is a forwarding HTTP proxy with an optional CONNECT-to-TLS detour. It
looks up the Host of each request in a mapping of virtual host names to backend
authorities. It rewrites the URL and headers of plain HTTP requests before
forwarding them. It tunnels CONNECT requests either to their own destination or
to a loopback TLS listener that serves the mapped hosts.

This project models the decision logic of that proxy and proves properties of it:

- `Text`: the Go string helpers the proxy relies on: `strings.Split`, `strings.Join`, `strings.TrimSpace` and `strings.SplitN(s, sep, 2)`.
- `Http`: the parts of `net/http` that the code changes in place.
  - A header is a map from an (already canonical) key to its list of values. It lives in a `Header` object with `Add`, `Set` and `Del`.
  - Requests and URLs are objects too, so the shallow copy `*outreq = *r` shares the URL and header with the inbound request, just as in Go.
- `Director`: the pure pieces of the director in `utils.go`:
  - host/port splitting and the mapping lookup (`FindRewrite`, the target choice);
  - the parse of `"http://" + target`;
  - the path join and the query merge;
  - the CONNECT dial-target fallback.
- `HeaderOps`: `copyHeader`, `removeHeaders`, `addXForwardedForHeader` and the loop collecting trailer names.
  - Each is a method that changes a `Header` in place.
  - Each is proved against a function on header maps, and lemmas state what that function guarantees.
- `Rewrite`: `RewriteHTTP` as a sequence of in-place steps:
  - the director, with its side effects on the inbound request through the shared references;
  - the fresh outbound header;
  - the 502 answer when the round trip fails;
  - the response-header copy, the trailer announcement and the trailer copy.
- `ProxyServer`:
  - `NewProxyServer`, with the condition under which the TLS listener exists;
  - the routing decision of `handlerHTTP`;
  - the order of the shutdown steps, which the listeners record in a proof-only log as they are asked to act.
- `MapFile`: the line loop of `ParseMapFile`, with the file given as its lines.

The network round trip, the body, the tunnel sockets and the clock are not modelled. Where the code needs their outcome, it is a parameter:
- the backend's response, or None for a transport error;
- the error a graceful shutdown reports;
- the client IP that `net.SplitHostPort` extracts, or None when the remote address does not parse.

Points of the code that a reader might expect to behave otherwise:

- `removeHeaders` deletes a hop-by-hop header only when its first value is not empty (`header.Get(h) != ""`, utils.go:268). A hop-by-hop header whose first value is "" is forwarded. Section 13.5.1 of RFC 2616, which utils.go:253 cites, asks a proxy to drop every hop-by-hop header. `HeaderOps.EmptyFirstValueSurvives` shows such a header surviving.
- The TLS listener always listens on the fixed port "3129" (the global `httpsListenPort`, proxyServer.go:29). The `httpsPort` parameter of `NewProxyServer` only takes part in the condition that decides whether the listener exists.
- On shutdown, the code disables keep-alives on the proxy listener first. Then it disables them on the TLS listener and stops it, and it stops the proxy listener last (proxyServer.go:51-58, httpsServer.go:48-49).

## Model

| member | source | states |
|---|---|---|
| Text.Split | map.go:23 | `strings.Split` gives at least one field, and no field contains the separator |
| Text.SplitJoin | map.go:23 | joining the fields of a split with the separator gives back the original string |
| Text.SplitCount | map.go:23-24 | a split has one field more than the string has separators |
| Text.JoinAppend | utils.go:280 | joining a list with one more element appends the separator and that element |
| Text.TrimSpace | utils.go:246 | the result is a slice of the input with only white space cut away at either end, and it neither starts nor ends with white space |
| Text.TrimSpaceEmpty | utils.go:246 | trimming gives "" exactly when the field is all white space |
| Director.SplitNamePort | utils.go:207-216 | the name has no ':'; with no colon the port is absent and the name is the whole string; otherwise name + ":" + port is the input |
| Director.SplitNamePortInverse | utils.go:207-216 | a colon-free name joined to any port by ':' splits back into that name and port |
| Director.FindRewrite | utils.go:286-294 | the result is "" or one of the mapping's targets, and it is "" when there is no mapping or the name part of Host is not mapped |
| Director.TargetHostFromFindRewrite | utils.go:39-55 | when the name part of Host is mapped, the target is the value `FindRewrite` returns, plus ":" + port exactly when Host had a port and the URL host is non-empty; otherwise, and when there is no mapping, `FindRewrite` returns "" and the target is Host unchanged |
| Director.TargetHostKeepsPort | utils.go:41-45 | a mapped name with a port, reached through a proxy hop, targets the mapped host on that port |
| Director.Cut | utils.go:58 | the part before the first separator has no separator; with no separator the whole string comes back; otherwise the two parts around the separator rebuild the string |
| Director.ParseTarget | utils.go:58-65 | the parsed target host holds no '/', '?' or '#', and its path is empty or starts with '/' |
| Director.ParseTargetRejoins | utils.go:58-70 | host and path together are the whole authority before its query and fragment, and the raw query is the text between the first '?' and the fragment |
| Director.ParseTargetPlain | utils.go:58-64 | a mapping value without '/', '?' or '#' parses to itself as host, with an empty path and query |
| Director.SingleJoiningSlash | utils.go:222-232 | the result is `a` without its trailing '/', then exactly one '/', then `b` without its leading '/' |
| Director.SingleJoiningSlashExamples | utils.go:222-232 | "/a/" and "/b" join as "/a/b" (never "/a//b"), and "/a" and "b" join as "/a/b" |
| Director.MergeQuery | utils.go:75-79 | an empty side gives the other side unchanged; when both sides are non-empty, the '&'-fields of the result are those of the target query followed by those of the request query |
| Director.DirectedMapped | utils.go:39-79 | a mapped name without a port is directed to the mapped target over http, with the path rooted at '/' and the query kept |
| Director.DirectedUnmapped | utils.go:39-79 | an unmapped Host (or no mapping) is directed to Host itself, with the path rooted at '/' and the query kept |
| Director.DialTarget | utils.go:151-156 | the tunnel dials the given target when it is not "", and the request URL's host otherwise |
| Http.Header.Add | utils.go:237 | the value is appended after the values already under the key; no other key changes |
| Http.Header.Set | utils.go:282 | the key then holds that single value; no other key changes |
| Http.Header.Del | utils.go:247 | the key is gone; no other key changes |
| Http.Request.ShallowCopy | utils.go:16-18 | the copy has every field of the original, the URL and header references included |
| HeaderOps.CopiedAppends | utils.go:234-240 | after a copy, every key holds its destination values followed by its source values, and a key is present exactly when it was in the destination or has source values |
| HeaderOps.CopiedIntoEmpty | utils.go:90-91 | copying into a fresh header reproduces the source, when no key has an empty value list |
| HeaderOps.CopiedNothing | utils.go:234-240 | copying an empty header changes nothing |
| HeaderOps.CopyHeader | utils.go:234-240 | the destination becomes the copy of its old contents with all source values appended, key by key in map order |
| HeaderOps.AddValues | utils.go:236-238 | the values of one source key are appended, in order, after that key's existing values; an empty list changes nothing |
| HeaderOps.ListedNamesSound | utils.go:244-250 | every name deleted because of Connection is a non-empty trimmed field of its first value |
| HeaderOps.ListedNamesComplete | utils.go:244-250 | every non-empty trimmed field of the first Connection value is deleted |
| HeaderOps.PresentHopHeadersSound | utils.go:254-271 | every name the hop-by-hop loop deletes is one of the nine names and had a non-empty first value |
| HeaderOps.PresentHopHeadersComplete | utils.go:254-271 | each of the nine names whose first value is non-empty is deleted |
| HeaderOps.DeleteListed | utils.go:244-250 | the first loop deletes exactly the trimmed, non-empty fields |
| HeaderOps.DeleteHopHeaders | utils.go:266-271 | the second loop deletes exactly the hop-by-hop names whose first value is non-empty at that point |
| HeaderOps.RemoveHeaders | utils.go:242-272 | the header becomes the sanitised header: first the Connection-listed names go, then the hop-by-hop names with a non-empty first value |
| HeaderOps.SanitizedEffect | utils.go:242-272 | no Connection-listed name remains and no hop-by-hop name has a non-empty first value; every other key keeps its values; nothing is added or changed |
| HeaderOps.SanitizedIdempotent | utils.go:242-272 | removing headers twice gives the same header as removing them once |
| HeaderOps.EmptyFirstValueSurvives | utils.go:267-271 | an Upgrade header whose first value is "" is not removed |
| HeaderOps.AddXForwardedForHeader | utils.go:274-284 | X-Forwarded-For is set as described by `Forwarded`, and nothing happens when the remote address does not parse |
| HeaderOps.ForwardedExtendsChain | utils.go:279-282 | with prior values p1..pn, X-Forwarded-For becomes the single value "p1, ..., pn, ip", and other keys keep their values |
| HeaderOps.ForwardedStartsOrSkips | utils.go:275-283 | with no prior entry, the value is the client IP alone; an unparsable remote address leaves the header unchanged |
| HeaderOps.ForwardedExample | utils.go:276-282 | a client at 5.6.7.8 behind a proxy that reported 1.2.3.4 is recorded as "1.2.3.4, 5.6.7.8" |
| HeaderOps.TrailerNames | utils.go:114-117 | the collected names are exactly the trailer keys, each once |
| Rewrite.WithUserAgentEffect | utils.go:81-83 | the default adds User-Agent with value "" when it is absent and leaves every existing key as it was |
| Rewrite.RewriteUrl | utils.go:39-79 | the URL becomes the directed URL of its old parts: target from the Host value and the URL's own host, scheme "http", target host, joined path, merged query |
| Rewrite.PointAt | utils.go:63-65 | scheme, host and path take the target's values (the path joined with a single slash); the query is untouched |
| Rewrite.DefaultHost | utils.go:71-73 | an empty Host becomes the URL host, any other Host is kept; header and Close are untouched |
| Rewrite.DefaultUserAgent | utils.go:81-83 | the header gains the User-Agent default and nothing else |
| Rewrite.DirectUrl | utils.go:16-87 | the shared URL is rewritten to the directed URL of the inbound one; an empty Host falls back to the rewritten URL host; the shared header gets the User-Agent default; Close is false |
| Rewrite.ReplaceHeader | utils.go:89-97 | the outbound request gets a fresh header: the inbound header copied, sanitised, and with X-Forwarded-For |
| Rewrite.Direct | utils.go:16-97 | the whole director: the inbound URL and header are changed through the shared references as above, and the outbound request carries its own fresh header |
| Rewrite.OutboundHeaderFiltered | utils.go:89-97 | no hop-by-hop header with a value reaches the backend, nor any Connection-listed name other than X-Forwarded-For; every other inbound header goes through unchanged |
| Rewrite.CopyResponse | utils.go:106-134 | the backend header is sanitised and copied to the client; when there are trailers, one Trailer value announces all their names; the trailer values are copied after the body |
| Rewrite.Respond | utils.go:99-134 | a failed round trip answers 502 and leaves the client header untouched; otherwise the client gets the backend status, and its header is as CopyResponse describes |
| Rewrite.RewriteHTTP | utils.go:13-135 | the director, then the answer of Respond |
| ProxyServer.HttpServer.SetKeepAlivesEnabled | proxyServer.go:51 | keep-alives take the given setting; serving is unchanged; turning them off is recorded as this listener's step |
| ProxyServer.HttpServer.Shutdown | proxyServer.go:58 | the server stops serving, records its stop, and reports the outcome it was given |
| ProxyServer.HttpsServer.constructor | httpsServer.go:23-36 | the TLS server listens on ":" + port and keeps the certificate paths and the mapping |
| ProxyServer.HttpsServer.Shutdown | httpsServer.go:45-54 | keep-alives are turned off and then the TLS server is stopped, in that recorded order; its shutdown error is passed back |
| ProxyServer.TlsEnabled | proxyServer.go:28 | the TLS listener is only built when there is a mapping with at least one host to serve |
| ProxyServer.Dispatch | proxyServer.go:76-86 | CONNECT always tunnels, and is checked before the admin host; the tunnel target is "" without a TLS listener or a mapping hit, and "127.0.0.1" + the TLS address otherwise; other requests go to the admin pages exactly when Host is "rcom.com", and to RewriteHTTP otherwise |
| ProxyServer.ProxyServer.constructor | proxyServer.go:16-34 | the proxy listens on ":" + proxyPort; the TLS listener exists exactly when the pem path, key path and https port are non-empty and the mapping is present and non-empty, and it listens on ":3129" |
| ProxyServer.ProxyServer.Route | proxyServer.go:66-87 | a request is tunnelled exactly when its method is CONNECT, and a tunnel gets a target only when the TLS listener exists and Host is mapped, that target being "127.0.0.1" + the TLS address |
| ProxyServer.ConnectTunnelTarget | proxyServer.go:76-81 | a CONNECT request is tunnelled whatever its Host; it dials "127.0.0.1:3129" when the TLS listener exists and Host is mapped, and its own URL host otherwise |
| ProxyServer.NonConnectRoute | proxyServer.go:82-86 | any other request goes to the admin pages when Host is the admin domain, and to RewriteHTTP otherwise |
| ProxyServer.ShutdownOrder | proxyServer.go:48-63 | shutdown starts by disabling keep-alives on the proxy listener and ends by stopping it; it stops the TLS listener exactly when that listener exists, after that listener's keep-alives are off; no step repeats |
| ProxyServer.ProxyServer.Shutdown | proxyServer.go:48-63 | the listeners record exactly the steps of ShutdownSteps, in that order; both end with keep-alives off and no longer serving; the result is the proxy listener's shutdown error, and the TLS listener's error is ignored |
| MapFile.ParseMapFile | map.go:9-35 | an empty path gives no map; any other path gives a map, possibly empty, that holds what the accepted lines store in order |
| MapFile.AcceptedShape | map.go:23-24 | an accepted line has exactly one comma, with its name before it and its target after it |
| MapFile.AcceptedPair | map.go:23-25 | a non-empty, comma-free name and target joined by a comma form an accepted line that stores that pair |
| MapFile.CommaCountRejected | map.go:23-24 | a line with no comma, or with more than one, is skipped |
| MapFile.LoadedWellFormed | map.go:23-26 | every stored name and target is non-empty and has no comma |
| MapFile.LoadedKeySound | map.go:21-27 | every stored name comes from an accepted line |
| MapFile.LoadedKeyComplete | map.go:21-27 | the name of every accepted line is stored |
| MapFile.LoadedLastWins | map.go:21-27 | when a name repeats, the target from the last accepted line for it wins |
| MapFile.RejectedIgnored | map.go:21-27 | a skipped line can be removed from anywhere in the file without changing the map |

## Left out

- Rewrite.RewriteHTTP: its contract states only what the client receives; `Rewrite.Direct`, which it calls first, states the effect on the inbound request and on the outbound request.
- The round trip to the backend (`transport.RoundTrip`) is an input: the backend's response, or None for a transport error.
- The CloseNotify/CancelRequest goroutine (utils.go:19-35) is concurrency and is not modelled.
- Streaming the body (`io.Copy`), `Flush`, and `WriteHeader` are left out because they are I/O. The status `RewriteHTTP` would write is returned instead.
- The trailer values the backend sends after its body are an input.
- `ProxyHTTPS` beyond its dial-target choice is left out: hijacking, `net.DialTimeout`, deadlines taken from the clock, and the two transfer goroutines are sockets, time and concurrency.
- `Serve`, `ListenAndServe`, `ListenAndServeTLS` and the `StartTime` timestamp are left out as listener I/O and clock.
- The server timeouts and error logger set in `NewProxyServer` are left out; they only configure the listener I/O.
- The TLS listener's own handler (which only logs and calls `RewriteHTTP`) and `HelloServer` are not part of this model.
- main.go and admin.go are not part of this model, apart from the constants the core uses: the admin domain "rcom.com" and the TLS port "3129".
- All logging is left out.
- Strings are sequences of Unicode scalar values, while Go strings are bytes. Header values and Host values that are not valid UTF-8 are outside the model, and on them `strings.TrimSpace` and `strings.Split` would work byte by byte.
- Go's canonicalisation of header keys is left out: keys and Connection tokens are taken to be canonical already.
- `url.Parse` is reduced to splitting off the fragment, the query and the path.
  - Percent-decoding, user information and bracketed IPv6 hosts are not modelled.
  - The parse error that makes the code panic is not modelled.
  - The target scheme is always "http", as the parsed string starts with "http://".
- `net.SplitHostPort` is not modelled itself; its outcome (the client IP, or None) is a field of the request.
- In `ParseMapFile`, opening and reading the file and the `logger.Fatal` exits are left out; the loop gets the lines the scanner would produce.
- The graceful-shutdown deadline is not modelled; each shutdown's error is an input.
