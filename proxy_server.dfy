/**
 * The proxy's front end: which listeners exist, how each incoming request is
 * routed (CONNECT tunnel, admin pages, or rewrite), and the order in which a
 * shutdown stops the listeners. The listeners themselves (accepting, serving,
 * TLS) are not modelled; an http.Server is reduced to its address and the two
 * flags the proxy changes.
 */
module ProxyServer {
  import opened Wrappers
  import opened Http
  import opened Director

  /** The host name under which the proxy serves its own admin pages. */
  const AdminDomain: string := "rcom.com"
  /** The port of the loopback TLS listener; the proxy always uses this one. */
  const HttpsListenPort: string := "3129"
  const Loopback: string := "127.0.0.1"
  const ConnectMethod: string := "CONNECT"

  /** What a shutdown asks of the listeners, in the order asked; it exists only for the proof. */
  class EventLog {
    ghost var events: seq<Step>

    ghost constructor ()
      ensures events == []
    {
      events := [];
    }
  }

  /**
   * http.Server: its address, whether it keeps idle connections alive, and whether
   * it still serves. Each server knows which listener it is and records in the
   * shared log when its keep-alives are turned off and when it is stopped.
   */
  class HttpServer {
    const addr: string
    ghost const tag: Listener
    ghost const log: EventLog
    var keepAlivesEnabled: bool
    var serving: bool

    constructor (addr: string, ghost tag: Listener, ghost log: EventLog)
      ensures this.addr == addr && this.tag == tag && this.log == log && keepAlivesEnabled && serving
    {
      this.addr, this.tag, this.log := addr, tag, log;
      keepAlivesEnabled, serving := true, true;
    }

    method SetKeepAlivesEnabled(v: bool)
      modifies this, log
      ensures keepAlivesEnabled == v && serving == old(serving)
      ensures log.events == old(log.events) + (if v then [] else [DisableKeepAlives(tag)])
    {
      keepAlivesEnabled := v;
      if !v {
        log.events := log.events + [DisableKeepAlives(tag)];
      }
    }

    /**
     * Server.Shutdown: stops serving. Whether the graceful wait finished before the
     * context expired is outside the model, so the error it returns is an input.
     */
    method Shutdown(outcome: Option<string>) returns (err: Option<string>)
      modifies this, log
      ensures !serving && keepAlivesEnabled == old(keepAlivesEnabled) && err == outcome
      ensures log.events == old(log.events) + [Stop(tag)]
    {
      serving := false;
      log.events := log.events + [Stop(tag)];
      err := outcome;
    }
  }

  /** The TLS listener: a server on ":" + port with the certificate paths and the shared mapping. */
  class HttpsServer {
    const server: HttpServer
    const pemPath: string
    const keyPath: string
    const mapping: Mapping

    constructor (port: string, pemPath: string, keyPath: string, mapping: Mapping, ghost log: EventLog)
      ensures fresh(server) && server.addr == ":" + port && server.keepAlivesEnabled && server.serving
      ensures server.tag == Tls && server.log == log
      ensures this.pemPath == pemPath && this.keyPath == keyPath && this.mapping == mapping
    {
      server := new HttpServer(":" + port, Tls, log);
      this.pemPath, this.keyPath, this.mapping := pemPath, keyPath, mapping;
    }

    /** Keep-alives off, then a graceful shutdown whose error is passed back. */
    method Shutdown(outcome: Option<string>) returns (err: Option<string>)
      modifies server, server.log
      ensures !server.keepAlivesEnabled && !server.serving && err == outcome
      ensures server.log.events == old(server.log.events) + [DisableKeepAlives(server.tag), Stop(server.tag)]
    {
      server.SetKeepAlivesEnabled(false);
      err := server.Shutdown(outcome);
    }
  }

  /** Whether NewProxyServer builds the TLS listener: every TLS setting present and a non-empty mapping. */
  predicate TlsEnabled(httpsPort: string, pemPath: string, keyPath: string, mapping: Mapping)
    ensures TlsEnabled(httpsPort, pemPath, keyPath, mapping) ==> mapping.Some? && mapping.value.Keys != {}
  {
    pemPath != "" && keyPath != "" && httpsPort != "" && mapping.Some? && |mapping.value| > 0
  }

  /** Where handlerHTTP sends a request. A tunnel carries the target handed to ProxyHTTPS ("" for the request's own host). */
  datatype Route = Tunnel(targetHost: string) | Admin | Rewrite

  /**
   * The decision of handlerHTTP, from the method, the Host header, what FindRewrite
   * returned for it, and the TLS listener's address when that listener exists.
   */
  function Dispatch(httpMethod: string, host: string, rewrite: string, tlsAddr: Option<string>): (route: Route)
    ensures route.Tunnel? <==> httpMethod == ConnectMethod
    ensures route.Admin? <==> httpMethod != ConnectMethod && host == AdminDomain
    ensures route.Rewrite? <==> httpMethod != ConnectMethod && host != AdminDomain
    ensures route.Tunnel? && (tlsAddr.None? || rewrite == "") ==> route.targetHost == ""
    ensures route.Tunnel? && tlsAddr.Some? && rewrite != "" ==> route.targetHost == Loopback + tlsAddr.value
  {
    if httpMethod == ConnectMethod then
      if tlsAddr.None? || rewrite == "" then Tunnel("") else Tunnel(Loopback + tlsAddr.value)
    else if host == AdminDomain then Admin
    else Rewrite
  }

  /** The order in which Shutdown acts on the listeners. */
  datatype Listener = Proxy | Tls
  datatype Step = DisableKeepAlives(listener: Listener) | Stop(listener: Listener)

  /** The steps of a shutdown, with or without the TLS listener. */
  function ShutdownSteps(withTls: bool): seq<Step>
  {
    [DisableKeepAlives(Proxy)] + (if withTls then [DisableKeepAlives(Tls), Stop(Tls)] else []) + [Stop(Proxy)]
  }

  /**
   * A shutdown first stops new keep-alives on the proxy listener and stops that
   * listener last; the TLS listener is stopped in between exactly when it exists,
   * after its own keep-alives are off; nothing is stopped twice.
   */
  lemma ShutdownOrder(withTls: bool)
    ensures ShutdownSteps(withTls)[0] == DisableKeepAlives(Proxy)
    ensures ShutdownSteps(withTls)[|ShutdownSteps(withTls)| - 1] == Stop(Proxy)
    ensures Stop(Tls) in ShutdownSteps(withTls) <==> withTls
    ensures forall i, j :: 0 <= i < j < |ShutdownSteps(withTls)| && ShutdownSteps(withTls)[j] == Stop(ShutdownSteps(withTls)[i].listener)
              ==> ShutdownSteps(withTls)[i] == DisableKeepAlives(ShutdownSteps(withTls)[j].listener)
    ensures forall i, j :: 0 <= i < j < |ShutdownSteps(withTls)| ==> ShutdownSteps(withTls)[i] != ShutdownSteps(withTls)[j]
  {
  }

  /** The proxy: the plain listener, the shared mapping, and the TLS listener when there is one. */
  class ProxyServer {
    const server: HttpServer
    const mapping: Mapping
    const httpsServer: HttpsServer?

    /** The two listeners are distinct servers, tagged as such, recording into one log. */
    ghost predicate Valid()
    {
      && server.tag == Proxy
      && (httpsServer != null ==> httpsServer.server != server && httpsServer.server.tag == Tls && httpsServer.server.log == server.log)
    }

    /**
     * NewProxyServer. The TLS listener exists exactly when TlsEnabled holds, and it
     * listens on HttpsListenPort whatever `httpsPort` says.
     */
    constructor (proxyPort: string, httpsPort: string, pemPath: string, keyPath: string, mapping: Mapping)
      ensures Valid() && server.log.events == []
      ensures fresh(server) && server.addr == ":" + proxyPort && server.keepAlivesEnabled && server.serving
      ensures this.mapping == mapping
      ensures (httpsServer != null) <==> TlsEnabled(httpsPort, pemPath, keyPath, mapping)
      ensures httpsServer != null ==>
        && fresh(httpsServer) && fresh(httpsServer.server)
        && httpsServer.server.addr == ":" + HttpsListenPort
        && httpsServer.server.keepAlivesEnabled && httpsServer.server.serving
        && httpsServer.pemPath == pemPath && httpsServer.keyPath == keyPath && httpsServer.mapping == mapping
    {
      ghost var log := new EventLog();
      server := new HttpServer(":" + proxyPort, Proxy, log);
      this.mapping := mapping;
      if TlsEnabled(httpsPort, pemPath, keyPath, mapping) {
        httpsServer := new HttpsServer(HttpsListenPort, pemPath, keyPath, mapping, log);
      } else {
        httpsServer := null;
      }
    }

    /** The TLS listener's address, when it exists. */
    function TlsAddr(): Option<string>
    {
      if httpsServer == null then None else Some(httpsServer.server.addr)
    }

    /** handlerHTTP: the route taken for `r`. */
    function Route(r: Request): (route: Route)
      reads r
      ensures route.Tunnel? <==> r.httpMethod == ConnectMethod
      ensures route.Tunnel? && route.targetHost != "" ==>
        httpsServer != null && FindRewrite(r.host, mapping) != "" && route.targetHost == Loopback + httpsServer.server.addr
    {
      Dispatch(r.httpMethod, r.host, FindRewrite(r.host, mapping), TlsAddr())
    }

    /**
     * Shutdown. `tlsOutcome` and `outcome` are what the TLS and the proxy listener's
     * graceful shutdowns report; the first is discarded, the second returned. The
     * listeners record the steps in the order ShutdownSteps gives.
     */
    method Shutdown(tlsOutcome: Option<string>, outcome: Option<string>) returns (err: Option<string>)
      requires Valid()
      modifies server, server.log, if httpsServer != null then {httpsServer.server} else {}
      ensures err == outcome
      ensures server.log.events == old(server.log.events) + ShutdownSteps(httpsServer != null)
      ensures !server.keepAlivesEnabled && !server.serving
      ensures httpsServer != null ==> !httpsServer.server.keepAlivesEnabled && !httpsServer.server.serving
    {
      server.SetKeepAlivesEnabled(false);
      if httpsServer != null {
        var _ := httpsServer.Shutdown(tlsOutcome);
      }
      err := server.Shutdown(outcome);
    }
  }

  /**
   * A CONNECT request is tunnelled even when it names the admin domain; it is
   * dialled to the loopback TLS listener ("127.0.0.1:3129") when that listener
   * exists and the Host header's name is mapped, and to the request's own URL
   * host otherwise.
   */
  lemma ConnectTunnelTarget(p: ProxyServer, httpsPort: string, pemPath: string, keyPath: string, r: Request)
    requires p.httpsServer != null <==> TlsEnabled(httpsPort, pemPath, keyPath, p.mapping)
    requires p.httpsServer != null ==> p.httpsServer.server.addr == ":" + HttpsListenPort
    requires r.httpMethod == ConnectMethod
    ensures p.Route(r).Tunnel?
    ensures var dial := DialTarget(p.Route(r).targetHost, r.url.host);
            if TlsEnabled(httpsPort, pemPath, keyPath, p.mapping) && FindRewrite(r.host, p.mapping) != ""
            then dial == "127.0.0.1:3129"
            else dial == r.url.host
  {
    if TlsEnabled(httpsPort, pemPath, keyPath, p.mapping) && FindRewrite(r.host, p.mapping) != "" {
      assert ":" + HttpsListenPort == ":3129";
      assert p.TlsAddr() == Some(":3129");
      assert Loopback + ":3129" == "127.0.0.1:3129";
      assert p.Route(r).targetHost == "127.0.0.1:3129";
    }
  }

  /**
   * Every other request goes to the admin pages when its Host is the admin domain
   * and through RewriteHTTP, with the proxy's mapping, otherwise.
   */
  lemma NonConnectRoute(p: ProxyServer, r: Request)
    requires r.httpMethod != ConnectMethod
    ensures p.Route(r) == if r.host == AdminDomain then Admin else Rewrite
  {
  }
}
