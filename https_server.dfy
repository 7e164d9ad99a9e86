/**
 * `HttpsServer`: as `HttpServer`, but the certificate chain is loaded into a
 * TLS context before the runner exists, and the site is bound to the secure
 * port.
 */
module HttpsServers {
  import opened Wrappers
  import opened Paths
  import opened FileSystems
  import opened Config
  import opened Web

  const IndexText := "Hello from secured server"

  /** `_setup_routes`: the index view on `GET /`. */
  function Routes(): (r: seq<Route>)
    ensures r == [Route("GET", "/", IndexText)]
  {
    AddGet([], "/", IndexText)
  }

  /** The server answers `GET /` with "Hello from secured server", whatever else the request holds, and nothing else. */
  lemma RoutesAnswer(req: Request)
    ensures var r := Dispatch(Routes(), req);
      && (r.Some? <==> req.verb == "GET" && req.path == "/")
      && (r.Some? ==> r.value.status == 200 && Bytes.Decode(r.value.body) == Some(IndexText))
  {
    OneRoute("/", IndexText, req);
  }

  /** What `load_cert_chain` is given: the certificate file, the key file and the key's password. */
  datatype TlsContext = TlsContext(certFile: Path, keyFile: Path, password: Option<string>)

  /**
   * The configuration reads before the runner is created, in source order:
   * the key file and the certificate file (logged), then the three arguments
   * of `load_cert_chain`. A missing file ends the program.
   */
  function TlsRequest(c: Configuration, t: Tree, cwd: seq<string>): (r: Result<TlsContext, Failure>)
    requires Parsed(c.configDir) && NormalKey(cwd)
    ensures r.Ok? ==> PrivateKeyFile(c, t, cwd) == Ok(r.value.keyFile) && SslCertFile(c, t, cwd) == Ok(r.value.certFile)
    ensures r.Ok? ==> PrivateKeyPassword(c) == Ok(r.value.password)
    ensures PrivateKeyFile(c, t, cwd).Err? ==> r == Err(PrivateKeyFile(c, t, cwd).error)
    ensures PrivateKeyFile(c, t, cwd).Ok? && SslCertFile(c, t, cwd).Err? ==> r == Err(SslCertFile(c, t, cwd).error)
    ensures PrivateKeyFile(c, t, cwd).Ok? && SslCertFile(c, t, cwd).Ok? ==>
      (r.Ok? <==> PrivateKeyPassword(c).Ok?) && (r.Err? ==> r.error == AttributeError("private_key_password"))
  {
    match PrivateKeyFile(c, t, cwd)
    case Err(e) => Err(e)
    case Ok(key) =>
      match SslCertFile(c, t, cwd)
      case Err(e) => Err(e)
      case Ok(cert) =>
        match PrivateKeyPassword(c)
        case Err(e) => Err(e)
        case Ok(password) => Ok(TlsContext(cert, key, password))
  }

  /**
   * The site request as written: `cfg.bind_address`, then `cfg.https_port`,
   * a property `Configuration` does not have, so the lookup raises.
   */
  function SiteRequestAsWritten(c: Configuration): (r: Result<(Option<string>, int), Failure>)
    ensures c.yaml.bindAddress.Missing? ==> r == Err(AttributeError("bind_address"))
  {
    match BindAddress(c)
    case Err(e) => Err(e)
    case Ok(host) => Err(AttributeError("https_port"))
  }

  /** As written, the secure server never gets a site, whatever the configuration. */
  lemma AsWrittenNeverBinds(c: Configuration)
    ensures SiteRequestAsWritten(c).Err?
    ensures c.yaml.bindAddress != Missing ==> SiteRequestAsWritten(c) == Err(AttributeError("https_port"))
  {
  }

  /** The site request as intended: `cfg.bind_address`, then `cfg.secure_port`. */
  function SiteRequest(c: Configuration): (r: Result<(Option<string>, int), Failure>)
    ensures r.Ok? <==> c.yaml.bindAddress != Missing && c.yaml.securePort != Missing
    ensures r.Ok? ==> r.value.0 == (if c.yaml.bindAddress.Present? then Some(c.yaml.bindAddress.value) else None)
    ensures r.Ok? ==> (r.value.1 == 0 <==> c.yaml.securePort.Null? || c.yaml.securePort == Present(0))
    ensures r.Ok? && c.yaml.securePort.Present? ==> r.value.1 == c.yaml.securePort.value
    ensures r.Err? ==> r.error == AttributeError(if c.yaml.bindAddress.Missing? then "bind_address" else "secure_port")
  {
    match BindAddress(c)
    case Err(e) => Err(e)
    case Ok(host) =>
      match SecurePort(c)
      case Err(e) => Err(e)
      case Ok(port) => Ok((host, port))
  }

  /** A TCP site with TLS: the address and port it was asked to bind and its context. */
  datatype Site = Site(host: Option<string>, requestedPort: int, tls: TlsContext)

  class HttpsServer {
    var routes: seq<Route>
    /** `self._runner` is not None. */
    var runnerSet: bool
    var tls: Option<TlsContext>
    var site: Option<Site>
    var started: bool
    /** `self.port`, which exists only once construction got that far. */
    var port: Option<int>
    var cleanedUp: bool

    /** The first lines of `__init__`: no runner yet, the routes registered. */
    constructor ()
      ensures routes == Routes() && !runnerSet && tls.None? && site.None? && !started && port.None? && !cleanedUp
    {
      routes := Routes();
      runnerSet := false;
      tls := None;
      site := None;
      started := false;
      port := None;
      cleanedUp := false;
    }

    /**
     * The first half of the rest of `__init__`: the TLS context is built from
     * the configured files (`tlsLoads`: whether OpenSSL accepts the files and
     * the password), and only then is the runner set up.
     */
    method LoadTls(c: Configuration, fs: FileSystem, tlsLoads: bool) returns (r: Result<(), Failure>)
      requires fs.Valid() && Parsed(c.configDir)
      modifies this
      ensures routes == old(routes) && cleanedUp == old(cleanedUp)
      ensures site == old(site) && started == old(started) && port == old(port)
      ensures tls == (if TlsRequest(c, fs.tree, fs.cwd).Ok? then Some(TlsRequest(c, fs.tree, fs.cwd).value) else old(tls))
      ensures runnerSet == (old(runnerSet) || (TlsRequest(c, fs.tree, fs.cwd).Ok? && tlsLoads))
      ensures r.Ok? <==> TlsRequest(c, fs.tree, fs.cwd).Ok? && tlsLoads
      ensures TlsRequest(c, fs.tree, fs.cwd).Err? ==> r == Err(TlsRequest(c, fs.tree, fs.cwd).error)
      ensures TlsRequest(c, fs.tree, fs.cwd).Ok? && !tlsLoads ==> r == Err(SslError)
    {
      var context := TlsRequest(c, fs.tree, fs.cwd);
      if context.Err? {
        return Err(context.error);
      }
      tls := Some(context.value);
      if !tlsLoads {
        return Err(SslError);
      }
      runnerSet := true;
      r := Ok(());
    }

    /**
     * The second half: the site is created on the secure port with the
     * loaded context and started, and the port is read from the site's name.
     */
    method Serve(c: Configuration, siteStarts: bool, siteName: string) returns (r: Result<(), Failure>)
      requires tls.Some? && site.None? && !started && port.None?
      modifies this
      ensures routes == old(routes) && cleanedUp == old(cleanedUp) && runnerSet == old(runnerSet) && tls == old(tls)
      ensures site == (if SiteRequest(c).Ok? then Some(Site(SiteRequest(c).value.0, SiteRequest(c).value.1, tls.value)) else None)
      ensures started <==> SiteRequest(c).Ok? && siteStarts
      ensures port.Some? ==> started
      ensures r.Ok? <==> started && PortFromSiteName(siteName).Ok?
      ensures r.Ok? ==> port == Some(PortFromSiteName(siteName).value)
      ensures r.Err? ==> port.None?
    {
      var request := SiteRequest(c);
      if request.Err? {
        return Err(request.error);
      }
      site := Some(Site(request.value.0, request.value.1, tls.value));
      if !siteStarts {
        return Err(SiteStartError);
      }
      started := true;
      var p := PortFromSiteName(siteName);
      if p.Err? {
        return Err(ValueError);
      }
      port := Some(p.value);
      r := Ok(());
    }

    /**
     * The rest of `__init__`: TLS first, then the site. A failure while
     * loading TLS leaves no runner behind, so `__del__` has nothing to clean.
     */
    method Start(c: Configuration, fs: FileSystem, tlsLoads: bool, siteStarts: bool, siteName: string)
      returns (r: Result<(), Failure>)
      requires fs.Valid() && Parsed(c.configDir)
      requires !runnerSet && tls.None? && site.None? && !started && port.None?
      modifies this
      ensures routes == old(routes) && cleanedUp == old(cleanedUp)
      ensures runnerSet <==> TlsRequest(c, fs.tree, fs.cwd).Ok? && tlsLoads
      ensures runnerSet ==> tls == Some(TlsRequest(c, fs.tree, fs.cwd).value)
      ensures site.Some? ==> runnerSet && SiteRequest(c).Ok? && site.value == Site(SiteRequest(c).value.0, SiteRequest(c).value.1, tls.value)
      ensures runnerSet && SiteRequest(c).Ok? ==> site.Some?
      ensures started <==> site.Some? && siteStarts
      ensures r.Ok? <==> started && PortFromSiteName(siteName).Ok?
      ensures r.Ok? ==> port == Some(PortFromSiteName(siteName).value)
      ensures r.Err? ==> port.None?
    {
      r := LoadTls(c, fs, tlsLoads);
      if r.Ok? {
        r := Serve(c, siteStarts, siteName);
      }
    }

    /** `__del__`: nothing to clean when construction failed before the runner was set. */
    method Finalize() returns (cleaned: bool)
      modifies this
      ensures cleaned == old(runnerSet)
      ensures cleanedUp == (old(cleanedUp) || old(runnerSet))
      ensures runnerSet == old(runnerSet) && tls == old(tls) && site == old(site) && port == old(port)
      ensures routes == old(routes)
    {
      cleaned := runnerSet;
      if runnerSet {
        cleanedUp := true;
      }
    }
  }
}
