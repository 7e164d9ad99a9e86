/**
 * `HttpServer`: an aiohttp application with one route, bound to the
 * configured address and HTTP port; `port` is read back from the started
 * site's name.
 */
module HttpServers {
  import opened Wrappers
  import opened Config
  import opened Web

  const IndexText := "Hello world"

  /** `_setup_routes`: the index view on `GET /`. */
  function Routes(): (r: seq<Route>)
    ensures r == [Route("GET", "/", IndexText)]
  {
    AddGet([], "/", IndexText)
  }

  /** The server answers `GET /` with "Hello world", whatever else the request holds, and nothing else. */
  lemma RoutesAnswer(req: Request)
    ensures var r := Dispatch(Routes(), req);
      && (r.Some? <==> req.verb == "GET" && req.path == "/")
      && (r.Some? ==> r.value.status == 200 && Bytes.Decode(r.value.body) == Some(IndexText))
  {
    OneRoute("/", IndexText, req);
  }

  /** The address and port `web.TCPSite` is given: `cfg.bind_address`, then `cfg.http_port`. */
  function SiteRequest(c: Configuration): (r: Result<(Option<string>, int), Failure>)
    ensures r.Ok? <==> c.yaml.bindAddress != Missing && c.yaml.httpPort != Missing
    ensures r.Ok? ==> r.value.0 == (if c.yaml.bindAddress.Present? then Some(c.yaml.bindAddress.value) else None)
    ensures r.Ok? ==> (r.value.1 == 0 <==> c.yaml.httpPort.Null? || c.yaml.httpPort == Present(0))
    ensures r.Ok? && c.yaml.httpPort.Present? ==> r.value.1 == c.yaml.httpPort.value
    ensures r.Err? ==> r.error == AttributeError(if c.yaml.bindAddress.Missing? then "bind_address" else "http_port")
  {
    match BindAddress(c)
    case Err(e) => Err(e)
    case Ok(host) =>
      match HttpPort(c)
      case Err(e) => Err(e)
      case Ok(port) => Ok((host, port))
  }

  /** A TCP site: the address and port it was asked to bind. */
  datatype Site = Site(host: Option<string>, requestedPort: int)

  class HttpServer {
    var routes: seq<Route>
    /** `self._runner` is not None. */
    var runnerSet: bool
    var site: Option<Site>
    var started: bool
    /** `self.port`, which exists only once construction got that far. */
    var port: Option<int>
    var cleanedUp: bool

    /** The first lines of `__init__`: no runner yet, the routes registered. */
    constructor ()
      ensures routes == Routes() && !runnerSet && site.None? && !started && port.None? && !cleanedUp
    {
      routes := Routes();
      runnerSet := false;
      site := None;
      started := false;
      port := None;
      cleanedUp := false;
    }

    /**
     * The rest of `__init__`: the runner is set up, the site is created from
     * the configuration and started, and the port is read from the site's
     * name. Starting the socket and the name it reports are inputs.
     */
    method Start(c: Configuration, siteStarts: bool, siteName: string) returns (r: Result<(), Failure>)
      requires !runnerSet && site.None? && !started && port.None?
      modifies this
      ensures routes == old(routes) && cleanedUp == old(cleanedUp)
      ensures runnerSet
      ensures site == (if SiteRequest(c).Ok? then Some(Site(SiteRequest(c).value.0, SiteRequest(c).value.1)) else None)
      ensures started <==> SiteRequest(c).Ok? && siteStarts
      ensures port.Some? ==> started
      ensures r.Ok? <==> started && PortFromSiteName(siteName).Ok?
      ensures r.Ok? ==> port == Some(PortFromSiteName(siteName).value)
      ensures r.Err? ==> port.None?
    {
      runnerSet := true;
      var request := SiteRequest(c);
      if request.Err? {
        return Err(request.error);
      }
      site := Some(Site(request.value.0, request.value.1));
      if !siteStarts {
        return Err(SiteStartError);
      }
      started := true;
      var p := PortFromSiteName(siteName);
      if p.Err? {
        return Err(ValueError);
      }
      port := Some(p.value);
      r := Ok(());
    }

    /** `__del__`: the runner is cleaned up only when one was set, also after a failed construction. */
    method Finalize() returns (cleaned: bool)
      modifies this
      ensures cleaned == old(runnerSet)
      ensures cleanedUp == (old(cleanedUp) || old(runnerSet))
      ensures runnerSet == old(runnerSet) && site == old(site) && port == old(port) && routes == old(routes)
    {
      cleaned := runnerSet;
      if runnerSet {
        cleanedUp := true;
      }
    }
  }
}
