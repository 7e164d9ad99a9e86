/**
 * What the two aiohttp servers share: one route table entry per `add_get`,
 * the plain-text response of a view, and reading the bound port back from
 * the started site's name (`http://host:port`).
 */
module Web {
  import opened Wrappers
  import opened Text
  import Bytes

  datatype Request = Request(verb: string, path: string)

  /** `web.Response(text=...)`: status 200, `text/plain`, the text encoded as UTF-8. */
  datatype Response = Response(status: int, contentType: string, body: seq<Bytes.byte>)

  /** A registered route: method, path, and the text its view answers with. */
  datatype Route = Route(verb: string, path: string, text: string)

  function TextResponse(text: string): (r: Response)
    ensures r.status == 200 && r.contentType == "text/plain"
    ensures Bytes.Decode(r.body) == Some(text)
  {
    Bytes.DecodeEncode(text);
    Response(200, "text/plain", Bytes.Encode(text))
  }

  /** `router.add_get(path, view)`. */
  function AddGet(routes: seq<Route>, path: string, text: string): (r: seq<Route>)
    ensures |r| == |routes| + 1 && r[..|routes|] == routes && r[|routes|] == Route("GET", path, text)
  {
    routes + [Route("GET", path, text)]
  }

  /** The first route whose method and path match the request answers it; None is aiohttp's 404 or 405. */
  function Dispatch(routes: seq<Route>, req: Request): (r: Option<Response>)
    ensures r.None? <==> forall i :: 0 <= i < |routes| ==> routes[i].verb != req.verb || routes[i].path != req.path
    ensures r.Some? ==> exists i :: 0 <= i < |routes| && routes[i].verb == req.verb && routes[i].path == req.path
                                   && r.value == TextResponse(routes[i].text)
  {
    if routes == [] then None
    else if routes[0].verb == req.verb && routes[0].path == req.path then Some(TextResponse(routes[0].text))
    else
      var r := Dispatch(routes[1..], req);
      assert forall i :: 1 <= i < |routes| ==> routes[i] == routes[1..][i - 1];
      r
  }

  /** A table of one `GET` route answers exactly `GET` on that path, always with the same text. */
  lemma OneRoute(path: string, text: string, req: Request)
    ensures var r := Dispatch(AddGet([], path, text), req);
      && (r.Some? <==> req.verb == "GET" && req.path == path)
      && (r.Some? ==> r.value == TextResponse(text))
  {
  }

  datatype PortError = NoColon | NotAnInteger

  /** `name[name.rindex(':') + 1:]`, or `None` where rindex raises ValueError. */
  function AfterLastColon(name: string): (r: Option<string>)
    ensures r.None? <==> LastIndexOf(name, ':').None?
    ensures r.Some? ==> r.value == name[LastIndexOf(name, ':').value + 1..]
  {
    match LastIndexOf(name, ':')
    case None => None
    case Some(i) => Some(name[i + 1..])
  }

  /**
   * `int(name[name.rindex(':') + 1:])`: rindex raises ValueError when there is
   * no colon, int() when the tail is not an integer.
   */
  function PortFromSiteName(name: string): (r: Result<int, PortError>)
    ensures r == Err(NoColon) <==> LastIndexOf(name, ':').None?
    ensures r == Err(NotAnInteger) <==>
      AfterLastColon(name).Some? && PyInt(AfterLastColon(name).value).None?
    ensures r.Ok? <==> AfterLastColon(name).Some? && PyInt(AfterLastColon(name).value).Some?
    ensures r.Ok? ==> PyInt(AfterLastColon(name).value) == Some(r.value)
  {
    match AfterLastColon(name)
    case None => Err(NoColon)
    case Some(tail) =>
      match PyInt(tail)
      case None => Err(NotAnInteger)
      case Some(n) => Ok(n)
  }

  lemma NoColonInDecimal(n: int)
    ensures forall i :: 0 <= i < |IntToDecimal(n)| ==> IntToDecimal(n)[i] != ':'
  {
    var s := IntToDecimal(n);
    var d := NatToDecimal(if n < 0 then -n else n);
    assert forall i :: 0 <= i < |d| ==> d[i] != ':';
    if n < 0 {
      assert forall i :: 1 <= i < |s| ==> s[i] == d[i - 1];
    }
  }

  /** Whatever comes before it, the number after the last colon is the port. */
  lemma PortFromSiteNameOf(prefix: string, port: int)
    ensures PortFromSiteName(prefix + ":" + IntToDecimal(port)) == Ok(port)
  {
    var name := prefix + ":" + IntToDecimal(port);
    NoColonInDecimal(port);
    assert name[|prefix|] == ':';
    assert name[|prefix| + 1..] == IntToDecimal(port);
    assert forall i :: |prefix| < i < |name| ==> name[i] == IntToDecimal(port)[i - |prefix| - 1];
    assert LastIndexOf(name, ':') == Some(|prefix|);
    PyIntOfDecimal(port);
  }
}
