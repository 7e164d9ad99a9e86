/**
 * The `Advertiser`: the discovery broadcast. The message is a JSON array of
 * nine values, built once from the configuration and the servers' resolved
 * ports and encoded as UTF-8. The same bytes are then sent on every tick.
 */
module Broadcasts {
  import opened Wrappers
  import opened Paths
  import opened FileSystems
  import opened Config
  import Bytes
  import Json
  import Udp
  import HttpServers

  const ProtocolVersion := 1
  /** The first element of every payload, which identifies the protocol. */
  const Tag := "pipe2phone"

  /** What the broadcast tells the app: `None` stands for a YAML null title or description. */
  datatype Descriptor = Descriptor(
    title: Option<string>,
    description: Option<string>,
    user: string,
    hostname: string,
    httpPort: int,
    securePort: int,
    certHash: string)

  /** `json.dumps` writes `None` as `null`. */
  function OptionalValue(s: Option<string>): (v: Json.Value)
    ensures v.Null? <==> s.None?
    ensures s.Some? ==> v == Json.Str(s.value)
  {
    if s.Some? then Json.Str(s.value) else Json.Null
  }

  /** The list handed to `json.dumps`, in its fixed order. */
  function Payload(d: Descriptor): (r: seq<Json.Value>)
    ensures |r| == 9
    ensures r[0] == Json.Str(Tag) && r[1] == Json.Int(ProtocolVersion)
    ensures r[2] == OptionalValue(d.title) && r[3] == OptionalValue(d.description)
    ensures r[4] == Json.Str(d.user) && r[5] == Json.Str(d.hostname)
    ensures r[6] == Json.Int(d.httpPort) && r[7] == Json.Int(d.securePort) && r[8] == Json.Str(d.certHash)
  {
    [Json.Str(Tag), Json.Int(ProtocolVersion), OptionalValue(d.title), OptionalValue(d.description),
     Json.Str(d.user), Json.Str(d.hostname), Json.Int(d.httpPort), Json.Int(d.securePort), Json.Str(d.certHash)]
  }

  /** `json.dumps([...]).encode()`. */
  /** The datagram: the payload dumped as JSON and UTF-8 encoded; a receiver decodes it back to the JSON text. */
  function Message(d: Descriptor): (r: seq<Bytes.byte>)
    ensures Bytes.Decode(r) == Some(Json.Dumps(Payload(d)))
  {
    Bytes.DecodeEncode(Json.Dumps(Payload(d)));
    Bytes.Encode(Json.Dumps(Payload(d)))
  }

  function OptionalOf(v: Json.Value): Option<Option<string>>
  {
    match v
    case Null => Some(None)
    case Str(s) => Some(Some(s))
    case Int(_) => None
  }

  /**
   * How a listener reads a payload: nine values, the tag first, and a
   * version it understands; anything else is ignored.
   */
  function FromPayload(vs: seq<Json.Value>): (r: Option<Descriptor>)
    ensures r.Some? ==> |vs| == 9 && vs[0] == Json.Str(Tag) && vs[1] == Json.Int(ProtocolVersion)
    ensures r.Some? ==> vs[6] == Json.Int(r.value.httpPort) && vs[7] == Json.Int(r.value.securePort)
    ensures r.Some? ==> vs[8] == Json.Str(r.value.certHash)
  {
    if |vs| == 9 && vs[0] == Json.Str(Tag) && vs[1] == Json.Int(ProtocolVersion)
       && OptionalOf(vs[2]).Some? && OptionalOf(vs[3]).Some?
       && vs[4].Str? && vs[5].Str? && vs[6].Int? && vs[7].Int? && vs[8].Str?
    then Some(Descriptor(OptionalOf(vs[2]).value, OptionalOf(vs[3]).value, vs[4].s, vs[5].s,
                         vs[6].i, vs[7].i, vs[8].s))
    else None
  }

  /** A datagram as a listener reads it: UTF-8, then one JSON array, then the payload. */
  function ReadAdvertisement(b: seq<Bytes.byte>): Option<Descriptor>
  {
    match Bytes.Decode(b)
    case None => None
    case Some(text) =>
      match Json.ReadArray(text)
      case None => None
      case Some(vs) => FromPayload(vs)
  }

  /** Reading a payload and building it again gives the same list: the reader loses nothing. */
  lemma PayloadOfRead(vs: seq<Json.Value>)
    requires FromPayload(vs).Some?
    ensures Payload(FromPayload(vs).value) == vs
  {
    var p := Payload(FromPayload(vs).value);
    assert p[2] == vs[2] && p[3] == vs[3] && p[4] == vs[4] && p[5] == vs[5];
  }

  /** A listener recovers exactly the descriptor the advertiser sent. */
  lemma ReadMessage(d: Descriptor)
    ensures ReadAdvertisement(Message(d)) == Some(d)
  {
    var vs := Payload(d);
    var text := Json.Dumps(vs);
    Bytes.DecodeEncode(text);
    Json.ReadDumps(vs);
    FromPayloadOf(d);
  }

  lemma FromPayloadOf(d: Descriptor)
    ensures FromPayload(Payload(d)) == Some(d)
  {
  }

  /** A message with another tag or another protocol version is ignored by the listener. */
  lemma RejectsForeignPayload(vs: seq<Json.Value>)
    requires |vs| < 2 || vs[0] != Json.Str(Tag) || vs[1] != Json.Int(ProtocolVersion)
    ensures ReadAdvertisement(Bytes.Encode(Json.Dumps(vs))) == None
  {
    Bytes.DecodeEncode(Json.Dumps(vs));
    Json.ReadDumps(vs);
  }

  /**
   * `ensure_ascii` makes every message printable ASCII, so each byte of the
   * datagram is the code of one character of the JSON text.
   */
  lemma MessageIsAscii(d: Descriptor)
    ensures |Message(d)| == |Json.Dumps(Payload(d))|
    ensures forall i :: 0 <= i < |Message(d)| ==> 0x20 <= Message(d)[i] as int < 0x7F
  {
    var s := Json.Dumps(Payload(d));
    Json.DumpsPrintable(Payload(d));
    assert Bytes.IsAscii(s) by {
      forall i | 0 <= i < |s| ensures s[i] as int < 0x80 {
        assert Json.IsPrintable(s[i]);
      }
    }
    Bytes.EncodeAscii(s);
    forall i | 0 <= i < |Message(d)| ensures 0x20 <= Message(d)[i] as int < 0x7F {
      assert Json.IsPrintable(s[i]);
    }
  }

  /** Whether `asyncio.sleep(interval)` returns: `None` raises TypeError, a number (even negative) does not. */
  predicate SleepReturns(interval: Option<real>)
  {
    interval.Some?
  }

  class Advertiser {
    const port: Option<int>
    const interval: Option<real>
    /** `self._msg`: built once, sent unchanged on every tick. */
    const msg: seq<Bytes.byte>
    /** The datagrams `_run` has tried to send so far. */
    var attempts: seq<Udp.Attempt>

    constructor (port: Option<int>, interval: Option<real>, msg: seq<Bytes.byte>)
      ensures this.port == port && this.interval == interval && this.msg == msg && attempts == []
    {
      this.port := port;
      this.interval := interval;
      this.msg := msg;
      attempts := [];
    }

    /**
     * `_run` for as many ticks as `accepted` has entries (whether the
     * operating system takes each datagram). Every tick sends the same
     * message to the same port; a failed send does not end the loop, a
     * sleep that raises does.
     */
    method Run(accepted: seq<bool>)
      modifies this
      ensures |attempts| == |old(attempts)| + (if SleepReturns(interval) then |accepted| else Udp.Min(1, |accepted|))
      ensures attempts[..|old(attempts)|] == old(attempts)
      ensures forall k :: |old(attempts)| <= k < |attempts| ==>
        attempts[k] == Udp.Attempt(msg, port, Udp.Addressable(port) && accepted[k - |old(attempts)|])
    {
      var log := Udp.SendLoop(msg, port, SleepReturns(interval), accepted);
      attempts := attempts + log;
    }
  }

  /**
   * `Advertiser.__init__`, reading the configuration in source order:
   * `advertising_port`, `advertising_interval`, the certificate's bytes,
   * `server_title` and `server_description` (which, as written, is the title
   * again). `user`, `hostname` and `sha256` stand for `getpass.getuser()`,
   * `socket.gethostname()` and the SHA-256 digest, 32 bytes long; the secure
   * server is given by its resolved port.
   */
  method NewAdvertiser(c: Configuration, fs: FileSystem, http: HttpServers.HttpServer, securePort: int,
                       user: string, hostname: string, sha256: seq<Bytes.byte> -> seq<Bytes.byte>)
    returns (r: Result<Advertiser, Failure>)
    requires fs.Valid() && Parsed(c.configDir) && http.port.Some?
    requires forall data :: |sha256(data)| == 32
    ensures r.Ok? ==> fresh(r.value) && r.value.attempts == []
    ensures r.Ok? <==> && AdvertisingPort(c).Ok? && AdvertisingInterval(c).Ok? && SslCertFile(c, fs.tree, fs.cwd).Ok?
                       && fs.ReadBytes(SslCertFile(c, fs.tree, fs.cwd).value).Ok? && ServerTitle(c).Ok?
    ensures r.Ok? ==> r.value.port == AdvertisingPort(c).value && r.value.interval == AdvertisingInterval(c).value
    ensures r.Ok? ==> var hash := Bytes.HexDigest(sha256(fs.ReadBytes(SslCertFile(c, fs.tree, fs.cwd).value).value));
      && |hash| == 64
      && r.value.msg == Message(Descriptor(ServerTitle(c).value, ServerDescriptionAsWritten(c).value, user, hostname,
                                           http.port.value, securePort, hash))
    ensures r.Ok? ==> && ReadAdvertisement(r.value.msg).Some?
                      && ReadAdvertisement(r.value.msg).value.title == ReadAdvertisement(r.value.msg).value.description
  {
    var port := AdvertisingPort(c);
    if port.Err? {
      return Err(port.error);
    }
    var interval := AdvertisingInterval(c);
    if interval.Err? {
      return Err(interval.error);
    }
    var certFile := SslCertFile(c, fs.tree, fs.cwd);
    if certFile.Err? {
      return Err(certFile.error);
    }
    var cert := fs.ReadBytes(certFile.value);
    if cert.Err? {
      return Err(Os(cert.error));
    }
    var hash := Bytes.HexDigest(sha256(cert.value));
    var title := ServerTitle(c);
    if title.Err? {
      return Err(title.error);
    }
    var description := ServerDescriptionAsWritten(c);
    var d := Descriptor(title.value, description.value, user, hostname, http.port.value, securePort, hash);
    ReadMessage(d);
    var a := new Advertiser(port.value, interval.value, Message(d));
    r := Ok(a);
  }
}
