/**
 * The older entry script: it binds a listening socket to an OS-assigned
 * port, then broadcasts four newline-separated fields forever. Its
 * configuration is a `server` section of the YAML file.
 */
module LegacyMain {
  import opened Wrappers
  import opened Text
  import opened Paths
  import opened FileSystems
  import opened Config
  import Bytes
  import Udp

  const Tag := "pipe2phone"
  /** The file name `--config` defaults to, under the home directory. */
  const DefaultFilename := ".pipe2phone.yml"

  /** The keys of the `server` section the script reads. */
  datatype LegacyServer = LegacyServer(
    listenAddress: Field<string>,
    title: Field<string>,
    description: Field<string>,
    broadcastPort: Field<int>,
    broadcastInterval: Field<real>)

  /** `--config`, or `Path.home() / '.pipe2phone.yml'` when it is not given. */
  function LegacyConfigFile(configArg: Option<string>, home: string): (p: Path)
    ensures Parsed(p)
    ensures configArg.None? ==> p.absolute == FromString(home).absolute && p.parts == FromString(home).parts + [DefaultFilename]
    ensures configArg.Some? ==> p == FromString(configArg.value)
  {
    if configArg.Some? then FromString(configArg.value)
    else
      NameAsPath(DefaultFilename);
      JoinPath(FromString(home), FromString(DefaultFilename))
  }

  /** `'\n'.join(['pipe2phone', str(listen_port), title, description])`. */
  function BroadcastMessage(port: int, title: string, description: string): (r: string)
    ensures r == Tag + "\n" + IntToDecimal(port) + "\n" + title + "\n" + description
  {
    var parts := [Tag, IntToDecimal(port), title, description];
    assert Join('\n', parts[2..]) == title + "\n" + description by {
      assert parts[2..][1..] == [description];
    }
    assert Join('\n', parts[1..]) == IntToDecimal(port) + "\n" + Join('\n', parts[2..]) by {
      assert parts[1..][1..] == parts[2..];
    }
    Join('\n', parts)
  }

  lemma NoNewlineInDecimal(n: int)
    ensures '\n' !in IntToDecimal(n)
  {
    var s := IntToDecimal(n);
    if n >= 0 {
      assert forall i :: 0 <= i < |s| ==> IsDigit(s[i]);
    } else {
      var d := NatToDecimal(-n);
      assert s == "-" + d;
      assert forall i :: 0 <= i < |d| ==> IsDigit(d[i]);
      assert forall i :: 1 <= i < |s| ==> s[i] == d[i - 1];
    }
  }

  /**
   * A listener splitting the message at newlines gets the four fields back
   * exactly when neither the title nor the description holds a newline,
   * and then reads the port back from the second field.
   */
  lemma ReadBroadcast(port: int, title: string, description: string)
    ensures Split(BroadcastMessage(port, title, description), '\n') == [Tag, IntToDecimal(port), title, description]
            <==> '\n' !in title && '\n' !in description
    ensures PyInt(IntToDecimal(port)) == Some(port)
  {
    var parts := [Tag, IntToDecimal(port), title, description];
    NoNewlineInDecimal(port);
    assert '\n' !in Tag;
    SplitJoin('\n', parts);
    assert (forall k :: 0 <= k < |parts| ==> '\n' !in parts[k]) <==> '\n' !in title && '\n' !in description by {
      assert parts[0] == Tag && parts[1] == IntToDecimal(port) && parts[2] == title && parts[3] == description;
    }
    PyIntOfDecimal(port);
  }

  /** What the script settled on before its loop: the message and where and how often it goes. */
  datatype Broadcast = Broadcast(message: string, port: Option<int>, interval: Option<real>)

  /**
   * Lines 33 to 45, in order: the listening address is bound (`bound`: the
   * port `getsockname` reports, `None` when binding fails), the message is
   * built, and the broadcast port and interval are read for the log line.
   * munch raises AttributeError for a missing key and for any key of a null
   * section; `bind` and `join` raise TypeError on a null address or text.
   */
  /** The script got past `bind`: the section and its address are there and a port was bound. */
  predicate Listening(server: Field<LegacyServer>, bound: Option<int>)
  {
    server.Present? && server.value.listenAddress.Present? && bound.Some?
  }

  function Settings(server: Field<LegacyServer>, bound: Option<int>): (r: Result<Broadcast, Failure>)
    ensures server.Missing? ==> r == Err(AttributeError("server"))
    ensures server.Null? ==> r == Err(AttributeError("listen_address"))
    // `bind((cfg.server.listen_address, 0))`
    ensures server.Present? && server.value.listenAddress.Missing? ==> r == Err(AttributeError("listen_address"))
    ensures server.Present? && server.value.listenAddress.Null? ==> r == Err(TypeError)
    ensures server.Present? && server.value.listenAddress.Present? && bound.None? ==> r == Err(SiteStartError)
    // the list holding title and description is built before `join` raises
    ensures Listening(server, bound) && server.value.title.Missing? ==> r == Err(AttributeError("title"))
    ensures Listening(server, bound) && !server.value.title.Missing? && server.value.description.Missing? ==>
      r == Err(AttributeError("description"))
    ensures (Listening(server, bound) && !server.value.title.Missing? && !server.value.description.Missing?
             && (server.value.title.Null? || server.value.description.Null?)) ==> r == Err(TypeError)
    // the port and the interval are read after the message is built
    ensures (Listening(server, bound) && server.value.title.Present? && server.value.description.Present?
             && server.value.broadcastPort.Missing?) ==> r == Err(AttributeError("broadcast_port"))
    ensures (Listening(server, bound) && server.value.title.Present? && server.value.description.Present?
             && server.value.broadcastPort != Missing && server.value.broadcastInterval.Missing?) ==>
      r == Err(AttributeError("broadcast_interval"))
    ensures r.Ok? <==> && server.Present? && server.value.listenAddress.Present? && bound.Some?
                       && server.value.title.Present? && server.value.description.Present?
                       && server.value.broadcastPort != Missing && server.value.broadcastInterval != Missing
    ensures r.Ok? ==> r.value.message == BroadcastMessage(bound.value, server.value.title.value, server.value.description.value)
    ensures r.Ok? ==> && (r.value.port.Some? <==> server.value.broadcastPort.Present?)
                      && (r.value.port.Some? ==> r.value.port.value == server.value.broadcastPort.value)
                      && (r.value.interval.Some? <==> server.value.broadcastInterval.Present?)
                      && (r.value.interval.Some? ==> r.value.interval.value == server.value.broadcastInterval.value)
  {
    match server
    case Missing => Err(AttributeError("server"))
    case Null => Err(AttributeError("listen_address"))
    case Present(s) =>
      match Get(s.listenAddress, "listen_address")
      case Err(e) => Err(e)
      case Ok(None) => Err(TypeError)
      case Ok(Some(_)) =>
        if bound.None? then Err(SiteStartError)
        else
          match (Get(s.title, "title"), Get(s.description, "description"))
          case (Err(e), _) => Err(e)
          case (_, Err(e)) => Err(e)
          case (Ok(None), _) => Err(TypeError)
          case (_, Ok(None)) => Err(TypeError)
          case (Ok(Some(title)), Ok(Some(description))) =>
            match (Get(s.broadcastPort, "broadcast_port"), Get(s.broadcastInterval, "broadcast_interval"))
            case (Err(e), _) => Err(e)
            case (_, Err(e)) => Err(e)
            case (Ok(port), Ok(interval)) => Ok(Broadcast(BroadcastMessage(bound.value, title, description), port, interval))
  }

  /** `time.sleep(interval)` raises TypeError for `None` and ValueError for a negative number. */
  function SleepError(interval: Option<real>): (r: Option<Failure>)
    ensures r.None? <==> interval.Some? && interval.value >= 0.0
  {
    if interval.None? then Some(TypeError)
    else if interval.value < 0.0 then Some(ValueError)
    else None
  }

  /**
   * Lines 20 to 45 up to the loop: the file is read and decoded as UTF-8,
   * `parse` stands for `yaml.load` and `munchify` and gives the `server`
   * section, and the settings are read from it.
   */
  function Startup(configArg: Option<string>, home: string, t: Tree, cwd: seq<string>,
                   parse: string -> Option<Field<LegacyServer>>, bound: Option<int>): (r: Result<Broadcast, Failure>)
    requires WellFormed(t) && NormalKey(cwd)
    ensures var b := ReadBytesAt(t, Resolve(LegacyConfigFile(configArg, home), cwd));
      && (b.Err? ==> r == Err(Os(b.error)))
      && (r.Ok? ==> b.Ok? && Bytes.Decode(b.value).Some? && parse(Bytes.Decode(b.value).value).Some?
                    && r == Settings(parse(Bytes.Decode(b.value).value).value, bound))
    ensures var b := ReadBytesAt(t, Resolve(LegacyConfigFile(configArg, home), cwd));
      && (b.Ok? && Bytes.Decode(b.value).None? ==> r == Err(UnicodeDecodeError))
      && (b.Ok? && Bytes.Decode(b.value).Some? && parse(Bytes.Decode(b.value).value).None? ==> r == Err(YamlError))
      && (b.Ok? && Bytes.Decode(b.value).Some? && parse(Bytes.Decode(b.value).value).Some? ==>
            r == Settings(parse(Bytes.Decode(b.value).value).value, bound))
  {
    match ReadBytesAt(t, Resolve(LegacyConfigFile(configArg, home), cwd))
    case Err(e) => Err(Os(e))
    case Ok(bytes) =>
      match Bytes.Decode(bytes)
      case None => Err(UnicodeDecodeError)
      case Some(text) =>
        match parse(text)
        case None => Err(YamlError)
        case Some(server) => Settings(server, bound)
  }

  /** How a run ends within the ticks modelled: the datagrams tried, and the exception that stopped it, if any. */
  datatype Outcome = Outcome(log: seq<Udp.Attempt>, error: Option<Failure>)

  /**
   * The whole script over as many loop iterations as `accepted` has
   * entries. Every tick sends the same encoded message; a failed send is
   * printed and the loop goes on; a sleep that raises ends the script.
   */
  method RunScript(configArg: Option<string>, home: string, t: Tree, cwd: seq<string>,
                   parse: string -> Option<Field<LegacyServer>>, bound: Option<int>, accepted: seq<bool>)
    returns (r: Outcome)
    requires WellFormed(t) && NormalKey(cwd)
    ensures var s := Startup(configArg, home, t, cwd, parse, bound);
      && (s.Err? ==> r == Outcome([], Some(s.error)))
      && (s.Ok? ==> |r.log| == if SleepError(s.value.interval).None? then |accepted| else Udp.Min(1, |accepted|))
      && (s.Ok? ==> forall k :: 0 <= k < |r.log| ==>
            r.log[k] == Udp.Attempt(Bytes.Encode(s.value.message), s.value.port, Udp.Addressable(s.value.port) && accepted[k]))
      && (s.Ok? ==> r.error == if accepted == [] then None else SleepError(s.value.interval))
  {
    var settings := Startup(configArg, home, t, cwd, parse, bound);
    if settings.Err? {
      return Outcome([], Some(settings.error));
    }
    var s := settings.value;
    var sleepError := SleepError(s.interval);
    var log := Udp.SendLoop(Bytes.Encode(s.message), s.port, sleepError.None?, accepted);
    r := Outcome(log, if accepted == [] then None else sleepError);
  }
}
