# pipe2phone server core, modelled in Dafny

pipe2phone lets a phone app find a desktop server on the local network and
connect to it. This project models the Python server's core:

- **Configuration** (`server/pipe2phone/config.py`): where the configuration
  file is, the first-run creation of `~/.pipe2phone` (the directory, the
  copied template, and a private key and certificate touched with mode
  `0o600`), loading the YAML file, and the properties the servers read. These
  include the `x or 0` port defaults and `_resolve_path`, which resolves a
  path relative to the configuration directory and exits when it is missing.
  Paths are modelled lexically (`Paths`) over a file system of directories and
  regular files with permission bits and a umask (`FileSystems`).
- **HTTP server** (`server/pipe2phone/http_server.py`): one `GET /` route
  answering "Hello world". The site is bound to `bind_address` and
  `http_port`, and `port` is read back from the started site's name with
  `rindex(':')` and `int()`. The runner is cleaned up only when it was set.
- **Secure server** (`server/pipe2phone/https_server.py`): the same shape. The
  TLS context is loaded from the key file, the certificate file and the key
  password before the runner exists. The route answers "Hello from secured
  server".
- **Advertiser** (`server/pipe2phone/broadcasts.py`): the discovery message
  is a JSON array of nine values, UTF-8 encoded, built once:
  - the tag `"pipe2phone"`;
  - protocol version 1;
  - the title, twice: `server_description` returns the title as written (see
    "## Findings");
  - user and host;
  - the two servers' resolved ports;
  - the certificate's SHA-256 hex digest.

  `_run` sends it on every tick. A failed send is swallowed, and a sleep that
  raises ends the loop.
- **Legacy script** (`server/pipe2phone/__main__.py`): the script binds a
  listening socket to port 0. It then broadcasts
  `"pipe2phone\n<port>\n<title>\n<description>"` forever.

Python's library behaviour that these depend on is written out in small
modules:
- `str(int)`, `int(str)` and `str.rindex`, `join` and `split` (`Text`);
- UTF-8 and `hexdigest` (`Bytes`);
- `json.dumps` with its default `ensure_ascii`, together with a reader for its
  output (`Json`).

Each operation is paired with its inverse or with a lemma about it:
- JSON, UTF-8, hex, decimal, path rendering and the newline message each have
  a round-trip lemma;
- a fresh install changes only the four new entries;
- the broadcast loop records one attempt per tick.

Source references below are relative to the repository root.

## Model

| member | source | states |
|---|---|---|
| Text.IntToDecimal | server/pipe2phone/__main__.py:44 | `str(n)`: non-empty, with a leading `-` exactly for negative numbers |
| Text.PyIntOfDecimal | server/pipe2phone/http_server.py:31 | `int(str(n)) == n` for every integer, so a port printed in a site name reads back unchanged |
| Text.LastIndexOf | server/pipe2phone/http_server.py:31 | `rindex`: the index holds the character and no later index does; `None` (ValueError) exactly when the character is absent |
| Text.SplitJoin | server/pipe2phone/__main__.py:44 | splitting a `sep.join` gives the parts back if and only if no part holds the separator |
| Text.JoinSplit | server/pipe2phone/__main__.py:44 | joining the parts of a split gives the string back |
| Bytes.DecodeEncode | server/pipe2phone/broadcasts.py:46 | UTF-8 decoding undoes `str.encode()` for every string |
| Bytes.DecodeCharCanonical | server/pipe2phone/config.py:48 | every sequence the strict decoder accepts is the shortest encoding of its character: no overlong forms, no surrogates |
| Bytes.EncodeDecode | server/pipe2phone/config.py:48 | whatever bytes decode, encoding the text gives exactly those bytes back |
| Bytes.RejectsOverlong | server/pipe2phone/config.py:48 | the overlong two-, three- and four-byte encodings of U+0000 are rejected |
| Bytes.EncodeAscii | server/pipe2phone/broadcasts.py:46 | on ASCII text `encode()` gives one byte per character, equal to its code |
| Bytes.Encode | server/pipe2phone/broadcasts.py:46 | `str.encode()`: between one and four bytes per character, and empty exactly for the empty string |
| Bytes.Decode | server/pipe2phone/config.py:48 | strict UTF-8 decoding: a decoded text has at most as many characters as there were bytes, and is empty exactly for no bytes |
| Bytes.HexDigest | server/pipe2phone/broadcasts.py:33 | `hexdigest()` has two lower-case hex digits per byte (64 for a SHA-256 digest) |
| Bytes.ParseHexDigest | server/pipe2phone/broadcasts.py:33 | the hex digest parses back to the digest bytes |
| Json.Dumps | server/pipe2phone/broadcasts.py:36-46 | the dumped text is a bracketed array |
| Json.DumpsPrintable | server/pipe2phone/broadcasts.py:36-46 | with `ensure_ascii`, every character of the output is printable ASCII |
| Json.ReadDumps | server/pipe2phone/broadcasts.py:36-46 | parsing the dumped text gives back the same list of values |
| Udp.SendLoop | server/pipe2phone/broadcasts.py:51-59 | one attempt per tick carrying the same payload and port. Delivered exactly when the port is addressable and the OS accepts it. A failed send does not end the loop; a sleep that raises ends it after one tick |
| Paths.FromString | server/pipe2phone/config.py:107 | `Path(s)` keeps only non-empty, non-`.` segments and is absolute exactly when `s` starts with `/` |
| Paths.RenderParse | server/pipe2phone/config.py:113 | parsing `str(p)` gives `p` back |
| Paths.ExpandUser | server/pipe2phone/config.py:34 | a leading `~` segment of a relative path becomes the home directory, anchored as it is, followed by the remaining segments; anything else is returned unchanged |
| Paths.ExpandUserChild | server/pipe2phone/config.py:38 | expanding `~` commutes with appending a file name |
| Paths.Parent | server/pipe2phone/config.py:35 | `.parent` drops the last segment; the root and `.` are their own parents |
| Paths.JoinPath | server/pipe2phone/config.py:109 | `base / rel` is base's segments followed by rel's for a relative `rel`, with base's anchoring, and is `rel` for an absolute one |
| Paths.Resolve | server/pipe2phone/config.py:111 | `resolve()` gives a key made of plain names only |
| Paths.ResolveNormal | server/pipe2phone/config.py:111 | an already resolved absolute path resolves to itself whatever the working directory |
| Paths.ResolveIdempotent | server/pipe2phone/config.py:111 | resolving twice is resolving once |
| Paths.ResolveRelative | server/pipe2phone/config.py:109-111 | a relative path without `..` resolves to the base followed by its segments |
| Paths.ResolveChild | server/pipe2phone/config.py:145-156 | resolving `dir / name` is resolving `dir` and appending `name` |
| Paths.ResolveUp | server/pipe2phone/config.py:111 | resolving `p / ".."` takes the resolved `p` one level up, and the root stays the root |
| Paths.NameAsPath | server/pipe2phone/config.py:21-23 | a single file name parses to one relative segment |
| FileSystems.DirectoryError | server/pipe2phone/config.py:143 | the kernel's walk fails exactly when the path is not an existing directory, with FileNotFound or NotADirectory |
| FileSystems.AddUnderDirectory | server/pipe2phone/config.py:143-158 | creating an entry inside an existing directory keeps every ancestor a directory |
| FileSystems.ReplaceFile | server/pipe2phone/config.py:152 | rewriting a regular file keeps the tree well formed |
| FileSystems.MakeDirAt | server/pipe2phone/config.py:143 | `mkdir()` succeeds exactly when the path is new and its parent is a directory; it adds one directory with `0o777 & ~umask`; an existing path gives FileExistsError |
| FileSystems.WriteBytesAt | server/pipe2phone/config.py:152 | `write_bytes` succeeds exactly on a regular file or a new entry in an existing directory; it keeps an existing file's mode, otherwise `0o666 & ~umask` |
| FileSystems.TouchAt | server/pipe2phone/config.py:151 | `touch(mode)` leaves an existing entry alone and otherwise creates an empty file with `mode & ~umask` |
| FileSystems.ReadBytesAt | server/pipe2phone/broadcasts.py:33 | `read_bytes` succeeds exactly on a regular file and returns its content |
| FileSystems.CopyFileAt | server/pipe2phone/config.py:146 | `copyfile` refuses the same file first, then needs a regular source file; for a regular source other than the destination the result is exactly writing its bytes to the destination |
| FileSystems.FileSystem.MakeDir | server/pipe2phone/config.py:143 | the tree becomes `MakeDirAt`'s result on success, is unchanged on error, and stays well formed |
| FileSystems.FileSystem.WriteBytes | server/pipe2phone/config.py:152 | as `MakeDir`, for `WriteBytesAt` |
| FileSystems.FileSystem.Touch | server/pipe2phone/config.py:151 | as `MakeDir`, for `TouchAt` |
| FileSystems.FileSystem.CopyFile | server/pipe2phone/config.py:146 | as `MakeDir`, for `CopyFileAt` |
| Config.Get | server/pipe2phone/config.py:53 | a munch lookup: AttributeError naming the key exactly when it is missing, `None` for null, the value otherwise |
| Config.PortOrZero | server/pipe2phone/config.py:73 | `x or 0`: 0 exactly for null or 0, the port otherwise; a missing key still raises AttributeError |
| Config.ServerTitle | server/pipe2phone/config.py:50-53 | `server_title`: AttributeError exactly when the key is missing, `None` for null, the value otherwise |
| Config.BindAddress | server/pipe2phone/config.py:65-68 | `bind_address`, as `ServerTitle` |
| Config.HttpPort | server/pipe2phone/config.py:70-73 | `http_port or 0`: AttributeError exactly when the key is missing, 0 for null, the port otherwise |
| Config.SecurePort | server/pipe2phone/config.py:75-78 | `secure_port or 0`, as `HttpPort` |
| Config.PrivateKeyPassword | server/pipe2phone/config.py:85-88 | `private_key_password`, as `ServerTitle`: `None` when the file gives no password |
| Config.AdvertisingPort | server/pipe2phone/config.py:95-98 | `advertising_port`, as `ServerTitle` (no `or 0` here) |
| Config.AdvertisingInterval | server/pipe2phone/config.py:100-103 | `advertising_interval`, as `ServerTitle` |
| Config.ServerDescriptionAsWritten | server/pipe2phone/config.py:56-58 | returns the title |
| Config.ServerPasswordAsWritten | server/pipe2phone/config.py:61-63 | returns the title |
| Config.AsWrittenIgnoresKeys | server/pipe2phone/config.py:56-63 | with a description and a password that differ from the title, neither property returns its own key's value |
| Config.ServerDescription | server/pipe2phone/config.py:56-58 | corrected: the `server_description` key, AttributeError exactly when it is missing |
| Config.ServerPassword | server/pipe2phone/config.py:61-63 | corrected: the `server_password` key, AttributeError exactly when it is missing |
| Config.Candidate | server/pipe2phone/config.py:107-109 | the user-expanded path itself when absolute; otherwise the configuration directory's segments followed by it, anchored as the directory is |
| Config.ResolvePath | server/pipe2phone/config.py:105-115 | succeeds exactly when the resolved candidate exists and returns it as an absolute path; otherwise exits with "ERROR: File does not exist: ..." |
| Config.ResolveAbsolute | server/pipe2phone/config.py:107-115 | an absolute resolved path that exists comes back unchanged |
| Config.ResolveUnderConfigDir | server/pipe2phone/config.py:108-115 | a plain relative path is found under the configuration directory whatever the working directory |
| Config.PrivateKeyFile | server/pipe2phone/config.py:83 | AttributeError for a missing `private_key`, TypeError (`Path(None)`) for a null one, `_resolve_path`'s outcome for a present one |
| Config.SslCertFile | server/pipe2phone/config.py:93 | as `PrivateKeyFile`, for `ssl_cert` |
| Config.DefaultDirectory | server/pipe2phone/config.py:138 | `~/.pipe2phone` expanded: the home directory followed by `.pipe2phone` |
| Config.Child | server/pipe2phone/config.py:145 | `dir / name` appends exactly that one segment |
| Config.FixedNames | server/pipe2phone/config.py:21-23 | the three file names are plain names |
| Config.DefaultConfigFile | server/pipe2phone/config.py:38 | the home directory followed by `.pipe2phone` and `pipe2phone.yml` |
| Config.ConfigFilePath | server/pipe2phone/config.py:34-39 | the user-expanded `--config` value; without `--config` exactly the default file, so a first run can create it |
| Config.FreshInstallAddsOnly | server/pipe2phone/config.py:136-159 | a first run adds exactly the directory and three files, leaves every existing entry as it was, and gives key and certificate `0o600 & ~umask` |
| Config.NothingUnderMissing | server/pipe2phone/config.py:139-143 | a missing directory has no entries below it |
| Config.ChildKeys | server/pipe2phone/config.py:145-156 | the three files are distinct entries directly inside the directory |
| Config.TemplateFile | server/pipe2phone/config.py:19 | the package directory followed by `config` and `pipe2phone.yml` |
| Config.CreateSecretFile | server/pipe2phone/config.py:150-152 | touching with `0o600` then writing yields exactly one new file with the data and mode `0o600 & ~umask` |
| Config.InstallSecrets | server/pipe2phone/config.py:149-158 | adds exactly the key file and the certificate file |
| Config.CopyTemplate | server/pipe2phone/config.py:145-146 | succeeds exactly when the template is a readable file, and then adds exactly `pipe2phone.yml` with its bytes; otherwise changes nothing |
| Config.PopulateDirectory | server/pipe2phone/config.py:145-158 | succeeds exactly when the template is a readable file, and then adds exactly the three files; otherwise changes nothing |
| Config.CreateDirectory | server/pipe2phone/config.py:143-158 | for a new directory: succeeds exactly when its parent is a directory and the template is readable, and then the tree is the fresh install. An error leaves the tree as it was, or with only the new directory |
| Config.CreateDefaultConfiguration | server/pipe2phone/config.py:136-159 | an existing directory exits with the "already exists" message and leaves the tree exactly as it was, so nothing existing is overwritten. A new directory under an existing one with a readable template succeeds, and success is exactly the fresh install. An error leaves the tree as it was, or with only the new directory |
| Config.ReadConfigFile | server/pipe2phone/config.py:48 | an unreadable file is its OS error and undecodable bytes UnicodeDecodeError. Success is exactly readable bytes, valid UTF-8 and a parse, and gives the parsed file |
| Config.Load | server/pipe2phone/config.py:29-48 | the tree changes only when the missing file is the default one, and then a first run with a readable template gives the fresh install. After such a first run, success is exactly reading the new file successfully. A missing `--config` file exits with "Configuration file ... does not exist"; a missing default file beside an existing default directory exits with "already exists" and changes nothing. An existing file is only read: success exactly when reading it succeeds. On success the configuration holds the file, its parent, the flags and the parsed YAML |
| Web.TextResponse | server/pipe2phone/http_server.py:44 | status 200, `text/plain`, a body that decodes to the text |
| Web.AddGet | server/pipe2phone/http_server.py:40 | appends one `GET` route and keeps the earlier ones |
| Web.Dispatch | server/pipe2phone/http_server.py:40-44 | no answer exactly when no route matches method and path; otherwise a matching route's text response |
| Web.OneRoute | server/pipe2phone/http_server.py:38-44 | a single `GET` route answers exactly `GET` on its path, always with its text |
| Web.AfterLastColon | server/pipe2phone/http_server.py:31 | `name[name.rindex(':') + 1:]`: nothing exactly when there is no colon, otherwise the text after the last one |
| Web.PortFromSiteName | server/pipe2phone/http_server.py:31 | ValueError from `rindex` exactly when there is no colon, ValueError from `int()` exactly when the text after the last colon is not an integer, and otherwise that integer |
| Web.PortFromSiteNameOf | server/pipe2phone/http_server.py:31 | a name ending in `:<port>` yields that port whatever comes before |
| HttpServers.RoutesAnswer | server/pipe2phone/http_server.py:38-44 | `GET /` and only it is answered, with 200 and "Hello world" |
| HttpServers.Routes | server/pipe2phone/http_server.py:38-44 | the route table is the single `GET /` route answering "Hello world" |
| HttpServers.SiteRequest | server/pipe2phone/http_server.py:28 | the site gets `bind_address` and `http_port` (the configured port, 0 for null); AttributeError names the first missing key |
| HttpServers.HttpServer.constructor | server/pipe2phone/http_server.py:18-23 | routes registered, no runner, no site, no port |
| HttpServers.HttpServer.Start | server/pipe2phone/http_server.py:25-31 | the runner is set, the site has the configured address and port, and `port` exists only after the site started. Success is exactly a started site whose name yields a port |
| HttpServers.HttpServer.Finalize | server/pipe2phone/http_server.py:34-36 | cleans up exactly when a runner was set |
| HttpsServers.RoutesAnswer | server/pipe2phone/https_server.py:44-50 | `GET /` and only it is answered, with 200 and "Hello from secured server" |
| HttpsServers.Routes | server/pipe2phone/https_server.py:44-50 | the route table is the single `GET /` route answering "Hello from secured server" |
| HttpsServers.TlsRequest | server/pipe2phone/https_server.py:26-29 | key file, then certificate file, then password, each failure reported first in that order; with both files found, success exactly when `private_key_password` is present or null |
| HttpsServers.SiteRequestAsWritten | server/pipe2phone/https_server.py:34 | as written: AttributeError `bind_address` when that key is missing; `AsWrittenNeverBinds` states the rest |
| HttpsServers.AsWrittenNeverBinds | server/pipe2phone/https_server.py:34 | as written, the site request always fails, with AttributeError `https_port` once `bind_address` is present |
| HttpsServers.SiteRequest | server/pipe2phone/https_server.py:34 | corrected: `bind_address` and `secure_port` (0 for null); AttributeError names the first missing key |
| HttpsServers.HttpsServer.constructor | server/pipe2phone/https_server.py:19-24 | routes registered, no runner, no TLS context, no site, no port |
| HttpsServers.HttpsServer.LoadTls | server/pipe2phone/https_server.py:26-32 | the context comes from the configured files and password, and the runner is set only when it loads |
| HttpsServers.HttpsServer.Serve | server/pipe2phone/https_server.py:34-37 | corrected (uses `secure_port`; as written the site request always fails, see `AsWrittenNeverBinds`): the site gets the configured address, the secure port and the context. `port` exists only after it started and its name yields a port |
| HttpsServers.HttpsServer.Start | server/pipe2phone/https_server.py:26-37 | corrected, through `Serve`: the runner exists exactly when TLS loaded. A site exists only after that and uses the loaded context. Success is exactly a started site whose name yields a port |
| HttpsServers.HttpsServer.Finalize | server/pipe2phone/https_server.py:40-42 | cleans up exactly when a runner was set, so not after a TLS failure |
| Broadcasts.OptionalValue | server/pipe2phone/broadcasts.py:39-40 | JSON `null` exactly for `None`, otherwise the string |
| Broadcasts.Payload | server/pipe2phone/broadcasts.py:36-46 | nine values in order: the tag, protocol version 1, title and description (null when `None`), user and host, the servers' resolved ports and the certificate hash |
| Broadcasts.Message | server/pipe2phone/broadcasts.py:36-46 | the datagram decodes as UTF-8 to exactly the JSON text of the payload |
| Broadcasts.FromPayload | server/pipe2phone/broadcasts.py:36-46 | a listener accepts only nine values starting with the tag and version 1, and reads the ports and hash from their positions |
| Broadcasts.PayloadOfRead | server/pipe2phone/broadcasts.py:36-46 | whatever a listener accepts is exactly the payload of what it read |
| Broadcasts.ReadMessage | server/pipe2phone/broadcasts.py:36-46 | a listener recovers the exact descriptor from the sent bytes |
| Broadcasts.RejectsForeignPayload | server/pipe2phone/broadcasts.py:16 | a message with another tag or protocol version is ignored |
| Broadcasts.MessageIsAscii | server/pipe2phone/broadcasts.py:36-46 | the message has one printable ASCII byte per JSON character |
| Broadcasts.Advertiser.constructor | server/pipe2phone/broadcasts.py:23-24 | port, interval and message as given, no attempts yet |
| Broadcasts.Advertiser.Run | server/pipe2phone/broadcasts.py:51-59 | appends one attempt per tick with the same message and port, and keeps earlier attempts. Only a null interval stops the loop, after its first tick |
| Broadcasts.NewAdvertiser | server/pipe2phone/broadcasts.py:22-46 | succeeds exactly when the advertising keys, the title and the certificate file are there. The port and interval are the configuration's. The message is built from the title, `server_description` as written (the title again), user, host, the HTTP server's resolved port, the secure port and the certificate's 64-character SHA-256 digest, so a listener reads a description equal to the title |
| LegacyMain.LegacyConfigFile | server/pipe2phone/__main__.py:20 | `--config`, or `.pipe2phone.yml` under the home directory, anchored as the home directory is |
| LegacyMain.BroadcastMessage | server/pipe2phone/__main__.py:44 | `"pipe2phone"`, the port in decimal, the title and the description, separated by single newlines |
| LegacyMain.ReadBroadcast | server/pipe2phone/__main__.py:44 | splitting the message at newlines gives the four fields exactly when title and description hold no newline; the port field reads back with `int()` |
| LegacyMain.Settings | server/pipe2phone/__main__.py:33-45 | each error in source order: missing `server`; null section (AttributeError on `listen_address`); missing address; null address (TypeError); bind failure; missing title, then missing description (AttributeError); a null one of the two (TypeError); missing `broadcast_port`, then `broadcast_interval`. On success the message holds the bound port, and the port and interval are the configured ones |
| LegacyMain.SleepError | server/pipe2phone/__main__.py:54 | `time.sleep` returns exactly for a non-negative interval |
| LegacyMain.Startup | server/pipe2phone/__main__.py:28-45 | an unreadable file is its OS error, undecodable bytes UnicodeDecodeError, unparsable text YamlError. A readable, decodable, parsable file gives exactly the settings of its `server` section |
| LegacyMain.RunScript | server/pipe2phone/__main__.py:27-54 | a failed startup sends nothing. Otherwise each tick sends the same encoded message to the configured port, a failed send does not stop the loop, and a sleep that raises ends the script after the first tick |

## Left out

- `server/pipe2phone/crypto.py` is not part of this model: the generated key and certificate are byte strings given to `Config.CreateDefaultConfiguration` and `Config.Load`.
- `server/pipe2phone/server.py` is not part of this model: it is a websockets echo stub.
- Sockets: the operating system's answer to each `sendto` is an input per tick, and the name a started aiohttp site reports is an input string. Whether `bind` and `site.start()` succeed is an input too.
- aiohttp internals: `HEAD` handling and the difference between 404 and 405 are not modelled. `Web.Dispatch` answers `None` for both.
- `ssl.create_default_context` and `load_cert_chain`: whether OpenSSL accepts the files and password is an input (`tlsLoads`).
- Concurrency: the asyncio tasks, the event loop and `run_until_complete` are left out.
- Timing: the interval's length is left out. `while True` runs over a finite list of ticks, and only whether the sleep raises is modelled.
- The interval is a `real`, not a binary float.
- YAML parsing, munch and argparse: the parsed YAML is given by a `parse` function over the file's text, and the command line by its already parsed values.
- Non-string or non-integer YAML values (a list where a title is expected, say) are not modelled. Each key is missing, null or of the expected type.
- `getpass.getuser()` and `socket.gethostname()` are string inputs, and `hashlib.sha256` is a function parameter.
- Logging and printing are left out.
- Paths are lexical. There are no symbolic links, no `~user` form and no `//` root. `resolve()` removes `..` by name, and the home directory is an input string.
- Text decoding: `Path.read_text()` in config.py and `open(args.config)` in `__main__.py` decode with the locale's preferred encoding and translate newlines. The model assumes a UTF-8 locale, so `Config.ReadConfigFile` and `LegacyMain.Startup` decode strict UTF-8. Newline translation is folded into `parse`.
- `int()` accepts only ASCII digits here. Python also accepts other Unicode decimal digits.
- broadcasts.py imports a `secure_server` module that the repository does not have. The secure server is given by its resolved port.
- `HttpServers.HttpServer` and `HttpsServers.HttpsServer`: `__init__` is split into a constructor and `Start` (and `LoadTls`/`Serve`) because a Dafny constructor cannot fail. The constructor covers the lines before the first statement that can fail.
- Permissions: the file system keeps each entry's mode bits but never checks them. The model lets the owner read and write every entry, so with a umask such as `0o277` it counts `write_bytes` after `touch(mode=0o600)` in `Config.CreateSecretFile` as a success where the kernel raises PermissionError. Ownership and access checks on directories are left out the same way.
- `Text.PyInt` states no contract of its own. Its meaning is given by `Text.PyIntOfDecimal`, `Web.PortFromSiteName` and `LegacyMain.ReadBroadcast`.

## Findings

| source | as written | input that shows it | evidently intended | confidence | as-written member | corrected member |
|---|---|---|---|---|---|---|
| server/pipe2phone/https_server.py:34 | `TCPSite(..., cfg.https_port, ...)`: `Configuration` has no `https_port` property, so the lookup raises AttributeError | any configuration whose `bind_address` is set, e.g. `bind_address: null, secure_port: 0` | `cfg.secure_port` | not executed | HttpsServers.AsWrittenNeverBinds | HttpsServers.SiteRequest |
| server/pipe2phone/config.py:58 | `server_description` returns `self._yaml.server_title` | `server_title: "A"`, `server_description: "B"` gives "A" | `self._yaml.server_description` | not executed | Config.AsWrittenIgnoresKeys | Config.ServerDescription |
| server/pipe2phone/config.py:63 | `server_password` returns `self._yaml.server_title` | `server_title: "A"`, `server_password: "B"` gives "A" | `self._yaml.server_password` | not executed | Config.AsWrittenIgnoresKeys | Config.ServerPassword |
