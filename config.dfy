/**
 * `Configuration`: where the configuration file is, the first-run creation of
 * a default configuration directory, and the properties the servers read.
 *
 * The YAML file arrives already parsed (a `parse` function stands for
 * `yaml.load` plus `munch.munchify`). The command line arrives already parsed
 * as the `--config` value (if any) and the two flags.
 */
module Config {
  import opened Wrappers
  import opened Paths
  import opened FileSystems
  import Bytes

  /** `Path('~/.pipe2phone')`, as pathlib splits it. */
  const DefaultConfigDir := Path(false, ["~", ".pipe2phone"])
  const DefaultConfigFilename := "pipe2phone.yml"
  const DefaultSslKeyFilename := "private_key.pem"
  const DefaultSslCertFilename := "cert.pem"
  /** `'config/pipe2phone.yml'`, as pathlib splits it: where the template sits in the package. */
  const ConfigTemplate := Path(false, ["config", DefaultConfigFilename])
  /** `0o600`: the mode the key and the certificate are touched with. */
  const SecretFileMode: Mode := 0x180

  /**
   * One key of the YAML mapping as munch exposes it: an absent key raises
   * AttributeError, a YAML null reads as None.
   */
  datatype Field<T> = Missing | Null | Present(value: T)

  /** The keys of the configuration file that the server reads. */
  datatype ConfigFile = ConfigFile(
    serverTitle: Field<string>,
    serverDescription: Field<string>,
    serverPassword: Field<string>,
    bindAddress: Field<string>,
    httpPort: Field<int>,
    securePort: Field<int>,
    privateKey: Field<string>,
    privateKeyPassword: Field<string>,
    sslCert: Field<string>,
    advertisingPort: Field<int>,
    advertisingInterval: Field<real>)

  /**
   * The exceptions the program raises: from the configuration (`Exit` is
   * `sys.exit` with its message) and from starting the servers (`ValueError`
   * from reading the port back, `SslError` from loading the certificate
   * chain, `SiteStartError` when a listening socket cannot be bound).
   */
  datatype Failure =
    | AttributeError(name: string)
    | TypeError
    | Exit(message: string)
    | Os(error: OsError)
    | UnicodeDecodeError
    | YamlError
    | ValueError
    | SslError
    | SiteStartError

  /** A constructed `Configuration`: the paths it settled on and the loaded file. */
  datatype Configuration = Configuration(
    debug: bool,
    serve: bool,
    configFile: Path,
    configDir: Path,
    yaml: ConfigFile,
    home: string)

  /** Reading `self._yaml.<name>`. */
  function Get<T>(f: Field<T>, name: string): (r: Result<Option<T>, Failure>)
    ensures r.Err? <==> f.Missing?
    ensures r.Err? ==> r.error == AttributeError(name)
    ensures r.Ok? ==> (r.value.Some? <==> f.Present?)
    ensures r.Ok? && f.Present? ==> r.value.value == f.value
  {
    match f
    case Missing => Err(AttributeError(name))
    case Null => Ok(None)
    case Present(v) => Ok(Some(v))
  }

  /**
   * `self._yaml.<name> or 0` on an integer key: the configured port, with 0 for
   * null; an absent key still raises.
   */
  function PortOrZero(f: Field<int>, name: string): (r: Result<int, Failure>)
    ensures r.Err? <==> f.Missing?
    ensures r.Err? ==> r.error == AttributeError(name)
    ensures r.Ok? ==> (r.value == 0 <==> f.Null? || f == Present(0))
    ensures r.Ok? && f.Present? ==> r.value == f.value
  {
    match f
    case Missing => Err(AttributeError(name))
    case Null => Ok(0)
    case Present(v) => Ok(v)  // a falsy integer is 0, so `v or 0` is v
  }

  function ServerTitle(c: Configuration): (r: Result<Option<string>, Failure>)
    ensures r.Err? <==> c.yaml.serverTitle.Missing?
    ensures r.Err? ==> r.error == AttributeError("server_title")
    ensures c.yaml.serverTitle.Present? ==> r == Ok(Some(c.yaml.serverTitle.value))
    ensures c.yaml.serverTitle.Null? ==> r == Ok(None)
  {
    Get(c.yaml.serverTitle, "server_title")
  }

  /** `server_description` as written: it returns `self._yaml.server_title`. */
  function ServerDescriptionAsWritten(c: Configuration): (r: Result<Option<string>, Failure>)
    ensures r == ServerTitle(c)
  {
    Get(c.yaml.serverTitle, "server_title")
  }

  /** `server_password` as written: it returns `self._yaml.server_title` too. */
  function ServerPasswordAsWritten(c: Configuration): (r: Result<Option<string>, Failure>)
    ensures r == ServerTitle(c)
  {
    Get(c.yaml.serverTitle, "server_title")
  }

  /**
   * As written, neither property can tell a description or a password apart
   * from the title: both give the title even when the file sets the key.
   */
  lemma AsWrittenIgnoresKeys(c: Configuration)
    requires c.yaml.serverTitle.Present? && c.yaml.serverDescription.Present? && c.yaml.serverPassword.Present?
    requires c.yaml.serverDescription.value != c.yaml.serverTitle.value
    requires c.yaml.serverPassword.value != c.yaml.serverTitle.value
    ensures ServerDescriptionAsWritten(c) != Ok(Some(c.yaml.serverDescription.value))
    ensures ServerPasswordAsWritten(c) != Ok(Some(c.yaml.serverPassword.value))
  {
  }

  /** `server_description` as its docstring means it: the `server_description` key. */
  function ServerDescription(c: Configuration): (r: Result<Option<string>, Failure>)
    ensures r.Err? <==> c.yaml.serverDescription.Missing?
    ensures r.Err? ==> r.error == AttributeError("server_description")
    ensures r.Ok? && c.yaml.serverDescription.Present? ==> r.value == Some(c.yaml.serverDescription.value)
    ensures c.yaml.serverDescription.Null? ==> r == Ok(None)
  {
    Get(c.yaml.serverDescription, "server_description")
  }

  /** `server_password` as its docstring means it: the `server_password` key. */
  function ServerPassword(c: Configuration): (r: Result<Option<string>, Failure>)
    ensures r.Err? <==> c.yaml.serverPassword.Missing?
    ensures r.Err? ==> r.error == AttributeError("server_password")
    ensures r.Ok? && c.yaml.serverPassword.Present? ==> r.value == Some(c.yaml.serverPassword.value)
    ensures c.yaml.serverPassword.Null? ==> r == Ok(None)
  {
    Get(c.yaml.serverPassword, "server_password")
  }

  function BindAddress(c: Configuration): (r: Result<Option<string>, Failure>)
    ensures r.Err? <==> c.yaml.bindAddress.Missing?
    ensures r.Err? ==> r.error == AttributeError("bind_address")
    ensures c.yaml.bindAddress.Present? ==> r == Ok(Some(c.yaml.bindAddress.value))
    ensures c.yaml.bindAddress.Null? ==> r == Ok(None)
  {
    Get(c.yaml.bindAddress, "bind_address")
  }

  function HttpPort(c: Configuration): (r: Result<int, Failure>)
    ensures r.Err? <==> c.yaml.httpPort.Missing?
    ensures r.Err? ==> r.error == AttributeError("http_port")
    ensures c.yaml.httpPort.Present? ==> r == Ok(c.yaml.httpPort.value)
    ensures c.yaml.httpPort.Null? ==> r == Ok(0)
  {
    PortOrZero(c.yaml.httpPort, "http_port")
  }

  function SecurePort(c: Configuration): (r: Result<int, Failure>)
    ensures r.Err? <==> c.yaml.securePort.Missing?
    ensures r.Err? ==> r.error == AttributeError("secure_port")
    ensures c.yaml.securePort.Present? ==> r == Ok(c.yaml.securePort.value)
    ensures c.yaml.securePort.Null? ==> r == Ok(0)
  {
    PortOrZero(c.yaml.securePort, "secure_port")
  }

  function PrivateKeyPassword(c: Configuration): (r: Result<Option<string>, Failure>)
    ensures r.Err? <==> c.yaml.privateKeyPassword.Missing?
    ensures r.Err? ==> r.error == AttributeError("private_key_password")
    ensures c.yaml.privateKeyPassword.Present? ==> r == Ok(Some(c.yaml.privateKeyPassword.value))
    ensures c.yaml.privateKeyPassword.Null? ==> r == Ok(None)
  {
    Get(c.yaml.privateKeyPassword, "private_key_password")
  }

  function AdvertisingPort(c: Configuration): (r: Result<Option<int>, Failure>)
    ensures r.Err? <==> c.yaml.advertisingPort.Missing?
    ensures r.Err? ==> r.error == AttributeError("advertising_port")
    ensures c.yaml.advertisingPort.Present? ==> r == Ok(Some(c.yaml.advertisingPort.value))
    ensures c.yaml.advertisingPort.Null? ==> r == Ok(None)
  {
    Get(c.yaml.advertisingPort, "advertising_port")
  }

  function AdvertisingInterval(c: Configuration): (r: Result<Option<real>, Failure>)
    ensures r.Err? <==> c.yaml.advertisingInterval.Missing?
    ensures r.Err? ==> r.error == AttributeError("advertising_interval")
    ensures c.yaml.advertisingInterval.Present? ==> r == Ok(Some(c.yaml.advertisingInterval.value))
    ensures c.yaml.advertisingInterval.Null? ==> r == Ok(None)
  {
    Get(c.yaml.advertisingInterval, "advertising_interval")
  }

  function FileMissingMessage(k: seq<string>): string
  {
    "ERROR: File does not exist: " + Render(Path(true, k))
  }

  /** The path `_resolve_path` settles on before checking that it exists. */
  function Candidate(configDir: Path, s: string, home: string): (p: Path)
    requires Parsed(configDir)
    ensures Parsed(p)
    ensures ExpandUser(FromString(s), home).absolute ==> p == ExpandUser(FromString(s), home)
    ensures !ExpandUser(FromString(s), home).absolute ==>
      p.absolute == configDir.absolute && p.parts == configDir.parts + ExpandUser(FromString(s), home).parts
  {
    var path := ExpandUser(FromString(s), home);
    if path.absolute then path else JoinPath(configDir, path)
  }

  /**
   * `_resolve_path`: the user-expanded path, taken under the configuration
   * directory when it is relative, resolved; a path that does not exist ends
   * the program.
   */
  function ResolvePath(configDir: Path, s: string, home: string, t: Tree, cwd: seq<string>): (r: Result<Path, Failure>)
    requires Parsed(configDir) && NormalKey(cwd)
    ensures r.Ok? <==> ExistsAt(t, Resolve(Candidate(configDir, s, home), cwd))
    ensures r.Ok? ==> r.value == Path(true, Resolve(Candidate(configDir, s, home), cwd))
    ensures r.Err? ==> r.error == Exit(FileMissingMessage(Resolve(Candidate(configDir, s, home), cwd)))
  {
    var k := Resolve(Candidate(configDir, s, home), cwd);
    if ExistsAt(t, k) then Ok(Path(true, k)) else Err(Exit(FileMissingMessage(k)))
  }

  /** An absolute, already resolved path that exists comes back unchanged. */
  lemma ResolveAbsolute(configDir: Path, s: string, home: string, t: Tree, cwd: seq<string>)
    requires Parsed(configDir) && NormalKey(cwd)
    requires FromString(s).absolute && NormalKey(FromString(s).parts) && ExistsAt(t, FromString(s).parts)
    ensures ResolvePath(configDir, s, home, t, cwd) == Ok(FromString(s))
  {
    ResolveNormal(FromString(s).parts, cwd);
  }

  /**
   * A relative path without `~` or `..` is found under the configuration
   * directory, whatever the working directory, when that directory is absolute
   * and resolved.
   */
  lemma ResolveUnderConfigDir(configDir: Path, s: string, home: string, t: Tree, cwd: seq<string>)
    requires configDir.absolute && NormalKey(configDir.parts) && NormalKey(cwd)
    requires !FromString(s).absolute && NormalKey(FromString(s).parts)
    requires FromString(s).parts == [] || FromString(s).parts[0] != "~"
    ensures var k := configDir.parts + FromString(s).parts;
      ResolvePath(configDir, s, home, t, cwd) == if ExistsAt(t, k) then Ok(Path(true, k)) else Err(Exit(FileMissingMessage(k)))
  {
    var k := configDir.parts + FromString(s).parts;
    assert NormalKey(k);
    ResolveNormal(k, cwd);
  }

  /** `private_key_file`: a null `private_key` makes `Path(None)` raise TypeError. */
  function PrivateKeyFile(c: Configuration, t: Tree, cwd: seq<string>): (r: Result<Path, Failure>)
    requires Parsed(c.configDir) && NormalKey(cwd)
    ensures c.yaml.privateKey.Missing? ==> r == Err(AttributeError("private_key"))
    ensures c.yaml.privateKey.Null? ==> r == Err(TypeError)
    ensures c.yaml.privateKey.Present? ==> r == ResolvePath(c.configDir, c.yaml.privateKey.value, c.home, t, cwd)
  {
    match Get(c.yaml.privateKey, "private_key")
    case Err(e) => Err(e)
    case Ok(None) => Err(TypeError)
    case Ok(Some(s)) => ResolvePath(c.configDir, s, c.home, t, cwd)
  }

  /** `ssl_cert_file`, as `private_key_file` for the `ssl_cert` key. */
  function SslCertFile(c: Configuration, t: Tree, cwd: seq<string>): (r: Result<Path, Failure>)
    requires Parsed(c.configDir) && NormalKey(cwd)
    ensures c.yaml.sslCert.Missing? ==> r == Err(AttributeError("ssl_cert"))
    ensures c.yaml.sslCert.Null? ==> r == Err(TypeError)
    ensures c.yaml.sslCert.Present? ==> r == ResolvePath(c.configDir, c.yaml.sslCert.value, c.home, t, cwd)
  {
    match Get(c.yaml.sslCert, "ssl_cert")
    case Err(e) => Err(e)
    case Ok(None) => Err(TypeError)
    case Ok(Some(s)) => ResolvePath(c.configDir, s, c.home, t, cwd)
  }

  /** `DEFAULT_CONFIG_DIR.expanduser()`. */
  function DefaultDirectory(home: string): (p: Path)
    ensures Parsed(p)
    ensures p.absolute == FromString(home).absolute && p.parts == FromString(home).parts + [".pipe2phone"]
  {
    ExpandUser(DefaultConfigDir, home)
  }

  /** `dir / name` for one of the fixed file names. */
  function Child(dir: Path, name: string): (p: Path)
    requires Parsed(dir) && IsName(name)
    ensures p == Path(dir.absolute, dir.parts + [name]) && Parsed(p)
  {
    NameAsPath(name);
    JoinPath(dir, FromString(name))
  }

  lemma FixedNames()
    ensures IsName(DefaultConfigFilename) && IsName(DefaultSslKeyFilename) && IsName(DefaultSslCertFilename)
  {
    assert DefaultConfigFilename[0] == 'p' && DefaultSslKeyFilename[0] == 'p' && DefaultSslCertFilename[0] == 'c';
  }

  /** `DEFAULT_CONFIG_DIR.expanduser() / DEFAULT_CONFIG_FILENAME`. */
  function DefaultConfigFile(home: string): (p: Path)
    ensures Parsed(p)
    ensures p.absolute == FromString(home).absolute
    ensures p.parts == FromString(home).parts + [".pipe2phone", DefaultConfigFilename]
  {
    FixedNames();
    Child(DefaultDirectory(home), DefaultConfigFilename)
  }

  /** `args.config.expanduser()`, where the `--config` default is `~/.pipe2phone/pipe2phone.yml`. */
  function ConfigFilePath(configArg: Option<string>, home: string): (p: Path)
    ensures Parsed(p)
    ensures configArg.Some? ==> p == ExpandUser(FromString(configArg.value), home)
    // without `--config` the file is the default one, so a first run may create it
    ensures configArg.None? ==> p == DefaultConfigFile(home)
  {
    FixedNames();
    match configArg
    case Some(s) => ExpandUser(FromString(s), home)
    case None =>
      ExpandUserChild(DefaultConfigDir, DefaultConfigFilename, home);
      ExpandUser(Child(DefaultConfigDir, DefaultConfigFilename), home)
  }

  /** The tree after a complete first run: the directory and its three files, nothing else touched. */
  function FreshInstall(t: Tree, dir: seq<string>, template: seq<Bytes.byte>, key: seq<Bytes.byte>,
                        cert: seq<Bytes.byte>, umask: Mode): Tree
  {
    t[dir := Directory(Masked(DirectoryMode, umask))]
     [dir + [DefaultConfigFilename] := RegularFile(template, Masked(NewFileMode, umask))]
     [dir + [DefaultSslKeyFilename] := RegularFile(key, Masked(SecretFileMode, umask))]
     [dir + [DefaultSslCertFilename] := RegularFile(cert, Masked(SecretFileMode, umask))]
  }

  /** A missing directory has no entries below it. */
  lemma NothingUnderMissing(t: Tree, dir: seq<string>, name: string)
    requires WellFormed(t) && dir != [] && dir !in t
    ensures dir + [name] !in t
  {
    assert (dir + [name])[..|dir|] == dir;
  }

  /** A fresh install adds exactly four entries and leaves every existing one as it was. */
  lemma FreshInstallAddsOnly(t: Tree, dir: seq<string>, template: seq<Bytes.byte>, key: seq<Bytes.byte>,
                             cert: seq<Bytes.byte>, umask: Mode)
    requires WellFormed(t) && dir != [] && dir !in t
    ensures var u := FreshInstall(t, dir, template, key, cert, umask);
      && u.Keys == t.Keys + {dir, dir + [DefaultConfigFilename], dir + [DefaultSslKeyFilename], dir + [DefaultSslCertFilename]}
      && (forall k :: k in t ==> u[k] == t[k])
      && u[dir + [DefaultSslKeyFilename]].mode == Masked(SecretFileMode, umask)
      && u[dir + [DefaultSslCertFilename]].mode == Masked(SecretFileMode, umask)
  {
    NothingUnderMissing(t, dir, DefaultConfigFilename);
    NothingUnderMissing(t, dir, DefaultSslKeyFilename);
    NothingUnderMissing(t, dir, DefaultSslCertFilename);
    FixedNames();
    assert DefaultSslKeyFilename != DefaultSslCertFilename;
  }

  function DirectoryExistsMessage(dir: Path): string
  {
    "ERROR: Directory " + Render(dir) + " already exists. Delete it to create a new configuration."
  }

  /** `touch(mode=0o600)` then `write_bytes` on a file that does not exist yet, in an existing directory. */
  method CreateSecretFile(fs: FileSystem, p: Path, data: seq<Bytes.byte>)
    requires fs.Valid() && Parsed(p)
    requires fs.Locate(p) != [] && fs.Locate(p) !in fs.tree && IsDirectoryAt(fs.tree, Up(fs.Locate(p)))
    modifies fs
    ensures fs.Valid()
    ensures fs.tree == old(fs.tree)[fs.Locate(p) := RegularFile(data, Masked(SecretFileMode, fs.umask))]
  {
    var touched := fs.Touch(p, SecretFileMode);
    var written := fs.WriteBytes(p, data);
  }

  /** Where the template ships: `config/pipe2phone.yml` next to the package's modules. */
  function TemplateFile(packageDir: Path): (p: Path)
    ensures Parsed(packageDir) ==> Parsed(p)
    ensures p.absolute == packageDir.absolute && p.parts == packageDir.parts + ["config", DefaultConfigFilename]
  {
    JoinPath(packageDir, ConfigTemplate)
  }

  /** The three files of a configuration directory are three different entries directly inside it. */
  lemma ChildKeys(d: seq<string>)
    ensures Up(d + [DefaultConfigFilename]) == d && Up(d + [DefaultSslKeyFilename]) == d
    ensures Up(d + [DefaultSslCertFilename]) == d
    ensures d + [DefaultConfigFilename] != d + [DefaultSslKeyFilename]
    ensures d + [DefaultConfigFilename] != d + [DefaultSslCertFilename]
    ensures d + [DefaultSslKeyFilename] != d + [DefaultSslCertFilename]
  {
    assert (d + [DefaultConfigFilename])[|d|] != (d + [DefaultSslKeyFilename])[|d|];
    assert (d + [DefaultConfigFilename])[|d|] != (d + [DefaultSslCertFilename])[|d|];
    assert (d + [DefaultSslKeyFilename])[|d|] != (d + [DefaultSslCertFilename])[|d|];
  }

  /** The key and then the certificate, each touched with mode `0o600` and then written. */
  method InstallSecrets(fs: FileSystem, dir: Path, key: seq<Bytes.byte>, cert: seq<Bytes.byte>)
    requires fs.Valid() && Parsed(dir)
    requires IsDirectoryAt(fs.tree, fs.Locate(dir)) && fs.Locate(dir) != []
    requires fs.Locate(dir) + [DefaultSslKeyFilename] !in fs.tree
    requires fs.Locate(dir) + [DefaultSslCertFilename] !in fs.tree
    modifies fs
    ensures fs.Valid()
    ensures var d := fs.Locate(dir);
      fs.tree == old(fs.tree)[d + [DefaultSslKeyFilename] := RegularFile(key, Masked(SecretFileMode, fs.umask))]
                             [d + [DefaultSslCertFilename] := RegularFile(cert, Masked(SecretFileMode, fs.umask))]
  {
    FixedNames();
    ChildKeys(fs.Locate(dir));
    var keyFile := Child(dir, DefaultSslKeyFilename);
    ResolveChild(dir, DefaultSslKeyFilename, fs.cwd);
    CreateSecretFile(fs, keyFile, key);
    var certFile := Child(dir, DefaultSslCertFilename);
    ResolveChild(dir, DefaultSslCertFilename, fs.cwd);
    CreateSecretFile(fs, certFile, cert);
  }

  /** `shutil.copyfile` of the template to `pipe2phone.yml` in the new directory. */
  method CopyTemplate(fs: FileSystem, dir: Path, template: Path) returns (r: Result<(), Failure>)
    requires fs.Valid() && Parsed(dir) && Parsed(template)
    requires IsDirectoryAt(fs.tree, fs.Locate(dir)) && fs.Locate(dir) != []
    requires fs.Locate(dir) + [DefaultConfigFilename] !in fs.tree
    modifies fs
    ensures fs.Valid()
    ensures r.Ok? <==> ReadBytesAt(old(fs.tree), fs.Locate(template)).Ok?
    ensures var d, t := fs.Locate(dir), ReadBytesAt(old(fs.tree), fs.Locate(template));
      && (r.Ok? ==> t.Ok? && fs.tree == old(fs.tree)[d + [DefaultConfigFilename] := RegularFile(t.value, Masked(NewFileMode, fs.umask))])
      && (r.Err? ==> fs.tree == old(fs.tree))
  {
    FixedNames();
    var configFile := Child(dir, DefaultConfigFilename);
    ResolveChild(dir, DefaultConfigFilename, fs.cwd);
    var e := fs.CopyFile(template, configFile);
    r := if e.Ok? then Ok(()) else Err(Os(e.error));
  }

  /**
   * The part of `_create_default_configuration` after `mkdir`: the template
   * copied in, then the key and the certificate.
   */
  method PopulateDirectory(fs: FileSystem, dir: Path, template: Path, key: seq<Bytes.byte>, cert: seq<Bytes.byte>)
    returns (r: Result<(), Failure>)
    requires fs.Valid() && Parsed(dir) && Parsed(template)
    requires IsDirectoryAt(fs.tree, fs.Locate(dir)) && fs.Locate(dir) != []
    requires fs.Locate(dir) + [DefaultConfigFilename] !in fs.tree
    requires fs.Locate(dir) + [DefaultSslKeyFilename] !in fs.tree
    requires fs.Locate(dir) + [DefaultSslCertFilename] !in fs.tree
    modifies fs
    ensures fs.Valid()
    ensures r.Ok? <==> ReadBytesAt(old(fs.tree), fs.Locate(template)).Ok?
    ensures var d, t := fs.Locate(dir), ReadBytesAt(old(fs.tree), fs.Locate(template));
      && (r.Ok? ==> t.Ok?
                    && fs.tree == old(fs.tree)[d + [DefaultConfigFilename] := RegularFile(t.value, Masked(NewFileMode, fs.umask))]
                                              [d + [DefaultSslKeyFilename] := RegularFile(key, Masked(SecretFileMode, fs.umask))]
                                              [d + [DefaultSslCertFilename] := RegularFile(cert, Masked(SecretFileMode, fs.umask))])
      && (r.Err? ==> fs.tree == old(fs.tree))
  {
    ChildKeys(fs.Locate(dir));
    r := CopyTemplate(fs, dir, template);
    if r.Ok? {
      InstallSecrets(fs, dir, key, cert);
    }
  }

  /** `mkdir` of a directory that does not exist yet, then `PopulateDirectory`. */
  method CreateDirectory(fs: FileSystem, dir: Path, template: Path, key: seq<Bytes.byte>, cert: seq<Bytes.byte>)
    returns (r: Result<(), Failure>)
    requires fs.Valid() && Parsed(dir) && Parsed(template)
    requires !ExistsAt(fs.tree, fs.Locate(dir))
    modifies fs
    ensures fs.Valid()
    ensures var d, t := fs.Locate(dir), ReadBytesAt(old(fs.tree), fs.Locate(template));
      && (IsDirectoryAt(old(fs.tree), Up(d)) && t.Ok? <==> r.Ok?)
      && (r.Ok? ==> t.Ok? && fs.tree == FreshInstall(old(fs.tree), d, t.value, key, cert, fs.umask))
      && (r.Err? ==> fs.tree == old(fs.tree) || fs.tree == old(fs.tree)[d := Directory(Masked(DirectoryMode, fs.umask))])
  {
    ghost var t0 := fs.tree;
    ghost var d := fs.Locate(dir);
    var e := fs.MakeDir(dir);
    if e.Err? {
      return Err(Os(e.error));
    }
    ghost var src := fs.Locate(template);
    assert ReadBytesAt(fs.tree, src).Ok? <==> ReadBytesAt(t0, src).Ok?;
    assert ReadBytesAt(fs.tree, src).Ok? ==> ReadBytesAt(fs.tree, src) == ReadBytesAt(t0, src);
    NothingUnderMissing(t0, d, DefaultConfigFilename);
    NothingUnderMissing(t0, d, DefaultSslKeyFilename);
    NothingUnderMissing(t0, d, DefaultSslCertFilename);
    r := PopulateDirectory(fs, dir, template, key, cert);
  }

  /**
   * `_create_default_configuration`: refuses if the default directory exists;
   * otherwise creates it and fills it (`CreateDirectory`). The key and
   * certificate bytes stand for what `crypto.py` generates.
   */
  method CreateDefaultConfiguration(fs: FileSystem, home: string, packageDir: Path,
                                    key: seq<Bytes.byte>, cert: seq<Bytes.byte>)
    returns (r: Result<(), Failure>)
    requires fs.Valid() && Parsed(packageDir)
    modifies fs
    ensures fs.Valid()
    ensures var d := fs.Locate(DefaultDirectory(home));
      var template := ReadBytesAt(old(fs.tree), fs.Locate(TemplateFile(packageDir)));
      && (ExistsAt(old(fs.tree), d) ==> r == Err(Exit(DirectoryExistsMessage(DefaultDirectory(home)))) && fs.tree == old(fs.tree))
      && (!ExistsAt(old(fs.tree), d) && IsDirectoryAt(old(fs.tree), Up(d)) && template.Ok? ==> r.Ok?)
      && (r.Ok? ==> !ExistsAt(old(fs.tree), d) && template.Ok?
                    && fs.tree == FreshInstall(old(fs.tree), d, template.value, key, cert, fs.umask))
      && (r.Err? ==> fs.tree == old(fs.tree) || fs.tree == old(fs.tree)[d := Directory(Masked(DirectoryMode, fs.umask))])
  {
    var dir := DefaultDirectory(home);
    if fs.Exists(dir) {
      return Err(Exit(DirectoryExistsMessage(dir)));
    }
    r := CreateDirectory(fs, dir, TemplateFile(packageDir), key, cert);
  }

  function MissingConfigMessage(p: Path): string
  {
    "ERROR: Configuration file " + Render(p) + " does not exist."
  }

  /**
   * `yaml.load(path.read_text())` followed by `munchify`; `parse` stands for
   * the two (None: the YAML is malformed).
   */
  function ReadConfigFile(t: Tree, k: seq<string>, parse: string -> Option<ConfigFile>): (r: Result<ConfigFile, Failure>)
    requires WellFormed(t)
    ensures var b := ReadBytesAt(t, k);
      && (b.Err? ==> r == Err(Os(b.error)))
      && (b.Ok? && Bytes.Decode(b.value).None? ==> r == Err(UnicodeDecodeError))
      && (r.Ok? <==> b.Ok? && Bytes.Decode(b.value).Some? && parse(Bytes.Decode(b.value).value).Some?)
      && (r.Ok? ==> parse(Bytes.Decode(b.value).value) == Some(r.value))
  {
    match ReadBytesAt(t, k)
    case Err(e) => Err(Os(e))
    case Ok(b) =>
      match Bytes.Decode(b)
      case None => Err(UnicodeDecodeError)
      case Some(text) =>
        match parse(text)
        case None => Err(YamlError)
        case Some(y) => Ok(y)
  }

  /**
   * `Configuration.__init__`: settles the file and directory, creates the
   * default configuration on a first run, and loads the file.
   */
  method Load(configArg: Option<string>, debug: bool, serve: bool, home: string, fs: FileSystem,
              packageDir: Path, key: seq<Bytes.byte>, cert: seq<Bytes.byte>,
              parse: string -> Option<ConfigFile>)
    returns (r: Result<Configuration, Failure>)
    requires fs.Valid() && Parsed(packageDir)
    modifies fs
    ensures fs.Valid()
    ensures var file := ConfigFilePath(configArg, home);
      && (fs.tree != old(fs.tree) ==> !ExistsAt(old(fs.tree), fs.Locate(file)) && file == DefaultConfigFile(home))
      && (!ExistsAt(fs.tree, fs.Locate(file)) ==> r.Err?)
      && (r.Ok? ==> r.value.configFile == file && r.value.configDir == Parent(file) && r.value.home == home
                    && r.value.debug == debug && r.value.serve == serve)
      && (r.Ok? ==> ReadConfigFile(fs.tree, fs.Locate(file), parse) == Ok(r.value.yaml))
    // an existing file is only read: the outcome is what reading it gives
    ensures var file := ConfigFilePath(configArg, home);
      ExistsAt(old(fs.tree), fs.Locate(file)) ==> (r.Ok? <==> ReadConfigFile(old(fs.tree), fs.Locate(file), parse).Ok?)
    // a missing file given with `--config` ends the program
    ensures var file := ConfigFilePath(configArg, home);
      !ExistsAt(old(fs.tree), fs.Locate(file)) && file != DefaultConfigFile(home) ==>
        r == Err(Exit(MissingConfigMessage(file)))
    // a missing default file with an existing default directory ends the program
    ensures var file, d := ConfigFilePath(configArg, home), fs.Locate(DefaultDirectory(home));
      !ExistsAt(old(fs.tree), fs.Locate(file)) && file == DefaultConfigFile(home) && ExistsAt(old(fs.tree), d) ==>
        r == Err(Exit(DirectoryExistsMessage(DefaultDirectory(home)))) && fs.tree == old(fs.tree)
    // otherwise a first run installs the default configuration and then loads the new file
    ensures var file, d := ConfigFilePath(configArg, home), fs.Locate(DefaultDirectory(home));
      var template := ReadBytesAt(old(fs.tree), fs.Locate(TemplateFile(packageDir)));
      !ExistsAt(old(fs.tree), fs.Locate(file)) && file == DefaultConfigFile(home) && !ExistsAt(old(fs.tree), d)
      && IsDirectoryAt(old(fs.tree), Up(d)) && template.Ok? ==>
        && fs.tree == FreshInstall(old(fs.tree), d, template.value, key, cert, fs.umask)
        && (r.Ok? <==> ReadConfigFile(fs.tree, fs.Locate(file), parse).Ok?)
  {
    var configFile := ConfigFilePath(configArg, home);
    var configDir := Parent(configFile);
    FixedNames();
    ResolveChild(DefaultDirectory(home), DefaultConfigFilename, fs.cwd);
    if !fs.Exists(configFile) && configFile == DefaultConfigFile(home) {
      var created := CreateDefaultConfiguration(fs, home, packageDir, key, cert);
      if created.Err? {
        return Err(created.error);
      }
    }
    if !fs.Exists(configFile) {
      return Err(Exit(MissingConfigMessage(configFile)));
    }
    var yaml := ReadConfigFile(fs.tree, fs.Locate(configFile), parse);
    if yaml.Err? {
      return Err(yaml.error);
    }
    r := Ok(Configuration(debug, serve, configFile, configDir, yaml.value, home));
  }
}
