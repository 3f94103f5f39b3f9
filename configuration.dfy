/**
 * Configuration resolution shared by both watchdog entry points: a key to
 * value lookup is turned into a device connection configuration or into the
 * error that stops start-up. The checks run in the source's fixed order.
 */
module Configuration {
  import opened Wrappers

  /** Java's `int`. */
  type Int32 = x: int | -0x8000_0000 <= x < 0x8000_0000

  /**
   * The library calls configuration resolution depends on, as partial
   * functions: `Integer.parseInt` (None: NumberFormatException),
   * `URI.create` (false: IllegalArgumentException), `Path.of` giving the
   * path's text (None: InvalidPathException) and the keystore loader giving
   * key material of type K from a path and a password (None: any of the
   * keystore or key-manager exceptions).
   */
  datatype Collaborators<K> = Collaborators(
    parseInt: string -> Option<Int32>,
    createUri: string -> bool,
    pathOf: string -> Option<string>,
    loadKeys: (string, string) -> Option<K>)

  /** The `KonnektorConfig` record, fields in declaration order. */
  datatype Config<K> = Config(
    konnektorUri: string,
    proxyAddress: string,
    proxyPort: Int32,
    clientKeys: K,
    workplaceId: string,
    mandantId: string,
    clientSystemId: string,
    userId: string,
    watchdogAddress: string,
    watchdogPort: Int32)

  /** Why start-up stops. */
  datatype ConfigError =
    | NotFound(key: string)                 // configNotFound(key)
    | NotValid(key: string)                 // configNotValid(key)
    | NotANumber(key: string, text: string) // NumberFormatException from Integer.parseInt
    | InvalidUri(text: string)              // IllegalArgumentException from URI.create
    | InvalidPath(text: string)             // InvalidPathException from Path.of
    | KeystoreFailed(path: string)          // the IllegalStateException thrown by loadKeys

  /** The errors the source raises as IllegalStateException with its own message. */
  predicate HasOwnMessage(e: ConfigError) {
    e.NotFound? || e.NotValid? || e.KeystoreFailed?
  }

  /**
   * The exception message: a not-found or not-valid message quotes the key
   * between a fixed prefix and suffix; a keystore message ends in the path.
   */
  function Message(e: ConfigError): (m: string)
    requires HasOwnMessage(e)
    ensures (e.NotFound? || e.NotValid?) ==>
      |m| == 19 + |e.key| + 11 && m[..19] == "configuration for '" && m[19..19 + |e.key|] == e.key
    ensures e.NotFound? ==> m[19 + |e.key|..] == "' not found"
    ensures e.NotValid? ==> m[19 + |e.key|..] == "' not valid"
    ensures e.KeystoreFailed? ==> |m| == 30 + |e.path| && m[..30] == "failed to load keystore from: " && m[30..] == e.path
  {
    match e
    case NotFound(key) => "configuration for '" + key + "' not found"
    case NotValid(key) => "configuration for '" + key + "' not valid"
    case KeystoreFailed(path) => "failed to load keystore from: " + path
  }

  /** Different errors never share a message, so a message tells which key or path failed. */
  lemma MessagesIdentifyErrors(e1: ConfigError, e2: ConfigError)
    requires HasOwnMessage(e1) && HasOwnMessage(e2)
    requires Message(e1) == Message(e2)
    ensures e1 == e2
  {
    var m := Message(e1);
    // the two message forms already differ in their first character
    assert m[0] == (if e1.KeystoreFailed? then 'f' else 'c');
    assert m[0] == (if e2.KeystoreFailed? then 'f' else 'c');
    if e1.KeystoreFailed? {
      assert e1.path == m[30..] == e2.path;
    } else {
      assert e1.key == m[19..19 + |e1.key|] == e2.key;
      var tail := m[19 + |e1.key|..];
      assert tail[6] == (if e1.NotFound? then 'f' else 'v') == (if e2.NotFound? then 'f' else 'v');
      if e1.NotFound? {
        assert e1 == NotFound(e1.key) && e2 == NotFound(e2.key);
      } else {
        assert e1 == NotValid(e1.key) && e2 == NotValid(e2.key);
      }
    }
  }

  const AddressKey := "address"
  const PortKey := "port"
  const KonnektorUriKey := "konnektor.uri"
  const ProxyAddressKey := "proxy.address"
  const ProxyPortKey := "proxy.port"
  const PasswordKey := "credentials.password"
  const CredentialsPathKey := "credentials.path"
  const WorkplaceIdKey := "workplace.id"
  const ClientSystemIdKey := "client_system.id"
  const MandantIdKey := "mandant.id"
  const UserIdKey := "user.id"

  const DefaultAddress := "0.0.0.0"
  const DefaultPort: Int32 := 8080
  const DefaultProxyPort: Int32 := 3128
  const DefaultPassword := "0000"
  const DefaultCredentialsPath := "./credentials.p12"
  const DefaultWorkplaceId := "a"
  const DefaultClientSystemId := "c"
  const DefaultMandantId := "m"
  const DefaultUserId := "admin"

  /** `configProvider.get(key).orElse(default)`. */
  function ValueOr(lookup: map<string, string>, key: string, default: string): (v: string)
    ensures key in lookup ==> v == lookup[key]
    ensures key !in lookup ==> v == default
  {
    if key in lookup then lookup[key] else default
  }

  /** `mustLoad(key)`: the value, or the "not found" error naming the key. */
  function MustLoad(lookup: map<string, string>, key: string): (r: Result<string, ConfigError>)
    ensures r.Success? <==> key in lookup
    ensures r.Success? ==> r.value == lookup[key]
    ensures r.Failure? ==> r.error == NotFound(key) && Message(r.error) == "configuration for '" + key + "' not found"
  {
    if key in lookup then Success(lookup[key]) else Failure(NotFound(key))
  }

  /** An optional numeric key either is absent or holds text `Integer.parseInt` accepts. */
  predicate NumberOk<K>(lookup: map<string, string>, key: string, env: Collaborators<K>) {
    key !in lookup || env.parseInt(lookup[key]).Some?
  }

  /** `configProvider.get(key).map(Integer::parseInt).orElse(default)`. */
  function IntOr<K>(lookup: map<string, string>, key: string, default: Int32, env: Collaborators<K>): (r: Result<Int32, ConfigError>)
    ensures r.Success? <==> NumberOk(lookup, key, env)
    ensures key !in lookup ==> r == Success(default)
    ensures key in lookup && r.Success? ==> Some(r.value) == env.parseInt(lookup[key])
    ensures r.Failure? ==> r.error == NotANumber(key, lookup[key])
  {
    if key !in lookup then Success(default)
    else match env.parseInt(lookup[key])
      case Some(n) => Success(n)
      case None => Failure(NotANumber(key, lookup[key]))
  }

  /** The text of the keystore path: the configured one or the default, through `Path.of`. */
  function KeystorePath<K>(lookup: map<string, string>, env: Collaborators<K>): (p: Option<string>)
    ensures CredentialsPathKey in lookup ==> p == env.pathOf(lookup[CredentialsPathKey])
    ensures CredentialsPathKey !in lookup ==> p == env.pathOf(DefaultCredentialsPath)
  {
    env.pathOf(ValueOr(lookup, CredentialsPathKey, DefaultCredentialsPath))
  }

  /**
   * The `keys` chain: the configured or default path, `Path.of`, then
   * `loadKeys`, whose failure names the path. The Optional is never empty
   * once `.or(...)` has supplied the default, so `configNotValid` never fires.
   */
  function LoadKeys<K>(lookup: map<string, string>, password: string, env: Collaborators<K>): (r: Result<K, ConfigError>)
    ensures KeystorePath(lookup, env).None? ==> r == Failure(InvalidPath(ValueOr(lookup, CredentialsPathKey, DefaultCredentialsPath)))
    ensures KeystorePath(lookup, env).Some? ==>
      var path := KeystorePath(lookup, env).value;
      r == (if env.loadKeys(path, password).Some? then Success(env.loadKeys(path, password).value) else Failure(KeystoreFailed(path)))
    ensures r.Failure? ==> !r.error.NotValid?
  {
    var raw := ValueOr(lookup, CredentialsPathKey, DefaultCredentialsPath);
    match env.pathOf(raw)
    case None => Failure(InvalidPath(raw))
    case Some(path) =>
      match env.loadKeys(path, password)
      case Some(keys) => Success(keys)
      case None => Failure(KeystoreFailed(path))
  }

  /** `.map(URI::create)`: the text when it is a valid URI, otherwise the error naming it. */
  function CheckUri(uri: string, valid: bool): (r: Result<string, ConfigError>)
    ensures r.Success? <==> valid
    ensures r.Success? ==> r.value == uri
    ensures r.Failure? ==> r.error == InvalidUri(uri)
  {
    if valid then Success(uri) else Failure(InvalidUri(uri))
  }

  /** `loadConfig`. */
  function LoadConfig<K>(lookup: map<string, string>, env: Collaborators<K>): (r: Result<Config<K>, ConfigError>)
    // the listen port is read first: a bad number fails before anything else
    ensures !NumberOk(lookup, PortKey, env) ==> r == Failure(NotANumber(PortKey, lookup[PortKey]))
    // then the device URI is required ...
    ensures NumberOk(lookup, PortKey, env) && KonnektorUriKey !in lookup ==> r == Failure(NotFound(KonnektorUriKey))
    ensures NumberOk(lookup, PortKey, env) && KonnektorUriKey in lookup && !env.createUri(lookup[KonnektorUriKey]) ==>
      r == Failure(InvalidUri(lookup[KonnektorUriKey]))
    // ... and only then the proxy address
    ensures (NumberOk(lookup, PortKey, env) && KonnektorUriKey in lookup && env.createUri(lookup[KonnektorUriKey])
             && ProxyAddressKey !in lookup) ==> r == Failure(NotFound(ProxyAddressKey))
    // then the proxy port ...
    ensures (NumberOk(lookup, PortKey, env) && KonnektorUriKey in lookup && env.createUri(lookup[KonnektorUriKey])
             && ProxyAddressKey in lookup && !NumberOk(lookup, ProxyPortKey, env)) ==>
      r == Failure(NotANumber(ProxyPortKey, lookup[ProxyPortKey]))
    // ... and last the keystore: first `Path.of`, then loading it
    ensures (NumberOk(lookup, PortKey, env) && KonnektorUriKey in lookup && env.createUri(lookup[KonnektorUriKey])
             && ProxyAddressKey in lookup && NumberOk(lookup, ProxyPortKey, env)
             && KeystorePath(lookup, env).None?) ==>
      r == Failure(InvalidPath(ValueOr(lookup, CredentialsPathKey, DefaultCredentialsPath)))
    ensures (NumberOk(lookup, PortKey, env) && KonnektorUriKey in lookup && env.createUri(lookup[KonnektorUriKey])
             && ProxyAddressKey in lookup && NumberOk(lookup, ProxyPortKey, env)
             && KeystorePath(lookup, env).Some?
             && env.loadKeys(KeystorePath(lookup, env).value, ValueOr(lookup, PasswordKey, DefaultPassword)).None?) ==>
      r == Failure(KeystoreFailed(KeystorePath(lookup, env).value))
    ensures r.Failure? ==> !r.error.NotValid?
    // every optional value is the configured one when present and its default otherwise
    ensures r.Success? ==>
      && r.value.konnektorUri == lookup[KonnektorUriKey]
      && r.value.proxyAddress == lookup[ProxyAddressKey]
      && r.value.watchdogAddress == ValueOr(lookup, AddressKey, DefaultAddress)
      && IntOr(lookup, PortKey, DefaultPort, env) == Success(r.value.watchdogPort)
      && IntOr(lookup, ProxyPortKey, DefaultProxyPort, env) == Success(r.value.proxyPort)
      && LoadKeys(lookup, ValueOr(lookup, PasswordKey, DefaultPassword), env) == Success(r.value.clientKeys)
      && r.value.workplaceId == ValueOr(lookup, WorkplaceIdKey, DefaultWorkplaceId)
      && r.value.clientSystemId == ValueOr(lookup, ClientSystemIdKey, DefaultClientSystemId)
      && r.value.mandantId == ValueOr(lookup, MandantIdKey, DefaultMandantId)
      && r.value.userId == ValueOr(lookup, UserIdKey, DefaultUserId)
  {
    var address := ValueOr(lookup, AddressKey, DefaultAddress);
    var port :- IntOr(lookup, PortKey, DefaultPort, env);
    var uriText :- MustLoad(lookup, KonnektorUriKey);
    var uri :- CheckUri(uriText, env.createUri(uriText));
    var proxyAddress :- MustLoad(lookup, ProxyAddressKey);
    var proxyPort :- IntOr(lookup, ProxyPortKey, DefaultProxyPort, env);
    var password := ValueOr(lookup, PasswordKey, DefaultPassword);
    var keys :- LoadKeys(lookup, password, env);
    var workplace := ValueOr(lookup, WorkplaceIdKey, DefaultWorkplaceId);
    var clientSystem := ValueOr(lookup, ClientSystemIdKey, DefaultClientSystemId);
    var mandant := ValueOr(lookup, MandantIdKey, DefaultMandantId);
    var user := ValueOr(lookup, UserIdKey, DefaultUserId);
    Success(Config(uri, proxyAddress, proxyPort, keys, workplace, mandant, clientSystem, user, address, port))
  }

  /** Everything `loadConfig` needs in order to return a configuration. */
  predicate Loadable<K>(lookup: map<string, string>, env: Collaborators<K>) {
    && NumberOk(lookup, PortKey, env)
    && KonnektorUriKey in lookup && env.createUri(lookup[KonnektorUriKey])
    && ProxyAddressKey in lookup
    && NumberOk(lookup, ProxyPortKey, env)
    && LoadKeys(lookup, ValueOr(lookup, PasswordKey, DefaultPassword), env).Success?
  }

  /** Start-up gets a configuration exactly when every check passes. */
  lemma LoadConfigSucceedsIff<K>(lookup: map<string, string>, env: Collaborators<K>)
    ensures LoadConfig(lookup, env).Success? <==> Loadable(lookup, env)
  {
  }

  /** Only the two required keys set: every other field takes its default. */
  lemma DefaultsWhenOnlyRequiredKeys<K>(uri: string, proxy: string, env: Collaborators<K>, keys: K)
    requires env.createUri(uri)
    requires env.pathOf(DefaultCredentialsPath) == Some(DefaultCredentialsPath)
    requires env.loadKeys(DefaultCredentialsPath, DefaultPassword) == Some(keys)
    ensures LoadConfig(map[KonnektorUriKey := uri, ProxyAddressKey := proxy], env)
      == Success(Config(uri, proxy, 3128, keys, "a", "m", "c", "admin", "0.0.0.0", 8080))
  {
  }

  /** With neither required key set, the error names the device URI, which is checked first. */
  lemma BothRequiredMissingNamesUri<K>(lookup: map<string, string>, env: Collaborators<K>)
    requires NumberOk(lookup, PortKey, env)
    requires KonnektorUriKey !in lookup && ProxyAddressKey !in lookup
    ensures LoadConfig(lookup, env) == Failure(NotFound(KonnektorUriKey))
    ensures Message(LoadConfig(lookup, env).error) == "configuration for 'konnektor.uri' not found"
  {
    assert LoadConfig(lookup, env) == Failure(NotFound(KonnektorUriKey));
    assert "configuration for '" + KonnektorUriKey + "' not found" == "configuration for 'konnektor.uri' not found";
  }

  /** A keystore that does not load stops start-up with a message naming its path. */
  lemma KeystoreFailureNamesPath<K>(lookup: map<string, string>, env: Collaborators<K>, path: string)
    requires NumberOk(lookup, PortKey, env) && NumberOk(lookup, ProxyPortKey, env)
    requires KonnektorUriKey in lookup && env.createUri(lookup[KonnektorUriKey]) && ProxyAddressKey in lookup
    requires KeystorePath(lookup, env) == Some(path)
    requires env.loadKeys(path, ValueOr(lookup, PasswordKey, DefaultPassword)).None?
    ensures LoadConfig(lookup, env) == Failure(KeystoreFailed(path))
    ensures Message(LoadConfig(lookup, env).error) == "failed to load keystore from: " + path
  {
  }
}
