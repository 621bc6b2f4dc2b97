/**
 * The persisted client configuration record of the cloudpub client as a value,
 * the closed table of keys its string-keyed accessor understands, and the pure
 * parts of that accessor: rendering a field (`get`), coercing and assigning a
 * field (the decision part of `set`) and `validate`.
 */
module Config {
  import opened Wrappers
  import opened Scalars
  import Platforms

  /** `DEFAULT_HEARTBEAT_TIMEOUT_SECS` of the common crate. */
  const DefaultHeartbeatTimeoutSecs: U64 := 40

  /** A parsed URL, represented by the serialization `url::Url` keeps and prints. */
  datatype Url = Url(serialization: string)

  /** A secret whose plaintext is kept; how it is displayed belongs to `MaskedString`. */
  datatype MaskedString = MaskedString(plain: string)

  /**
   * The TLS section of the transport settings. This core reads and writes only the
   * certificate-verification override; `otherSettings` stands for the rest of it.
   */
  datatype TlsConfig = TlsConfig(
    otherSettings: map<string, string>,
    dangerIgnoreCertificateVerification: Option<bool>)

  /** The transport settings; only the optional TLS section is touched here. */
  datatype TransportConfig = TransportConfig(
    otherSettings: map<string, string>,
    tls: Option<TlsConfig>)

  /**
   * Code outside this core that the configuration calls: URL parsing, the display
   * form of a masked secret, the transport's own validation, and the default values
   * of the TLS section, of the transport settings and of the server URL.
   */
  datatype Foreign = Foreign(
    parseUrl: string -> Option<Url>,
    showToken: MaskedString -> string,
    validateTransport: (TransportConfig, bool) -> Result<(), string>,
    defaultTls: TlsConfig,
    defaultTransport: TransportConfig,
    defaultServer: Url)

  /** The persisted fields of `ClientConfig`. */
  datatype ConfigRecord = ConfigRecord(
    agentId: string,
    hwid: Option<string>,
    server: Url,
    token: Option<MaskedString>,
    heartbeatTimeout: U64,
    oneCHome: Option<string>,
    oneCPlatform: Option<Platforms.Platform>,
    oneCPublishDir: Option<string>,
    minecraftServer: Option<string>,
    minecraftJavaOpts: Option<string>,
    minimizeToTrayOnClose: Option<bool>,
    transport: TransportConfig)

  datatype ConfigError =
    | UnknownKey(key: string)
    | InvalidServerUrl
    | InvalidHeartbeatTimeout
    | InvalidPlatform
    | InvalidBoolean
    | AuthMissing
    | TransportInvalid(reason: string)
    | WriteFailed

  /** The keys of the generic accessor. */
  datatype Key =
    | Server | Token | HeartbeatTimeout | OneCHome | OneCPlatform | OneCPublishDir
    | UnsafeTls | MinecraftServer | MinecraftJavaOpts | MinimizeToTrayOnClose
  {
    /** Keys of optional free-text fields, where an empty value means absent. */
    predicate IsText() {
      OneCHome? || OneCPublishDir? || MinecraftServer? || MinecraftJavaOpts?
    }
  }

  const KeyNames: set<string> := {
    "server", "token", "heartbeat_timeout", "1c_home", "1c_platform", "1c_publish_dir",
    "unsafe_tls", "minecraft_server", "minecraft_java_opts", "minimize_to_tray_on_close"
  }

  function KeyName(k: Key): (s: string)
    ensures s in KeyNames
  {
    match k
    case Server => "server"
    case Token => "token"
    case HeartbeatTimeout => "heartbeat_timeout"
    case OneCHome => "1c_home"
    case OneCPlatform => "1c_platform"
    case OneCPublishDir => "1c_publish_dir"
    case UnsafeTls => "unsafe_tls"
    case MinecraftServer => "minecraft_server"
    case MinecraftJavaOpts => "minecraft_java_opts"
    case MinimizeToTrayOnClose => "minimize_to_tray_on_close"
  }

  /** The key a string names, if any: the dispatch of `set` and `get`. */
  function ParseKey(s: string): (r: Option<Key>)
    ensures r.Some? <==> s in KeyNames
    ensures r.Some? ==> KeyName(r.value) == s
  {
    match s
    case "server" => Some(Server)
    case "token" => Some(Token)
    case "heartbeat_timeout" => Some(HeartbeatTimeout)
    case "1c_home" => Some(OneCHome)
    case "1c_platform" => Some(OneCPlatform)
    case "1c_publish_dir" => Some(OneCPublishDir)
    case "unsafe_tls" => Some(UnsafeTls)
    case "minecraft_server" => Some(MinecraftServer)
    case "minecraft_java_opts" => Some(MinecraftJavaOpts)
    case "minimize_to_tray_on_close" => Some(MinimizeToTrayOnClose)
    case _ => None
  }

  lemma KeyNameParses(k: Key)
    ensures ParseKey(KeyName(k)) == Some(k)
  {
  }

  /** An empty value clears an optional text field. */
  function EmptyAsNone(v: string): (r: Option<string>)
    ensures r.None? <==> v == ""
    ensures r.GetOr("") == v
  {
    if v == "" then None else Some(v)
  }

  /** The optional text field a text key names. */
  function TextField(rec: ConfigRecord, k: Key): Option<string>
    requires k.IsText()
  {
    match k
    case OneCHome => rec.oneCHome
    case OneCPublishDir => rec.oneCPublishDir
    case MinecraftServer => rec.minecraftServer
    case MinecraftJavaOpts => rec.minecraftJavaOpts
  }

  /** The textual rendering of one field, as `get` returns it for a known key. */
  function Render(rec: ConfigRecord, k: Key, ext: Foreign): string
  {
    match k
    case Server => rec.server.serialization
    case Token =>
      (match rec.token
       case None => ""
       case Some(t) => ext.showToken(t))
    case HeartbeatTimeout => Decimal(rec.heartbeatTimeout as nat)
    case OneCHome => rec.oneCHome.GetOr("")
    case OneCPlatform =>
      (match rec.oneCPlatform
       case None => ""
       case Some(p) => Platforms.Name(p))
    case OneCPublishDir => rec.oneCPublishDir.GetOr("")
    case MinecraftServer => rec.minecraftServer.GetOr("")
    case MinecraftJavaOpts => rec.minecraftJavaOpts.GetOr("")
    case MinimizeToTrayOnClose =>
      (match rec.minimizeToTrayOnClose
       case None => "false"
       case Some(b) => BoolText(b))
    case UnsafeTls =>
      (match rec.transport.tls
       case None => ""
       case Some(tls) =>
         match tls.dangerIgnoreCertificateVerification
         case None => ""
         case Some(b) => BoolText(b))
  }

  /** `ClientConfig::get`: an unknown key is an error, a known one renders its field. */
  function Get(rec: ConfigRecord, key: string, ext: Foreign): (r: Result<string, ConfigError>)
    ensures r.Failure? <==> key !in KeyNames
    ensures r.Failure? ==> r.error == UnknownKey(key)
    ensures r.Success? ==> r.value == Render(rec, ParseKey(key).value, ext)
  {
    match ParseKey(key)
    case None => Failure(UnknownKey(key))
    case Some(k) => Success(Render(rec, k, ext))
  }

  /** The values `set` accepts for a key. */
  predicate Admissible(k: Key, v: string, ext: Foreign) {
    match k
    case Server => ext.parseUrl(v).Some?
    case HeartbeatTimeout => ParseU64(v).Some?
    case OneCPlatform => v == "" || v == "x64" || v == "x32"
    case UnsafeTls => v == "true" || v == "false"
    case MinimizeToTrayOnClose => v == "true" || v == "false"
    case _ => true
  }

  /** `b` equals `a` in every field the key `k` does not name. */
  predicate AgreeOutside(a: ConfigRecord, b: ConfigRecord, k: Key) {
    && a.agentId == b.agentId
    && a.hwid == b.hwid
    && (k != Server ==> a.server == b.server)
    && (k != Token ==> a.token == b.token)
    && (k != HeartbeatTimeout ==> a.heartbeatTimeout == b.heartbeatTimeout)
    && (k != OneCHome ==> a.oneCHome == b.oneCHome)
    && (k != OneCPlatform ==> a.oneCPlatform == b.oneCPlatform)
    && (k != OneCPublishDir ==> a.oneCPublishDir == b.oneCPublishDir)
    && (k != MinecraftServer ==> a.minecraftServer == b.minecraftServer)
    && (k != MinecraftJavaOpts ==> a.minecraftJavaOpts == b.minecraftJavaOpts)
    && (k != MinimizeToTrayOnClose ==> a.minimizeToTrayOnClose == b.minimizeToTrayOnClose)
    && a.transport.otherSettings == b.transport.otherSettings
    && (k != UnsafeTls ==> a.transport.tls == b.transport.tls)
  }

  /**
   * What `ClientConfig::set` does to the record for a known key: coerce the value,
   * then assign the one field the key names, or fail leaving the record as it was.
   * The TLS section is created from its default only after the boolean parsed.
   */
  function Update(rec: ConfigRecord, k: Key, v: string, ext: Foreign): (r: Result<ConfigRecord, ConfigError>)
    ensures r.Success? <==> Admissible(k, v, ext)
    ensures r.Success? ==> AgreeOutside(rec, r.value, k)
  {
    match k
    case Server =>
      (match ext.parseUrl(v)
       case None => Failure(InvalidServerUrl)
       case Some(url) => Success(rec.(server := url)))
    case Token => Success(rec.(token := Some(MaskedString(v))))
    case HeartbeatTimeout =>
      (match ParseU64(v)
       case None => Failure(InvalidHeartbeatTimeout)
       case Some(n) => Success(rec.(heartbeatTimeout := n)))
    case OneCHome => Success(rec.(oneCHome := EmptyAsNone(v)))
    case OneCPlatform =>
      if v == "" then Success(rec.(oneCPlatform := None))
      else
        (match Platforms.Parse(v)
         case Failure(_) => Failure(InvalidPlatform)
         case Success(p) => Success(rec.(oneCPlatform := Some(p))))
    case OneCPublishDir => Success(rec.(oneCPublishDir := EmptyAsNone(v)))
    case UnsafeTls =>
      (match ParseBool(v)
       case None => Failure(InvalidBoolean)
       case Some(allow) =>
         var tls := rec.transport.tls.GetOr(ext.defaultTls);
         var tls' := tls.(dangerIgnoreCertificateVerification := Some(allow));
         Success(rec.(transport := rec.transport.(tls := Some(tls')))))
    case MinecraftServer => Success(rec.(minecraftServer := EmptyAsNone(v)))
    case MinecraftJavaOpts => Success(rec.(minecraftJavaOpts := EmptyAsNone(v)))
    case MinimizeToTrayOnClose =>
      (match ParseBool(v)
       case None => Failure(InvalidBoolean)
       case Some(minimize) => Success(rec.(minimizeToTrayOnClose := Some(minimize))))
  }

  /** `ClientConfig::validate`: a token is required, then the transport validates itself, with `false` as the flag argument. */
  function Validate(rec: ConfigRecord, ext: Foreign): (r: Result<(), ConfigError>)
    ensures r.Success? <==> rec.token.Some? && ext.validateTransport(rec.transport, false).Success?
    ensures rec.token.None? ==> r == Failure(AuthMissing)
    ensures rec.token.Some? && r.Failure? ==>
              r.error == TransportInvalid(ext.validateTransport(rec.transport, false).error)
  {
    if rec.token.None? then Failure(AuthMissing)
    else
      match ext.validateTransport(rec.transport, false)
      case Failure(reason) => Failure(TransportInvalid(reason))
      case Success(_) => Success(())
  }

  /** `ClientConfig::default`, with the freshly generated agent id as a parameter. */
  function DefaultRecord(agentId: string, ext: Foreign): ConfigRecord {
    ConfigRecord(
      agentId := agentId,
      hwid := None,
      server := ext.defaultServer,
      token := None,
      heartbeatTimeout := DefaultHeartbeatTimeoutSecs,
      oneCHome := None,
      oneCPlatform := None,
      oneCPublishDir := None,
      minecraftServer := None,
      minecraftJavaOpts := None,
      minimizeToTrayOnClose := Some(true),
      transport := ext.defaultTransport)
  }

  /**
   * A fresh configuration has no credential, so it does not validate; it reports the
   * default heartbeat timeout, minimizes to the tray, and leaves the 1C and
   * Minecraft fields empty.
   */
  lemma DefaultRecordReads(agentId: string, ext: Foreign)
    ensures Validate(DefaultRecord(agentId, ext), ext) == Failure(AuthMissing)
    ensures Get(DefaultRecord(agentId, ext), "heartbeat_timeout", ext) == Success("40")
    ensures Get(DefaultRecord(agentId, ext), "minimize_to_tray_on_close", ext) == Success("true")
    ensures forall k: Key :: k.IsText() || k.OneCPlatform? ==> Render(DefaultRecord(agentId, ext), k, ext) == ""
  {
    assert Decimal(40) == "40";
  }

  /**
   * An unknown key does not dispatch, and `get` fails with the unknown-key error;
   * `Store.ClientConfig.Set` fails with the same error and changes nothing.
   */
  lemma UnknownKeyRejected(rec: ConfigRecord, key: string, ext: Foreign)
    requires key !in KeyNames
    ensures ParseKey(key).None?
    ensures Get(rec, key, ext) == Failure(UnknownKey(key))
  {
  }

  /** For a text key, `set(k, v)` stores `v`, or clears the field when `v` is empty, and `get(k)` gives back `v`. */
  lemma TextKeyRoundTrip(rec: ConfigRecord, k: Key, v: string, ext: Foreign)
    requires k.IsText()
    ensures Update(rec, k, v, ext).Success?
    ensures TextField(Update(rec, k, v, ext).value, k) == (if v == "" then None else Some(v))
    ensures Get(Update(rec, k, v, ext).value, KeyName(k), ext) == Success(v)
  {
    KeyNameParses(k);
  }

  /**
   * `set("1c_platform", v)` accepts exactly `""`, `"x64"` and `"x32"`, clearing or
   * storing the platform, and `get` then gives back `v`.
   */
  lemma PlatformKeyRoundTrip(rec: ConfigRecord, v: string, ext: Foreign)
    ensures Update(rec, OneCPlatform, v, ext).Success? <==> v == "" || v == "x64" || v == "x32"
    ensures Update(rec, OneCPlatform, v, ext).Failure? ==>
              Update(rec, OneCPlatform, v, ext).error == InvalidPlatform
    ensures Update(rec, OneCPlatform, v, ext).Success? ==>
              && Update(rec, OneCPlatform, v, ext).value.oneCPlatform
                   == (if v == "" then None else Some(Platforms.Parse(v).value))
              && Get(Update(rec, OneCPlatform, v, ext).value, "1c_platform", ext) == Success(v)
  {
  }

  /**
   * `set("heartbeat_timeout", v)` succeeds exactly when `v` is a `u64`; `get` then
   * gives the number in decimal, which parses to the stored value and equals `v`
   * whenever `v` was already written as a plain numeral.
   */
  lemma HeartbeatRoundTrip(rec: ConfigRecord, v: string, ext: Foreign)
    ensures Update(rec, HeartbeatTimeout, v, ext).Success? <==> ParseU64(v).Some?
    ensures Update(rec, HeartbeatTimeout, v, ext).Failure? ==>
              Update(rec, HeartbeatTimeout, v, ext).error == InvalidHeartbeatTimeout
    ensures Update(rec, HeartbeatTimeout, v, ext).Success? ==>
              var rec' := Update(rec, HeartbeatTimeout, v, ext).value;
              var text := Get(rec', "heartbeat_timeout", ext).value;
              && rec'.heartbeatTimeout == ParseU64(v).value
              && ParseU64(text) == Some(rec'.heartbeatTimeout)
              && (IsNumeral(v) ==> text == v)
  {
    if ParseU64(v).Some? {
      ParsedRendersBack(v);
    }
  }

  /**
   * `set("unsafe_tls", v)` accepts exactly `"true"` and `"false"`. On success the TLS
   * section exists (kept if it was there, else created from its default) with the
   * verification override set to the parsed value, and `get` gives back `v`.
   */
  lemma UnsafeTlsRoundTrip(rec: ConfigRecord, v: string, ext: Foreign)
    ensures Update(rec, UnsafeTls, v, ext).Success? <==> v == "true" || v == "false"
    ensures Update(rec, UnsafeTls, v, ext).Failure? ==>
              Update(rec, UnsafeTls, v, ext).error == InvalidBoolean
    ensures Update(rec, UnsafeTls, v, ext).Success? ==>
              var tls := Update(rec, UnsafeTls, v, ext).value.transport.tls;
              && tls.Some?
              && tls.value.dangerIgnoreCertificateVerification == Some(v == "true")
              && tls.value.otherSettings == rec.transport.tls.GetOr(ext.defaultTls).otherSettings
              && Get(Update(rec, UnsafeTls, v, ext).value, "unsafe_tls", ext) == Success(v)
  {
  }

  /** `set("minimize_to_tray_on_close", v)` accepts exactly `"true"` and `"false"`, and `get` gives back `v`. */
  lemma MinimizeRoundTrip(rec: ConfigRecord, v: string, ext: Foreign)
    ensures Update(rec, MinimizeToTrayOnClose, v, ext).Success? <==> v == "true" || v == "false"
    ensures Update(rec, MinimizeToTrayOnClose, v, ext).Failure? ==>
              Update(rec, MinimizeToTrayOnClose, v, ext).error == InvalidBoolean
    ensures Update(rec, MinimizeToTrayOnClose, v, ext).Success? ==>
              var rec' := Update(rec, MinimizeToTrayOnClose, v, ext).value;
              && rec'.minimizeToTrayOnClose == Some(v == "true")
              && Get(rec', "minimize_to_tray_on_close", ext) == Success(v)
  {
  }

  /** `set("server", v)` stores the parsed URL exactly when it parses; `get` renders its serialization. */
  lemma ServerRoundTrip(rec: ConfigRecord, v: string, ext: Foreign)
    ensures Update(rec, Server, v, ext).Success? <==> ext.parseUrl(v).Some?
    ensures Update(rec, Server, v, ext).Failure? ==> Update(rec, Server, v, ext).error == InvalidServerUrl
    ensures Update(rec, Server, v, ext).Success? ==>
              && Update(rec, Server, v, ext).value.server == ext.parseUrl(v).value
              && Get(Update(rec, Server, v, ext).value, "server", ext)
                   == Success(ext.parseUrl(v).value.serialization)
  {
  }

  /** `set("token", v)` always succeeds and keeps `v` as the secret's plaintext. */
  lemma TokenStored(rec: ConfigRecord, v: string, ext: Foreign)
    ensures Update(rec, Token, v, ext) == Success(rec.(token := Some(MaskedString(v))))
  {
  }

  /** Setting one key leaves what `get` reports for every other key unchanged. */
  lemma UpdateKeepsOtherKeys(rec: ConfigRecord, k: Key, v: string, other: Key, ext: Foreign)
    requires Update(rec, k, v, ext).Success?
    requires other != k
    ensures Render(Update(rec, k, v, ext).value, other, ext) == Render(rec, other, ext)
  {
  }

  /** Setting a key twice to the same value is the same as setting it once. */
  lemma UpdateIdempotent(rec: ConfigRecord, k: Key, v: string, ext: Foreign)
    requires Update(rec, k, v, ext).Success?
    ensures Update(Update(rec, k, v, ext).value, k, v, ext) == Update(rec, k, v, ext)
  {
  }
}
