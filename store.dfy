/**
 * The client configuration as the object the client holds: its fields are
 * updated in place by the generic setter, which then writes the whole record
 * back to its file unless the instance is read-only. The file is represented by
 * the ghost field `persisted`.
 */
module Store {
  import opened Wrappers
  import opened Scalars
  import Platforms
  import opened Config

  class ClientConfig {
    // Not persisted: where the file lives and whether writes are suppressed.
    var configPath: string
    var readonly: bool

    var agentId: string
    var hwid: Option<string>
    var server: Url
    var token: Option<MaskedString>
    var heartbeatTimeout: U64
    var oneCHome: Option<string>
    var oneCPlatform: Option<Platforms.Platform>
    var oneCPublishDir: Option<string>
    var minecraftServer: Option<string>
    var minecraftJavaOpts: Option<string>
    var minimizeToTrayOnClose: Option<bool>
    var transport: TransportConfig

    /** The code outside this core that the configuration calls. */
    const ext: Foreign

    /**
     * The record the backing file holds, as far as this instance knows it:
     * `None` when nothing is known to be there (never written, or a write failed).
     */
    ghost var persisted: Option<ConfigRecord>

    /** The persisted fields as one record value. */
    function Snapshot(): ConfigRecord
      reads this
    {
      ConfigRecord(agentId, hwid, server, token, heartbeatTimeout, oneCHome, oneCPlatform,
                   oneCPublishDir, minecraftServer, minecraftJavaOpts, minimizeToTrayOnClose,
                   transport)
    }

    /** Assigns every persisted field from `rec`. */
    method Assign(rec: ConfigRecord)
      modifies this`agentId, this`hwid, this`server, this`token, this`heartbeatTimeout
      modifies this`oneCHome, this`oneCPlatform, this`oneCPublishDir, this`minecraftServer
      modifies this`minecraftJavaOpts, this`minimizeToTrayOnClose, this`transport
      ensures Snapshot() == rec
    {
      agentId := rec.agentId;
      hwid := rec.hwid;
      server := rec.server;
      token := rec.token;
      heartbeatTimeout := rec.heartbeatTimeout;
      oneCHome := rec.oneCHome;
      oneCPlatform := rec.oneCPlatform;
      oneCPublishDir := rec.oneCPublishDir;
      minecraftServer := rec.minecraftServer;
      minecraftJavaOpts := rec.minecraftJavaOpts;
      minimizeToTrayOnClose := rec.minimizeToTrayOnClose;
      transport := rec.transport;
    }

    /** `ClientConfig::default`: a fresh, writable configuration not yet written anywhere. */
    constructor Default(agentId: string, ext: Foreign)
      ensures Snapshot() == DefaultRecord(agentId, ext) && this.ext == ext
      ensures configPath == "" && !readonly
      ensures persisted == None
    {
      this.ext := ext;
      configPath, readonly := "", false;
      persisted := None;
      new;
      Assign(DefaultRecord(agentId, ext));
    }

    /**
     * `ClientConfig::from_file`, without its I/O and TOML errors: `file` is the record
     * already at `path`, if any. With no file, the default record (with the fresh
     * `agentId`) is written first and read back. The path and read-only flag are set
     * after loading.
     */
    constructor Load(path: string, readonly: bool, file: Option<ConfigRecord>, agentId: string, ext: Foreign)
      ensures Snapshot() == file.GetOr(DefaultRecord(agentId, ext)) && this.ext == ext
      ensures configPath == path && this.readonly == readonly
      ensures persisted == Some(Snapshot())
    {
      var rec := file.GetOr(DefaultRecord(agentId, ext));
      this.ext := ext;
      configPath, this.readonly := path, readonly;
      persisted := Some(rec);
      new;
      Assign(rec);
    }

    /**
     * `ClientConfig::save`. A read-only instance does nothing and succeeds. Otherwise
     * the whole record is written; `writeOk` says whether creating, writing and
     * syncing the file succeeded.
     */
    method Save(writeOk: bool) returns (r: Result<(), ConfigError>)
      modifies this`persisted
      ensures readonly ==> r == Success(()) && persisted == old(persisted)
      ensures !readonly && writeOk ==> r == Success(()) && persisted == Some(Snapshot())
      ensures !readonly && !writeOk ==> r == Failure(WriteFailed) && persisted == None
    {
      if readonly {
        r := Success(());
      } else if writeOk {
        persisted := Some(Snapshot());
        r := Success(());
      } else {
        persisted := None;
        r := Failure(WriteFailed);
      }
    }

    /**
     * The record after coercing `value` for `k` is as `Update` says: on success `r`
     * is `Success(())` and the fields hold the updated record, on failure `r`
     * carries the error and the fields still hold `before`.
     */
    ghost predicate Coerced(before: ConfigRecord, k: Key, value: string, r: Result<(), ConfigError>)
      reads this
    {
      var u := Update(before, k, value, ext);
      if u.Success? then r == Success(()) && Snapshot() == u.value
      else r == Failure(u.error) && Snapshot() == before
    }

    /**
     * The `unsafe_tls` arm of `ClientConfig::set`: the boolean is parsed before the
     * TLS section is touched; the section is created from its default when absent,
     * then its verification override is set in place.
     */
    method SetUnsafeTls(value: string) returns (r: Result<(), ConfigError>)
      modifies this`transport
      ensures Coerced(old(Snapshot()), UnsafeTls, value, r)
    {
      var allow := ParseBool(value);
      if allow.None? {
        return Failure(InvalidBoolean);
      }
      if transport.tls.None? {
        transport := transport.(tls := Some(ext.defaultTls));
      }
      var tls := transport.tls.value;
      transport := transport.(tls := Some(tls.(dangerIgnoreCertificateVerification := Some(allow.value))));
      r := Success(());
    }

    /**
     * The match of `ClientConfig::set` over a known key: coerce and validate the
     * value, then assign the one field the key names, in place.
     */
    method Apply(k: Key, value: string) returns (r: Result<(), ConfigError>)
      modifies this`server, this`token, this`heartbeatTimeout, this`oneCHome, this`oneCPlatform
      modifies this`oneCPublishDir, this`transport, this`minecraftServer, this`minecraftJavaOpts
      modifies this`minimizeToTrayOnClose
      ensures Coerced(old(Snapshot()), k, value, r)
    {
      ghost var before := Snapshot();
      r := Success(());
      match k {
        case Server =>
          var url := ext.parseUrl(value);
          if url.None? {
            return Failure(InvalidServerUrl);
          }
          server := url.value;
        case Token =>
          token := Some(MaskedString(value));
        case HeartbeatTimeout =>
          var n := ParseU64(value);
          if n.None? {
            return Failure(InvalidHeartbeatTimeout);
          }
          heartbeatTimeout := n.value;
        case OneCHome =>
          if value == "" { oneCHome := None; } else { oneCHome := Some(value); }
        case OneCPlatform =>
          if value == "" {
            oneCPlatform := None;
          } else {
            var p := Platforms.Parse(value);
            if p.Failure? {
              return Failure(InvalidPlatform);
            }
            oneCPlatform := Some(p.value);
          }
        case OneCPublishDir =>
          if value == "" { oneCPublishDir := None; } else { oneCPublishDir := Some(value); }
        case UnsafeTls =>
          r := SetUnsafeTls(value);
        case MinecraftServer =>
          if value == "" { minecraftServer := None; } else { minecraftServer := Some(value); }
        case MinecraftJavaOpts =>
          if value == "" { minecraftJavaOpts := None; } else { minecraftJavaOpts := Some(value); }
        case MinimizeToTrayOnClose =>
          var minimize := ParseBool(value);
          if minimize.None? {
            return Failure(InvalidBoolean);
          }
          minimizeToTrayOnClose := Some(minimize.value);
      }
      assert Coerced(before, k, value, r);
    }

    /**
     * `ClientConfig::set`. An unknown key, or a value the key rejects, fails before
     * anything changes or is written. Otherwise exactly the field the key names is
     * assigned as `Update` says, and the record is saved; a failed save keeps the
     * in-memory change. A read-only instance never changes `persisted`.
     */
    method Set(key: string, value: string, writeOk: bool) returns (r: Result<(), ConfigError>)
      modifies this
      ensures configPath == old(configPath) && readonly == old(readonly)
      ensures readonly ==> persisted == old(persisted)
      ensures ParseKey(key).None? ==> r == Failure(UnknownKey(key)) && unchanged(this)
      ensures ParseKey(key).Some? ==>
                var u := Update(old(Snapshot()), ParseKey(key).value, value, ext);
                && (u.Failure? ==> r == Failure(u.error) && unchanged(this))
                && (u.Success? ==>
                      && Snapshot() == u.value
                      && (readonly ==> r == Success(()))
                      && (!readonly && writeOk ==> r == Success(()) && persisted == Some(u.value))
                      && (!readonly && !writeOk ==> r == Failure(WriteFailed) && persisted == None))
    {
      var k := ParseKey(key);
      if k.None? {
        return Failure(UnknownKey(key));
      }
      r := Apply(k.value, value);
      if r.Failure? {
        return;
      }
      r := Save(writeOk);
    }
  }
}
