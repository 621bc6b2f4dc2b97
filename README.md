# cloudpub client configuration — a Dafny model

This project models the configuration record of the cloudpub client
(`client/src/config.rs`): the `Platform` enumeration with its text form and
parser, the string-keyed accessor `ClientConfig::set` / `ClientConfig::get`
over its ten keys, `ClientConfig::validate`, the read-only guard of
`ClientConfig::save` and the field values of `ClientConfig::default`.

Layout:

- `wrappers.dfy` — `Option` and `Result`.
- `scalars.dfy` — the text forms of the scalar fields. `u64::from_str` accepts an optional single `+`, then one or more decimal digits whose value is at most 2^64−1. `bool::from_str` accepts exactly `"true"` and `"false"`. `Decimal` is `u64::to_string`. It is proved that parsing inverts rendering, and that rendering inverts parsing on plain numerals.
- `platform.dfy` — `Platform` (`X64`, `X32`) with `Display` and `FromStr`.
- `config.dfy` — the persisted record as a value (`ConfigRecord`) and the closed key table (`Key`, `KeyName`, `ParseKey`). It also holds `get` (`Get`, `Render`), the coercion and assignment that `set` performs (`Update`), `validate` (`Validate`), the default record, and the round-trip and frame lemmas.
- `store.dfy` — `ClientConfig` as a class whose fields `set` updates in place. The backing file is the ghost field `persisted`, which `Save` overwrites unless the instance is read-only. `Set` is proved to do to its fields exactly what `Config.Update` says.

Most of the code the configuration calls but does not define is passed in as the `Foreign` value that every instance holds. That covers `Url::parse`, the display form of a `MaskedString`, `TransportConfig::validate`, the `Default` values of the TLS section and of `TransportConfig`, and the localised default server URL. A `Url` is represented by its serialization, which is what `url::Url` prints. The random agent id of `ClientConfig::default` is a parameter. `MaskedString::from` is not passed in: it is fixed as the constructor `MaskedString(plain)` (see "## Left out").

Four behaviours of the code that a reader might not expect, all kept by the model:

- `heartbeat_timeout` accepts any `u64`, 0 included. It is not limited to positive numbers.
- `get("minimize_to_tray_on_close")` renders an absent value as `"false"`. It does not use the creation-time default `true`.
- `set` keeps its in-memory change when the save that follows fails. Only the error is returned.
- `from_file` writes the default file on first run even when the instance is read-only: the read-only flag is only consulted by `save`. `Store.ClientConfig.Load` gives `persisted == Some(..)` whatever `readonly` is.

## Model

| member | source | states |
|---|---|---|
| `Platforms.Name` | client/src/config.rs:86-93 | the text form is `"x64"` or `"x32"` |
| `Platforms.Parse` | client/src/config.rs:95-105 | parsing succeeds exactly on `"x64"` and `"x32"`. `Name` renders the result back to the same text. Any other text fails with `Invalid platform: <text>` |
| `Platforms.NameParses` | client/src/config.rs:86-105 | parsing the text form of a platform gives back that platform |
| `Scalars.ParseU64` | client/src/config.rs:201-203 | after dropping one optional leading `+`, a text is accepted exactly when what remains is a non-empty string of decimal digits whose value is at most 2^64−1, and the result is that value (so `"+5"` gives 5 and `"007"` gives 7; `""`, `"+"` and `"-0"` fail) |
| `Scalars.DecimalIsNumeral` | client/src/config.rs:266 | `Decimal` (`u64::to_string`) renders a number as a well-formed numeral: digits, no leading zero. It denotes that number |
| `Scalars.NumeralIsDecimal` | client/src/config.rs:266 | every well-formed numeral is exactly the rendering of its own value |
| `Scalars.DecimalParses` | client/src/config.rs:266 | rendering a `u64` and parsing it back gives the same number |
| `Scalars.ParsedRendersBack` | client/src/config.rs:201-203 | any accepted heartbeat text renders to a numeral that parses to the same value. A text already written as a plain numeral renders back to itself |
| `Scalars.BoolText` | client/src/config.rs:276-282 | a boolean renders as `"true"` or `"false"` |
| `Scalars.ParseBool` | client/src/config.rs:225-226 | a boolean parses from exactly `"true"` or `"false"`, and renders back to the same text |
| `Scalars.BoolTextParses` | client/src/config.rs:249-251 | parsing the rendering of a boolean gives back that boolean |
| `Config.KeyName` | client/src/config.rs:259-283 | every key's external name is one of the ten names the accessor recognises |
| `Config.ParseKey` | client/src/config.rs:197-253 | a string names a key exactly when it is one of the ten names, and that key's name is the string |
| `Config.KeyNameParses` | client/src/config.rs:197-253 | a key's name dispatches back to that key |
| `Config.EmptyAsNone` | client/src/config.rs:204-210 | an empty value becomes absent. Otherwise the value is stored, and reading it back with an empty default gives the value |
| `Config.Get` | client/src/config.rs:259-285 | `get` fails exactly for a name outside the ten keys, with the unknown-key error. For a known key it returns `Render` of that key's field, whose arms follow config.rs:260-282 |
| `Config.Update` | client/src/config.rs:197-254 | the coercion and assignment of `set` succeed exactly when the key accepts the value. On success only the field the key names changes: for `unsafe_tls` that is only the TLS section, and all other transport settings are kept |
| `Config.Validate` | client/src/config.rs:287-293 | validation succeeds exactly when a token is present and the transport validates with `false` as its second argument. With no token it fails with the missing-credential error. Otherwise a failure is the transport's own error |
| `Config.DefaultRecordReads` | client/src/config.rs:296-315 | a fresh configuration fails validation for want of a token. It reports heartbeat timeout `"40"` and minimize-to-tray `"true"`, and empty 1C and Minecraft fields |
| `Config.UnknownKeyRejected` | client/src/config.rs:283 | an unrecognised name does not dispatch, and `get` fails with the unknown-key error |
| `Config.TextKeyRoundTrip` | client/src/config.rs:204-248 | for `1c_home`, `1c_publish_dir`, `minecraft_server` and `minecraft_java_opts`, `set(k, v)` always succeeds. It clears the field when `v` is empty and stores `v` otherwise, and `get(k)` then returns `v` |
| `Config.PlatformKeyRoundTrip` | client/src/config.rs:211-217 | `set("1c_platform", v)` succeeds exactly for `""`, `"x64"` and `"x32"`, and fails with the platform error otherwise. It clears the field or stores the parsed platform, and `get` then returns `v` |
| `Config.HeartbeatRoundTrip` | client/src/config.rs:201-203 | `set("heartbeat_timeout", v)` succeeds exactly when `v` parses as a `u64`, and fails with the heartbeat error otherwise. It stores the parsed number. `get` then returns a numeral that parses to it, which is `v` itself when `v` is a plain numeral |
| `Config.UnsafeTlsRoundTrip` | client/src/config.rs:225-234 | `set("unsafe_tls", v)` succeeds exactly for `"true"` and `"false"`, and fails with the boolean error otherwise. On success the TLS section exists: kept if present, created from its default if absent. Its verification override is the parsed value, and `get` returns `v` |
| `Config.MinimizeRoundTrip` | client/src/config.rs:249-252 | `set("minimize_to_tray_on_close", v)` succeeds exactly for `"true"` and `"false"` and stores the parsed value. `get` then returns `v` |
| `Config.ServerRoundTrip` | client/src/config.rs:199 | `set("server", v)` succeeds exactly when `v` parses as a URL, and fails with the URL error otherwise. It stores the parsed URL, and `get` returns its serialization |
| `Config.TokenStored` | client/src/config.rs:200 | `set("token", v)` always succeeds and stores `v` as the secret's plaintext, changing nothing else |
| `Config.UpdateKeepsOtherKeys` | client/src/config.rs:197-257 | after a successful `set` of one key, `get` reports the same for every other key |
| `Config.UpdateIdempotent` | client/src/config.rs:197-254 | setting a key twice to the same value is the same as setting it once |
| `Store.ClientConfig.Default` | client/src/config.rs:296-315 | a fresh instance holds `DefaultRecord`, the field values of `ClientConfig::default`: heartbeat timeout 40, minimize to tray `Some(true)`, the given agent id, the foreign default server URL and transport settings, every other optional field absent. Its path is empty, it is writable, and nothing is persisted |
| `Store.ClientConfig.Load` | client/src/config.rs:141-159 | with no file, the default record is written and loaded. Otherwise the file's record is loaded. The path and read-only flag are set from the arguments, and the file holds what was loaded |
| `Store.ClientConfig.Save` | client/src/config.rs:178-188 | a read-only instance succeeds without touching the file. Otherwise a successful write makes the file hold the current record, and a failed write reports an error |
| `Store.ClientConfig.SetUnsafeTls` | client/src/config.rs:225-234 | the in-place `unsafe_tls` arm does to the fields what `Update` says. On a rejected value, nothing changes |
| `Store.ClientConfig.Apply` | client/src/config.rs:198-254 | the in-place dispatch over a known key assigns the fields exactly as `Update` says. On a rejected value, nothing changes |
| `Store.ClientConfig.Set` | client/src/config.rs:197-257 | an unknown key or a rejected value fails, and no field or file changes. Otherwise the fields become `Update` of the old record and the record is saved. A read-only instance never changes the file; a failed save keeps the in-memory change and reports the write error |

## Left out

- File-system work is not modelled: `get_config_dir`, `load`, `get_config_path`, and the reading and writing in `from_file` and `save`. `Load` takes the record already in the file, if any. `Save` takes whether the write succeeded as its `writeOk` argument.
- TOML serialisation and deserialisation are not modelled. `Load` assumes the default record it writes reads back unchanged, and it does not model a file that fails to deserialise.
- `Store.ClientConfig.Save`: a failed create, write or sync leaves the file's content unknown. The model sets `persisted` to `None` and does not distinguish a file left intact from one left truncated.
- `MaskedString`, `TransportConfig`, `TlsConfig` and `url::Url` are defined in crates that are not part of this model. Apart from `MaskedString::from` (next line), their parsing, display, validation and defaults are parameters (`Foreign`). For `TransportConfig` and `TlsConfig`, the contents apart from the fields this core touches are opaque maps. `Url` and `MaskedString` are each represented by a single string: a URL by its serialization, a secret by its plaintext. No round trip is claimed for `get("token")`, because its display may mask the secret.
- `MaskedString::from` is assumed to keep its text verbatim as the secret's plaintext; its definition is not part of this model, so `Config.TokenStored` rests on that assumption.
- `ENV_CONFIG`, `EnvConfig` and `EnvConfig::default` are not modelled. They are a static table chosen by compile-time target conditionals, with no behaviour of their own.
- `ClientOpts` is not modelled. It is a plain struct with no operations.
- The backoff profiles `listen_backoff` and `run_control_chan_backoff` in `common/src/constants.rs` are not modelled. They only fill in fields of an external crate's floating-point backoff. Of that file's constants, only the default heartbeat timeout (40) is used here.
- `client/cloudpub.py` is not modelled. It spawns a process and reads its output on threads.
- Error messages and `anyhow` error chains are reduced to `ConfigError` kinds: the context texts of `set` (invalid server URL, heartbeat timeout, platform, boolean) and the inner parser errors they wrap are not kept.
- Debug logging is not modelled, and the localised message text of the missing-credential error is not modelled.
