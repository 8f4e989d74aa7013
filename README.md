# Deako Home Assistant integration: a Dafny model

This project models the integration's own logic around the pydeako client
library: the guard it installs in front of pydeako's message parser, the
choice of connection address and telnet message delay for a config entry,
the decision whether an options update rebuilds the connection, and the light
entities with their state-derived properties, their on/off commands and their
device-refresh gate. Everything pydeako and Home Assistant do themselves
(network I/O, discovery, device polling, entity registries, reloads) is
outside the model: the outcomes of those calls are parameters, and ghost logs
record the calls the model does not carry out.

Modules:

- `Python` (python.dfy): optional values, Python exceptions as a `Result`,
  the dynamically typed values of config and state mappings, `str()` of them,
  `dict.get`, truthiness of an optional string, `str.strip()` with Python's
  whitespace set, and decimal rendering of integers with the parse that
  inverts it.
- `Utf8` (utf8.dfy): `bytes.decode("utf-8")` in strict mode (per RFC 3629,
  section 4), with the encoder it inverts.
- `ParseGuard` (parse_guard.dfy): `new_parse_data` as a method of a
  `Session` class holding `message_buffer` and `empty_message_counter`, and
  the once-only installation on the `_Connection` class object.
- `Connection` (connection.dfy): address and delay precedence,
  `should_reconnect`, the `Deako` connection object with the attributes the
  integration adds, and an `Integration` class holding `hass.data[DOMAIN]`,
  pydeako's `WORKER_WAIT_S` and the patched connection class.
- `Light` (light.dfy): the `DeakoLightSwitch` properties, commands and
  refresh gate, and entity creation.

Facts the proofs bring out about the code as written:

- The empty chunk `b""` counts as whitespace-only. Every whitespace-only
  chunk after the 1000th in a row schedules another reload, because the
  reload request does not reset the counter (`ParseGuard.WhitespaceRun`).
- A chunk that is not valid UTF-8 raises at the decode after the buffer guard
  has run, so the original parser is not called for it; it is called exactly
  once for every decodable chunk.
- The replacement parser closes over the config entry of the first
  installation; later installations are no-ops, so reloads it schedules name
  that first entry (`ParseGuard.FirstInstallationWins`).
- A connection that was discovered never gets its `__is_address_hardcoded`
  attribute (the code sets it only to True, and only for a configured
  address), and the name is not mangled because `update_listener` is a
  module-level function; so `update_listener` raises AttributeError for such a
  connection, and the branch "not hardcoded and a preset address exists" is
  never reached (`Connection.DiscoveredConnectionRaises`). This assumes
  pydeako's `Deako` class does not define that attribute itself.
- An options mapping that is present takes precedence even when it has no ip
  or port, giving the address `"None:None"` (`Connection.EmptyOptionsAddress`).
- `_initiate_connection` computes a local delay with a different precedence
  from `set_delay_options_if_needed` and never uses it; the delay that takes
  effect is the latter's (`Connection.LocalDelayDiffersFromEffective`).
- The refresh gate never engages: `is_refreshing` is only ever stored False
  and `compare_exchange(True, True)` writes True only over True, so every
  refresh call takes the refresh branch (`Light.GateNeverSkips`). The design
  intent of at-most-one refresh in flight is not what the code does; the
  model follows the code.

Constants taken from outside the modelled files: `DOMAIN` is `"deako"`
(custom_components/deako/const.py is not part of this model), and
Home Assistant's `CONF_IP_ADDRESS` and `CONF_PORT` are `"ip_address"` and
`"port"`.

## Model

| member | source | states |
|---|---|---|
| `Python.Get` | custom_components/deako/__init__.py:91 | `d.get(key)` is the stored value, or None when the key is missing |
| `Python.Str` | custom_components/deako/__init__.py:123-125 | an f-string placeholder renders a string as itself and an int as a decimal text that parses back to that int |
| `Python.IntToStringRoundTrip` | custom_components/deako/__init__.py:124 | the decimal rendering of every integer port parses back to the same integer |
| `Python.Strip` | custom_components/deako/__init__.py:224 | the result is a slice of `s` with only whitespace before and after it; it is `""` exactly when every character of `s` is whitespace, and a non-empty result starts and ends with non-whitespace |
| `Utf8.Decode` | custom_components/deako/__init__.py:233 | decoding never yields more characters than bytes |
| `Utf8.EncodeDecode` | custom_components/deako/__init__.py:233 | whatever decodes is the UTF-8 encoding of the decoded text, so no overlong form, surrogate or stray continuation byte is accepted |
| `Utf8.DecodeIffEncoding` | custom_components/deako/__init__.py:233 | `data.decode("utf-8")` succeeds with `s` exactly when `data` is the encoding of `s`; every other input raises |
| `Utf8.IllFormedRejected` | custom_components/deako/__init__.py:233 | an overlong form, an encoded surrogate, a lone continuation byte and a truncated sequence each raise |
| `Utf8.DecodeEncode` | custom_components/deako/__init__.py:233 | decoding the UTF-8 encoding of any string gives that string back |
| `Utf8.DecodeAscii` | custom_components/deako/__init__.py:233 | ASCII bytes always decode, one character per byte with the same code |
| `ParseGuard.GuardedBuffer` | custom_components/deako/__init__.py:222-231 | a present buffer of only whitespace becomes `""`; any other buffer, and a missing one, is left as it was |
| `ParseGuard.NextCounter` | custom_components/deako/__init__.py:234-245 | a whitespace-only message sets the counter to its previous value plus one (None read as 0); any other message sets it to 0 |
| `ParseGuard.RequestsReload` | custom_components/deako/__init__.py:238-243 | a reload is scheduled exactly when the message is whitespace-only and the previous count had reached 1000 |
| `ParseGuard.Session.NewParseData` | custom_components/deako/__init__.py:219-246 | the buffer is guarded; undecodable data raises with counter, reloads and delegations unchanged; otherwise the counter and reloads follow the two functions above and the original parser is called once with the unchanged data and the guarded buffer |
| `ParseGuard.Session.CountMessage` | custom_components/deako/__init__.py:234-245 | the counter update and reload request of one decoded message, in terms of `NextCounter` and `RequestsReload` |
| `ParseGuard.WhitespaceRun` | custom_components/deako/__init__.py:234-243 | from count c, n whitespace-only messages leave the count at c + n and schedule one reload for each of them after the count reached 1000 |
| `ParseGuard.ReloadAfterThreshold` | custom_components/deako/__init__.py:234-245 | after a message with non-whitespace text, n whitespace-only messages schedule max(0, n - 1000) reloads and leave the count at n |
| `ParseGuard.MissingCounterIsZero` | custom_components/deako/__init__.py:235-237 | a counter that was never set behaves exactly as one at zero |
| `ParseGuard.Install` | custom_components/deako/__init__.py:254-258 | afterwards `__old_parse_data` exists; the attributes change exactly when it was absent, and then the saved parser is the one that was installed and the replacement is the entry's |
| `ParseGuard.InstallAll` | custom_components/deako/__init__.py:254-258 | no installation leaves the attributes as they were; one or more leave `__old_parse_data` set |
| `ParseGuard.InstallIdempotent` | custom_components/deako/__init__.py:254-258 | a second installation, for any entry, leaves the class attributes as the first left them |
| `ParseGuard.InstallKeepsWellFormed` | custom_components/deako/__init__.py:254-258 | after installation the replacement is in place and the saved parser is pydeako's own, never the replacement |
| `ParseGuard.FirstInstallationWins` | custom_components/deako/__init__.py:219-258 | after installations for any non-empty sequence of entries, the class holds the replacement made for the first entry in front of the original parser |
| `ParseGuard.InstalledStaysPut` | custom_components/deako/__init__.py:254 | once `__old_parse_data` exists, no installation changes anything |
| `ParseGuard.ConnectionClass.OverwriteParseDataImplementation` | custom_components/deako/__init__.py:214-258 | the original is saved and replaced only when `__old_parse_data` is absent; the well-formedness invariant is kept |
| `Connection.FormatAddress` | custom_components/deako/__init__.py:123-125 | the address is the rendered ip, a ':' at the position after it, and the rendered port |
| `Connection.AddressPortRecoverable` | custom_components/deako/__init__.py:122-125 | for an integer port, the text after the last ':' of the address is the port's decimal rendering and the text before it is the rendered ip |
| `Connection.GetConnectionAddress` | custom_components/deako/__init__.py:113-138 | a preset address exists exactly when options or data exist, built from options when present, else from data |
| `Connection.AddressSourceOf` | custom_components/deako/__init__.py:150-177 | a connection is discovered exactly when the entry has neither options nor data; otherwise its address is built from options when present, else from data |
| `Connection.PresetMatchesSource` | custom_components/deako/__init__.py:118-177 | the preset address used by the update listener and the address a new connection is marked with come from the same mapping and agree |
| `Connection.EmptyOptionsAddress` | custom_components/deako/__init__.py:120-125 | present but empty options give the hardcoded address `"None:None"`, whatever data holds |
| `Connection.ShouldReconnect` | custom_components/deako/__init__.py:59-76 | no connection: reconnect; hardcoded with an address: reconnect iff the preset is absent or differs; attribute never set: AttributeError; hardcoded False: reconnect iff a preset exists |
| `Connection.ReconnectPrecedence` | custom_components/deako/__init__.py:63-73 | with both attributes set, the condition is `(H and (P is None or A != P)) or (not H and P is not None)` |
| `Connection.UnchangedEntryDecision` | custom_components/deako/__init__.py:61-76 | for the connection made from an unchanged entry, a configured address is kept and a discovered one makes the listener raise |
| `Connection.HardcodedReconnectsOnChange` | custom_components/deako/__init__.py:63-70 | a configured connection is rebuilt exactly when the entry's preset address is gone or different |
| `Connection.DiscoveredConnectionRaises` | custom_components/deako/__init__.py:65-72 | a discovered connection makes the decision raise AttributeError for every preset |
| `Connection.DelaySetting` | custom_components/deako/__init__.py:88-95 | the delay comes from options when set there, otherwise from data when set there, otherwise there is none; it is never None |
| `Connection.LocalDelay` | custom_components/deako/__init__.py:148-164 | a local delay that is set equals the effective delay; it is unset while an effective delay exists exactly when options exist without a delay and data holds one |
| `Connection.LocalDelayDiffersFromEffective` | custom_components/deako/__init__.py:148-164 | for every entry whose options lack a delay and whose data holds one, the unused local delay is None while the effective delay is the data's |
| `Connection.FloatOf` | custom_components/deako/__init__.py:98 | `float()` of an int, float or bool value and the exception for None and strings |
| `Connection.ClampDelay` | custom_components/deako/__init__.py:98-104 | the result is 0 or at least 1e-5, and a value of at least 1e-5 passes unchanged |
| `Connection.DelayUpdate` | custom_components/deako/__init__.py:88-110 | no delay leaves WORKER_WAIT_S; a failing conversion raises; otherwise values below 1e-5 become 0 and others pass |
| `Connection.Integration.SetDelayOptionsIfNeeded` | custom_components/deako/__init__.py:85-110 | WORKER_WAIT_S becomes the value `DelayUpdate` gives, or is unchanged when there is none or the conversion raises |
| `Connection.Integration.InitiateConnection` | custom_components/deako/__init__.py:141-211 | a discoverer is stored for an unconfigured entry; a failing delay raises before connecting; a timeout or an empty device list disconnects the new connection and raises ConfigEntryNotReady with the registry unchanged; otherwise the fresh connection carries the hardcoded address attributes, cleared refresh flags, the patch is installed and the entry is registered and forwarded |
| `Connection.Integration.UpdateListener` | custom_components/deako/__init__.py:53-82 | WORKER_WAIT_S follows `DelayUpdate`, and a failing delay raises with nothing else changed; the reconnect decision is `ShouldReconnect` on the registered connection's attributes and the preset address; a raise or a keep leaves the registry, the disconnect log, the discoverer, the class attributes and the forwarding log as they were; a reconnect carries every guarantee of `InitiateConnection` for the new connection |
| `Connection.Integration.Reconnect` | custom_components/deako/__init__.py:78-82 | the registered connection, if any, is deregistered and disconnected first; then the new connection is registered with its address attributes, cleared flags, the patch installed and the entry forwarded, or on a failed discovery it is disconnected and ConfigEntryNotReady raised with the entry left unregistered |
| `Light.IsOn` | custom_components/deako/light.py:82-93 | on exactly when the state's `power` value is the bool True; a missing or non-bool value reads as off |
| `Light.SupportedColorModes` | custom_components/deako/light.py:104-115 | exactly one mode: BRIGHTNESS when `dim` is present and not None, ONOFF otherwise |
| `Light.Name` | custom_components/deako/light.py:76-80 | the client's name when truthy, else `"Unknown device: " + uuid`; never empty |
| `Light.DeviceInfoOf` | custom_components/deako/light.py:59-69 | identifiers `{(DOMAIN, uuid)}`, manufacturer Deako, and model "dimmer" exactly when the device reports a dim level, "smart" otherwise |
| `Light.UniqueId` | custom_components/deako/light.py:71-74 | the unique id is the device's uuid |
| `Light.IdentifierIsUniqueId` | custom_components/deako/light.py:63-74 | the device identifier names the entity's unique id, which is the uuid |
| `Light.Control` | custom_components/deako/light.py:117-150 | a command is sent exactly when the connection check passes, with the requested power and brightness; otherwise a reload and ConfigEntryNotReady |
| `Light.RefreshStep` | custom_components/deako/light.py:154-170 | a call is skipped exactly when `is_refreshing` is True and refreshes exactly when it is False and the connection is up; a NotReady call changes no flag; a False `is_refreshing` is never set True |
| `Light.BusyGateRecordsRequest` | custom_components/deako/light.py:157-170 | with `is_refreshing` True a call only marks an additional refresh as requested and refreshes nothing |
| `Light.RefreshClearsFlags` | custom_components/deako/light.py:157-164 | after a completed refresh both flags are False |
| `Light.GateNeverSkips` | custom_components/deako/light.py:52-53 | from a False `is_refreshing`, any sequence of calls keeps it False and each call refreshes, or raises when the connection is missing; none is skipped |
| `Light.DeakoLightSwitch.constructor` | custom_components/deako/light.py:47-53 | a new entity has its uuid and both flags False |
| `Light.DeakoLightSwitch.EnsureConnection` | custom_components/deako/light.py:133-152 | the check passes exactly when a manager with a connected connection exists; otherwise one reload is requested |
| `Light.DeakoLightSwitch.TurnOn` | custom_components/deako/light.py:117-123 | the outcome is `Control` with power True, and a reload is requested exactly when no command is sent |
| `Light.DeakoLightSwitch.TurnOff` | custom_components/deako/light.py:125-131 | the outcome is `Control` with power False, and a reload is requested exactly when no command is sent |
| `Light.DeakoLightSwitch.RefreshDevices` | custom_components/deako/light.py:154-170 | the flags and outcome follow one gate step; `find_devices` is issued only on a refresh; an entity whose `is_refreshing` is False keeps it False and is never skipped |
| `Light.AsyncSetupEntry` | custom_components/deako/light.py:21-36 | no devices: no entities and a disconnect; otherwise one fresh, distinct entity per uuid in device-list order, each with cleared flags |

## Left out

- pydeako itself: `connect`, `find_devices`, `control_device`, `get_devices`,
  `get_state`, `get_name`, `disconnect`, the original `parse_data` and zeroconf
  discovery are external; their results are parameters (`DeviceDiscovery`,
  `Link`, the state mapping, the client name) and their calls are logged in
  ghost fields or returned as commands.
- `ParseGuard.Session.NewParseData`: what the original `parse_data` then does
  to `message_buffer` is pydeako's; the model records the buffer it is given.
- `ParseGuard.Session`: if pydeako's `_Connection` does not define
  `empty_message_counter`, the first whitespace-only chunk before any other
  chunk would raise AttributeError; the model starts the counter as None.
- Brightness: the `brightness` property and the `dim * 2.55` and `/ 2.55`
  conversions with Python's rounding are floating-point arithmetic;
  `Light.Control` carries the Home Assistant brightness argument instead of the
  computed dim level.
- `Connection.FloatOf`: a string value is treated as raising ValueError; Python
  would convert numeric text such as `"0.5"`.
- `Connection.ClampDelay`: real arithmetic replaces IEEE doubles, so the
  comparison with 1e-5 is exact rather than against the nearest double.
- `Python.Str`: a float is rendered by the text it carries, since Python's
  float repr is not modelled.
- Asynchronous interleaving: `asyncio.ensure_future` scheduling, the
  fire-and-forget refresh triggered by the property reads, and concurrent
  `refresh_devices` calls; the gate is modelled as sequential steps.
- An exception from `connect` or from `find_devices` inside `refresh_devices`
  is not modelled.
- Host runtime effects: logging, `async_setup_entry` and `async_unload_entry`
  of the integration (registration of the update listener, the
  `DEVICE_FOUND_POLLING_INTERVAL_S` override), config-entry reload (a logged
  request), platform forwarding (a logged entry id), state callbacks and
  `schedule_update_ha_state`.
- `hass.data[DOMAIN]` being replaced when it is not a dict, and the
  discoverer sharing that dict with the connections: the model keeps the
  connections in a map and the discoverer as a flag.
- The config-flow forms (config_flow.py and deako/config_flow.py): schemas and
  menus of the host's flow framework with no logic of their own.
