/**
 * Config-entry lifecycle of the Deako integration
 * (custom_components/deako/__init__.py): where the connection address and the
 * telnet message delay come from, when an options update tears the connection
 * down and builds a new one, and how a new connection is registered in the
 * host's per-domain registry.
 *
 * pydeako's network calls (connect, find_devices, disconnect) and zeroconf
 * discovery are not carried out: their outcome is a parameter, and ghost logs
 * record the calls whose effect the model does not follow.
 */
module Connection {
  import opened Python
  import ParseGuard

  const CONF_IP_ADDRESS := "ip_address"
  const CONF_PORT := "port"
  const TELNET_MESSAGE_DELAY := "telnet_message_receive_delay"

  /** Requested delays below this many seconds are set to zero. */
  const NearZeroDelay: real := 0.00001

  /** A config entry's `data` or `options` mapping. */
  type Config = map<string, Value>

  /** A config entry: its id and its two mappings, each of which may be None. */
  datatype ConfigEntry = ConfigEntry(entryId: string, options: Option<Config>, data: Option<Config>)

  // ---------------------------------------------------------------------------
  // Addresses
  // ---------------------------------------------------------------------------

  /** `f"{cfg.get(CONF_IP_ADDRESS)}:{cfg.get(CONF_PORT)}"`. */
  function FormatAddress(cfg: Config): (r: string)
    ensures var host := Str(Get(cfg, CONF_IP_ADDRESS));
      && |r| > |host|
      && r[..|host|] == host && r[|host|] == ':' && r[|host| + 1..] == Str(Get(cfg, CONF_PORT))
  {
    Str(Get(cfg, CONF_IP_ADDRESS)) + ":" + Str(Get(cfg, CONF_PORT))
  }

  /** The position of the last ':' in `s`; it recovers the port from `FormatAddress`'s output. */
  function LastColon(s: string): (r: Option<nat>)
    ensures r.None? <==> ':' !in s
    ensures r.Some? ==> r.value < |s| && s[r.value] == ':' && ':' !in s[r.value + 1..]
    decreases |s|
  {
    if s == "" then None
    else if s[|s| - 1] == ':' then Some(|s| - 1)
    else
      var r := LastColon(s[..|s| - 1]);
      assert r.Some? ==> s[r.value + 1..] == s[..|s| - 1][r.value + 1..] + [s[|s| - 1]];
      assert r.None? ==> s == s[..|s| - 1] + [s[|s| - 1]];
      r
  }

  lemma {:induction false} LastColonOfJoin(host: string, port: string)
    requires ':' !in port
    ensures LastColon(host + ":" + port) == Some(|host|)
    decreases |port|
  {
    var s := host + ":" + port;
    if port != "" {
      assert s[..|s| - 1] == host + ":" + port[..|port| - 1];
      assert port[|port| - 1] in port;
      LastColonOfJoin(host, port[..|port| - 1]);
    }
  }

  /**
   * An integer port survives the formatting: the text after the last ':' of
   * the address is its decimal rendering, even when the host part is an IPv6
   * address that contains colons itself.
   */
  lemma AddressPortRecoverable(cfg: Config)
    requires Get(cfg, CONF_PORT).PyInt?
    ensures var a := FormatAddress(cfg);
      var host := Str(Get(cfg, CONF_IP_ADDRESS));
      && LastColon(a) == Some(|host|)
      && a[..|host|] == host
      && ParseInt(a[|host| + 1..]) == Some(Get(cfg, CONF_PORT).i)
  {
    var host := Str(Get(cfg, CONF_IP_ADDRESS));
    var port := Str(Get(cfg, CONF_PORT));
    LastColonOfJoin(host, port);
    assert FormatAddress(cfg)[|host| + 1..] == port;
  }

  /** `get_connection_address`: the address a preset getter would return, or None. */
  function GetConnectionAddress(entry: ConfigEntry): (r: Option<string>)
    ensures r.Some? <==> entry.options.Some? || entry.data.Some?
    ensures entry.options.Some? ==> r == Some(FormatAddress(entry.options.value))
    ensures entry.options.None? && entry.data.Some? ==> r == Some(FormatAddress(entry.data.value))
  {
    if entry.options.Some? then Some(FormatAddress(entry.options.value))
    else if entry.data.Some? then Some(FormatAddress(entry.data.value))
    else None
  }

  /** Where `_initiate_connection` gets the address it hands to `Deako`. */
  datatype AddressSource = Hardcoded(address: string) | Discovered

  /** The address source `_initiate_connection` picks for `entry`. */
  function AddressSourceOf(entry: ConfigEntry): (r: AddressSource)
    ensures r.Discovered? <==> entry.options.None? && entry.data.None?
    ensures entry.options.Some? ==> r == Hardcoded(FormatAddress(entry.options.value))
    ensures entry.options.None? && entry.data.Some? ==> r == Hardcoded(FormatAddress(entry.data.value))
  {
    if entry.options.Some? then Hardcoded(FormatAddress(entry.options.value))
    else if entry.data.Some? then Hardcoded(FormatAddress(entry.data.value))
    else Discovered
  }

  /** The preset address and the connection's address source always agree. */
  lemma PresetMatchesSource(entry: ConfigEntry)
    ensures GetConnectionAddress(entry).Some? <==> AddressSourceOf(entry).Hardcoded?
    ensures AddressSourceOf(entry).Hardcoded? ==>
      GetConnectionAddress(entry) == Some(AddressSourceOf(entry).address)
  {
  }

  /** An options mapping without an ip and a port still takes precedence over data. */
  lemma EmptyOptionsAddress(entryId: string, data: Option<Config>)
    ensures GetConnectionAddress(ConfigEntry(entryId, Some(map[]), data)) == Some("None:None")
    ensures AddressSourceOf(ConfigEntry(entryId, Some(map[]), data)) == Hardcoded("None:None")
  {
    var empty: Config := map[];
    assert Get(empty, CONF_IP_ADDRESS) == PyNone && Get(empty, CONF_PORT) == PyNone;
    assert FormatAddress(empty) == "None" + ":" + "None" == "None:None";
  }

  // ---------------------------------------------------------------------------
  // The reconnect decision
  // ---------------------------------------------------------------------------

  /**
   * The two attributes `update_listener` reads from an existing connection,
   * `__is_address_hardcoded` and `__address`; None when the attribute was
   * never assigned.
   */
  datatype ConnView = ConnView(isAddressHardcoded: Option<bool>, address: Option<string>)

  /** The attributes `_initiate_connection` gives a connection with address source `source`. */
  function ViewOfNew(source: AddressSource): ConnView {
    match source
    case Hardcoded(a) => ConnView(Some(true), Some(a))
    case Discovered => ConnView(None, None)
  }

  /**
   * The `should_reconnect` computation of `update_listener`, evaluated as
   * Python does: `and` binds tighter than `or`, both short-circuit, and reading
   * an attribute that was never assigned raises AttributeError.
   */
  function ShouldReconnect(conn: Option<ConnView>, preset: Option<string>): (r: Result<bool>)
    ensures conn.None? ==> r == Ok(true)
    ensures conn.Some? && conn.value.isAddressHardcoded.None? ==> r == Err(AttributeError)
    ensures conn.Some? && conn.value.isAddressHardcoded == Some(true) && conn.value.address.Some? ==>
      r == Ok(preset != Some(conn.value.address.value))
    ensures conn.Some? && conn.value.isAddressHardcoded == Some(true) && conn.value.address.None? ==>
      r == if preset.None? then Ok(true) else Err(AttributeError)
    ensures conn.Some? && conn.value.isAddressHardcoded == Some(false) ==> r == Ok(preset.Some?)
  {
    if conn.None? then Ok(true)
    else
      match conn.value.isAddressHardcoded
      case None => Err(AttributeError)
      case Some(hardcoded) =>
        // hardcoded and (preset is None or connection.__address != preset())
        var left: Result<bool> :=
          if !hardcoded then Ok(false)
          else if preset.None? then Ok(true)
          else if conn.value.address.None? then Err(AttributeError)
          else Ok(conn.value.address.value != preset.value);
        match left
        case Err(e) => Err(e)
        case Ok(true) => Ok(true)
        // or (not connection.__is_address_hardcoded and preset is not None)
        case Ok(false) => Ok(!hardcoded && preset.Some?)
  }

  /** With both attributes present, the condition reads `(H && (P || A)) || (!H && Q)`. */
  lemma ReconnectPrecedence(hardcoded: bool, address: string, preset: Option<string>)
    ensures ShouldReconnect(Some(ConnView(Some(hardcoded), Some(address))), preset)
         == Ok((hardcoded && (preset.None? || address != preset.value)) || (!hardcoded && preset.Some?))
  {
  }

  /**
   * A connection made from an entry that has not changed since is kept when
   * its address was configured; one that was discovered never gets its
   * `__is_address_hardcoded` attribute, so the update listener raises.
   */
  lemma UnchangedEntryDecision(entry: ConfigEntry)
    ensures ShouldReconnect(Some(ViewOfNew(AddressSourceOf(entry))), GetConnectionAddress(entry))
         == if AddressSourceOf(entry).Hardcoded? then Ok(false) else Err(AttributeError)
  {
  }

  /** A configured connection is rebuilt exactly when the preset address is gone or differs. */
  lemma HardcodedReconnectsOnChange(address: string, entry: ConfigEntry)
    ensures ShouldReconnect(Some(ViewOfNew(Hardcoded(address))), GetConnectionAddress(entry))
         == Ok(GetConnectionAddress(entry) != Some(address))
  {
  }

  /**
   * A discovered connection makes the decision raise whatever the preset, so
   * the branch for a non-hardcoded connection that gets a preset address is
   * never reached by connections this integration creates.
   */
  lemma DiscoveredConnectionRaises(preset: Option<string>)
    ensures ShouldReconnect(Some(ViewOfNew(Discovered)), preset) == Err(AttributeError)
  {
  }

  // ---------------------------------------------------------------------------
  // The telnet message delay
  // ---------------------------------------------------------------------------

  /** The mapping is present and holds a delay other than None. */
  predicate HasDelay(cfg: Option<Config>) {
    cfg.Some? && Get(cfg.value, TELNET_MESSAGE_DELAY) != PyNone
  }

  /** The delay `set_delay_options_if_needed` picks: options first, then data. */
  function DelaySetting(entry: ConfigEntry): (r: Option<Value>)
    ensures r.Some? <==> HasDelay(entry.options) || HasDelay(entry.data)
    ensures r != Some(PyNone)
    ensures HasDelay(entry.options) ==> r == Some(Get(entry.options.value, TELNET_MESSAGE_DELAY))
    ensures !HasDelay(entry.options) && HasDelay(entry.data) ==>
      r == Some(Get(entry.data.value, TELNET_MESSAGE_DELAY))
  {
    if entry.options.Some? && Get(entry.options.value, TELNET_MESSAGE_DELAY) != PyNone then
      Some(Get(entry.options.value, TELNET_MESSAGE_DELAY))
    else if entry.data.Some? && Get(entry.data.value, TELNET_MESSAGE_DELAY) != PyNone then
      Some(Get(entry.data.value, TELNET_MESSAGE_DELAY))
    else
      None
  }

  /**
   * The local `telnet_message_delay` of `_initiate_connection`: taken from
   * options alone when options exist. The function never reads it again.
   */
  function LocalDelay(entry: ConfigEntry): (r: Option<Value>)
    ensures r.Some? ==> r == DelaySetting(entry)
    ensures r.None? && DelaySetting(entry).Some? <==>
      entry.options.Some? && !HasDelay(entry.options) && HasDelay(entry.data)
  {
    if entry.options.Some? then
      if Get(entry.options.value, TELNET_MESSAGE_DELAY) != PyNone
      then Some(Get(entry.options.value, TELNET_MESSAGE_DELAY)) else None
    else if entry.data.Some? && Get(entry.data.value, TELNET_MESSAGE_DELAY) != PyNone then
      Some(Get(entry.data.value, TELNET_MESSAGE_DELAY))
    else None
  }

  /**
   * The two precedences differ: options without a delay hide the data's delay
   * from the unused local, while the delay that takes effect falls back to it.
   */
  lemma LocalDelayDiffersFromEffective(entry: ConfigEntry)
    requires entry.options.Some? && !HasDelay(entry.options) && HasDelay(entry.data)
    ensures LocalDelay(entry) == None
    ensures DelaySetting(entry) == Some(Get(entry.data.value, TELNET_MESSAGE_DELAY))
  {
  }

  /** `float(v)` for the value kinds a config entry holds. */
  function FloatOf(v: Value): (r: Result<real>)
    ensures v.PyInt? ==> r == Ok(v.i as real)
    ensures v.PyFloat? ==> r == Ok(v.f)
    ensures v.PyBool? ==> r == Ok(if v.b then 1.0 else 0.0)
    ensures v.PyNone? ==> r == Err(TypeError)
    ensures v.PyStr? ==> r == Err(ValueError)
  {
    match v
    case PyNone => Err(TypeError)
    case PyBool(b) => Ok(if b then 1.0 else 0.0)
    case PyInt(i) => Ok(i as real)
    case PyFloat(f, _) => Ok(f)
    case PyStr(_) => Err(ValueError)
  }

  /** A requested delay with a value below `NearZeroDelay` replaced by zero. */
  function ClampDelay(x: real): (r: real)
    ensures r == 0.0 || r >= NearZeroDelay
    ensures r >= NearZeroDelay ==> r == x
    ensures x >= NearZeroDelay ==> r == x
  {
    if x < NearZeroDelay then 0.0 else x
  }

  /**
   * What `set_delay_options_if_needed` does to WORKER_WAIT_S for `entry`:
   * Ok(None) leaves it, Ok(Some(x)) sets it to x, Err raises.
   */
  function DelayUpdate(entry: ConfigEntry): (r: Result<Option<real>>)
    ensures DelaySetting(entry).None? ==> r == Ok(None)
    ensures DelaySetting(entry).Some? ==> (r.Err? <==> FloatOf(DelaySetting(entry).value).Err?)
    ensures r.Ok? && DelaySetting(entry).Some? ==>
      var x := FloatOf(DelaySetting(entry).value).value;
      && r.value.Some?
      && (x >= NearZeroDelay ==> r.value.value == x)
      && (x < NearZeroDelay ==> r.value.value == 0.0)
  {
    match DelaySetting(entry)
    case None => Ok(None)
    case Some(v) =>
      match FloatOf(v)
      case Err(e) => Err(e)
      case Ok(x) => Ok(Some(ClampDelay(x)))
  }

  // ---------------------------------------------------------------------------
  // Connections and the registry
  // ---------------------------------------------------------------------------

  /** What pydeako's device discovery yields after `connect()`. */
  datatype DeviceDiscovery =
    | FindDevicesTimeout
    | DeviceListTimeout
    | DevicesFound(uuids: seq<string>)

  /** A pydeako `Deako` connection object and the attributes the integration adds to it. */
  class Deako {
    const source: AddressSource
    var isAddressHardcoded: Option<bool>
    var address: Option<string>
    var isRefreshing: Option<int>
    var isAdditionalRefreshRequested: Option<int>

    constructor (source: AddressSource)
      ensures this.source == source
      ensures isAddressHardcoded.None? && address.None?
      ensures isRefreshing.None? && isAdditionalRefreshRequested.None?
    {
      this.source := source;
      isAddressHardcoded := None;
      address := None;
      isRefreshing := None;
      isAdditionalRefreshRequested := None;
    }

    function View(): ConnView
      reads this
    {
      ConnView(isAddressHardcoded, address)
    }
  }

  const AtomicBoolFalse := 0

  /**
   * The integration's share of the host and of pydeako's module state:
   * `hass.data[DOMAIN]` (connections by entry id, and whether a discoverer is
   * stored), pydeako's WORKER_WAIT_S and its `_Connection` class.
   */
  class Integration {
    var connections: map<string, Deako>
    var hasDiscoverer: bool
    var workerWaitS: real
    const connectionClass: ParseGuard.ConnectionClass
    ghost var disconnected: seq<Deako>
    ghost var forwarded: seq<string>

    ghost predicate Valid()
      reads this, connectionClass
    {
      connectionClass.Valid()
    }

    constructor (workerWaitS: real)
      ensures Valid() && fresh(connectionClass)
      ensures connectionClass.Attrs() == ParseGuard.Pristine
      ensures connections == map[] && !hasDiscoverer && this.workerWaitS == workerWaitS
      ensures disconnected == [] && forwarded == []
    {
      connections := map[];
      hasDiscoverer := false;
      this.workerWaitS := workerWaitS;
      connectionClass := new ParseGuard.ConnectionClass();
      disconnected := [];
      forwarded := [];
    }

    /** The attributes of the connection registered for `entryId`, if any. */
    function ConnectionView(entryId: string): Option<ConnView>
      reads this, connections.Values
    {
      if entryId in connections then Some(connections[entryId].View()) else None
    }

    /** `set_delay_options_if_needed`. */
    method SetDelayOptionsIfNeeded(entry: ConfigEntry) returns (result: Result<()>)
      modifies this`workerWaitS
      ensures DelayUpdate(entry).Err? ==> result == Err(DelayUpdate(entry).error) && workerWaitS == old(workerWaitS)
      ensures DelayUpdate(entry) == Ok(None) ==> result == Ok(()) && workerWaitS == old(workerWaitS)
      ensures DelayUpdate(entry).Ok? && DelayUpdate(entry).value.Some? ==>
        result == Ok(()) && workerWaitS == DelayUpdate(entry).value.value
    {
      var delay: Option<Value> := None;
      if entry.options.Some? && Get(entry.options.value, TELNET_MESSAGE_DELAY) != PyNone {
        delay := Some(Get(entry.options.value, TELNET_MESSAGE_DELAY));
      } else if entry.data.Some? && Get(entry.data.value, TELNET_MESSAGE_DELAY) != PyNone {
        delay := Some(Get(entry.data.value, TELNET_MESSAGE_DELAY));
      }
      if delay.Some? {
        var converted := FloatOf(delay.value);
        if converted.Err? {
          return Err(converted.error);
        }
        var value := converted.value;
        if value < NearZeroDelay {
          value := 0.0;
        }
        workerWaitS := value;
      }
      result := Ok(());
    }

    /**
     * `_initiate_connection`, with `discovery` standing for what pydeako's
     * `find_devices` and `get_devices` produce on the new connection.
     */
    method InitiateConnection(entry: ConfigEntry, discovery: DeviceDiscovery) returns (result: Result<()>)
      requires Valid()
      modifies this, connectionClass
      ensures Valid()
      ensures hasDiscoverer == (old(hasDiscoverer) || AddressSourceOf(entry).Discovered?)
      ensures |disconnected| >= |old(disconnected)| && disconnected[..|old(disconnected)|] == old(disconnected)
      ensures DelayUpdate(entry).Err? ==> workerWaitS == old(workerWaitS)
      ensures DelayUpdate(entry).Ok? && DelayUpdate(entry).value.Some? ==> workerWaitS == DelayUpdate(entry).value.value
      ensures DelayUpdate(entry) == Ok(None) ==> workerWaitS == old(workerWaitS)
      ensures DelayUpdate(entry).Err? ==>
        && result == Err(DelayUpdate(entry).error)
        && connections == old(connections)
        && disconnected == old(disconnected)
      ensures DelayUpdate(entry).Ok? && !(discovery.DevicesFound? && |discovery.uuids| > 0) ==>
        && result == Err(ConfigEntryNotReady)
        && connections == old(connections)
        && |disconnected| == |old(disconnected)| + 1 && fresh(disconnected[|disconnected| - 1])
      ensures result.Ok? <==> DelayUpdate(entry).Ok? && discovery.DevicesFound? && |discovery.uuids| > 0
      ensures result.Ok? ==>
        && entry.entryId in connections
        && fresh(connections[entry.entryId])
        && connections == old(connections)[entry.entryId := connections[entry.entryId]]
        && connections[entry.entryId].source == AddressSourceOf(entry)
        && connections[entry.entryId].View() == ViewOfNew(AddressSourceOf(entry))
        && connections[entry.entryId].isRefreshing == Some(AtomicBoolFalse)
        && connections[entry.entryId].isAdditionalRefreshRequested == Some(AtomicBoolFalse)
        && connectionClass.Attrs() == ParseGuard.Install(old(connectionClass.Attrs()), entry.entryId)
        && disconnected == old(disconnected)
        && forwarded == old(forwarded) + [entry.entryId]
      ensures !result.Ok? ==> connectionClass.Attrs() == old(connectionClass.Attrs()) && forwarded == old(forwarded)
    {
      var source: AddressSource;
      if entry.options.Some? {
        source := Hardcoded(FormatAddress(entry.options.value));
      } else if entry.data.Some? {
        source := Hardcoded(FormatAddress(entry.data.value));
      } else {
        if !hasDiscoverer {
          hasDiscoverer := true;
        }
        source := Discovered;
      }

      var delayResult := SetDelayOptionsIfNeeded(entry);
      if delayResult.Err? {
        return delayResult;
      }

      var connection := new Deako(source);
      if source.Hardcoded? {
        connection.isAddressHardcoded := Some(true);
        connection.address := Some(source.address);
      }
      if !(discovery.DevicesFound? && |discovery.uuids| > 0) {
        disconnected := disconnected + [connection];
        return Err(ConfigEntryNotReady);
      }

      connection.isRefreshing := Some(AtomicBoolFalse);
      connection.isAdditionalRefreshRequested := Some(AtomicBoolFalse);
      connectionClass.OverwriteParseDataImplementation(entry.entryId);
      connections := connections[entry.entryId := connection];
      forwarded := forwarded + [entry.entryId];
      result := Ok(());
    }

    /**
     * `update_listener`: re-read the delay, and rebuild the connection when
     * `ShouldReconnect` says so, deregistering and disconnecting the old one
     * before the new one is made.
     */
    method UpdateListener(entry: ConfigEntry, discovery: DeviceDiscovery) returns (result: Result<()>)
      requires Valid()
      modifies this, connectionClass
      ensures Valid()
      ensures DelayUpdate(entry).Err? ==> workerWaitS == old(workerWaitS)
      ensures DelayUpdate(entry).Ok? && DelayUpdate(entry).value.Some? ==> workerWaitS == DelayUpdate(entry).value.value
      ensures DelayUpdate(entry) == Ok(None) ==> workerWaitS == old(workerWaitS)
      ensures |disconnected| >= |old(disconnected)| && disconnected[..|old(disconnected)|] == old(disconnected)
      ensures DelayUpdate(entry).Err? ==>
        && result == Err(DelayUpdate(entry).error)
        && connections == old(connections)
        && disconnected == old(disconnected)
        && hasDiscoverer == old(hasDiscoverer)
        && connectionClass.Attrs() == old(connectionClass.Attrs())
        && forwarded == old(forwarded)
      ensures DelayUpdate(entry).Ok? ==>
        var decision := ShouldReconnect(old(ConnectionView(entry.entryId)), GetConnectionAddress(entry));
        && (decision.Err? ==> result == Err(decision.error))
        && (decision == Ok(false) ==> result == Ok(()))
        && (!(decision == Ok(true)) ==>
              && connections == old(connections)
              && disconnected == old(disconnected)
              && hasDiscoverer == old(hasDiscoverer)
              && connectionClass.Attrs() == old(connectionClass.Attrs())
              && forwarded == old(forwarded))
        && (decision == Ok(true) ==>
              var replaced := if entry.entryId in old(connections) then [old(connections)[entry.entryId]] else [];
              && hasDiscoverer == (old(hasDiscoverer) || AddressSourceOf(entry).Discovered?)
              && |disconnected| >= |old(disconnected)| + |replaced|
              && disconnected[..|old(disconnected)| + |replaced|] == old(disconnected) + replaced
              && (result.Ok? <==> discovery.DevicesFound? && |discovery.uuids| > 0)
              && (result.Ok? ==>
                    && entry.entryId in connections
                    && fresh(connections[entry.entryId])
                    && connections == old(connections)[entry.entryId := connections[entry.entryId]]
                    && connections[entry.entryId].source == AddressSourceOf(entry)
                    && connections[entry.entryId].View() == ViewOfNew(AddressSourceOf(entry))
                    && connections[entry.entryId].isRefreshing == Some(AtomicBoolFalse)
                    && connections[entry.entryId].isAdditionalRefreshRequested == Some(AtomicBoolFalse)
                    && connectionClass.Attrs() == ParseGuard.Install(old(connectionClass.Attrs()), entry.entryId)
                    && disconnected == old(disconnected) + replaced
                    && forwarded == old(forwarded) + [entry.entryId])
              && (!result.Ok? ==>
                    && result == Err(ConfigEntryNotReady)
                    && connections == old(connections) - {entry.entryId}
                    && |disconnected| == |old(disconnected)| + |replaced| + 1
                    && fresh(disconnected[|disconnected| - 1])
                    && connectionClass.Attrs() == old(connectionClass.Attrs())
                    && forwarded == old(forwarded)))
    {
      var delayResult := SetDelayOptionsIfNeeded(entry);
      if delayResult.Err? {
        return delayResult;
      }
      var preset := GetConnectionAddress(entry);
      var connection: Option<Deako> := if entry.entryId in connections then Some(connections[entry.entryId]) else None;
      var view := if connection.Some? then Some(connection.value.View()) else None;
      var decision := ShouldReconnect(view, preset);
      match decision {
        case Err(e) =>
          return Err(e);
        case Ok(shouldReconnect) =>
          if shouldReconnect {
            result := Reconnect(entry, discovery);
          } else {
            result := Ok(());
          }
      }
    }

    /**
     * The reconnect branch of `update_listener`: the registered connection, if
     * any, is removed from the registry and disconnected, then
     * `_initiate_connection` runs for the entry.
     */
    method Reconnect(entry: ConfigEntry, discovery: DeviceDiscovery) returns (result: Result<()>)
      requires Valid() && DelayUpdate(entry).Ok?
      modifies this, connectionClass
      ensures Valid()
      ensures DelayUpdate(entry).value.Some? ==> workerWaitS == DelayUpdate(entry).value.value
      ensures DelayUpdate(entry).value.None? ==> workerWaitS == old(workerWaitS)
      ensures var replaced := if entry.entryId in old(connections) then [old(connections)[entry.entryId]] else [];
        && hasDiscoverer == (old(hasDiscoverer) || AddressSourceOf(entry).Discovered?)
        && |disconnected| >= |old(disconnected)| + |replaced|
        && disconnected[..|old(disconnected)| + |replaced|] == old(disconnected) + replaced
        && (result.Ok? <==> discovery.DevicesFound? && |discovery.uuids| > 0)
        && (result.Ok? ==>
              && entry.entryId in connections
              && fresh(connections[entry.entryId])
              && connections == old(connections)[entry.entryId := connections[entry.entryId]]
              && connections[entry.entryId].source == AddressSourceOf(entry)
              && connections[entry.entryId].View() == ViewOfNew(AddressSourceOf(entry))
              && connections[entry.entryId].isRefreshing == Some(AtomicBoolFalse)
              && connections[entry.entryId].isAdditionalRefreshRequested == Some(AtomicBoolFalse)
              && connectionClass.Attrs() == ParseGuard.Install(old(connectionClass.Attrs()), entry.entryId)
              && disconnected == old(disconnected) + replaced
              && forwarded == old(forwarded) + [entry.entryId])
        && (!result.Ok? ==>
              && result == Err(ConfigEntryNotReady)
              && connections == old(connections) - {entry.entryId}
              && |disconnected| == |old(disconnected)| + |replaced| + 1
              && fresh(disconnected[|disconnected| - 1])
              && connectionClass.Attrs() == old(connectionClass.Attrs())
              && forwarded == old(forwarded))
    {
      if entry.entryId in connections {
        disconnected := disconnected + [connections[entry.entryId]];
        connections := connections - {entry.entryId};
      }
      result := InitiateConnection(entry, discovery);
    }
  }
}
