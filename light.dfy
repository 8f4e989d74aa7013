/**
 * The light platform of the Deako integration (custom_components/deako/light.py):
 * one entity per device uuid, whose properties are read off the connection's
 * device-state mapping, whose commands go through a connection check, and
 * whose background device-list refresh is guarded by a pair of atomic flags.
 */
module Light {
  import opened Python

  const DOMAIN := "deako"

  datatype ColorMode = OnOff | Brightness

  /** A device's state mapping as pydeako's `get_state(uuid)` returns it. */
  type DeviceState = map<string, Value>

  /** Whether the state reports a dim level: `state.get("dim") is not None`. */
  predicate Dimmable(state: DeviceState) {
    "dim" in state && state["dim"] != PyNone
  }

  // ---------------------------------------------------------------------------
  // Entity properties
  // ---------------------------------------------------------------------------

  /** `is_on`: the stored power flag when it is a bool, False otherwise. */
  function IsOn(state: DeviceState): (r: bool)
    ensures r <==> "power" in state && state["power"] == PyBool(true)
  {
    var power := if "power" in state then state["power"] else PyBool(false);
    if power.PyBool? then power.b else false
  }

  /** `supported_color_modes`. */
  function SupportedColorModes(state: DeviceState): (r: set<ColorMode>)
    ensures |r| == 1
    ensures Brightness in r <==> Dimmable(state)
    ensures OnOff in r <==> !Dimmable(state)
  {
    if Get(state, "dim") == PyNone then {OnOff} else {Brightness}
  }

  /** `name`: the client's name for the device when truthy, else a fallback naming the uuid. */
  function Name(clientName: Option<string>, uuid: string): (r: string)
    ensures r != ""
    ensures Truthy(clientName) ==> r == clientName.value
    ensures !Truthy(clientName) ==> r == "Unknown device: " + uuid && r[|r| - |uuid|..] == uuid
  {
    if Truthy(clientName) then clientName.value else "Unknown device: " + uuid
  }

  /** `unique_id`. */
  function UniqueId(uuid: string): (r: string)
    ensures r == uuid
  {
    uuid
  }

  datatype DeviceInfo = DeviceInfo(
    identifiers: set<(string, string)>,
    name: string,
    manufacturer: string,
    model: string)

  /** `device_info`. */
  function DeviceInfoOf(state: DeviceState, clientName: Option<string>, uuid: string): (r: DeviceInfo)
    ensures r.identifiers == {(DOMAIN, uuid)}
    ensures r.name == Name(clientName, uuid)
    ensures r.manufacturer == "Deako"
    ensures r.model == "dimmer" <==> Dimmable(state)
    ensures r.model == "smart" <==> !Dimmable(state)
  {
    DeviceInfo(
      {(DOMAIN, UniqueId(uuid))},
      Name(clientName, uuid),
      "Deako",
      if Brightness in SupportedColorModes(state) then "dimmer" else "smart")
  }

  /** The registry identifier and the entity's unique id name the same device. */
  lemma IdentifierIsUniqueId(state: DeviceState, clientName: Option<string>, uuid: string)
    ensures DeviceInfoOf(state, clientName, uuid).identifiers == {(DOMAIN, UniqueId(uuid))}
    ensures UniqueId(uuid) == uuid
  {
  }

  // ---------------------------------------------------------------------------
  // Commands
  // ---------------------------------------------------------------------------

  /**
   * What `_async_ensure_connection_and_wait` finds on the client: no
   * connection manager, a manager without a connection, or a connection that
   * reports whether it is connected.
   */
  datatype Link = NoConnectionManager | NoConnection | Linked(isConnected: bool)

  predicate ConnectionAvailable(link: Link) {
    link.Linked? && link.isConnected
  }

  /**
   * A `control_device` call; `brightness` is the Home Assistant brightness
   * argument the dim level is computed from, None when none was given.
   */
  datatype ControlCommand = ControlCommand(uuid: string, power: bool, brightness: Option<int>)

  /** A command is sent, or the entry is reloaded and ConfigEntryNotReady raised. */
  datatype ControlOutcome = Sent(command: ControlCommand) | ReloadAndRaise

  /** `async_turn_on` (power True) and `async_turn_off` (power False). */
  function Control(uuid: string, power: bool, link: Link, brightness: Option<int>): (r: ControlOutcome)
    ensures r.Sent? <==> ConnectionAvailable(link)
    ensures r.Sent? ==> r.command == ControlCommand(uuid, power, brightness)
  {
    if !(link.Linked? && link.isConnected) then ReloadAndRaise
    else Sent(ControlCommand(uuid, power, brightness))
  }

  // ---------------------------------------------------------------------------
  // The refresh gate
  // ---------------------------------------------------------------------------

  /** The flags `is_refreshing` and `is_additional_refresh_requested`. */
  datatype Gate = Gate(isRefreshing: bool, isAdditionalRefreshRequested: bool)

  const Idle := Gate(false, false)

  datatype RefreshOutcome = Refreshed | Skipped | NotReady

  /**
   * One `refresh_devices` call. `compare_exchange(True, True)` succeeds only on
   * a True flag and then writes True back; on success the call only records
   * the extra request, otherwise it checks the connection, refreshes, stores
   * False and clears a pending request with `compare_exchange(True, False)`.
   */
  function RefreshStep(g: Gate, link: Link): (r: (Gate, RefreshOutcome))
    ensures r.1 == Skipped <==> g.isRefreshing
    ensures r.1 == Refreshed <==> !g.isRefreshing && ConnectionAvailable(link)
    ensures r.1 == NotReady ==> r.0 == g
    ensures !g.isRefreshing ==> !r.0.isRefreshing
  {
    var busy := g.isRefreshing;
    if !busy then
      if !ConnectionAvailable(link) then (g, NotReady)
      else
        // compare_exchange(True, False) leaves the flag False whichever way it goes
        (Gate(false, false), Refreshed)
    else
      (Gate(g.isRefreshing, true), Skipped)
  }

  /** While a refresh is in flight, a call only records the extra request. */
  lemma BusyGateRecordsRequest(g: Gate, link: Link)
    requires g.isRefreshing
    ensures RefreshStep(g, link) == (Gate(true, true), Skipped)
  {
  }

  /** After a completed refresh both flags are clear. */
  lemma RefreshClearsFlags(g: Gate, link: Link)
    requires RefreshStep(g, link).1 == Refreshed
    ensures RefreshStep(g, link).0 == Idle
  {
  }

  /** The flags and outcomes of the calls `links`, made one after another from `g`. */
  function RunGate(g: Gate, links: seq<Link>): (Gate, seq<RefreshOutcome>)
    decreases |links|
  {
    if links == [] then (g, [])
    else
      var (next, outcome) := RefreshStep(g, links[0]);
      var (last, outcomes) := RunGate(next, links[1..]);
      (last, [outcome] + outcomes)
  }

  /**
   * Nothing ever stores True into `is_refreshing`, so from a fresh entity the
   * flag stays False and no call is ever skipped: every call refreshes or, on
   * a missing connection, raises.
   */
  lemma {:induction false} GateNeverSkips(g: Gate, links: seq<Link>)
    requires !g.isRefreshing
    ensures |RunGate(g, links).1| == |links|
    ensures !RunGate(g, links).0.isRefreshing
    ensures forall i :: 0 <= i < |links| ==>
      RunGate(g, links).1[i] == if ConnectionAvailable(links[i]) then Refreshed else NotReady
    decreases |links|
  {
    if links != [] {
      var next := RefreshStep(g, links[0]).0;
      GateNeverSkips(next, links[1..]);
      var outcomes := RunGate(g, links).1;
      assert outcomes == [RefreshStep(g, links[0]).1] + RunGate(next, links[1..]).1;
      forall i | 0 <= i < |links|
        ensures outcomes[i] == if ConnectionAvailable(links[i]) then Refreshed else NotReady
      {
        if i > 0 {
          assert outcomes[i] == RunGate(next, links[1..]).1[i - 1];
          assert links[i] == links[1..][i - 1];
        }
      }
    }
  }

  /** A `DeakoLightSwitch` entity. */
  class DeakoLightSwitch {
    const uuid: string
    var isRefreshing: bool
    var isAdditionalRefreshRequested: bool
    ghost var findDevicesCalls: nat
    ghost var reloadRequests: nat

    function GateOf(): Gate
      reads this
    {
      Gate(isRefreshing, isAdditionalRefreshRequested)
    }

    /** The entity's invariant: `is_refreshing` is False. */
    ghost predicate Valid()
      reads this
    {
      !isRefreshing
    }

    constructor (uuid: string)
      ensures this.uuid == uuid && Valid() && GateOf() == Idle
      ensures findDevicesCalls == 0 && reloadRequests == 0
    {
      this.uuid := uuid;
      isRefreshing := false;
      isAdditionalRefreshRequested := false;
      findDevicesCalls := 0;
      reloadRequests := 0;
    }

    /** `_async_ensure_connection_and_wait`: false after requesting a reload. */
    method EnsureConnection(link: Link) returns (available: bool)
      modifies this`reloadRequests
      ensures available == ConnectionAvailable(link)
      ensures reloadRequests == old(reloadRequests) + (if available then 0 else 1)
    {
      available := link.Linked? && link.isConnected;
      if !available {
        reloadRequests := reloadRequests + 1;
      }
    }

    method TurnOn(link: Link, brightness: Option<int>) returns (outcome: ControlOutcome)
      modifies this`reloadRequests
      ensures outcome == Control(uuid, true, link, brightness)
      ensures reloadRequests == old(reloadRequests) + (if outcome.Sent? then 0 else 1)
    {
      var available := EnsureConnection(link);
      if !available {
        return ReloadAndRaise;
      }
      outcome := Sent(ControlCommand(uuid, true, brightness));
    }

    method TurnOff(link: Link, brightness: Option<int>) returns (outcome: ControlOutcome)
      modifies this`reloadRequests
      ensures outcome == Control(uuid, false, link, brightness)
      ensures reloadRequests == old(reloadRequests) + (if outcome.Sent? then 0 else 1)
    {
      var available := EnsureConnection(link);
      if !available {
        return ReloadAndRaise;
      }
      outcome := Sent(ControlCommand(uuid, false, brightness));
    }

    /** `refresh_devices`, laid out as sequential steps. */
    method RefreshDevices(link: Link) returns (outcome: RefreshOutcome)
      modifies this
      ensures (GateOf(), outcome) == RefreshStep(old(GateOf()), link)
      ensures findDevicesCalls == old(findDevicesCalls) + (if outcome == Refreshed then 1 else 0)
      ensures reloadRequests == old(reloadRequests) + (if outcome == NotReady then 1 else 0)
      ensures old(Valid()) ==> Valid() && outcome != Skipped
    {
      // compare_exchange(True, True)
      var swapped := isRefreshing;
      if swapped {
        isRefreshing := true;
      }
      if !swapped {
        var available := EnsureConnection(link);
        if !available {
          return NotReady;
        }
        findDevicesCalls := findDevicesCalls + 1;
        isRefreshing := false;
        // compare_exchange(True, False)
        if isAdditionalRefreshRequested {
          isAdditionalRefreshRequested := false;
        }
        outcome := Refreshed;
      } else {
        isAdditionalRefreshRequested := true;
        outcome := Skipped;
      }
    }
  }

  /**
   * `async_setup_entry`: one entity per device uuid in the client's order, or,
   * with no devices, none and a disconnect.
   */
  method AsyncSetupEntry(devices: seq<string>) returns (lights: seq<DeakoLightSwitch>, disconnect: bool)
    ensures disconnect <==> devices == []
    ensures |lights| == |devices|
    ensures forall i :: 0 <= i < |lights| ==>
      fresh(lights[i]) && lights[i].uuid == devices[i] && lights[i].Valid() && lights[i].GateOf() == Idle
    ensures forall i, j :: 0 <= i < j < |lights| ==> lights[i] != lights[j]
  {
    if |devices| == 0 {
      return [], true;
    }
    disconnect := false;
    lights := [];
    var k := 0;
    while k < |devices|
      invariant 0 <= k <= |devices| && |lights| == k
      invariant forall i :: 0 <= i < k ==>
        fresh(lights[i]) && lights[i].uuid == devices[i] && lights[i].Valid() && lights[i].GateOf() == Idle
      invariant forall i, j :: 0 <= i < j < k ==> lights[i] != lights[j]
    {
      var light := new DeakoLightSwitch(devices[k]);
      lights := lights + [light];
      k := k + 1;
    }
  }
}
