/** The agent's startup sequence as an ordered plan of bus calls. Each call is an
    abstract step that either returns or raises; a raised error propagates out of
    the startup routine, so nothing after the failing call runs. What each call
    does to the agent's export table and the daemon's view is summarised by an
    abstract bus state. */
module AgentStartup {
  import opened DBusTypes
  import AgentPolicy

  const DBUS_PROPERTIES_INTERFACE: string := "org.freedesktop.DBus.Properties"
  const BLUEZ_AGENT_MANAGER_INTERFACE: string := "org.bluez.AgentManager1"
  const BLUEZ_ADAPTER_INTERFACE: string := "org.bluez.Adapter1"
  const BLUEZ_BUS_NAME: string := "org.bluez"
  const BLUEZ_BUS_PATH: ObjectPath := "/org/bluez"
  const AGENT_PATH: ObjectPath := "/local/ad2pagent"

  /** The IO capability the agent registers with: no display, no keyboard
      ("NoInputNoOutput", Bluetooth Core Specification, Vol 3, Part H, section 2.3.2). */
  const AGENT_CAPABILITY: string := "NoInputNoOutput"

  /** The bus the routine connects to: always the system bus. */
  datatype BusType = SystemBus

  /** One call the startup routine makes. GetInterface stands for building the proxy
      object from an introspection result and taking one interface of it. */
  datatype Step =
    | Connect(bus: BusType)
    | Introspect(service: string, path: ObjectPath)
    | GetInterface(service: string, path: ObjectPath, iface: string)
    | SetProperty(path: ObjectPath, iface: string, name: string, value: Variant)
    | Export(path: ObjectPath, iface: string)
    | RegisterAgent(agent: ObjectPath, capability: string)
    | RequestDefaultAgent(agent: ObjectPath)
    | WaitDisconnect

  /** The object path of the adapter named on the command line. */
  function AdapterPath(device: string): (p: ObjectPath)
    ensures |p| == |BLUEZ_BUS_PATH| + 1 + |device|
    ensures p[..|BLUEZ_BUS_PATH|] == BLUEZ_BUS_PATH && p[|BLUEZ_BUS_PATH|] == '/'
    ensures p[|BLUEZ_BUS_PATH| + 1..] == device
  {
    BLUEZ_BUS_PATH + "/" + device
  }

  /** Distinct adapter names give distinct object paths, and an adapter path is
      never the daemon's root path or the agent's path. */
  lemma AdapterPathDistinct(d1: string, d2: string)
    ensures AdapterPath(d1) == AdapterPath(d2) ==> d1 == d2
    ensures AdapterPath(d1) != BLUEZ_BUS_PATH
    ensures AdapterPath(d1) != AGENT_PATH
  {
    var p := AdapterPath(d1);
    assert p[1] == 'o' != AGENT_PATH[1];
  }

  /** The calls of the startup routine, in program order. */
  function Plan(device: string): seq<Step> {
    var adapter := AdapterPath(device);
    [ Connect(SystemBus),
      Introspect(BLUEZ_BUS_NAME, adapter),
      GetInterface(BLUEZ_BUS_NAME, adapter, DBUS_PROPERTIES_INTERFACE),
      SetProperty(adapter, BLUEZ_ADAPTER_INTERFACE, "DiscoverableTimeout", UInt32(0)),
      SetProperty(adapter, BLUEZ_ADAPTER_INTERFACE, "Discoverable", Boolean(true)),
      Introspect(BLUEZ_BUS_NAME, BLUEZ_BUS_PATH),
      GetInterface(BLUEZ_BUS_NAME, BLUEZ_BUS_PATH, BLUEZ_AGENT_MANAGER_INTERFACE),
      Export(AGENT_PATH, AgentPolicy.AGENT_INTERFACE),
      RegisterAgent(AGENT_PATH, AGENT_CAPABILITY),
      RequestDefaultAgent(AGENT_PATH),
      WaitDisconnect ]
  }

  /** The order the routine fixes: the adapter's discoverable timeout is set to 0
      ("never") before discoverability is switched on, both before the agent object
      is exported; the one exported path is then registered with NoInputNoOutput,
      made the default agent, and only then does the routine block. */
  lemma PlanOrder(device: string)
    ensures |Plan(device)| == 11 && Plan(device)[0] == Connect(SystemBus)
    ensures Plan(device)[3] == SetProperty(AdapterPath(device), "org.bluez.Adapter1", "DiscoverableTimeout", UInt32(0))
    ensures Plan(device)[4] == SetProperty(AdapterPath(device), "org.bluez.Adapter1", "Discoverable", Boolean(true))
    ensures Plan(device)[7] == Export("/local/ad2pagent", "org.bluez.Agent1")
    ensures Plan(device)[8] == RegisterAgent("/local/ad2pagent", "NoInputNoOutput")
    ensures Plan(device)[9] == RequestDefaultAgent("/local/ad2pagent")
    ensures Plan(device)[10] == WaitDisconnect
    ensures forall k :: 0 <= k < |Plan(device)| && k != 7 ==> !Plan(device)[k].Export?
    ensures forall k :: 0 <= k < |Plan(device)| && k != 8 ==> !Plan(device)[k].RegisterAgent?
    ensures forall k :: 0 <= k < |Plan(device)| && k != 9 ==> !Plan(device)[k].RequestDefaultAgent?
  {
  }

  // ---------------------------------------------------------------------------
  // Abort-on-first-failure execution

  /** The calls that returned, and the call that raised, if one did. */
  datatype Outcome = Outcome(done: seq<Step>, failure: Option<Step>) {
    predicate Succeeded() { failure.None? }

    /** Every call that was started, the failing one last. */
    function Attempted(): seq<Step> {
      if failure.Some? then done + [failure.value] else done
    }
  }

  /** Runs `plan` from the front; `succeeds` says which calls return. */
  function Execute(plan: seq<Step>, succeeds: Step -> bool): (r: Outcome)
    ensures |r.done| <= |plan| && r.done == plan[..|r.done|]
    ensures forall k :: 0 <= k < |r.done| ==> succeeds(plan[k])
    ensures r.failure.None? <==> |r.done| == |plan|
    ensures r.failure.Some? ==> r.failure.value == plan[|r.done|] && !succeeds(plan[|r.done|])
  {
    if plan == [] then Outcome([], None)
    else if !succeeds(plan[0]) then Outcome([], Some(plan[0]))
    else
      var rest := Execute(plan[1..], succeeds);
      Outcome([plan[0]] + rest.done, rest.failure)
  }

  /** The plan completes exactly when every call in it returns. */
  lemma ExecuteSucceedsIffAllSucceed(plan: seq<Step>, succeeds: Step -> bool)
    ensures Execute(plan, succeeds).Succeeded() <==> forall k :: 0 <= k < |plan| ==> succeeds(plan[k])
  {
  }

  /** The first call that raises is the last one started: everything before it has
      returned and nothing after it runs. */
  lemma ExecuteStopsAtFirstFailure(plan: seq<Step>, succeeds: Step -> bool, i: nat)
    requires i < |plan| && !succeeds(plan[i])
    requires forall k :: 0 <= k < i ==> succeeds(plan[k])
    ensures Execute(plan, succeeds) == Outcome(plan[..i], Some(plan[i]))
  {
  }

  /** No call after a failing one is started. */
  lemma NothingRunsAfterFailure(plan: seq<Step>, succeeds: Step -> bool, i: nat)
    requires i < |plan| && !succeeds(plan[i])
    ensures |Execute(plan, succeeds).Attempted()| <= i + 1
    ensures Execute(plan, succeeds).Attempted() == plan[..|Execute(plan, succeeds).Attempted()|]
  {
    var o := Execute(plan, succeeds);
    assert |o.done| <= i;
    assert o.failure.Some? && o.Attempted() == plan[..|o.done|] + [plan[|o.done|]];
    assert o.Attempted() == plan[..|o.done| + 1];
  }

  // ---------------------------------------------------------------------------
  // The startup routine

  /** The startup routine: each call in program order, leaving at the first one that
      raises. */
  method Run(device: string, succeeds: Step -> bool) returns (done: seq<Step>, failure: Option<Step>)
    ensures Outcome(done, failure) == Execute(Plan(device), succeeds)
  {
    ghost var plan := Plan(device);
    done, failure := Call(plan, succeeds, 0, [], Connect(SystemBus));
    if failure.Some? { return; }

    var devicePath := AdapterPath(device);
    done, failure := EnableDiscovery(plan, device, succeeds, done, devicePath);
    if failure.Some? { return; }

    done, failure := RegisterAgentAsDefault(plan, device, succeeds, done);
    if failure.Some? { return; }

    done, failure := Call(plan, succeeds, 10, done, WaitDisconnect);
  }

  /** Looks up the adapter's property interface, then makes the adapter discoverable
      with no timeout: the timeout is set to 0 before discoverability is switched on. */
  method EnableDiscovery(ghost plan: seq<Step>, ghost device: string, succeeds: Step -> bool, done: seq<Step>, devicePath: ObjectPath)
    returns (done': seq<Step>, failure: Option<Step>)
    requires |plan| == 11 && done == plan[..1] && AllReturn(done, succeeds)
    requires plan == Plan(device) && devicePath == AdapterPath(device)
    ensures failure.Some? ==> Execute(plan, succeeds) == Outcome(done', failure)
    ensures failure.None? ==> done' == plan[..5] && AllReturn(done', succeeds)
  {
    var step := Introspect(BLUEZ_BUS_NAME, devicePath);
    done', failure := Call(plan, succeeds, 1, done, step);
    if failure.Some? { return; }
    step := GetInterface(BLUEZ_BUS_NAME, devicePath, DBUS_PROPERTIES_INTERFACE);
    done', failure := Call(plan, succeeds, 2, done', step);
    if failure.Some? { return; }

    step := SetProperty(devicePath, BLUEZ_ADAPTER_INTERFACE, "DiscoverableTimeout", UInt32(0));
    done', failure := Call(plan, succeeds, 3, done', step);
    if failure.Some? { return; }
    step := SetProperty(devicePath, BLUEZ_ADAPTER_INTERFACE, "Discoverable", Boolean(true));
    done', failure := Call(plan, succeeds, 4, done', step);
  }

  /** Looks up the agent manager, exports the agent object at AGENT_PATH, registers
      that same path with the NoInputNoOutput capability and asks for it to become
      the default agent. */
  method RegisterAgentAsDefault(ghost plan: seq<Step>, ghost device: string, succeeds: Step -> bool, done: seq<Step>)
    returns (done': seq<Step>, failure: Option<Step>)
    requires |plan| == 11 && done == plan[..5] && AllReturn(done, succeeds)
    requires plan == Plan(device)
    ensures failure.Some? ==> Execute(plan, succeeds) == Outcome(done', failure)
    ensures failure.None? ==> done' == plan[..10] && AllReturn(done', succeeds)
  {
    var step := Introspect(BLUEZ_BUS_NAME, BLUEZ_BUS_PATH);
    done', failure := Call(plan, succeeds, 5, done, step);
    if failure.Some? { return; }
    step := GetInterface(BLUEZ_BUS_NAME, BLUEZ_BUS_PATH, BLUEZ_AGENT_MANAGER_INTERFACE);
    done', failure := Call(plan, succeeds, 6, done', step);
    if failure.Some? { return; }

    step := Export(AGENT_PATH, AgentPolicy.AGENT_INTERFACE);
    done', failure := Call(plan, succeeds, 7, done', step);
    if failure.Some? { return; }

    step := RegisterAgent(AGENT_PATH, AGENT_CAPABILITY);
    done', failure := Call(plan, succeeds, 8, done', step);
    if failure.Some? { return; }
    step := RequestDefaultAgent(AGENT_PATH);
    done', failure := Call(plan, succeeds, 9, done', step);
  }

  /** The calls in `steps` all returned. */
  predicate AllReturn(steps: seq<Step>, succeeds: Step -> bool) {
    forall k :: 0 <= k < |steps| ==> succeeds(steps[k])
  }

  /** One call of the startup routine that may raise: an awaited bus call, a proxy
      or interface lookup, or the export of the agent object. `step` comes next in
      `plan` after the calls in `done`, which have all returned. If it returns it
      joins `done`; if it raises, the whole plan ends here with that failure. */
  method Call(ghost plan: seq<Step>, succeeds: Step -> bool, ghost i: nat, done: seq<Step>, step: Step)
    returns (done': seq<Step>, failure: Option<Step>)
    requires i < |plan| && done == plan[..i] && plan[i] == step
    requires AllReturn(done, succeeds)
    ensures failure.Some? <==> !succeeds(step)
    ensures failure.Some? ==> failure == Some(step) && done' == done
    ensures failure.Some? ==> Execute(plan, succeeds) == Outcome(done, failure)
    ensures failure.None? ==> done' == plan[..i + 1]
    ensures failure.None? && i + 1 == |plan| ==> Execute(plan, succeeds) == Outcome(plan, None)
    ensures AllReturn(done', succeeds)
  {
    if succeeds(step) {
      done', failure := done + [step], None;
      if i + 1 == |plan| {
        assert done' == plan;
        ExecuteSucceedsIffAllSucceed(plan, succeeds);
      }
    } else {
      ExecuteStopsAtFirstFailure(plan, succeeds, i);
      done', failure := done, Some(step);
    }
  }
}
