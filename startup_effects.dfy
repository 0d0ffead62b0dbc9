/** What the returned startup calls leave behind, as an abstract bus state: the
    objects in the agent's own export table (`bus.export` registers an object with
    the agent's MessageBus only) and, on the daemon's side, the adapter properties
    the agent has set, the agents registered with the agent manager, and the
    default agent. A call that raises is taken to change nothing, so the state
    after a run is the effect of the calls that returned; for the final wait this
    means that a wait that raises is not recorded as a disconnection. */
module StartupEffects {
  import opened DBusTypes
  import opened AgentStartup

  datatype BusState = BusState(
    connected: bool,
    properties: map<(ObjectPath, string, string), Variant>,
    exported: set<ObjectPath>,
    agents: map<ObjectPath, string>,
    defaultAgent: Option<ObjectPath>)

  const INITIAL: BusState := BusState(false, map[], {}, map[], None)

  /** The change one returned call makes. */
  function Effect(s: BusState, step: Step): BusState {
    match step
    case Connect(_) => s.(connected := true)
    case Introspect(_, _) => s
    case GetInterface(_, _, _) => s
    case SetProperty(path, iface, name, v) => s.(properties := s.properties[(path, iface, name) := v])
    case Export(path, _) => s.(exported := s.exported + {path})
    case RegisterAgent(agent, capability) => s.(agents := s.agents[agent := capability])
    case RequestDefaultAgent(agent) => s.(defaultAgent := Some(agent))
    case WaitDisconnect => s.(connected := false)
  }

  /** The state after the returned calls `steps`, in order, starting from INITIAL. */
  function Replay(steps: seq<Step>): BusState
    decreases |steps|
  {
    if steps == [] then INITIAL else Effect(Replay(steps[..|steps| - 1]), steps[|steps| - 1])
  }

  /** Every registered agent path is an exported object, and the default agent is a
      registered one: the daemon is never told about an agent it cannot call. */
  predicate Consistent(s: BusState) {
    s.agents.Keys <= s.exported &&
    (s.defaultAgent.Some? ==> s.defaultAgent.value in s.agents)
  }

  /** In `t`, each RegisterAgent is preceded by an Export of the same path, and
      each RequestDefaultAgent by a RegisterAgent of the same path. */
  predicate ExportBeforeRegister(t: seq<Step>) {
    (forall j :: 0 <= j < |t| && t[j].RegisterAgent? ==>
       exists i :: 0 <= i < j && t[i].Export? && t[i].path == t[j].agent) &&
    (forall j :: 0 <= j < |t| && t[j].RequestDefaultAgent? ==>
       exists i :: 0 <= i < j && t[i].RegisterAgent? && t[i].agent == t[j].agent)
  }

  /** Later states never lose an export or a registration. */
  lemma {:induction false} ReplayGrows(t: seq<Step>, n: nat)
    requires n <= |t|
    ensures Replay(t[..n]).exported <= Replay(t).exported
    ensures Replay(t[..n]).agents.Keys <= Replay(t).agents.Keys
    decreases |t|
  {
    if n < |t| {
      var u := t[..|t| - 1];
      assert u[..n] == t[..n];
      ReplayGrows(u, n);
    } else {
      assert t[..n] == t;
    }
  }

  /** A path is exported after the returned calls `t` exactly when one of them
      exported it, and registered exactly when one of them registered it. */
  lemma {:induction false} ReplayRecordsCalls(t: seq<Step>, p: ObjectPath)
    ensures p in Replay(t).exported <==> exists k :: 0 <= k < |t| && t[k].Export? && t[k].path == p
    ensures p in Replay(t).agents <==> exists k :: 0 <= k < |t| && t[k].RegisterAgent? && t[k].agent == p
    decreases |t|
  {
    if t != [] {
      var n := |t| - 1;
      var u := t[..n];
      ReplayRecordsCalls(u, p);
      assert forall k :: 0 <= k < n ==> u[k] == t[k];
      if t[n].Export? && t[n].path == p {
        assert p in Replay(t).exported;
      }
      if t[n].RegisterAgent? && t[n].agent == p {
        assert p in Replay(t).agents;
      }
    }
  }

  lemma ReplaySnoc(t: seq<Step>, i: nat)
    requires i < |t|
    ensures Replay(t[..i + 1]) == Effect(Replay(t[..i]), t[i])
  {
    assert t[..i + 1][..i] == t[..i];
  }

  /** A path exported by the i-th returned call is still exported at the end. */
  lemma ExportedStays(t: seq<Step>, i: nat)
    requires i < |t| && t[i].Export?
    ensures t[i].path in Replay(t).exported
  {
    ReplaySnoc(t, i);
    ReplayGrows(t, i + 1);
  }

  /** A path registered by the i-th returned call is still registered at the end. */
  lemma RegisteredStays(t: seq<Step>, i: nat)
    requires i < |t| && t[i].RegisterAgent?
    ensures t[i].agent in Replay(t).agents
  {
    ReplaySnoc(t, i);
    ReplayGrows(t, i + 1);
  }

  lemma OrderedPrefix(t: seq<Step>, n: nat)
    requires n <= |t| && ExportBeforeRegister(t)
    ensures ExportBeforeRegister(t[..n])
  {
    var u := t[..n];
    assert forall j :: 0 <= j < |u| ==> u[j] == t[j];
  }

  /** One returned call keeps the state consistent when a registration names an
      exported path and a default request names a registered one. */
  lemma EffectKeepsConsistent(s: BusState, step: Step)
    requires Consistent(s)
    requires step.RegisterAgent? ==> step.agent in s.exported
    requires step.RequestDefaultAgent? ==> step.agent in s.agents
    ensures Consistent(Effect(s, step))
  {
  }

  /** Exporting before registering, as a property of the calls, keeps the daemon's
      view consistent. */
  lemma {:induction false} OrderedCallsKeepConsistent(t: seq<Step>)
    requires ExportBeforeRegister(t)
    ensures Consistent(Replay(t))
    decreases |t|
  {
    if t != [] {
      var n := |t| - 1;
      var u, last := t[..n], t[n];
      OrderedPrefix(t, n);
      OrderedCallsKeepConsistent(u);
      if last.RegisterAgent? {
        var i :| 0 <= i < n && t[i].Export? && t[i].path == last.agent;
        assert u[i] == t[i];
        ExportedStays(u, i);
      } else if last.RequestDefaultAgent? {
        var i :| 0 <= i < n && t[i].RegisterAgent? && t[i].agent == last.agent;
        assert u[i] == t[i];
        RegisteredStays(u, i);
      }
      EffectKeepsConsistent(Replay(u), last);
    }
  }

  /** Every prefix of the startup plan exports before it registers. */
  lemma PlanPrefixOrdered(device: string, n: nat)
    requires n <= |Plan(device)|
    ensures ExportBeforeRegister(Plan(device)[..n])
  {
    var t := Plan(device)[..n];
    forall j | 0 <= j < |t| && t[j].RegisterAgent?
      ensures exists i :: 0 <= i < j && t[i].Export? && t[i].path == t[j].agent
    {
      assert j == 8 && t[7].Export? && t[7].path == t[j].agent;
    }
    forall j | 0 <= j < |t| && t[j].RequestDefaultAgent?
      ensures exists i :: 0 <= i < j && t[i].RegisterAgent? && t[i].agent == t[j].agent
    {
      assert j == 9 && t[8].RegisterAgent? && t[8].agent == t[j].agent;
    }
  }

  /** However the daemon answers, the calls that returned were made in an order
      that registers only exported paths, and leave a consistent state. */
  lemma StartupKeepsRegistrationConsistent(device: string, succeeds: Step -> bool)
    ensures ExportBeforeRegister(Execute(Plan(device), succeeds).done)
    ensures Consistent(Replay(Execute(Plan(device), succeeds).done))
  {
    var done := Execute(Plan(device), succeeds).done;
    PlanPrefixOrdered(device, |done|);
    OrderedCallsKeepConsistent(done);
  }

  /** The "registered" state: once the run has reached the blocking wait, the adapter
      is discoverable with no timeout, the agent is exported at AGENT_PATH, registered
      there with NoInputNoOutput and is the default agent, and the bus is connected. */
  lemma ReachingWaitMeansRegistered(device: string, succeeds: Step -> bool)
    requires |Execute(Plan(device), succeeds).done| >= 10
    ensures Execute(Plan(device), succeeds).Attempted()[10] == WaitDisconnect
    ensures Execute(Plan(device), succeeds).done[..10] == Plan(device)[..10]
    ensures Replay(Execute(Plan(device), succeeds).done[..10]) == Registered(device)
  {
    var p := Plan(device);
    var o := Execute(p, succeeds);
    assert o.done[..10] == p[..|o.done|][..10] == p[..10];
    PlanUpToWaitReplay(device);
  }

  /** The state after the first five calls: connected, adapter discoverable forever. */
  lemma PlanDiscoveryReplay(device: string)
    ensures Replay(Plan(device)[..5]) == Registered(device).(exported := {}, agents := map[], defaultAgent := None)
  {
    var p, adapter := Plan(device), AdapterPath(device);
    var timeoutKey := (adapter, BLUEZ_ADAPTER_INTERFACE, "DiscoverableTimeout");
    var discoverableKey := (adapter, BLUEZ_ADAPTER_INTERFACE, "Discoverable");
    var connected := INITIAL.(connected := true);
    ReplaySnoc(p, 0);
    assert p[..0] == [];
    assert Replay(p[..1]) == connected;
    ReplaySnoc(p, 1);
    ReplaySnoc(p, 2);
    assert Replay(p[..3]) == connected;
    ReplaySnoc(p, 3);
    assert Replay(p[..4]) == connected.(properties := map[timeoutKey := UInt32(0)]);
    ReplaySnoc(p, 4);
    assert map[timeoutKey := UInt32(0)][discoverableKey := Boolean(true)]
        == map[timeoutKey := UInt32(0), discoverableKey := Boolean(true)];
  }

  /** The state after the first ten calls, just before the blocking wait. */
  lemma PlanUpToWaitReplay(device: string)
    ensures Replay(Plan(device)[..10]) == Registered(device)
  {
    var p := Plan(device);
    var discoverable := Registered(device).(exported := {}, agents := map[], defaultAgent := None);
    PlanDiscoveryReplay(device);
    ReplaySnoc(p, 5);
    ReplaySnoc(p, 6);
    assert Replay(p[..7]) == discoverable;
    ReplaySnoc(p, 7);
    assert Replay(p[..8]) == discoverable.(exported := {AGENT_PATH});
    ReplaySnoc(p, 8);
    assert Replay(p[..9]) == discoverable.(exported := {AGENT_PATH}, agents := map[AGENT_PATH := AGENT_CAPABILITY]);
    ReplaySnoc(p, 9);
  }

  function Registered(device: string): BusState {
    var adapter := AdapterPath(device);
    BusState(
      true,
      map[(adapter, BLUEZ_ADAPTER_INTERFACE, "DiscoverableTimeout") := UInt32(0),
          (adapter, BLUEZ_ADAPTER_INTERFACE, "Discoverable") := Boolean(true)],
      {AGENT_PATH},
      map[AGENT_PATH := AGENT_CAPABILITY],
      Some(AGENT_PATH))
  }

  /** When every call returns, startup completes, having passed through the
      registered state, and ends with the bus disconnected. */
  lemma SuccessfulStartup(device: string, succeeds: Step -> bool)
    requires forall k :: 0 <= k < |Plan(device)| ==> succeeds(Plan(device)[k])
    ensures Execute(Plan(device), succeeds) == Outcome(Plan(device), None)
    ensures Replay(Plan(device)) == Registered(device).(connected := false)
  {
    var p := Plan(device);
    ExecuteSucceedsIffAllSucceed(p, succeeds);
    ReachingWaitMeansRegistered(device, succeeds);
    assert p[..11] == p;
    ReplaySnoc(p, 10);
  }

  /** An adapter that cannot be introspected aborts startup before anything is
      exported or registered. */
  lemma AdapterLookupFailureStopsBeforeExport(device: string, succeeds: Step -> bool)
    requires !succeeds(Introspect(BLUEZ_BUS_NAME, AdapterPath(device)))
    ensures !Execute(Plan(device), succeeds).Succeeded()
    ensures forall st :: st in Execute(Plan(device), succeeds).Attempted() ==>
              !st.SetProperty? && !st.Export? && !st.RegisterAgent? && !st.RequestDefaultAgent?
    ensures Replay(Execute(Plan(device), succeeds).done).exported == {}
    ensures Replay(Execute(Plan(device), succeeds).done).agents == map[]
  {
    var p := Plan(device);
    NothingRunsAfterFailure(p, succeeds, 1);
    var o := Execute(p, succeeds);
    assert |o.done| <= 1;
    if |o.done| == 1 {
      assert o.done == [p[0]];
      assert o.done[..0] == [];
    }
  }
}
