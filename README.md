# A2DP pairing agent, modelled in Dafny

`a2dp_agent.py` runs a BlueZ pairing agent. It answers the callbacks of the
`org.bluez.Agent1` D-Bus interface. Only service authorizations for the Advanced
Audio Distribution service class are accepted. PIN and passkey requests get fixed
answers, and every device-level authorization is rejected. At startup the script
makes the named adapter discoverable with no timeout. It then exports the agent
object at `/local/ad2pagent`, registers it with BlueZ's agent manager as
`NoInputNoOutput`, asks for it to become the default agent, and waits until the
bus disconnects.

The model has four modules:

- `DBusTypes` (`dbus_types.dfy`): the D-Bus wire types the agent uses: `u16` ('q'),
  `u32` ('u'), object paths, and the two `Variant` values it sends.
- `BluetoothUuid` (`bluetooth_uuid.dfy`): how a 16-bit service class from the
  Bluetooth SIG Assigned Numbers becomes a 128-bit UUID string on the Bluetooth
  Base UUID (Bluetooth Core Specification, Vol 3, Part B, section 2.5.1), in
  lower-case hex. A hex reader `FromHex` proves that characters 4-7 spell the
  class. The hard-coded `A2DP_UUID` is proved to be the expansion of 0x110D. No
  other 16-bit class expands to it.
- `AgentPolicy` (`agent_policy.dfy`): the `A2dpAgent` callbacks.
  - `Request` has one variant per callback, carrying its arguments.
  - `Reply` is an empty return, a string return, a `u32` return, or a D-Bus
    error with its name and message.
  - `Respond` is the whole policy. `A2dpAgent` declares no fields of its own,
    and no callback reads or writes the object's state. Its only state is the
    interface name it is built with (a2dp_agent.py:29). So `Respond` depends on
    the request alone. `Replies` gives the answers to a sequence of
    calls on that one object.
- `AgentStartup` (`agent_startup.dfy`) and `StartupEffects` (`startup_effects.dfy`):
  the startup routine `_run`.
  - `Plan(device)` lists the bus calls `_run` makes, in program order.
  - `Execute(plan, succeeds)` runs the plan. `succeeds` says which calls
    return. The first call that raises ends the run. The result is the calls
    that returned plus the call that raised, if any.
  - `Run` is the routine itself, written as straight-line code with an early
    return after each call that may raise. It is proved equal to `Execute(Plan(device), succeeds)`.
  - `StartupEffects` adds an abstract view of what the returned calls leave
    behind. `exported` is the agent process's own export table: `bus.export`
    only adds the object to the agent's `MessageBus`. The rest is the daemon's
    view: adapter properties set, agents registered, and the default agent. It proves that calling Export before
    RegisterAgent, and RegisterAgent before RequestDefaultAgent, means the daemon
    only ever knows of agents that are exported and registered. It also gives
    the exact state when startup reaches the blocking wait.

I/O and other outside influences become parameters:

- The bus and the daemon are the `succeeds: Step -> bool` parameter. It says, for
  each call, whether the call returns or raises.
- The adapter name from the command line is the `device` parameter.

Some facts about `a2dp_agent.py` that shape the model:

- The agent has nine callbacks (a2dp_agent.py:31-76).
- A rejection is `DBusError('org.bluez.Error.Rejected', 'Connection rejected')`
  (a2dp_agent.py:43, 72). It has a name and a message.
- `bus.export` and the proxy and interface lookups are synchronous calls, but
  they can raise (a2dp_agent.py:86-88, 96-98, 102). Each of them is a step that
  may fail.

## Model

| member | source | states |
|---|---|---|
| `BluetoothUuid.ShortToUuid` | a2dp_agent.py:13 | a 16-bit class expands to a 36-character UUID that starts with "0000", has 4 hex digits in positions 4-7 and ends with the Base UUID tail "-0000-1000-8000-00805f9b34fb" |
| `BluetoothUuid.ShortToUuidIsLowerCase` | a2dp_agent.py:13 | no expanded UUID contains an upper-case hex letter |
| `BluetoothUuid.ShortToUuidInjective` | a2dp_agent.py:13 | two different 16-bit classes never expand to the same UUID string |
| `BluetoothUuid.FromHexOfToHex` | a2dp_agent.py:13 | reading back the width-digit hex spelling of v gives v modulo 16^width, so the spelling means the number |
| `BluetoothUuid.ShortToUuidSpellsIdentifier` | a2dp_agent.py:13 | characters 4-7 of an expansion read back as the 16-bit class itself |
| `BluetoothUuid.ToHexInjective` | a2dp_agent.py:13 | two numbers below 16^width with the same width-digit hex spelling are equal |
| `BluetoothUuid.HexValueOfHexDigit` | a2dp_agent.py:13 | reading a hex digit back gives its value (round trip) |
| `BluetoothUuid.AdvancedAudioDistributionUuid` | a2dp_agent.py:13 | 0x110D expands to "0000110d" followed by the Base UUID tail, i.e. "0000110d-0000-1000-8000-00805f9b34fb" |
| `AgentPolicy.A2dpUuidIsBaseUuidExpansion` | a2dp_agent.py:13 | the hard-coded A2DP UUID is exactly the Base-UUID expansion of service class 0x110D |
| `AgentPolicy.Respond` | a2dp_agent.py:27-76 | the only error ever returned is Rejected/"Connection rejected"; an error comes back exactly for RequestAuthorization and for AuthorizeService with a UUID other than A2DP_UUID; a string comes back exactly for RequestPinCode and a u32 exactly for RequestPasskey; every other call returns empty |
| `AgentPolicy.Replies` | a2dp_agent.py:27-29 | one reply per call, and the i-th reply is Respond of the i-th request alone: earlier calls do not affect it |
| `AgentPolicy.RepliesIgnoreHistory` | a2dp_agent.py:27-29 | the same request at any position of any two call sequences gets the same reply, so repeating or reordering calls changes no reply |
| `AgentPolicy.AuthorizeServiceAllowsOnlyA2dp` | a2dp_agent.py:35-43 | AuthorizeService returns Ok if and only if the UUID equals A2DP_UUID exactly; otherwise it returns the Rejected error |
| `AgentPolicy.AuthorizeServiceIgnoresDevice` | a2dp_agent.py:36-43 | the service decision is the same for every device path |
| `AgentPolicy.AuthorizeServiceBySigClass` | a2dp_agent.py:36-43 | of all Base-UUID expansions of 16-bit classes, only 0x110D is accepted; every other class (Audio Source 0x110A, Audio Sink 0x110B, ...) is rejected |
| `AgentPolicy.UpperCaseUuidRejected` | a2dp_agent.py:38 | the comparison is case-sensitive: any UUID containing an upper-case hex letter is rejected |
| `AgentPolicy.UpperCaseA2dpUuidRejected` | a2dp_agent.py:38 | the upper-case spelling "0000110D-0000-1000-8000-00805F9B34FB" is rejected |
| `AgentPolicy.RequestAuthorizationAlwaysRejected` | a2dp_agent.py:69-72 | RequestAuthorization returns Err("org.bluez.Error.Rejected", "Connection rejected") for every device |
| `AgentPolicy.CredentialsAreConstant` | a2dp_agent.py:45-57 | RequestPinCode returns "0000" and RequestPasskey returns the u32 0, for every device |
| `AgentPolicy.OnlyErrorIsRejected` | a2dp_agent.py:42-72 | whenever any callback returns an error, it is Err("org.bluez.Error.Rejected", "Connection rejected") |
| `AgentPolicy.InformationalCallbacksReturnEmpty` | a2dp_agent.py:31-76 | Release, DisplayPinCode, DisplayPasskey, RequestConfirmation (whatever the passkey) and Cancel return empty and never reject |
| `AgentStartup.AdapterPath` | a2dp_agent.py:83 | the adapter path is "/org/bluez", then "/", then the device name unchanged |
| `AgentStartup.AdapterPathDistinct` | a2dp_agent.py:83 | different device names give different adapter paths; an adapter path is never "/org/bluez" and never the agent path |
| `AgentStartup.Plan` | a2dp_agent.py:81-109 | the steps of `_run` in program order, one per awaited or raising bus call, with each proxy-and-interface lookup as one step; its properties are the `PlanOrder` row |
| `AgentStartup.PlanOrder` | a2dp_agent.py:79-109 | the plan has 11 steps. DiscoverableTimeout := u32 0 comes before Discoverable := true. Both come before the one Export of "/local/ad2pagent" (interface org.bluez.Agent1). That is followed by the one RegisterAgent of the same path with "NoInputNoOutput", the one RequestDefaultAgent of that path, and finally the wait for disconnection |
| `AgentStartup.Execute` | a2dp_agent.py:79-109 | the calls that returned are a prefix of the plan and all returned; the run completes exactly when every call is in that prefix; otherwise the call right after the prefix is the one that raised |
| `AgentStartup.ExecuteSucceedsIffAllSucceed` | a2dp_agent.py:79-109 | startup completes if and only if every call returns |
| `AgentStartup.ExecuteStopsAtFirstFailure` | a2dp_agent.py:79-109 | when call i is the first to raise, exactly calls 0..i-1 returned and call i is the failure |
| `AgentStartup.NothingRunsAfterFailure` | a2dp_agent.py:79-109 | if call i raises, at most calls 0..i are ever started, in plan order |
| `AgentStartup.Run` | a2dp_agent.py:79-109 | the straight-line routine returns exactly Execute(Plan(device), succeeds) |
| `AgentStartup.EnableDiscovery` | a2dp_agent.py:83-92 | introspects the adapter, takes its Properties interface and sets the two properties in order; on a failure, that is the outcome of the whole run |
| `AgentStartup.RegisterAgentAsDefault` | a2dp_agent.py:94-107 | looks up the agent manager, exports, registers and requests default; on a failure, that is the outcome of the whole run |
| `AgentStartup.Call` | a2dp_agent.py:81-109 | one call that may raise (an awaited bus call, a proxy or interface lookup, or the export): if it returns it joins the calls done; if it raises, the whole run ends with that call as the failure |
| `StartupEffects.Effect` | a2dp_agent.py:81-109 | the abstract change one returned call makes to the agent's export table and the daemon's view: connecting, setting an adapter property, exporting (agent side), registering, making default, disconnecting; lookups change nothing |
| `StartupEffects.Replay` | a2dp_agent.py:81-109 | the daemon state after a sequence of returned calls, applied in order from the initial state |
| `StartupEffects.ReplayRecordsCalls` | a2dp_agent.py:100-107 | after any call sequence, a path is exported exactly when some Export call named it, and registered exactly when some RegisterAgent call named it |
| `StartupEffects.ReplayGrows` | a2dp_agent.py:100-107 | later calls never remove an exported object or a registered agent |
| `StartupEffects.OrderedCallsKeepConsistent` | a2dp_agent.py:100-107 | in any call sequence where each RegisterAgent follows an Export of that path and each RequestDefaultAgent follows a RegisterAgent of that path, every registered agent is exported and the default agent is registered |
| `StartupEffects.PlanPrefixOrdered` | a2dp_agent.py:100-107 | every prefix of the startup plan registers only paths it has exported and makes default only paths it has registered |
| `StartupEffects.StartupKeepsRegistrationConsistent` | a2dp_agent.py:79-109 | whichever calls the daemon lets succeed, the calls that returned were made in that order and leave a consistent daemon state |
| `StartupEffects.PlanDiscoveryReplay` | a2dp_agent.py:81-92 | after the first five calls the bus is connected and the adapter has DiscoverableTimeout = 0 and Discoverable = true, with nothing exported or registered |
| `StartupEffects.PlanUpToWaitReplay` | a2dp_agent.py:81-107 | after the first ten calls the agent is exported only at "/local/ad2pagent", registered only there with "NoInputNoOutput", and is the default agent; the adapter stays discoverable forever |
| `StartupEffects.ReachingWaitMeansRegistered` | a2dp_agent.py:81-109 | a run that reaches the blocking wait has done exactly the first ten calls and is in the registered state above |
| `StartupEffects.SuccessfulStartup` | a2dp_agent.py:79-109 | when every call returns, the run completes. It passes through the registered state and ends with the bus disconnected |
| `StartupEffects.AdapterLookupFailureStopsBeforeExport` | a2dp_agent.py:85-102 | if the adapter cannot be introspected, startup fails before setting any property, exporting, registering or requesting default, and nothing is exported or registered |

## Left out

- The D-Bus transport of `dbus_fast`: connection, introspection data, proxy objects,
  method dispatch and marshalling (a2dp_agent.py:7-9, 81-98). It is a foreign
  library and I/O. Each call is a `Step`, and `succeeds` decides whether it returns.
  The types of the exported methods' arguments are kept as Dafny types.
- `bus.get_proxy_object` and `get_interface` are modelled as one `GetInterface`
  step. The introspection data they consume is not modelled.
- The agent's export table and what BlueZ does with each call are summarised by
  the abstract `BusState` in `StartupEffects`. That includes the wait, which ends with the bus disconnected.
  Real adapter state, RF behaviour and pairing are not modelled.
- asyncio scheduling and the blocking `wait_for_disconnect` (a2dp_agent.py:109,
  128) are concurrency and event-loop plumbing. The wait is one final step that
  returns once the bus disconnects.
- Logging (a2dp_agent.py:37-71), including the stray `print` at a2dp_agent.py:42.
  `print` does not apply %-formatting, so it writes the literal text
  "Rejecting non-A2DP service from device %s.", then a space, then the device
  path. It has no effect on any reply.
- `main` (a2dp_agent.py:112-130): argument parsing, log level, and swallowing
  `KeyboardInterrupt`. This is a command-line wrapper. The adapter name it passes
  on is `Run`'s `device` parameter.
- The syntax of D-Bus object paths and UUIDs is not checked, because
  a2dp_agent.py does no validation either. Any string is accepted.
- A call that raises is taken to leave the daemon state unchanged. For
  `wait_for_disconnect` (a2dp_agent.py:109) this means that a wait that raises is
  not recorded as a disconnection, although the bus has then gone away. No
  proved property depends on this.
