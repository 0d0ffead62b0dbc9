/** The pairing-agent policy: the A2dpAgent object that answers the callbacks of the
    BlueZ org.bluez.Agent1 interface. No callback reads or writes the object's
    state, whose only part is the interface name it is built with, so every
    callback is a function of its arguments; a reply is what the callback returns
    to the daemon, or the D-Bus error it raises. */
module AgentPolicy {
  import opened DBusTypes
  import BluetoothUuid

  /** The interface the agent object implements. */
  const AGENT_INTERFACE: string := "org.bluez.Agent1"

  /** The 128-bit Advanced Audio Distribution service class UUID, in lower case:
      "0000110d-0000-1000-8000-00805f9b34fb", written as its 32-bit field and the rest. */
  const A2DP_UUID: string := "0000110d" + "-0000-1000-8000-00805f9b34fb"

  const REJECTED_ERROR: string := "org.bluez.Error.Rejected"
  const REJECTED_MESSAGE: string := "Connection rejected"

  /** The fixed answer to RequestPinCode. */
  const PIN_CODE: string := "0000"

  /** The fixed answer to RequestPasskey; a2dp_agent.py writes it as the literal 0000. */
  const PASSKEY: u32 := 0

  /** One inbound call of the agent interface, with its D-Bus arguments. */
  datatype Request =
    | Release
    | AuthorizeService(device: ObjectPath, uuid: string)
    | RequestPinCode(device: ObjectPath)
    | DisplayPinCode(device: ObjectPath, pincode: string)
    | RequestPasskey(device: ObjectPath)
    | DisplayPasskey(device: ObjectPath, passkey: u32, entered: u16)
    | RequestConfirmation(device: ObjectPath, passkey: u32)
    | RequestAuthorization(device: ObjectPath)
    | Cancel

  /** What goes back to the daemon: an empty method return, a return carrying an
      's' or a 'u' value, or a D-Bus error with its name and message. */
  datatype Reply =
    | Ok
    | OkStr(s: string)
    | OkU32(n: u32)
    | Err(name: string, message: string)

  /** The one error the agent ever raises. */
  const REJECTED: Reply := Err(REJECTED_ERROR, REJECTED_MESSAGE)

  /** The requests that ask the agent to allow something. */
  predicate AsksAuthorization(req: Request) {
    req.AuthorizeService? || req.RequestAuthorization?
  }

  /** The agent's answer to one callback.
      Only a service authorization for exactly A2DP_UUID is allowed; every other
      authorization is rejected with the one fixed error; the two credential
      requests get a value of their declared D-Bus type; everything else
      returns empty. */
  function Respond(req: Request): (r: Reply)
    ensures r.Err? ==> r == REJECTED
    ensures r.Err? <==> AsksAuthorization(req) && !(req.AuthorizeService? && req.uuid == A2DP_UUID)
    ensures r.OkStr? <==> req.RequestPinCode?
    ensures r.OkU32? <==> req.RequestPasskey?
    ensures r.Ok? <==> !req.RequestPinCode? && !req.RequestPasskey? && !r.Err?
  {
    match req
    case Release => Ok
    case AuthorizeService(_, uuid) => if uuid == A2DP_UUID then Ok else REJECTED
    case RequestPinCode(_) => OkStr(PIN_CODE)
    case DisplayPinCode(_, _) => Ok
    case RequestPasskey(_) => OkU32(PASSKEY)
    case DisplayPasskey(_, _, _) => Ok
    case RequestConfirmation(_, _) => Ok
    case RequestAuthorization(_) => REJECTED
    case Cancel => Ok
  }

  /** The replies to a sequence of callbacks delivered to the one exported agent
      object, in the order the daemon makes them. */
  function Replies(reqs: seq<Request>): (rs: seq<Reply>)
    ensures |rs| == |reqs|
    ensures forall i :: 0 <= i < |reqs| ==> rs[i] == Respond(reqs[i])
  {
    if reqs == [] then [] else [Respond(reqs[0])] + Replies(reqs[1..])
  }

  // ---------------------------------------------------------------------------
  // Service authorization

  /** AuthorizeService allows exactly the A2DP UUID, whatever the device. */
  lemma AuthorizeServiceAllowsOnlyA2dp(device: ObjectPath, uuid: string)
    ensures Respond(AuthorizeService(device, uuid)) == Ok <==> uuid == A2DP_UUID
    ensures Respond(AuthorizeService(device, uuid)) != Ok ==> Respond(AuthorizeService(device, uuid)) == REJECTED
  {
  }

  /** The decision does not depend on the device that asks. */
  lemma AuthorizeServiceIgnoresDevice(d1: ObjectPath, d2: ObjectPath, uuid: string)
    ensures Respond(AuthorizeService(d1, uuid)) == Respond(AuthorizeService(d2, uuid))
  {
  }

  /** The constant is the Advanced Audio Distribution class 0x110D expanded on the Base UUID. */
  lemma A2dpUuidIsBaseUuidExpansion()
    ensures A2DP_UUID == BluetoothUuid.ShortToUuid(BluetoothUuid.ADVANCED_AUDIO_DISTRIBUTION)
  {
    BluetoothUuid.AdvancedAudioDistributionUuid();
  }

  /** Among all SIG-assigned 16-bit service classes, only Advanced Audio Distribution
      is allowed. For instance Audio Source (0x110A) and Audio Sink (0x110B) are rejected. */
  lemma AuthorizeServiceBySigClass(device: ObjectPath, v: u16)
    ensures Respond(AuthorizeService(device, BluetoothUuid.ShortToUuid(v))) == Ok
        <==> v == BluetoothUuid.ADVANCED_AUDIO_DISTRIBUTION
    ensures v != BluetoothUuid.ADVANCED_AUDIO_DISTRIBUTION
        ==> Respond(AuthorizeService(device, BluetoothUuid.ShortToUuid(v))) == REJECTED
  {
    A2dpUuidIsBaseUuidExpansion();
    if BluetoothUuid.ShortToUuid(v) == A2DP_UUID {
      BluetoothUuid.ShortToUuidInjective(v, BluetoothUuid.ADVANCED_AUDIO_DISTRIBUTION);
    }
  }

  /** The comparison is exact and case-sensitive: a UUID with any upper-case hex
      letter is rejected, so the upper-case spelling of the A2DP UUID is too. */
  lemma UpperCaseUuidRejected(device: ObjectPath, uuid: string, i: nat)
    requires i < |uuid| && BluetoothUuid.IsUpperHexLetter(uuid[i])
    ensures Respond(AuthorizeService(device, uuid)) == REJECTED
  {
    A2dpUuidIsBaseUuidExpansion();
    BluetoothUuid.ShortToUuidIsLowerCase(BluetoothUuid.ADVANCED_AUDIO_DISTRIBUTION);
  }

  lemma UpperCaseA2dpUuidRejected(device: ObjectPath)
    ensures Respond(AuthorizeService(device, "0000110D-0000-1000-8000-00805F9B34FB")) == REJECTED
  {
    UpperCaseUuidRejected(device, "0000110D-0000-1000-8000-00805F9B34FB", 7);
  }

  // ---------------------------------------------------------------------------
  // Device authorization and credentials

  /** RequestAuthorization is always rejected with the fixed error. */
  lemma RequestAuthorizationAlwaysRejected(device: ObjectPath)
    ensures Respond(RequestAuthorization(device)) == Err("org.bluez.Error.Rejected", "Connection rejected")
  {
  }

  /** The credentials are the same constants for every device. */
  lemma CredentialsAreConstant(device: ObjectPath)
    ensures Respond(RequestPinCode(device)) == OkStr("0000")
    ensures Respond(RequestPasskey(device)) == OkU32(0)
  {
  }

  /** Whenever the agent rejects, it raises exactly the Rejected error. */
  lemma OnlyErrorIsRejected(req: Request)
    ensures Respond(req).Err? ==> Respond(req) == Err("org.bluez.Error.Rejected", "Connection rejected")
  {
  }

  /** The informational callbacks return empty and never reject; for
      RequestConfirmation this accepts every passkey. */
  lemma InformationalCallbacksReturnEmpty(req: Request)
    requires req.Release? || req.DisplayPinCode? || req.DisplayPasskey? || req.RequestConfirmation? || req.Cancel?
    ensures Respond(req) == Ok
  {
  }

  // ---------------------------------------------------------------------------
  // Replies depend on the request alone

  /** A callback's reply depends only on its own request: the same request at any
      position of any two call sequences gets the same reply, so repeating or
      reordering calls changes no reply. */
  lemma RepliesIgnoreHistory(a: seq<Request>, b: seq<Request>, i: nat, j: nat)
    requires i < |a| && j < |b| && a[i] == b[j]
    ensures Replies(a)[i] == Replies(b)[j]
  {
  }
}
