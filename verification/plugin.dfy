/**
 * The plugin object: its connection handles, its nine pending-callback
 * slots, the discovery list, and one method per public command and per
 * Bluetooth delegate event. A caller's completion handler is stood for by a
 * token; calling it appends a delivery to the `delivered` log. Every request
 * the plugin makes of the Bluetooth stack appends an entry to the `effects`
 * log.
 */
module RfidPlugin {
  import opened Wrappers
  import opened RfidErrors
  import opened BleDevices
  import opened Validation
  import opened Frames
  import opened Registry
  import opened Handshake

  /** Stands for one completion handler a caller passed in. */
  type Token = nat

  /** The three shapes of completion handler the plugin calls. */
  datatype Reply =
    | Devices(devices: seq<Device>, error: Option<Failure>)
    | Status(success: bool, error: Option<Failure>)
    | Text(text: Option<string>, error: Option<Failure>)

  /** One call of a completion handler. */
  datatype Delivery = Delivery(caller: Token, reply: Reply)

  /** A request made of the Bluetooth stack. */
  datatype Effect =
    | ScanForPeripherals
    | ArmDiscoveryTimer
    | StopPeripheralScan
    | ConnectPeripheral(target: Peripheral)
    | CancelConnection(target: Peripheral)
    | DiscoverServices(target: Peripheral, uuids: seq<Uuid>)
    | DiscoverCharacteristics(target: Peripheral, uuids: seq<Uuid>, service: Service)
    | Subscribe(target: Peripheral, characteristic: Characteristic)
    | WriteValue(target: Peripheral, characteristic: Characteristic, frame: string)

  /** The nine optional completion handlers the plugin holds. */
  datatype Slots = Slots(
    discovery: Option<Token>,
    connection: Option<Token>,
    scan: Option<Token>,
    stopScan: Option<Token>,
    disconnection: Option<Token>,
    reset: Option<Token>,
    setParameter: Option<Token>,
    getParameter: Option<Token>,
    listDevices: Option<Token>)

  const NoSlots: Slots := Slots(None, None, None, None, None, None, None, None, None)

  /** The connected peripheral and the two characteristic handles. */
  datatype Link = Link(peripheral: Option<Peripheral>, write: Option<Characteristic>, notify: Option<Characteristic>)

  /** Everything the plugin holds, and the two logs. */
  datatype Snapshot = Snapshot(
    poweredOn: bool,
    link: Link,
    slots: Slots,
    devices: seq<Device>,
    delivered: seq<Delivery>,
    effects: seq<Effect>)

  /** A command may be written when a peripheral is connected and its write characteristic is known. */
  predicate Ready(link: Link) {
    link.peripheral.Some? && link.write.Some?
  }

  /** The one write request a command makes. */
  function Write(link: Link, c: Command): (e: Effect)
    requires Ready(link)
  {
    WriteValue(link.peripheral.value, link.write.value, Encode(c))
  }

  /** Calling an optional handler: nothing when the slot is empty. */
  function Notify(slot: Option<Token>, reply: Reply): seq<Delivery> {
    if slot.Some? then [Delivery(slot.value, reply)] else []
  }

  /** The failure a refused command reports. */
  function Refused(e: RfidError): Option<Failure> {
    Some(Rfid(e))
  }

  /** A transport error when there is one, else the plugin's own error. */
  function TransportOr(error: Option<TransportError>, fallback: RfidError): Failure {
    if error.Some? then Transport(error.value) else Rfid(fallback)
  }

  /**
   * Why `setParameter` refuses, checking in order: the link, the name, the
   * value; `None` when it goes ahead.
   */
  function SetRefusal(link: Link, name: string, value: string): (r: Option<RfidError>)
    ensures r.None? <==> Ready(link) && IsValidParameter(name) && IsValidParameterValue(name, value)
    ensures r.Some? ==> r.value in {NotConnected, InvalidParameter, InvalidParameterValue}
    ensures r == Some(NotConnected) ==> !Ready(link)
    ensures r == Some(InvalidParameter) ==> Ready(link) && !IsValidParameter(name)
    ensures r == Some(InvalidParameterValue) ==> Ready(link) && IsValidParameter(name)
  {
    if !Ready(link) then Some(NotConnected)
    else if !IsValidParameter(name) then Some(InvalidParameter)
    else if !IsValidParameterValue(name, value) then Some(InvalidParameterValue)
    else None
  }

  /** Why `getParameter` refuses: the link, then the name. */
  function GetRefusal(link: Link, name: string): (r: Option<RfidError>)
    ensures r.None? <==> Ready(link) && IsValidParameter(name)
    ensures r == Some(NotConnected) ==> !Ready(link)
    ensures r == Some(InvalidParameter) ==> Ready(link) && !IsValidParameter(name)
    ensures r.Some? ==> r.value in {NotConnected, InvalidParameter}
  {
    if !Ready(link) then Some(NotConnected)
    else if !IsValidParameter(name) then Some(InvalidParameter)
    else None
  }

  /**
   * An accepted `setParameter` or `getParameter` writes a frame that decodes
   * to the very command, on the link's write characteristic.
   */
  lemma AcceptedParameterFramesDecode(link: Link, name: string, value: string)
    requires SetRefusal(link, name, value).None?
    ensures Write(link, SetParameter(name, value)).characteristic == link.write.value
    ensures Decode(Write(link, SetParameter(name, value)).frame) == Some(SetParameter(name, value))
    ensures GetRefusal(link, name).None?
    ensures Decode(Write(link, GetParameter(name)).frame) == Some(GetParameter(name))
  {
    ValidatedCommandsRoundTrip(name, value);
  }

  /** The names of the slots. */
  datatype SlotName =
    | DiscoverySlot | ConnectionSlot | ScanSlot | StopScanSlot | DisconnectionSlot
    | ResetSlot | SetParameterSlot | GetParameterSlot | ListDevicesSlot

  function Occupant(s: Slots, k: SlotName): Option<Token> {
    match k
    case DiscoverySlot => s.discovery
    case ConnectionSlot => s.connection
    case ScanSlot => s.scan
    case StopScanSlot => s.stopScan
    case DisconnectionSlot => s.disconnection
    case ResetSlot => s.reset
    case SetParameterSlot => s.setParameter
    case GetParameterSlot => s.getParameter
    case ListDevicesSlot => s.listDevices
  }

  /** The slots of the commands that write a frame. */
  predicate WritesFrames(k: SlotName) {
    k in {ScanSlot, StopScanSlot, ResetSlot, SetParameterSlot, GetParameterSlot}
  }

  /** The order in which a failed write looks for the command it belongs to. */
  function Rank(k: SlotName): nat {
    match k
    case ScanSlot => 0
    case StopScanSlot => 1
    case ResetSlot => 2
    case SetParameterSlot => 3
    case GetParameterSlot => 4
    case _ => 5
  }

  /** The slot a failed write is reported to: the first occupied of scan, stopScan, reset, set, get. */
  function WriteFailureSlot(s: Slots): (r: Option<SlotName>)
    ensures r.Some? ==> WritesFrames(r.value) && Occupant(s, r.value).Some?
  {
    if s.scan.Some? then Some(ScanSlot)
    else if s.stopScan.Some? then Some(StopScanSlot)
    else if s.reset.Some? then Some(ResetSlot)
    else if s.setParameter.Some? then Some(SetParameterSlot)
    else if s.getParameter.Some? then Some(GetParameterSlot)
    else None
  }

  /** A failed write goes to the occupied command slot of least rank, and to none when all five are empty. */
  lemma WriteFailureSlotIsFirstOccupied(s: Slots, k: SlotName)
    ensures WriteFailureSlot(s) == Some(k) <==>
      WritesFrames(k) && Occupant(s, k).Some? &&
      forall j | WritesFrames(j) && Rank(j) < Rank(k) :: Occupant(s, j).None?
    ensures WriteFailureSlot(s).None? <==> forall j | WritesFrames(j) :: Occupant(s, j).None?
  {
    assert WritesFrames(ScanSlot) && WritesFrames(StopScanSlot) && WritesFrames(ResetSlot);
    assert WritesFrames(SetParameterSlot) && WritesFrames(GetParameterSlot);
  }

  /** Empties one slot. */
  function Vacate(s: Slots, k: SlotName): (r: Slots)
    ensures Occupant(r, k).None?
    ensures forall j | j != k :: Occupant(r, j) == Occupant(s, j)
  {
    match k
    case DiscoverySlot => s.(discovery := None)
    case ConnectionSlot => s.(connection := None)
    case ScanSlot => s.(scan := None)
    case StopScanSlot => s.(stopScan := None)
    case DisconnectionSlot => s.(disconnection := None)
    case ResetSlot => s.(reset := None)
    case SetParameterSlot => s.(setParameter := None)
    case GetParameterSlot => s.(getParameter := None)
    case ListDevicesSlot => s.(listDevices := None)
  }

  /** The failure reply in the shape the slot's handler takes. */
  function FailureReply(k: SlotName, f: Failure): Reply {
    match k
    case DiscoverySlot => Devices([], Some(f))
    case ListDevicesSlot => Devices([], Some(f))
    case ScanSlot => Text(None, Some(f))
    case GetParameterSlot => Text(None, Some(f))
    case _ => Status(false, Some(f))
  }

  /**
   * A write error: the scan caller is told and stays registered; otherwise
   * the first held of the stopScan, reset, set and get handlers is told and
   * released; with none held, nothing happens.
   */
  function AfterWriteFailure(st: Snapshot, f: Failure): (after: Snapshot)
    ensures after.link == st.link && after.devices == st.devices && after.effects == st.effects
    ensures after.poweredOn == st.poweredOn && after.slots.scan == st.slots.scan
    ensures st.delivered <= after.delivered && |after.delivered| <= |st.delivered| + 1
  {
    var s := st.slots;
    if s.scan.Some? then st.(delivered := st.delivered + [Delivery(s.scan.value, Text(None, Some(f)))])
    else if s.stopScan.Some? then
      st.(slots := s.(stopScan := None), delivered := st.delivered + [Delivery(s.stopScan.value, Status(false, Some(f)))])
    else if s.reset.Some? then
      st.(slots := s.(reset := None), delivered := st.delivered + [Delivery(s.reset.value, Status(false, Some(f)))])
    else if s.setParameter.Some? then
      st.(slots := s.(setParameter := None), delivered := st.delivered + [Delivery(s.setParameter.value, Status(false, Some(f)))])
    else if s.getParameter.Some? then
      st.(slots := s.(getParameter := None), delivered := st.delivered + [Delivery(s.getParameter.value, Text(None, Some(f)))])
    else st
  }

  /**
   * The same rule stated by slot: a write error goes to the slot chosen by
   * `WriteFailureSlot`, whose caller gets the failure in the shape it takes,
   * and that slot is emptied unless it is the scan slot.
   */
  lemma WriteFailureBySlot(st: Snapshot, f: Failure)
    ensures WriteFailureSlot(st.slots).None? ==> AfterWriteFailure(st, f) == st
    ensures WriteFailureSlot(st.slots).Some? ==>
      var k := WriteFailureSlot(st.slots).value;
      AfterWriteFailure(st, f) == st.(
        slots := if k == ScanSlot then st.slots else Vacate(st.slots, k),
        delivered := st.delivered + [Delivery(Occupant(st.slots, k).value, FailureReply(k, f))])
  {
  }

  /**
   * A write error reaches exactly one caller, the one in the slot chosen by
   * `WriteFailureSlot`, with the transport's error, and touches nothing but
   * that slot and the log.
   */
  lemma WriteFailureReachesOneCaller(st: Snapshot, f: Failure)
    ensures var after := AfterWriteFailure(st, f);
      after.link == st.link && after.devices == st.devices && after.effects == st.effects &&
      after.poweredOn == st.poweredOn && st.delivered <= after.delivered &&
      |after.delivered| == |st.delivered| + (if WriteFailureSlot(st.slots).Some? then 1 else 0)
    ensures var after := AfterWriteFailure(st, f);
      forall j :: Occupant(after.slots, j) ==
        if WriteFailureSlot(st.slots) == Some(j) && j != ScanSlot then None else Occupant(st.slots, j)
    ensures var after := AfterWriteFailure(st, f);
      WriteFailureSlot(st.slots).Some? ==>
        after.delivered[|st.delivered|].caller == Occupant(st.slots, WriteFailureSlot(st.slots).value).value &&
        after.delivered[|st.delivered|].reply.error == Some(f)
  {
    WriteFailureBySlot(st, f);
  }

  /** The slots in the order power loss calls their handlers. */
  const PowerOffOrder: seq<SlotName> := [
    DiscoverySlot, ConnectionSlot, ScanSlot, StopScanSlot, DisconnectionSlot,
    ResetSlot, SetParameterSlot, GetParameterSlot, ListDevicesSlot]

  /** `notConnected`, in the shape each handler takes, to the occupied slots among `ks`, in order. */
  function LossNotices(s: Slots, ks: seq<SlotName>): (notices: seq<Delivery>)
    ensures |notices| <= |ks|
  {
    if ks == [] then []
    else Notify(Occupant(s, ks[0]), FailureReply(ks[0], Rfid(NotConnected))) + LossNotices(s, ks[1..])
  }

  /** What power loss tells every occupied handler: one notice at most per slot, each a `notConnected` failure. */
  function PowerOffNotices(s: Slots): (notices: seq<Delivery>)
    ensures |notices| <= |PowerOffOrder|
    ensures forall d | d in notices :: d.reply.error == Refused(NotConnected) && !(d.reply.Status? && d.reply.success)
  {
    LossNoticesCover(s, PowerOffOrder);
    LossNotices(s, PowerOffOrder)
  }

  /** Each loss notice carries `notConnected` and no success, and reaches every occupied slot among `ks`. */
  lemma {:induction false} LossNoticesCover(s: Slots, ks: seq<SlotName>)
    ensures forall d | d in LossNotices(s, ks) ::
      d.reply.error == Refused(NotConnected) && !(d.reply.Status? && d.reply.success)
    ensures forall k | k in ks && Occupant(s, k).Some? ::
      Delivery(Occupant(s, k).value, FailureReply(k, Rfid(NotConnected))) in LossNotices(s, ks)
  {
    if ks != [] {
      LossNoticesCover(s, ks[1..]);
      forall k | k in ks && Occupant(s, k).Some?
        ensures Delivery(Occupant(s, k).value, FailureReply(k, Rfid(NotConnected))) in LossNotices(s, ks)
      {
        if k != ks[0] {
          assert k in ks[1..];
        }
      }
    }
  }

  /** Every notice carries `notConnected` and no success, and every occupied slot's caller is told. */
  lemma PowerOffTellsEveryCaller(s: Slots, k: SlotName)
    ensures forall d | d in PowerOffNotices(s) ::
      d.reply.error == Refused(NotConnected) && !(d.reply.Status? && d.reply.success)
    ensures Occupant(s, k).Some? ==>
      Delivery(Occupant(s, k).value, FailureReply(k, Rfid(NotConnected))) in PowerOffNotices(s)
  {
    LossNoticesCover(s, PowerOffOrder);
  }

  /** Among distinct slots, of which only `k` is occupied, only `k`'s caller is told, and only if `k` is listed. */
  lemma {:induction false} LoneLossNotice(s: Slots, ks: seq<SlotName>, k: SlotName)
    requires Occupant(s, k).Some? && forall j | j != k :: Occupant(s, j).None?
    requires forall i, j | 0 <= i < j < |ks| :: ks[i] != ks[j]
    ensures LossNotices(s, ks) ==
      if k in ks then [Delivery(Occupant(s, k).value, FailureReply(k, Rfid(NotConnected)))] else []
  {
    if ks != [] {
      LoneLossNotice(s, ks[1..], k);
      if ks[0] == k {
        assert k !in ks[1..] by {
          forall j | 0 <= j < |ks[1..]| ensures ks[1..][j] != k {
            assert ks[1..][j] == ks[j + 1];
          }
        }
      }
    }
  }

  /** With a single handler pending, power loss tells that handler alone. */
  lemma PowerOffLoneCaller(s: Slots, k: SlotName)
    requires Occupant(s, k).Some? && forall j | j != k :: Occupant(s, j).None?
    ensures PowerOffNotices(s) == [Delivery(Occupant(s, k).value, FailureReply(k, Rfid(NotConnected)))]
  {
    LoneLossNotice(s, PowerOffOrder, k);
  }

  /**
   * The rules of a notification applied to the plugin's state: only the
   * slots and the log change, the log by one handler call at most, and an
   * unrecognised frame changes nothing.
   */
  function Route(st: Snapshot, n: Notification): (after: Snapshot)
    ensures after.link == st.link && after.devices == st.devices && after.effects == st.effects
    ensures after.poweredOn == st.poweredOn
    ensures st.delivered <= after.delivered && |after.delivered| <= |st.delivered| + 1
    ensures n == Unrecognised ==> after == st
  {
    var s := st.slots;
    match n
    case TagRead(tag) => st.(delivered := st.delivered + Notify(s.scan, Text(Some(tag), None)))
    case ScanStopped => st.(slots := s.(stopScan := None), delivered := st.delivered + Notify(s.stopScan, Status(true, None)))
    case Rebooted => st.(slots := s.(reset := None), delivered := st.delivered + Notify(s.reset, Status(true, None)))
    case SetSucceeded =>
      st.(slots := s.(setParameter := None), delivered := st.delivered + Notify(s.setParameter, Status(true, None)))
    case SetRejected =>
      st.(slots := s.(setParameter := None),
          delivered := st.delivered + Notify(s.setParameter, Status(false, Refused(ParameterOperationFailed))))
    case ParameterValue(v) =>
      st.(slots := s.(getParameter := None), delivered := st.delivered + Notify(s.getParameter, Text(Some(v), None)))
    case ParameterMissing =>
      st.(slots := s.(getParameter := None),
          delivered := st.delivered + Notify(s.getParameter, Text(None, Refused(ParameterOperationFailed))))
    case Unrecognised => st
  }

  /**
   * A notification never fills a slot and never answers a caller that was
   * not pending: each slot is kept or emptied, and the handler called, if
   * any, is one that was held.
   */
  lemma RouteOnlyResolves(st: Snapshot, n: Notification, k: SlotName)
    ensures var after := Route(st, n);
      Occupant(after.slots, k).None? || Occupant(after.slots, k) == Occupant(st.slots, k)
    ensures var after := Route(st, n);
      |after.delivered| > |st.delivered| ==>
        exists j :: Occupant(st.slots, j) == Some(after.delivered[|st.delivered|].caller)
  {
    var after := Route(st, n);
    if |after.delivered| > |st.delivered| {
      var c := after.delivered[|st.delivered|].caller;
      match n
      case TagRead(_) => assert Occupant(st.slots, ScanSlot) == Some(c);
      case ScanStopped => assert Occupant(st.slots, StopScanSlot) == Some(c);
      case Rebooted => assert Occupant(st.slots, ResetSlot) == Some(c);
      case SetSucceeded => assert Occupant(st.slots, SetParameterSlot) == Some(c);
      case SetRejected => assert Occupant(st.slots, SetParameterSlot) == Some(c);
      case ParameterValue(_) => assert Occupant(st.slots, GetParameterSlot) == Some(c);
      case ParameterMissing => assert Occupant(st.slots, GetParameterSlot) == Some(c);
      case Unrecognised =>
    }
  }

  /**
   * A reply to an accepted `getParameter`, `<name>|<value>`, reaches the get
   * caller with the value and empties the get slot.
   */
  lemma GetReplyReachesGetCaller(st: Snapshot, name: string, value: string)
    requires IsValidParameter(name) && IsValidParameterValue(name, value)
    requires st.slots.getParameter.Some?
    ensures var after := Route(st, Classify(name + "|" + value, st.slots.getParameter.Some?));
      after.delivered == st.delivered + [Delivery(st.slots.getParameter.value, Text(Some(value), None))] &&
      after.slots == st.slots.(getParameter := None)
  {
    var n := Classify(name + "|" + value, st.slots.getParameter.Some?);
    assert n == ParameterValue(value) by {
      ValidGetReplyRouted(name, value);
    }
    assert Route(st, n) == st.(slots := st.slots.(getParameter := None),
      delivered := st.delivered + [Delivery(st.slots.getParameter.value, Text(Some(value), None))]);
  }

  /** The effects of subscribing to each of the characteristics in turn. */
  function Subscriptions(p: Peripheral, cs: seq<Characteristic>): (es: seq<Effect>)
    ensures |es| == |cs|
    ensures forall k | 0 <= k < |cs| :: es[k] == Subscribe(p, cs[k])
  {
    if cs == [] then [] else Subscriptions(p, cs[..|cs| - 1]) + [Subscribe(p, cs[|cs| - 1])]
  }

  /**
   * A successful handshake leaves the plugin ready for commands; so does a
   * failed one that found the write characteristic but not the notify one.
   */
  lemma HandshakeReadiness(link: Link, cs: seq<Characteristic>)
    requires link.peripheral.Some?
    ensures var r := Run(Begin(link.write, link.notify), cs);
      (Complete(r) || (HasUuid(cs, WriteUuid) && !HasUuid(cs, NotifyUuid))) ==>
        Ready(link.(write := r.write, notify := r.notify))
  {
    HandshakeSucceedsIff(link.write, link.notify, cs);
    if HasUuid(cs, WriteUuid) {
      RunSetsWrite(Begin(link.write, link.notify), cs);
    }
  }

  class Plugin {
    /** Mirrors whether the Bluetooth central reports the powered-on state. */
    var poweredOn: bool
    var connectedPeripheral: Option<Peripheral>
    var writeCharacteristic: Option<Characteristic>
    var notifyCharacteristic: Option<Characteristic>
    var discoveryCallback: Option<Token>
    var connectionCallback: Option<Token>
    var scanCallback: Option<Token>
    var stopScanCallback: Option<Token>
    var disconnectionCallback: Option<Token>
    var resetCallback: Option<Token>
    var setParameterCallback: Option<Token>
    var getParameterCallback: Option<Token>
    var discoveredDevices: seq<Device>
    var pendingListDevicesCompletion: Option<Token>
    /** The calls of completion handlers so far, oldest first. */
    var delivered: seq<Delivery>
    /** The requests made of the Bluetooth stack so far, oldest first. */
    var effects: seq<Effect>

    function Pending(): Slots
      reads this
    {
      Slots(discoveryCallback, connectionCallback, scanCallback, stopScanCallback, disconnectionCallback,
            resetCallback, setParameterCallback, getParameterCallback, pendingListDevicesCompletion)
    }

    function Connection(): Link
      reads this
    {
      Link(connectedPeripheral, writeCharacteristic, notifyCharacteristic)
    }

    function State(): Snapshot
      reads this
    {
      Snapshot(poweredOn, Connection(), Pending(), discoveredDevices, delivered, effects)
    }

    /** The discovery list is well formed and each handle holds a characteristic of its kind. */
    ghost predicate Valid()
      reads this
    {
      && WellFormedList(discoveredDevices)
      && (writeCharacteristic.Some? ==> writeCharacteristic.value.uuid == WriteUuid)
      && (notifyCharacteristic.Some? ==> notifyCharacteristic.value.uuid == NotifyUuid)
    }

    constructor ()
      ensures Valid()
      ensures State() == Snapshot(false, Link(None, None, None), NoSlots, [], [], [])
    {
      poweredOn := false;
      connectedPeripheral, writeCharacteristic, notifyCharacteristic := None, None, None;
      discoveryCallback, connectionCallback, scanCallback, stopScanCallback := None, None, None, None;
      disconnectionCallback, resetCallback, setParameterCallback, getParameterCallback := None, None, None, None;
      discoveredDevices := [];
      pendingListDevicesCompletion := None;
      delivered, effects := [], [];
    }

    /** Before power-on the request is parked (replacing any parked one); afterwards a scan round starts. */
    method ListDevices(caller: Token)
      requires Valid()
      modifies this
      ensures Valid()
      ensures !old(poweredOn) ==> State() == old(State()).(slots := old(Pending()).(listDevices := Some(caller)))
      ensures old(poweredOn) ==> State() == old(State()).(
        slots := old(Pending()).(discovery := Some(caller)),
        devices := [],
        effects := old(effects) + [ScanForPeripherals, ArmDiscoveryTimer])
    {
      if !poweredOn {
        pendingListDevicesCompletion := Some(caller);
        return;
      }
      StartScanning(caller);
    }

    /** A scan round starts from an empty list and arms the five-second timer. */
    method StartScanning(caller: Token)
      requires Valid()
      modifies this
      ensures Valid()
      ensures State() == old(State()).(
        slots := old(Pending()).(discovery := Some(caller)),
        devices := [],
        effects := old(effects) + [ScanForPeripherals, ArmDiscoveryTimer])
    {
      discoveredDevices := [];
      discoveryCallback := Some(caller);
      effects := effects + [ScanForPeripherals, ArmDiscoveryTimer];
    }

    /** The timer ends the round: the scan stops and the discovery caller gets the list. */
    method DiscoveryTimerFired()
      requires Valid()
      modifies this
      ensures Valid()
      ensures State() == old(State()).(
        slots := old(Pending()).(discovery := None),
        delivered := old(delivered) + Notify(old(discoveryCallback), Devices(old(discoveredDevices), None)),
        effects := old(effects) + [StopPeripheralScan])
    {
      effects := effects + [StopPeripheralScan];
      delivered := delivered + Notify(discoveryCallback, Devices(discoveredDevices, None));
      discoveryCallback := None;
    }

    method Connect(caller: Token, device: Device)
      requires Valid()
      modifies this
      ensures Valid()
      ensures device.peripheral.None? ==>
        State() == old(State()).(delivered := old(delivered) + [Delivery(caller, Status(false, Refused(InvalidDevice)))])
      ensures device.peripheral.Some? ==> State() == old(State()).(
        slots := old(Pending()).(connection := Some(caller)),
        effects := old(effects) + [ConnectPeripheral(device.peripheral.value)])
    {
      if device.peripheral.None? {
        delivered := delivered + [Delivery(caller, Status(false, Refused(InvalidDevice)))];
        return;
      }
      connectionCallback := Some(caller);
      effects := effects + [ConnectPeripheral(device.peripheral.value)];
    }

    method StartScan(caller: Token)
      requires Valid()
      modifies this
      ensures Valid()
      ensures !Ready(old(Connection())) ==>
        State() == old(State()).(delivered := old(delivered) + [Delivery(caller, Text(None, Refused(NotConnected)))])
      ensures Ready(old(Connection())) ==> State() == old(State()).(
        slots := old(Pending()).(scan := Some(caller)),
        effects := old(effects) + [Write(old(Connection()), Command.StartScan)])
    {
      if !Ready(Connection()) {
        delivered := delivered + [Delivery(caller, Text(None, Refused(NotConnected)))];
        return;
      }
      scanCallback := Some(caller);
      effects := effects + [Write(Connection(), Command.StartScan)];
    }

    method StopScan(caller: Token)
      requires Valid()
      modifies this
      ensures Valid()
      ensures !Ready(old(Connection())) ==>
        State() == old(State()).(delivered := old(delivered) + [Delivery(caller, Status(false, Refused(NotConnected)))])
      ensures Ready(old(Connection())) ==> State() == old(State()).(
        slots := old(Pending()).(stopScan := Some(caller)),
        effects := old(effects) + [Write(old(Connection()), Command.StopScan)])
    {
      if !Ready(Connection()) {
        delivered := delivered + [Delivery(caller, Status(false, Refused(NotConnected)))];
        return;
      }
      stopScanCallback := Some(caller);
      effects := effects + [Write(Connection(), Command.StopScan)];
    }

    /** Only a connected peripheral is needed: the write characteristic is not checked. */
    method Disconnect(caller: Token)
      requires Valid()
      modifies this
      ensures Valid()
      ensures old(connectedPeripheral).None? ==>
        State() == old(State()).(delivered := old(delivered) + [Delivery(caller, Status(false, Refused(NotConnected)))])
      ensures old(connectedPeripheral).Some? ==> State() == old(State()).(
        slots := old(Pending()).(disconnection := Some(caller)),
        effects := old(effects) + [CancelConnection(old(connectedPeripheral).value)])
    {
      if connectedPeripheral.None? {
        delivered := delivered + [Delivery(caller, Status(false, Refused(NotConnected)))];
        return;
      }
      disconnectionCallback := Some(caller);
      effects := effects + [CancelConnection(connectedPeripheral.value)];
    }

    method Reset(caller: Token)
      requires Valid()
      modifies this
      ensures Valid()
      ensures !Ready(old(Connection())) ==>
        State() == old(State()).(delivered := old(delivered) + [Delivery(caller, Status(false, Refused(NotConnected)))])
      ensures Ready(old(Connection())) ==> State() == old(State()).(
        slots := old(Pending()).(reset := Some(caller)),
        effects := old(effects) + [Write(old(Connection()), Reboot)])
    {
      if !Ready(Connection()) {
        delivered := delivered + [Delivery(caller, Status(false, Refused(NotConnected)))];
        return;
      }
      resetCallback := Some(caller);
      effects := effects + [Write(Connection(), Reboot)];
    }

    method SetParameter(caller: Token, name: string, value: string)
      requires Valid()
      modifies this
      ensures Valid()
      ensures var refusal := SetRefusal(old(Connection()), name, value);
        refusal.Some? ==>
          State() == old(State()).(delivered := old(delivered) + [Delivery(caller, Status(false, Refused(refusal.value)))])
      ensures SetRefusal(old(Connection()), name, value).None? ==> State() == old(State()).(
        slots := old(Pending()).(setParameter := Some(caller)),
        effects := old(effects) + [Write(old(Connection()), Command.SetParameter(name, value))])
    {
      if !Ready(Connection()) {
        delivered := delivered + [Delivery(caller, Status(false, Refused(NotConnected)))];
        return;
      }
      if !IsValidParameter(name) {
        delivered := delivered + [Delivery(caller, Status(false, Refused(InvalidParameter)))];
        return;
      }
      if !IsValidParameterValue(name, value) {
        delivered := delivered + [Delivery(caller, Status(false, Refused(InvalidParameterValue)))];
        return;
      }
      setParameterCallback := Some(caller);
      effects := effects + [Write(Connection(), Command.SetParameter(name, value))];
    }

    method GetParameter(caller: Token, name: string)
      requires Valid()
      modifies this
      ensures Valid()
      ensures var refusal := GetRefusal(old(Connection()), name);
        refusal.Some? ==>
          State() == old(State()).(delivered := old(delivered) + [Delivery(caller, Text(None, Refused(refusal.value)))])
      ensures GetRefusal(old(Connection()), name).None? ==> State() == old(State()).(
        slots := old(Pending()).(getParameter := Some(caller)),
        effects := old(effects) + [Write(old(Connection()), Command.GetParameter(name))])
    {
      if !Ready(Connection()) {
        delivered := delivered + [Delivery(caller, Text(None, Refused(NotConnected)))];
        return;
      }
      if !IsValidParameter(name) {
        delivered := delivered + [Delivery(caller, Text(None, Refused(InvalidParameter)))];
        return;
      }
      getParameterCallback := Some(caller);
      effects := effects + [Write(Connection(), Command.GetParameter(name))];
    }

    /**
     * Power-on starts the parked scan round, if any. Any other state tells
     * every held handler `notConnected` but empties only the parked one.
     */
    method DidUpdateState(on: bool)
      requires Valid()
      modifies this
      ensures Valid()
      ensures on && old(pendingListDevicesCompletion).None? ==> State() == old(State()).(poweredOn := true)
      ensures on && old(pendingListDevicesCompletion).Some? ==> State() == old(State()).(
        poweredOn := true,
        slots := old(Pending()).(discovery := old(pendingListDevicesCompletion), listDevices := None),
        devices := [],
        effects := old(effects) + [ScanForPeripherals, ArmDiscoveryTimer])
      ensures !on ==> State() == old(State()).(
        poweredOn := false,
        slots := old(Pending()).(listDevices := None),
        delivered := old(delivered) + PowerOffNotices(old(Pending())))
    {
      poweredOn := on;
      if on {
        if pendingListDevicesCompletion.Some? {
          StartScanning(pendingListDevicesCompletion.value);
          pendingListDevicesCompletion := None;
        }
      } else {
        delivered := delivered + PowerOffNotices(Pending());
        pendingListDevicesCompletion := None;
      }
    }

    method DidDiscover(p: Peripheral, rssi: int)
      requires Valid()
      modifies this
      ensures Valid()
      ensures State() == old(State()).(devices := Observe(old(discoveredDevices), Sighting(p, rssi)))
    {
      ObservePreserves(discoveredDevices, Sighting(p, rssi));
      discoveredDevices := Observe(discoveredDevices, Sighting(p, rssi));
    }

    method DidConnect(p: Peripheral)
      requires Valid()
      modifies this
      ensures Valid()
      ensures State() == old(State()).(
        link := old(Connection()).(peripheral := Some(p)),
        effects := old(effects) + [DiscoverServices(p, [ServiceUuid])])
    {
      connectedPeripheral := Some(p);
      effects := effects + [DiscoverServices(p, [ServiceUuid])];
    }

    method DidFailToConnect(error: Option<TransportError>)
      requires Valid()
      modifies this
      ensures Valid()
      ensures State() == old(State()).(
        slots := old(Pending()).(connection := None),
        delivered := old(delivered) + Notify(old(connectionCallback), Status(false, Some(TransportOr(error, ConnectionFailed)))))
    {
      delivered := delivered + Notify(connectionCallback, Status(false, Some(TransportOr(error, ConnectionFailed))));
      connectionCallback := None;
    }

    /** The link is dropped whatever else is pending; only the disconnect caller is answered. */
    method DidDisconnect(error: Option<TransportError>)
      requires Valid()
      modifies this
      ensures Valid()
      ensures State() == old(State()).(
        link := Link(None, None, None),
        slots := old(Pending()).(disconnection := None),
        delivered := old(delivered) + Notify(old(disconnectionCallback),
          if error.Some? then Status(false, Some(Transport(error.value))) else Status(true, None)))
    {
      connectedPeripheral, writeCharacteristic, notifyCharacteristic := None, None, None;
      var reply := if error.Some? then Status(false, Some(Transport(error.value))) else Status(true, None);
      delivered := delivered + Notify(disconnectionCallback, reply);
      disconnectionCallback := None;
    }

    /** The first service with the reader's identifier has its characteristics looked up; otherwise the connection fails. */
    method DidDiscoverServices(p: Peripheral, error: Option<TransportError>, services: Option<seq<Service>>)
      requires Valid()
      modifies this
      ensures Valid()
      ensures error.Some? ==> State() == old(State()).(
        slots := old(Pending()).(connection := None),
        delivered := old(delivered) + Notify(old(connectionCallback), Status(false, Some(Transport(error.value)))))
      ensures error.None? && (services.None? || FirstServiceIndex(services.value) == |services.value|) ==>
        State() == old(State()).(
          slots := old(Pending()).(connection := None),
          delivered := old(delivered) + Notify(old(connectionCallback), Status(false, Refused(ServiceNotFound))))
      ensures error.None? && services.Some? && FirstServiceIndex(services.value) < |services.value| ==>
        State() == old(State()).(effects := old(effects) +
          [DiscoverCharacteristics(p, [WriteUuid, NotifyUuid], services.value[FirstServiceIndex(services.value)])])
    {
      if error.Some? {
        delivered := delivered + Notify(connectionCallback, Status(false, Some(Transport(error.value))));
        connectionCallback := None;
        return;
      }
      if services.None? {
        delivered := delivered + Notify(connectionCallback, Status(false, Refused(ServiceNotFound)));
        connectionCallback := None;
        return;
      }
      var ss := services.value;
      var i := 0;
      while i < |ss|
        invariant 0 <= i <= |ss|
        invariant forall k | 0 <= k < i :: ss[k].uuid != ServiceUuid
        invariant State() == old(State())
      {
        if ss[i].uuid == ServiceUuid {
          effects := effects + [DiscoverCharacteristics(p, [WriteUuid, NotifyUuid], ss[i])];
          return;
        }
        i := i + 1;
      }
      delivered := delivered + Notify(connectionCallback, Status(false, Refused(ServiceNotFound)));
      connectionCallback := None;
    }

    /**
     * The characteristics are scanned in order, storing each write or notify
     * one and subscribing to each notify one, until both kinds have been
     * seen; the connection caller learns whether they were.
     */
    method DidDiscoverCharacteristics(p: Peripheral, error: Option<TransportError>, characteristics: Option<seq<Characteristic>>)
      requires Valid()
      modifies this
      ensures Valid()
      ensures error.Some? ==> State() == old(State()).(
        slots := old(Pending()).(connection := None),
        delivered := old(delivered) + Notify(old(connectionCallback), Status(false, Some(Transport(error.value)))))
      ensures error.None? && characteristics.None? ==> State() == old(State()).(
        slots := old(Pending()).(connection := None),
        delivered := old(delivered) + Notify(old(connectionCallback), Status(false, Refused(CharacteristicNotFound))))
      ensures error.None? && characteristics.Some? ==>
        var r := Run(Begin(old(writeCharacteristic), old(notifyCharacteristic)), characteristics.value);
        State() == old(State()).(
          link := old(Connection()).(write := r.write, notify := r.notify),
          slots := old(Pending()).(connection := None),
          delivered := old(delivered) + Notify(old(connectionCallback),
            if Complete(r) then Status(true, None) else Status(false, Refused(CharacteristicNotFound))),
          effects := old(effects) + Subscriptions(p, r.subscribed))
    {
      if error.Some? {
        delivered := delivered + Notify(connectionCallback, Status(false, Some(Transport(error.value))));
        connectionCallback := None;
        return;
      }
      if characteristics.None? {
        delivered := delivered + Notify(connectionCallback, Status(false, Refused(CharacteristicNotFound)));
        connectionCallback := None;
        return;
      }
      ghost var st := State();
      ghost var r := Run(Begin(writeCharacteristic, notifyCharacteristic), characteristics.value);
      var complete := TakeCharacteristics(p, characteristics.value);
      var reply := if complete then Status(true, None) else Status(false, Refused(CharacteristicNotFound));
      delivered := delivered + Notify(connectionCallback, reply);
      connectionCallback := None;
      assert Connection() == st.link.(write := r.write, notify := r.notify);
      assert Pending() == st.slots.(connection := None);
    }

    /**
     * The loop of the characteristic scan: stores each write or notify
     * characteristic and subscribes to each notify one, stopping as soon as
     * both kinds have been seen; tells whether they were.
     */
    method TakeCharacteristics(p: Peripheral, cs: seq<Characteristic>) returns (complete: bool)
      requires Valid()
      modifies this`writeCharacteristic, this`notifyCharacteristic, this`effects
      ensures Valid()
      ensures var r := Run(Begin(old(writeCharacteristic), old(notifyCharacteristic)), cs);
        complete == Complete(r) && writeCharacteristic == r.write && notifyCharacteristic == r.notify &&
        effects == old(effects) + Subscriptions(p, r.subscribed)
    {
      ghost var start := Begin(writeCharacteristic, notifyCharacteristic);
      var foundWrite, foundNotify := false, false;
      ghost var subscribed: seq<Characteristic> := [];
      var i := 0;
      while i < |cs|
        invariant 0 <= i <= |cs|
        invariant var cur := Progress(writeCharacteristic, notifyCharacteristic, foundWrite, foundNotify, subscribed);
          !Complete(cur) && Run(cur, cs[i..]) == Run(start, cs)
        invariant effects == old(effects) + Subscriptions(p, subscribed)
        invariant Valid()
      {
        var c := cs[i];
        assert cs[i..][1..] == cs[i + 1..];
        if c.uuid == WriteUuid {
          writeCharacteristic := Some(c);
          foundWrite := true;
        } else if c.uuid == NotifyUuid {
          notifyCharacteristic := Some(c);
          effects := effects + [Subscribe(p, c)];
          assert Subscriptions(p, subscribed + [c]) == Subscriptions(p, subscribed) + [Subscribe(p, c)] by {
            assert (subscribed + [c])[..|subscribed|] == subscribed;
          }
          subscribed := subscribed + [c];
          foundNotify := true;
        }
        if foundWrite && foundNotify {
          return true;
        }
        i := i + 1;
      }
      return false;
    }

    /**
     * A read error goes to the scan caller, who stays registered; an empty or
     * undecodable payload is dropped; a text frame is routed by its rules.
     */
    method DidUpdateValue(error: Option<TransportError>, value: Option<string>)
      requires Valid()
      modifies this
      ensures Valid()
      ensures error.Some? ==> State() == old(State()).(
        delivered := old(delivered) + Notify(old(scanCallback), Text(None, Some(Transport(error.value)))))
      ensures error.None? && value.None? ==> State() == old(State())
      ensures error.None? && value.Some? ==>
        State() == Route(old(State()), Classify(value.value, old(getParameterCallback).Some?))
    {
      if error.Some? {
        delivered := delivered + Notify(scanCallback, Text(None, Some(Transport(error.value))));
        return;
      }
      if value.None? {
        return;
      }
      Dispatch(Classify(value.value, getParameterCallback.Some?));
    }

    /** Applies the rule a classified frame selects. */
    method Dispatch(n: Notification)
      requires Valid()
      modifies this
      ensures Valid()
      ensures State() == Route(old(State()), n)
    {
      ghost var st := State();
      match n
      case TagRead(tag) =>
        delivered := delivered + Notify(scanCallback, Text(Some(tag), None));
        assert State() == Route(st, n);
      case ScanStopped =>
        delivered := delivered + Notify(stopScanCallback, Status(true, None));
        stopScanCallback := None;
        assert State() == Route(st, n);
      case Rebooted =>
        delivered := delivered + Notify(resetCallback, Status(true, None));
        resetCallback := None;
        assert State() == Route(st, n);
      case SetSucceeded =>
        delivered := delivered + Notify(setParameterCallback, Status(true, None));
        setParameterCallback := None;
        assert State() == Route(st, n);
      case SetRejected =>
        delivered := delivered + Notify(setParameterCallback, Status(false, Refused(ParameterOperationFailed)));
        setParameterCallback := None;
        assert State() == Route(st, n);
      case ParameterValue(v) =>
        delivered := delivered + Notify(getParameterCallback, Text(Some(v), None));
        getParameterCallback := None;
        assert State() == Route(st, n);
      case ParameterMissing =>
        delivered := delivered + Notify(getParameterCallback, Text(None, Refused(ParameterOperationFailed)));
        getParameterCallback := None;
        assert State() == Route(st, n);
      case Unrecognised =>
    }

    /** Only an error on the write characteristic matters; it goes to the first occupied command slot. */
    method DidWriteValue(c: Characteristic, error: Option<TransportError>)
      requires Valid()
      modifies this
      ensures Valid()
      ensures error.Some? && c.uuid == WriteUuid ==> State() == AfterWriteFailure(old(State()), Transport(error.value))
      ensures error.None? || c.uuid != WriteUuid ==> State() == old(State())
    {
      if error.Some? && c.uuid == WriteUuid {
        var f := Transport(error.value);
        if scanCallback.Some? {
          delivered := delivered + [Delivery(scanCallback.value, Text(None, Some(f)))];
        } else if stopScanCallback.Some? {
          delivered := delivered + [Delivery(stopScanCallback.value, Status(false, Some(f)))];
          stopScanCallback := None;
        } else if resetCallback.Some? {
          delivered := delivered + [Delivery(resetCallback.value, Status(false, Some(f)))];
          resetCallback := None;
        } else if setParameterCallback.Some? {
          delivered := delivered + [Delivery(setParameterCallback.value, Status(false, Some(f)))];
          setParameterCallback := None;
        } else if getParameterCallback.Some? {
          delivered := delivered + [Delivery(getParameterCallback.value, Text(None, Some(f)))];
          getParameterCallback := None;
        }
      }
    }
  }
}
