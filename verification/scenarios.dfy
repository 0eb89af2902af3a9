/**
 * Whole exchanges between a caller, the plugin and a reader, each run on a
 * fresh plugin; what the callers are told and what is written to the reader
 * is stated in full.
 */
module Scenarios {
  import opened Wrappers
  import opened Strings
  import opened RfidErrors
  import opened BleDevices
  import opened Validation
  import opened Frames
  import opened Registry
  import opened Handshake
  import opened RfidPlugin

  const Reader: Peripheral := Peripheral("reader-1", Some("BZNC RFID READER 7"))
  const ReaderService: Service := Service(ServiceUuid, 1)
  const WriteHandle: Characteristic := Characteristic(WriteUuid, 2)
  const NotifyHandle: Characteristic := Characteristic(NotifyUuid, 3)

  /** The link a successful handshake leaves. */
  const ReadyLink: Link := Link(Some(Reader), Some(WriteHandle), Some(NotifyHandle))

  /** The requests a successful handshake makes, in order. */
  const HandshakeRequests: seq<Effect> := [
    ConnectPeripheral(Reader),
    DiscoverServices(Reader, [ServiceUuid]),
    DiscoverCharacteristics(Reader, [WriteUuid, NotifyUuid], ReaderService),
    Subscribe(Reader, NotifyHandle)]

  /** The token of the caller that connects. */
  const Connector: Token := 1

  /** The requests made up to the discovery of the reader's characteristics. */
  const Lookups: seq<Effect> := [
    ConnectPeripheral(Reader),
    DiscoverServices(Reader, [ServiceUuid]),
    DiscoverCharacteristics(Reader, [WriteUuid, NotifyUuid], ReaderService)]

  /** A powered-on plugin connected to the reader that has found the reader's service. */
  method ServiceFound() returns (pl: Plugin)
    ensures fresh(pl) && pl.Valid()
    ensures pl.State() == Snapshot(true, Link(Some(Reader), None, None), NoSlots.(connection := Some(Connector)), [], [], Lookups)
  {
    var noLink := Link(None, None, None);
    var linked := Link(Some(Reader), None, None);
    var waiting := NoSlots.(connection := Some(Connector));
    pl := new Plugin();
    pl.DidUpdateState(true);
    assert pl.State() == Snapshot(true, noLink, NoSlots, [], [], []);
    pl.Connect(Connector, MakeDevice(Reader, "BZNC RFID READER 7", -40));
    assert pl.State() == Snapshot(true, noLink, waiting, [], [], [ConnectPeripheral(Reader)]);
    pl.DidConnect(Reader);
    assert pl.State() == Snapshot(true, linked, waiting, [], [], Lookups[..2]);
    assert FirstServiceIndex([ReaderService]) == 0;
    pl.DidDiscoverServices(Reader, None, Some([ReaderService]));
  }

  /** A powered-on plugin that has connected to the reader and found both characteristics. */
  method Connected() returns (pl: Plugin)
    ensures fresh(pl) && pl.Valid()
    ensures pl.State() == Snapshot(true, ReadyLink, NoSlots, [], [Delivery(Connector, Status(true, None))], HandshakeRequests)
  {
    pl := ServiceFound();
    ghost var both := Progress(Some(WriteHandle), Some(NotifyHandle), true, true, [NotifyHandle]);
    ghost var afterWrite := Begin(None, None).(write := Some(WriteHandle), foundWrite := true);
    assert Step(Begin(None, None), WriteHandle) == afterWrite;
    assert Step(afterWrite, NotifyHandle) == both;
    assert Run(Begin(None, None), [WriteHandle, NotifyHandle]) == both;
    assert Subscriptions(Reader, [NotifyHandle]) == [Subscribe(Reader, NotifyHandle)];
    pl.DidDiscoverCharacteristics(Reader, None, Some([WriteHandle, NotifyHandle]));
    assert HandshakeRequests == Lookups + [Subscribe(Reader, NotifyHandle)];
  }

  /** The connect caller is answered once, with success, after the four Bluetooth requests. */
  method HandshakeAnswersConnectCaller() returns (replies: seq<Delivery>, requests: seq<Effect>, ready: bool)
    ensures replies == [Delivery(Connector, Status(true, None))]
    ensures requests == [
      ConnectPeripheral(Reader),
      DiscoverServices(Reader, [ServiceUuid]),
      DiscoverCharacteristics(Reader, [WriteUuid, NotifyUuid], ReaderService),
      Subscribe(Reader, NotifyHandle)]
    ensures ready
  {
    var pl := Connected();
    replies, requests, ready := pl.delivered, pl.effects, Ready(pl.Connection());
  }

  /** The reader sends `frame`, already known to read as `n`. */
  method Hear(pl: Plugin, frame: string, n: Notification)
    requires pl.Valid() && Classify(frame, pl.getParameterCallback.Some?) == n
    modifies pl
    ensures pl.Valid() && pl.State() == Route(old(pl.State()), n)
  {
    pl.DidUpdateValue(None, Some(frame));
  }

  /** The frame that starts a scan. */
  const StartScanFrame: Effect := WriteValue(Reader, WriteHandle, "set|scan|1")

  /** A connected plugin on which caller 2 has started a scan. */
  method Scanning() returns (pl: Plugin)
    ensures fresh(pl) && pl.Valid()
    ensures pl.State() == Snapshot(true, ReadyLink, NoSlots.(scan := Some(2)), [],
      [Delivery(Connector, Status(true, None))], HandshakeRequests + [StartScanFrame])
  {
    pl := Connected();
    pl.StartScan(2);
  }

  /** Two tag frames both reach the scan caller, who stays registered for more. */
  method TagsReachTheScanCaller() returns (frame: string, replies: seq<Delivery>, stillListening: bool)
    ensures frame == "set|scan|1"
    ensures replies == [Delivery(2, Text(Some("A1B2"), None)), Delivery(2, Text(Some("C3D4"), None))]
    ensures stillListening
  {
    var pl := Scanning();
    frame := pl.effects[|pl.effects| - 1].frame;
    SampleFrames(false);
    TagComesFirst("C3D4", false);
    assert "tag|" + "C3D4" == "tag|C3D4";
    Hear(pl, "tag|A1B2", TagRead("A1B2"));
    Hear(pl, "tag|C3D4", TagRead("C3D4"));
    replies := pl.delivered[1..];
    stillListening := pl.scanCallback == Some(2);
  }


  /** The frame that sets the region to EU. */
  const SetRegionEu: Effect := WriteValue(Reader, WriteHandle, "set|region|EU")

  /** A connected plugin that has sent a set of the region to EU for caller 3. */
  method RegionSetSent() returns (pl: Plugin)
    ensures fresh(pl) && pl.Valid()
    ensures pl.State() == Snapshot(true, ReadyLink, NoSlots.(setParameter := Some(3)), [],
      [Delivery(Connector, Status(true, None))], HandshakeRequests + [SetRegionEu])
  {
    pl := Connected();
    assert IsValidParameter("region") && IsValidParameterValue("region", "EU") by {
      assert "region" == ValidParameters[1];
      assert "EU" == ValidRegions[3];
    }
    RegionEuRoundTrip();
    pl.SetParameter(3, "region", "EU");
  }

  /** A rejected set is reported once; a later `SET:OK` finds the slot empty and is ignored. */
  method SetRejectedThenLateSuccess() returns (frame: string, replies: seq<Delivery>)
    ensures frame == "set|region|EU"
    ensures replies == [Delivery(3, Status(false, Some(Rfid(ParameterOperationFailed))))]
  {
    var pl := RegionSetSent();
    frame := pl.effects[|pl.effects| - 1].frame;
    SampleFrames(false);
    Hear(pl, "SET:ERROR", SetRejected);
    assert pl.Pending() == NoSlots;
    Hear(pl, "SET:OK", SetSucceeded);
    replies := pl.delivered[1..];
  }

  /** A connected plugin that has sent a get of the region for caller 4. */
  method RegionGetSent() returns (pl: Plugin)
    ensures fresh(pl) && pl.Valid()
    ensures pl.State() == Snapshot(true, ReadyLink, NoSlots.(getParameter := Some(4)), [],
      [Delivery(Connector, Status(true, None))], HandshakeRequests + [WriteValue(Reader, WriteHandle, "get|region")])
  {
    pl := Connected();
    assert IsValidParameter("region") by {
      assert "region" == ValidParameters[1];
    }
    assert Encode(Command.GetParameter("region")) == "get|region";
    pl.GetParameter(4, "region");
  }

  /** A get of the region is answered with the value in the reader's `region|<value>` reply. */
  method RegionIsRead() returns (frame: string, replies: seq<Delivery>)
    ensures frame == "get|region"
    ensures replies == [Delivery(4, Text(Some("EU"), None))]
  {
    var pl := RegionGetSent();
    frame := pl.effects[|pl.effects| - 1].frame;
    RegionEuReplyRead();
    Hear(pl, "region|EU", ParameterValue("EU"));
    assert pl.delivered == [Delivery(Connector, Status(true, None)), Delivery(4, Text(Some("EU"), None))];
    replies := pl.delivered[1..];
  }

  /**
   * Refused parameter commands answer at once and write nothing: a power
   * off the 100 step, a power above the range, an unknown name.
   */
  method RefusedParametersWriteNothing() returns (replies: seq<Delivery>, written: nat)
    ensures replies == [
      Delivery(5, Status(false, Some(Rfid(InvalidParameterValue)))),
      Delivery(6, Status(false, Some(Rfid(InvalidParameterValue)))),
      Delivery(7, Text(None, Some(Rfid(InvalidParameter))))]
    ensures written == 0
  {
    var pl := Connected();
    var before := |pl.effects|;
    PowerBoundaries();
    UnknownParameterRefused();
    pl.SetParameter(5, "power", "1550");
    pl.SetParameter(6, "power", "2700");
    pl.GetParameter(7, "bogus");
    replies := pl.delivered[1..];
    written := |pl.effects| - before;
  }

  /**
   * Losing the link while a reset is pending answers nobody: the reset
   * caller stays registered, and the next command is refused as not
   * connected.
   */
  method LinkLossLeavesResetPending() returns (replies: seq<Delivery>, resetStillPending: bool)
    ensures replies == [Delivery(9, Text(None, Some(Rfid(NotConnected))))]
    ensures resetStillPending
  {
    var pl := Connected();
    pl.Reset(8);
    pl.DidDisconnect(None);
    pl.StartScan(9);
    replies := pl.delivered[1..];
    resetStillPending := pl.resetCallback == Some(8);
  }

  /**
   * A service offering the write characteristic but not the notify one fails
   * the connection, yet the write handle stays set, so a scan command is
   * still written.
   */
  method PartialHandshakeStillWrites() returns (replies: seq<Delivery>, frame: string)
    ensures replies == [Delivery(Connector, Status(false, Some(Rfid(CharacteristicNotFound))))]
    ensures frame == "set|scan|1"
  {
    var pl := ServiceFound();
    pl.DidDiscoverCharacteristics(Reader, None, Some([WriteHandle]));
    pl.StartScan(10);
    replies := pl.delivered;
    frame := pl.effects[|pl.effects| - 1].frame;
  }

  /** A connected plugin whose `caller` has asked to disconnect. */
  method DisconnectRequested(caller: Token) returns (pl: Plugin)
    ensures fresh(pl) && pl.Valid()
    ensures pl.State() == Snapshot(true, ReadyLink, NoSlots.(disconnection := Some(caller)), [],
      [Delivery(Connector, Status(true, None))], HandshakeRequests + [CancelConnection(Reader)])
  {
    pl := Connected();
    pl.Disconnect(caller);
  }

  /** A connected plugin whose `caller` has asked to disconnect, then lost power. */
  method PoweredOffWhileDisconnecting(caller: Token) returns (pl: Plugin)
    ensures fresh(pl) && pl.Valid()
    ensures pl.State() == Snapshot(false, ReadyLink, NoSlots.(disconnection := Some(caller)), [],
      [Delivery(Connector, Status(true, None)), Delivery(caller, Status(false, Refused(NotConnected)))],
      HandshakeRequests + [CancelConnection(Reader)])
  {
    pl := DisconnectRequested(caller);
    PowerOffLoneCaller(pl.Pending(), DisconnectionSlot);
    pl.DidUpdateState(false);
  }

  /** Power loss answers a pending disconnect caller, and the later disconnect event answers it again. */
  method PowerLossAnswersDisconnectTwice(caller: Token) returns (replies: seq<Delivery>)
    ensures replies == [
      Delivery(caller, Status(false, Some(Rfid(NotConnected)))),
      Delivery(caller, Status(true, None))]
  {
    var pl := PoweredOffWhileDisconnecting(caller);
    pl.DidDisconnect(None);
    replies := pl.delivered[1..];
  }


  /** The reader as a discovery round lists it. */
  const ReaderListed: Device := Device("reader-1", "BZNC RFID READER 7", -40, Some(Reader))

  /** A list request made before power-on, then power-on, then the reader heard once. */
  method ReaderHeard() returns (pl: Plugin)
    ensures fresh(pl) && pl.Valid()
    ensures pl.State() == Snapshot(true, Link(None, None, None), NoSlots.(discovery := Some(12)), [ReaderListed], [], [ScanForPeripherals, ArmDiscoveryTimer])
  {
    pl := new Plugin();
    pl.ListDevices(12);
    pl.DidUpdateState(true);
    assert Contains("BZNC RFID READER 7", VendorTag) by {
      assert OccursAt("BZNC RFID READER 7", VendorTag, 0);
    }
    assert pl.discoveredDevices == [] && pl.discoveryCallback == Some(12);
    pl.DidDiscover(Reader, -40);
  }

  /**
   * A list request made before power-on waits; once powered on, a round runs
   * in which the reader is heard twice and another peripheral once, and the
   * timer reports the reader alone, at the strength first heard.
   */
  method DiscoveryRound() returns (replies: seq<Delivery>, requests: seq<Effect>)
    ensures replies == [Delivery(12, Devices([ReaderListed], None))]
    ensures requests == [ScanForPeripherals, ArmDiscoveryTimer, StopPeripheralScan]
  {
    var pl := ReaderHeard();
    var other := Peripheral("headset-1", Some("Headset"));
    assert !Contains("Headset", VendorTag) by {
      MissingCharExcludes("Headset", VendorTag, 'B');
    }
    assert !Admitted(Sighting(other, -70));
    pl.DidDiscover(other, -70);
    assert pl.discoveredDevices == [ReaderListed];
    assert Listed([ReaderListed], Reader.identifier) by {
      assert [ReaderListed][0].id == "reader-1";
    }
    pl.DidDiscover(Reader, -35);
    assert pl.discoveredDevices == [ReaderListed];
    pl.DiscoveryTimerFired();
    replies, requests := pl.delivered, pl.effects;
  }
}
