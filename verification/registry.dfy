/**
 * The discovery registry: during a discovery session every sighting of a
 * peripheral whose name contains the vendor tag adds a device, unless a
 * device with that identifier is already listed. The list keeps the order
 * and the signal strength of first sight.
 */
module Registry {
  import opened Wrappers
  import opened Strings
  import opened BleDevices

  /** The text every reader's advertised name contains. */
  const VendorTag: string := "BZNC RFID READER"

  /** One discovery event: the peripheral and the signal strength it was heard at. */
  datatype Sighting = Sighting(peripheral: Peripheral, rssi: int)

  /** A sighting is admitted when the peripheral has a name and the name contains the vendor tag. */
  predicate Admitted(s: Sighting) {
    s.peripheral.name.Some? && Contains(s.peripheral.name.value, VendorTag)
  }

  /** The sighting is an admitted sighting of the peripheral with identifier `id`. */
  predicate Sights(s: Sighting, id: Identifier) {
    Admitted(s) && s.peripheral.identifier == id
  }

  /** The device an admitted sighting creates. */
  function Record(s: Sighting): Device
    requires Admitted(s)
  {
    MakeDevice(s.peripheral, s.peripheral.name.value, s.rssi)
  }

  /** Some listed device has identifier `id`. */
  predicate Listed(devices: seq<Device>, id: Identifier) {
    exists k | 0 <= k < |devices| :: devices[k].id == id
  }

  /**
   * What a discovery event does to the list: it only ever appends, at most
   * one device, and only the device an admitted sighting of an unlisted
   * peripheral creates.
   */
  function Observe(devices: seq<Device>, s: Sighting): (after: seq<Device>)
    ensures devices <= after && |after| <= |devices| + 1
    ensures |after| > |devices| ==>
      Admitted(s) && !Listed(devices, s.peripheral.identifier) && after[|devices|] == Record(s)
  {
    if Admitted(s) && !Listed(devices, s.peripheral.identifier) then devices + [Record(s)] else devices
  }

  /**
   * The list holds no two devices with one identifier, and each device was
   * built from a peripheral with that identifier and an admitted name.
   */
  predicate WellFormedList(devices: seq<Device>) {
    && (forall i, j | 0 <= i < j < |devices| :: devices[i].id != devices[j].id)
    && (forall k | 0 <= k < |devices| ::
          Contains(devices[k].name, VendorTag) &&
          devices[k].peripheral.Some? && devices[k].peripheral.value.identifier == devices[k].id)
  }

  /** A discovery event keeps the list well formed, and only ever appends to it. */
  lemma ObservePreserves(devices: seq<Device>, s: Sighting)
    requires WellFormedList(devices)
    ensures WellFormedList(Observe(devices, s))
    ensures devices <= Observe(devices, s)
  {
  }

  /** After a discovery event, exactly the identifiers listed before or sighted now are listed. */
  lemma ObserveListed(devices: seq<Device>, s: Sighting, id: Identifier)
    ensures Listed(Observe(devices, s), id) <==> Listed(devices, id) || Sights(s, id)
  {
    var after := Observe(devices, s);
    if Listed(devices, id) {
      var k :| 0 <= k < |devices| && devices[k].id == id;
      assert after[k] == devices[k];
    }
    if Sights(s, id) && !Listed(devices, id) {
      assert after[|devices|].id == id;
    }
    if Listed(after, id) && !Listed(devices, id) {
      var k :| 0 <= k < |after| && after[k].id == id;
      assert k == |devices|;
    }
  }

  /** The list a session ends with, given its discovery events in arrival order. */
  function Session(sightings: seq<Sighting>): seq<Device> {
    if sightings == [] then []
    else Observe(Session(sightings[..|sightings| - 1]), sightings[|sightings| - 1])
  }

  /** The position of the first admitted sighting of `id` (the length when there is none). */
  function FirstSighting(sightings: seq<Sighting>, id: Identifier): (j: nat)
    ensures j <= |sightings|
    ensures forall k | 0 <= k < j :: !Sights(sightings[k], id)
    ensures j < |sightings| ==> Sights(sightings[j], id)
  {
    if sightings == [] then 0
    else if Sights(sightings[0], id) then 0
    else 1 + FirstSighting(sightings[1..], id)
  }

  lemma {:induction false} FirstSightingExtend(p: seq<Sighting>, x: Sighting, id: Identifier)
    ensures FirstSighting(p + [x], id) ==
      if FirstSighting(p, id) < |p| then FirstSighting(p, id)
      else if Sights(x, id) then |p| else |p| + 1
  {
    if p != [] {
      assert (p + [x])[0] == p[0];
      assert (p + [x])[1..] == p[1..] + [x];
      FirstSightingExtend(p[1..], x, id);
    }
  }

  /** A session's list is well formed. */
  lemma {:induction false} SessionWellFormed(sightings: seq<Sighting>)
    ensures WellFormedList(Session(sightings))
  {
    if sightings != [] {
      SessionWellFormed(sightings[..|sightings| - 1]);
      ObservePreserves(Session(sightings[..|sightings| - 1]), sightings[|sightings| - 1]);
    }
  }

  /** A session lists an identifier exactly when some admitted sighting carried it. */
  lemma {:induction false} SessionListsAdmitted(sightings: seq<Sighting>, id: Identifier)
    ensures Listed(Session(sightings), id) <==> FirstSighting(sightings, id) < |sightings|
  {
    if sightings != [] {
      var p, x := sightings[..|sightings| - 1], sightings[|sightings| - 1];
      assert sightings == p + [x];
      SessionListsAdmitted(p, id);
      ObserveListed(Session(p), x, id);
      FirstSightingExtend(p, x, id);
    }
  }

  /** Each listed device is the one its identifier's first admitted sighting created (first name, first rssi). */
  lemma {:induction false} SessionEntriesAreFirstSightings(sightings: seq<Sighting>, i: nat)
    requires i < |Session(sightings)|
    ensures var j := FirstSighting(sightings, Session(sightings)[i].id);
      j < |sightings| && Session(sightings)[i] == Record(sightings[j])
  {
    var p, x := sightings[..|sightings| - 1], sightings[|sightings| - 1];
    assert sightings == p + [x];
    var before := Session(p);
    var d := Session(sightings)[i];
    FirstSightingExtend(p, x, d.id);
    if i < |before| {
      SessionEntriesAreFirstSightings(p, i);
      assert (p + [x])[FirstSighting(p, d.id)] == p[FirstSighting(p, d.id)];
    } else {
      SessionListsAdmitted(p, d.id);
    }
  }

  /** The list is in order of first sight. */
  lemma {:induction false} SessionInFirstSeenOrder(sightings: seq<Sighting>, i: nat, i': nat)
    requires i < i' < |Session(sightings)|
    ensures FirstSighting(sightings, Session(sightings)[i].id) < FirstSighting(sightings, Session(sightings)[i'].id)
  {
    var p, x := sightings[..|sightings| - 1], sightings[|sightings| - 1];
    assert sightings == p + [x];
    var before := Session(p);
    var d, d' := Session(sightings)[i], Session(sightings)[i'];
    FirstSightingExtend(p, x, d.id);
    FirstSightingExtend(p, x, d'.id);
    SessionEntriesAreFirstSightings(p, i);
    if i' < |before| {
      SessionInFirstSeenOrder(p, i, i');
    } else {
      SessionListsAdmitted(p, d'.id);
    }
  }

  /** A peripheral whose name lacks the vendor tag, or that has no name, never enters the list. */
  lemma {:induction false} RefusedNeverListed(sightings: seq<Sighting>, id: Identifier)
    requires forall k | 0 <= k < |sightings| :: sightings[k].peripheral.identifier == id ==> !Admitted(sightings[k])
    ensures !Listed(Session(sightings), id)
  {
    SessionListsAdmitted(sightings, id);
  }
}
