/**
 * `BLEDevice`: a discovered reader as the host application sees it. Its
 * identity is the transport's identifier for the peripheral; name and signal
 * strength are what the discovery event reported. All fields are immutable.
 */
module BleDevices {
  import opened Wrappers
  import opened Integers

  /** The transport's stable identifier of a peripheral (a `UUID`). */
  type Identifier = string

  /** The transport's handle on a remote device: its identifier and advertised name, if any. */
  datatype Peripheral = Peripheral(identifier: Identifier, name: Option<string>)

  /** A `BLEDevice`. The peripheral is optional in the record, as in the source. */
  datatype Device = Device(id: Identifier, name: string, rssi: int, peripheral: Option<Peripheral>)

  /** `BLEDevice(peripheral:name:rssi:)`: the id is the peripheral's, and the peripheral is kept. */
  function MakeDevice(p: Peripheral, name: string, rssi: int): (d: Device)
    ensures d.id == p.identifier && d.name == name && d.rssi == rssi
    ensures d.peripheral == Some(p)
  {
    Device(p.identifier, name, rssi, Some(p))
  }

  /** `==` on devices: the ids agree; name, rssi and peripheral are not compared. */
  predicate SameDevice(a: Device, b: Device) {
    a.id == b.id
  }

  /** Device equality is an equivalence relation. */
  lemma SameDeviceIsEquivalence(a: Device, b: Device, c: Device)
    ensures SameDevice(a, a)
    ensures SameDevice(a, b) ==> SameDevice(b, a)
    ensures SameDevice(a, b) && SameDevice(b, c) ==> SameDevice(a, c)
  {
  }

  /** Two devices built from the same peripheral are equal, whatever names and strengths they carry. */
  lemma SamePeripheralSameDevice(p: Peripheral, name1: string, rssi1: int, name2: string, rssi2: int)
    ensures SameDevice(MakeDevice(p, name1, rssi1), MakeDevice(p, name2, rssi2))
  {
  }

  /** Devices with different identifiers are never equal. */
  lemma DistinctIdentifiersDistinctDevices(p: Peripheral, q: Peripheral, name: string, rssi: int)
    requires p.identifier != q.identifier
    ensures !SameDevice(MakeDevice(p, name, rssi), MakeDevice(q, name, rssi))
  {
  }

  const DescriptionHead: string := "BLEDevice(name: "
  const DescriptionMiddle: string := ", rssi: "

  /**
   * `description`: `BLEDevice(name: <name>, rssi: <rssi>)`. Between the fixed
   * head and the closing parenthesis lie the name, the middle, and a number
   * after the last space.
   */
  function Description(d: Device): (t: string)
    ensures |t| > |DescriptionHead| && t[..|DescriptionHead|] == DescriptionHead && t[|t| - 1] == ')'
    ensures t[|DescriptionHead|..|t| - 1] == (d.name + ", rssi:") + [' '] + Show(d.rssi)
  {
    var body := d.name + DescriptionMiddle + Show(d.rssi);
    var t := DescriptionHead + body + ")";
    assert t[|DescriptionHead|..|t| - 1] == body;
    assert body == (d.name + ", rssi:") + [' '] + Show(d.rssi);
    t
  }

  /** The decimal text of a number holds no space. */
  lemma ShowHasNoSpace(n: int)
    ensures ' ' !in Show(n)
  {
    var s := Show(n);
    if n < 0 {
      assert forall k | 1 <= k < |s| :: s[k] == ShowNat(-n)[k - 1];
    }
  }

  /** The longest run at the end of `t` that holds no space. */
  function TrailingWord(t: string): string {
    if t == [] || t[|t| - 1] == ' ' then [] else TrailingWord(t[..|t| - 1]) + [t[|t| - 1]]
  }

  lemma {:induction false} TrailingWordAfterSpace(x: string, w: string)
    requires ' ' !in w
    ensures TrailingWord(x + [' '] + w) == w
  {
    var t := x + [' '] + w;
    if w != [] {
      var w' := w[..|w| - 1];
      TrailingWordAfterSpace(x, w');
      assert t[..|t| - 1] == x + [' '] + w';
      assert w == w' + [w[|w| - 1]];
    } else {
      assert t[|t| - 1] == ' ';
    }
  }

  /**
   * The description determines the name and the signal strength: the number
   * is the word after the last space, and the name is what lies between the
   * fixed head and the fixed middle before it.
   */
  lemma {:induction false} DescriptionDeterminesNameAndRssi(a: Device, b: Device)
    requires Description(a) == Description(b)
    ensures a.name == b.name && a.rssi == b.rssi
  {
    var xa, xb := a.name + ", rssi:", b.name + ", rssi:";
    var sa, sb := Show(a.rssi), Show(b.rssi);
    assert xa + [' '] + sa == xb + [' '] + sb;
    ShowHasNoSpace(a.rssi);
    ShowHasNoSpace(b.rssi);
    TrailingWordAfterSpace(xa, sa);
    TrailingWordAfterSpace(xb, sb);
    ShowInjective(a.rssi, b.rssi);
    assert xa == (xa + [' '] + sa)[..|xa|];
    assert xb == (xb + [' '] + sb)[..|xb|];
    assert a.name == xa[..|a.name|];
    assert b.name == xb[..|b.name|];
  }
}
