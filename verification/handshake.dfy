/**
 * The pure part of the connection handshake: the reader's fixed service and
 * characteristic identifiers, the search for the service among those the
 * peripheral reports, and the scan over the characteristics the service
 * reports, which stops as soon as both the write and the notify
 * characteristic have been seen.
 */
module Handshake {
  import opened Wrappers

  /**
   * A service or characteristic identifier: the 128-bit value of a `CBUUID`,
   * written in hexadecimal as the identifier's text is.
   */
  type Uuid = nat

  const ServiceUuid: Uuid := 0x6E40_0001_B5A3_F393_E0A9_E50E_24DC_CA9E
  const WriteUuid: Uuid := 0x6E40_0002_B5A3_F393_E0A9_E50E_24DC_CA9E
  const NotifyUuid: Uuid := 0x6E40_0003_B5A3_F393_E0A9_E50E_24DC_CA9E

  /** A service the peripheral reports; `handle` tells apart two services with one identifier. */
  datatype Service = Service(uuid: Uuid, handle: nat)

  /** A characteristic a service reports. */
  datatype Characteristic = Characteristic(uuid: Uuid, handle: nat)

  /** The position of the first service with the reader's service identifier (the length when there is none). */
  function FirstServiceIndex(services: seq<Service>): (i: nat)
    ensures i <= |services|
    ensures forall k | 0 <= k < i :: services[k].uuid != ServiceUuid
    ensures i < |services| ==> services[i].uuid == ServiceUuid
  {
    if services == [] then 0
    else if services[0].uuid == ServiceUuid then 0
    else 1 + FirstServiceIndex(services[1..])
  }

  /**
   * The state of the characteristic scan: the plugin's two handle fields, the
   * two found flags, and the characteristics subscribed to so far.
   */
  datatype Progress = Progress(
    write: Option<Characteristic>,
    notify: Option<Characteristic>,
    foundWrite: bool,
    foundNotify: bool,
    subscribed: seq<Characteristic>)

  /** The scan starts from the plugin's current handles with neither flag set. */
  function Begin(write: Option<Characteristic>, notify: Option<Characteristic>): Progress {
    Progress(write, notify, false, false, [])
  }

  /** One characteristic: a write one is stored, a notify one is stored and subscribed to. */
  function Step(p: Progress, c: Characteristic): (next: Progress)
    ensures (p.foundWrite ==> next.foundWrite) && (p.foundNotify ==> next.foundNotify)
  {
    if c.uuid == WriteUuid then p.(write := Some(c), foundWrite := true)
    else if c.uuid == NotifyUuid then p.(notify := Some(c), foundNotify := true, subscribed := p.subscribed + [c])
    else p
  }

  predicate Complete(p: Progress) {
    p.foundWrite && p.foundNotify
  }

  /**
   * The scan over the rest of the list, stopping right after the step that
   * completes it. A flag once set stays set, and subscriptions are only added,
   * one at most per characteristic.
   */
  function Run(p: Progress, cs: seq<Characteristic>): (r: Progress)
    decreases |cs|
    ensures (p.foundWrite ==> r.foundWrite) && (p.foundNotify ==> r.foundNotify)
    ensures |r.subscribed| <= |p.subscribed| + |cs|
  {
    if cs == [] then p
    else
      var next := Step(p, cs[0]);
      if Complete(next) then next else Run(next, cs[1..])
  }

  predicate HasUuid(cs: seq<Characteristic>, u: Uuid) {
    exists k | 0 <= k < |cs| :: cs[k].uuid == u
  }

  /**
   * The scan completes exactly when each flag that is not yet set has a
   * characteristic of its kind further on in the list.
   */
  lemma {:induction false} RunCompletesIff(p: Progress, cs: seq<Characteristic>)
    requires !Complete(p)
    decreases |cs|
    ensures Complete(Run(p, cs)) <==>
      (p.foundWrite || HasUuid(cs, WriteUuid)) && (p.foundNotify || HasUuid(cs, NotifyUuid))
  {
    if cs != [] {
      var next := Step(p, cs[0]);
      assert forall u :: HasUuid(cs, u) <==> cs[0].uuid == u || HasUuid(cs[1..], u) by {
        forall u ensures HasUuid(cs, u) ==> cs[0].uuid == u || HasUuid(cs[1..], u) {
          if HasUuid(cs, u) && cs[0].uuid != u {
            var k :| 0 <= k < |cs| && cs[k].uuid == u;
            assert cs[1..][k - 1] == cs[k];
          }
        }
        forall u ensures HasUuid(cs[1..], u) ==> HasUuid(cs, u) {
          if HasUuid(cs[1..], u) {
            var k :| 0 <= k < |cs[1..]| && cs[1..][k].uuid == u;
            assert cs[k + 1] == cs[1..][k];
          }
        }
      }
      if !Complete(next) {
        RunCompletesIff(next, cs[1..]);
      }
    }
  }

  /** The handshake succeeds exactly when the service reports both a write and a notify characteristic. */
  lemma HandshakeSucceedsIff(write: Option<Characteristic>, notify: Option<Characteristic>, cs: seq<Characteristic>)
    ensures Complete(Run(Begin(write, notify), cs)) <==> HasUuid(cs, WriteUuid) && HasUuid(cs, NotifyUuid)
  {
    RunCompletesIff(Begin(write, notify), cs);
  }

  /**
   * The handle fields only ever hold characteristics of their own kind; a
   * found flag means the handle is set; the notify handle, once found, is
   * the last characteristic subscribed to, and only notify characteristics
   * are subscribed to.
   */
  predicate Coherent(p: Progress) {
    && (p.write.Some? ==> p.write.value.uuid == WriteUuid)
    && (p.notify.Some? ==> p.notify.value.uuid == NotifyUuid)
    && (p.foundWrite ==> p.write.Some?)
    && (p.foundNotify ==> p.subscribed != [] && p.notify == Some(p.subscribed[|p.subscribed| - 1]))
    && (forall k | 0 <= k < |p.subscribed| :: p.subscribed[k].uuid == NotifyUuid)
  }

  lemma {:induction false} RunCoherent(p: Progress, cs: seq<Characteristic>)
    requires Coherent(p)
    ensures Coherent(Run(p, cs))
    decreases |cs|
  {
    if cs != [] {
      var next := Step(p, cs[0]);
      assert Coherent(next);
      if !Complete(next) {
        RunCoherent(next, cs[1..]);
      }
    }
  }

  /**
   * After a successful handshake both handles are set, each to a
   * characteristic of its kind, and the notify one has been subscribed to.
   */
  lemma SuccessSetsBothHandles(write: Option<Characteristic>, notify: Option<Characteristic>, cs: seq<Characteristic>)
    requires write.Some? ==> write.value.uuid == WriteUuid
    requires notify.Some? ==> notify.value.uuid == NotifyUuid
    requires Complete(Run(Begin(write, notify), cs))
    ensures var r := Run(Begin(write, notify), cs);
      r.write.Some? && r.write.value.uuid == WriteUuid &&
      r.notify.Some? && r.notify.value.uuid == NotifyUuid && r.notify.value in r.subscribed
  {
    RunCoherent(Begin(write, notify), cs);
  }

  /**
   * A service that reports a write characteristic but no notify one fails the
   * handshake, yet leaves the write handle set.
   */
  lemma PartialHandshakeKeepsWriteHandle(write: Option<Characteristic>, notify: Option<Characteristic>, cs: seq<Characteristic>)
    requires HasUuid(cs, WriteUuid) && !HasUuid(cs, NotifyUuid)
    ensures !Complete(Run(Begin(write, notify), cs))
    ensures Run(Begin(write, notify), cs).write.Some?
  {
    HandshakeSucceedsIff(write, notify, cs);
    RunSetsWrite(Begin(write, notify), cs);
  }

  lemma {:induction false} RunSetsWrite(p: Progress, cs: seq<Characteristic>)
    requires HasUuid(cs, WriteUuid) || p.write.Some?
    requires p.foundWrite ==> p.write.Some?
    ensures Run(p, cs).write.Some?
    decreases |cs|
  {
    if cs != [] {
      var next := Step(p, cs[0]);
      if !Complete(next) {
        if cs[0].uuid != WriteUuid && p.write.None? {
          var k :| 0 <= k < |cs| && cs[k].uuid == WriteUuid;
          assert cs[1..][k - 1] == cs[k];
        }
        RunSetsWrite(next, cs[1..]);
      }
    }
  }
}
