/** The full client, seen only through its signed-prekey ring and its pending
    rotation, takes the steps of the rotation protocol and no others. */
module RotationRefinement {
  import opened Wire
  import opened Outbox
  import opened PrekeyStores
  import opened ClientSpec
  import opened ClientInvariant
  import opened ClientItems
  import Runs = ClientRuns
  import Protocol = RotationProtocol

  ghost predicate RotationPending(items: seq<PendingOutbound>, p: Option<Protocol.Request>)
  {
    forall x :: x in items && x.SignedPrekeyRotation? <==>
      p.Some? && x == SignedPrekeyRotation(p.value.id, p.value.key.keyId, p.value.key.pair)
  }

  function Item(r: Protocol.Request): (x: PendingOutbound) { SignedPrekeyRotation(r.id, r.key.keyId, r.key.pair) }

  /** One step of the protocol's client: nothing, a new rotation, its settlement,
      or the replacement of its candidate. */
  ghost predicate RotationStep(r: SpkRing, p: Option<Protocol.Request>, r': SpkRing, p': Option<Protocol.Request>,
                               ev: Runs.Event)
  {
    || (r' == r && p' == p)
    || (ev.DoQueueRotation? && p.None? && r.current.Some? && RotationDue(r, ev.now) && RotationKeyId(r).Some?
        && r' == Rotated(r, ev.pair, ev.now) && p' == Some(Protocol.Request(ev.id, r'.current.value)))
    || (ev.DoConfirmRotated? && p.Some? && p.value.id == ev.id && ev.accepted && p.value.key.keyId == ev.serverCurrent
        && r' == RotationConfirmed(r) && p' == None)
    || (ev.DoConfirmRotated? && p.Some? && p.value.id == ev.id
        && !(ev.accepted && p.value.key.keyId == ev.serverCurrent)
        && r.current.Some? && r.previous != [] && ReplacementKeyId(r, ev.serverCurrent).Some?
        && r' == Reconciled(r, ev.serverCurrent, ev.previouslyAccepted, ev.pair, ev.now)
        && p' == Some(Protocol.Request(ev.newId, r'.current.value)))
  }

  lemma QueueProjects(c: Client, p: Option<Protocol.Request>, log: set<PendingOutbound>, ev: Runs.Event)
    returns (p': Option<Protocol.Request>)
    requires Inv(c) && RotationPending(c.mem.outbox, p) && Runs.Permitted(c, log, ev) && ev.DoQueueRotation?
    ensures RotationPending(Runs.Step(c, log, ev).0.mem.outbox, p')
    ensures RotationStep(c.mem.core.spks, p, Runs.Step(c, log, ev).0.mem.core.spks, p', ev)
  {
    var c', ring, out := Runs.Step(c, log, ev).0, c.mem.core.spks, c.mem.outbox;
    var a := AnyRotation(out);
    assert p.Some? ==> Item(p.value) in out;
    p' := p;
    if c' != c {
      p' := Some(Protocol.Request(ev.id, SignedPrekey(RotationKeyId(ring).value, ev.pair)));
    }
    hide Inv, HasCapacity;
  }

  lemma ConfirmProjects(c: Client, p: Option<Protocol.Request>, log: set<PendingOutbound>, ev: Runs.Event)
    returns (p': Option<Protocol.Request>)
    requires Inv(c) && RotationPending(c.mem.outbox, p) && Runs.Permitted(c, log, ev) && ev.DoConfirmRotated?
    ensures RotationPending(Runs.Step(c, log, ev).0.mem.outbox, p')
    ensures RotationStep(c.mem.core.spks, p, Runs.Step(c, log, ev).0.mem.core.spks, p', ev)
  {
    var c', ring, out := Runs.Step(c, log, ev).0, c.mem.core.spks, c.mem.outbox;
    var a := RotationIndex(out, ev.id);
    p' := p;
    if a.Some? && c' != c {
      var i := a.value;
      assert out[i] in out;
      assert p.Some? && out[i] == Item(p.value);
      if ev.accepted && out[i].keyId == ev.serverCurrent {
        p' := None;
        forall x: PendingOutbound | x.SignedPrekeyRotation?
          ensures x !in RemoveAt(out, i)
        {
          RemovedItems(out, i, x);
        }
      } else {
        var k := ReplacementKeyId(ring, ev.serverCurrent).value;
        var item := SignedPrekeyRotation(ev.newId, k, ev.pair);
        p' := Some(Protocol.Request(ev.newId, SignedPrekey(k, ev.pair)));
        Replaced(out, i, item);
      }
    }
    hide Inv, RemoveAt, DeleteId;
  }

  /** Every event of a registered client, including failed operations and crashes,
      is one step of the protocol's client. */
  lemma ClientTakesRotationSteps(c: Client, p: Option<Protocol.Request>, log: set<PendingOutbound>, ev: Runs.Event)
    requires Inv(c) && RotationPending(c.mem.outbox, p) && Runs.Permitted(c, log, ev) && !ev.DoRegister?
    ensures exists p' :: RotationPending(Runs.Step(c, log, ev).0.mem.outbox, p')
                         && RotationStep(c.mem.core.spks, p, Runs.Step(c, log, ev).0.mem.core.spks, p', ev)
  {
    hide Inv, Runs.Step, RotationStep;
    if ev.DoQueueRotation? {
      var p' := QueueProjects(c, p, log, ev);
    } else if ev.DoConfirmRotated? {
      var p' := ConfirmProjects(c, p, log, ev);
    } else {
      StepFlow(c, log, ev);
      OthersKeepRing(c, log, ev);
      assert RotationStep(c.mem.core.spks, p, c.mem.core.spks, p, ev) by { QuietStep(c.mem.core.spks, p, ev); }
      assert RotationPending(Runs.Step(c, log, ev).0.mem.outbox, p);
    }
  }

  lemma QuietStep(r: SpkRing, p: Option<Protocol.Request>, ev: Runs.Event)
    ensures RotationStep(r, p, r, p, ev)
  {}
}
