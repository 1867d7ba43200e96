/** What each event of the client can do to its one-time prekeys. */
module ClientPrekeys {
  import opened Wire
  import opened KeyAlgebra
  import opened X3dh
  import Ratchet
  import opened Outbox
  import opened PrekeyStores
  import opened ClientSpec
  import opened ClientInvariant
  import ClientKeys
  import opened ClientRuns
  import opened ClientItems

  /** Nothing; use one up; drop stale ones and add a batch; or drop those of a refused upload. */
  ghost predicate OpksStep(out: seq<PendingOutbound>, s: OpkStore, s': OpkStore, ev: Event)
  {
    || s' == s
    || (ev.DoDecrypt? && s' == Without(s, NamedIds(ev.e)))
    || (Renews(ev) && |ev.pairs| == PREKEY_TARGET && BatchFits(s) && s' == Replenished(s, ev.pairs, ev.now))
    || (Refuses(ev) && DropsUpload(out, s, s', ev.id))
  }

  predicate Renews(ev: Event) { ev.DoReplenish? || (ev.DoConfirmUploaded? && ev.accepted) }

  predicate Refuses(ev: Event) { ev.DoConfirmUploaded? && !ev.accepted }

  /** The one-time prekey a first message names. */
  function NamedIds(e: Envelope): (ids: set<U32>)
  {
    if e.header.PrekeyHeader? && e.header.oneTimePrekeyId.Some? then {e.header.oneTimePrekeyId.value} else {}
  }

  ghost predicate DropsUpload(out: seq<PendingOutbound>, s: OpkStore, s': OpkStore, id: Uuid)
  {
    exists x :: x in out && x.PrekeyUpload? && x.uploadId == id && s' == Without(s, UploadIds(x))
  }

  /** At most one upload was not queued before, and it names only keys just made. */
  ghost predicate NewHeld(before: seq<PendingOutbound>, after: seq<PendingOutbound>, s: OpkStore, s': OpkStore)
  {
    && (forall x :: x in after && x !in before && x.PrekeyUpload? ==> UploadIds(x) <= s'.keys.Keys - s.keys.Keys)
    && (forall x, y ::
          x in after && y in after && x !in before && y !in before && x.PrekeyUpload? && y.PrekeyUpload? ==> x == y)
  }

  ghost predicate PrekeyFlow(c: Client, c': Client, ev: Event)
  {
    && OpksStep(c.mem.outbox, c.mem.core.opks, c'.mem.core.opks, ev)
    && NewHeld(c.mem.outbox, c'.mem.outbox, c.mem.core.opks, c'.mem.core.opks)
  }

  lemma BatchHeld(s: OpkStore, pairs: seq<Key32>, id: Uuid, now: nat)
    requires |pairs| == PREKEY_TARGET && BatchFits(s) && OpksOk(s)
    ensures UploadIds(PrekeyUpload(id, Batch(s, pairs))) <= Replenished(s, pairs, now).keys.Keys - s.keys.Keys
  {
    forall k | k in UploadIds(PrekeyUpload(id, Batch(s, pairs)))
      ensures k in Replenished(s, pairs, now).keys && k !in s.keys
    {
      assert k in BatchIds(s);
    }
  }

  lemma ReplenishmentQueued(c: Client, id: Uuid, pairs: seq<Key32>, now: nat, ok: bool)
    requires |pairs| == PREKEY_TARGET
    ensures var c' := QueueReplenishment(c, id, pairs, now, ok).0; var s := c.mem.core.opks;
            || (c'.mem.core.opks == s && c'.mem.outbox == c.mem.outbox)
            || (BatchFits(s) && c'.mem.core.opks == Replenished(s, pairs, now)
                && c'.mem.outbox == c.mem.outbox + [PrekeyUpload(id, Batch(s, pairs))])
  {
    hide Replenished, Batch, HasCapacity;
  }

  lemma ReplenishOpks(c: Client, log: set<PendingOutbound>, ev: Event)
    requires Permitted(c, log, ev) && ev.DoReplenish? && OpksOk(c.mem.core.opks)
    ensures PrekeyFlow(c, Step(c, log, ev).0, ev)
  {
    hide OpksOk, QueueReplenishment, Replenished, Batch, UploadIds;
    ReplenishmentQueued(c, ev.id, ev.pairs, ev.now, ev.ok);
    if BatchFits(c.mem.core.opks) {
      BatchHeld(c.mem.core.opks, ev.pairs, ev.id, ev.now);
    }
  }

  lemma ReplaceOpks(c: Client, i: nat, ev: Event)
    requires ev.DoConfirmUploaded? && ev.accepted && |ev.pairs| == PREKEY_TARGET && i < |c.mem.outbox|
    requires OpksOk(c.mem.core.opks)
    ensures PrekeyFlow(c, ReplaceUpload(c, i, ev.newId, ev.pairs, ev.now, ev.ok, ev.okDelete).0, ev)
  {
    hide OpksOk, QueueReplenishment, Replenished, Batch, UploadIds, InsertAt, RemoveAt, DeleteId;
    var s, y := c.mem.core.opks, c.mem.outbox[i];
    var less := c.(mem := c.mem.(outbox := RemoveAt(c.mem.outbox, i)));
    var c1 := QueueReplenishment(less, ev.newId, ev.pairs, ev.now, ev.ok).0;
    StillThere(c.mem.outbox, i, y);
    ReplenishmentQueued(less, ev.newId, ev.pairs, ev.now, ev.ok);
    if BatchFits(s) {
      BatchHeld(s, ev.pairs, ev.newId, ev.now);
    }
    forall x
      ensures x in InsertAt(c1.mem.outbox, i, y) <==> x == y || x in c1.mem.outbox
      ensures x in less.mem.outbox ==> x in c.mem.outbox
    {
      InsertedItem(c1.mem.outbox, i, y, x);
      StillThere(c.mem.outbox, i, x);
    }
  }

  lemma StillThere(s: seq<PendingOutbound>, i: nat, x: PendingOutbound)
    requires i < |s|
    ensures |RemoveAt(s, i)| == |s| - 1
    ensures x in RemoveAt(s, i) ==> x in s
  {}

  lemma UploadOpks(c: Client, log: set<PendingOutbound>, ev: Event)
    requires Permitted(c, log, ev) && ev.DoConfirmUploaded? && OpksOk(c.mem.core.opks)
    ensures PrekeyFlow(c, Step(c, log, ev).0, ev)
  {
    hide OpksOk, Without, UploadIds, ReplaceUpload, RemoveAt, PrekeyFlow;
    var a := UploadIndex(c.mem.outbox, ev.id);
    if a.Some? {
      if ev.accepted && ev.remaining < PREKEY_TARGET {
        ReplaceOpks(c, a.value, ev);
      } else {
        RetireOpks(c, a.value, ev);
      }
    } else {
      SameOpks(c, ev);
    }
  }

  lemma SameOpks(c: Client, ev: Event)
    ensures PrekeyFlow(c, c, ev)
  {}

  lemma RetireOpks(c: Client, i: nat, ev: Event)
    requires ev.DoConfirmUploaded? && i < |c.mem.outbox|
    requires c.mem.outbox[i].PrekeyUpload? && c.mem.outbox[i].uploadId == ev.id
    ensures PrekeyFlow(c, Retire(c, i, ev.ok).0, ev)
    ensures !ev.accepted ==>
              var core := c.mem.core.(opks := Without(c.mem.core.opks, UploadIds(c.mem.outbox[i])));
              PrekeyFlow(c, RetireWithCore(c, core, i, ev.ok).0, ev)
  {
    hide Without, UploadIds, RemoveAt, DeleteId;
    assert c.mem.outbox[i] in c.mem.outbox;
    forall x
      ensures x in RemoveAt(c.mem.outbox, i) ==> x in c.mem.outbox
    {
      StillThere(c.mem.outbox, i, x);
    }
  }

  lemma SealingKeepsOpks(core: Core, identity: Key32, peer: UserId, plaintext: Bytes)
    ensures match AdvanceEncryption(core, identity, peer, plaintext)
            case Success(out) => out.0.opks == core.opks
            case Failure(_) => true
  {
    hide Ratchet.Encrypt, ContextBytes;
  }

  lemma QueueingOpks(c: Client, log: set<PendingOutbound>, ev: Event)
    requires Permitted(c, log, ev) && Queues(ev) && !ev.DoReplenish?
    ensures Step(c, log, ev).0.mem.core.opks == c.mem.core.opks
  {
    if ev.DoEncryptMessage? || ev.DoEncryptReceipt? {
      SealingKeepsOpks(c.mem.core, c.identity, ev.peer, ev.plaintext);
    }
    hide AdvanceEncryption, HasCapacity, FirstIndex, HasId;
  }

  lemma RetiringOpks(c: Client, log: set<PendingOutbound>, ev: Event)
    requires Permitted(c, log, ev)
    requires ev.DoConfirmSent? || ev.DoConfirmReceiptSent? || ev.DoReject? || ev.DoConfirmAcked? || ev.DoConfirmRotated?
    ensures Step(c, log, ev).0.mem.core.opks == c.mem.core.opks
  {
    hide HasId, WithoutIds, DeleteId, RemoveAt, FirstIndex, Reconciled, RotationConfirmed;
  }

  lemma OpenedOpks(core: Core, identity: Key32, peer: UserId, e: Envelope, newPair: Key32)
    ensures var o := Opened(core, identity, peer, e, newPair);
            o.Success? ==> o.value.0.opks == core.opks || o.value.0.opks == Without(core.opks, NamedIds(e))
  {
    hide ContextBytes, CreateBobSession, Without;
  }

  lemma ReceivingOpks(c: Client, peer: UserId, id: Uuid, e: Envelope, newPair: Key32, now: nat, ok: bool)
    ensures var s, s' := c.mem.core.opks, Receive(c, peer, id, e, newPair, now, ok).0.mem.core.opks;
            s' == s || s' == Without(s, NamedIds(e))
  {
    hide Opened, Without;
    OpenedOpks(c.mem.core, c.identity, peer, e, newPair);
  }

  lemma DecryptOpks(c: Client, log: set<PendingOutbound>, ev: Event)
    requires Permitted(c, log, ev) && ev.DoDecrypt?
    ensures OpksStep(c.mem.outbox, c.mem.core.opks, Step(c, log, ev).0.mem.core.opks, ev)
  {
    hide Receive, Without, NamedIds, ClientKeys.NewPair, LogEnvelopes;
    forall c1: Client
      ensures var s := c1.mem.core.opks;
              var s' := Receive(c1, ev.peer, ev.id, ev.e, ev.newPair, ev.now, ev.ok).0.mem.core.opks;
              s' == s || s' == Without(s, NamedIds(ev.e))
    {
      ReceivingOpks(c1, ev.peer, ev.id, ev.e, ev.newPair, ev.now, ev.ok);
    }
  }

  lemma SessionOpks(c: Client, log: set<PendingOutbound>, ev: Event)
    requires Permitted(c, log, ev) && (ev.DoInitSession? || ev.DoExpireStale? || ev.DoConfirmStored?)
    ensures Step(c, log, ev).0.mem.core.opks == c.mem.core.opks
  {
    hide Pruned, CommittedRow, AliceInitiate, ClientKeys.NewPair, LogEnvelopes;
  }

  lemma NoNewUploads(c: Client, log: set<PendingOutbound>, ev: Event)
    requires Inv(c) && Permitted(c, log, ev) && !ev.DoReplenish? && !ev.DoConfirmUploaded?
    ensures var c' := Step(c, log, ev).0; NewHeld(c.mem.outbox, c'.mem.outbox, c.mem.core.opks, c'.mem.core.opks)
  {
    hide Inv, Step, Permitted;
    StepFlow(c, log, ev);
  }

  /** Every event of a registered client, failed or not. */
  lemma OpksFlow(c: Client, log: set<PendingOutbound>, ev: Event)
    requires Inv(c) && Permitted(c, log, ev) && !ev.DoRegister?
    ensures PrekeyFlow(c, Step(c, log, ev).0, ev)
  {
    assert OpksOk(c.mem.core.opks);
    hide Inv, Step, Permitted, NewHeld, OpksOk;
    if ev.DoReplenish? {
      ReplenishOpks(c, log, ev);
    } else if ev.DoConfirmUploaded? {
      UploadOpks(c, log, ev);
    } else {
      NoNewUploads(c, log, ev);
      if ev.Crash? {
        CrashFlow(c, log, ev);
      } else if Queues(ev) {
        QueueingOpks(c, log, ev);
      } else if ev.DoDecrypt? {
        DecryptOpks(c, log, ev);
      } else if ev.DoInitSession? || ev.DoExpireStale? || ev.DoConfirmStored? {
        SessionOpks(c, log, ev);
      } else {
        RetiringOpks(c, log, ev);
      }
    }
  }
}
