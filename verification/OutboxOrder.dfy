/** When the outbox in memory and the one on disk are the same sequence, and not
    only the same items. */
module OutboxOrder {
  import opened Wire
  import opened X3dh
  import opened Outbox
  import opened PrekeyStores
  import opened ClientSpec
  import opened ClientInvariant
  import opened ClientRuns
  import ClientKeys

  predicate Aligned(c: Client) { c.mem.outbox == c.disk.outbox }

  /** The event replaces a rotation that is not the last item: in place in memory, at
      the end on disk. */
  ghost predicate MovesCandidate(c: Client, ev: Event)
  {
    && ev.DoConfirmRotated? && ev.ok
    && var a, ring := RotationIndex(c.mem.outbox, ev.id), c.mem.core.spks;
       && a.Some? && a.value != |c.mem.outbox| - 1
       && !(ev.accepted && c.mem.outbox[a.value].keyId == ev.serverCurrent)
       && ring.current.Some? && ring.previous != [] && ReplacementKeyId(ring, ev.serverCurrent).Some?
       && !HasId(DeleteId(c.disk.outbox, ev.id), ev.newId)
  }

  lemma QueueingAligned(c: Client, log: set<PendingOutbound>, ev: Event)
    requires Aligned(c) && Permitted(c, log, ev) && Queues(ev)
    ensures Aligned(Step(c, log, ev).0)
  {
    hide AdvanceEncryption, HasCapacity, Replenished, Rotated, FirstIndex, HasId;
  }

  lemma OthersAligned(c: Client, log: set<PendingOutbound>, ev: Event)
    requires Aligned(c) && Permitted(c, log, ev)
    requires ev.DoInitSession? || ev.DoExpireStale? || ev.DoConfirmStored? || ev.DoRegister? || ev.DoDecrypt?
             || ev.Crash?
    ensures Aligned(Step(c, log, ev).0)
  {
    hide Receive, RegisteredCore, Pruned, CommittedRow, ClientKeys.NewPair, LogEnvelopes, AliceInitiate, LoadedCore;
    if ev.DoDecrypt? {
      ReceivingAligned(ev.peer, ev.id, ev.e, ev.newPair, ev.now, ev.ok);
    }
  }

  lemma ReceivingAligned(peer: UserId, id: Uuid, e: Envelope, newPair: Key32, now: nat, ok: bool)
    ensures forall c :: Aligned(c) ==> Aligned(Receive(c, peer, id, e, newPair, now, ok).0)
  {
    hide Opened;
  }

  lemma RetiredAligned(c: Client, core: Core, i: nat, ok: bool)
    requires Inv(c) && Aligned(c) && i < |c.mem.outbox|
    ensures Aligned(Retire(c, i, ok).0) && Aligned(RetireWithCore(c, core, i, ok).0)
    ensures DeleteId(c.disk.outbox, CorrelationId(c.mem.outbox[i])) == RemoveAt(c.mem.outbox, i)
  {
    DeleteIsRemove(c.mem.outbox, i);
    hide Inv;
  }

  lemma RetiringAligned(c: Client, log: set<PendingOutbound>, ev: Event)
    requires Inv(c) && Aligned(c) && Permitted(c, log, ev)
    requires ev.DoConfirmSent? || ev.DoConfirmReceiptSent? || ev.DoReject? || ev.DoConfirmAcked?
    ensures Aligned(Step(c, log, ev).0)
  {
    hide Inv, RemoveAt, DeleteId, WithoutIds;
    var out := c.mem.outbox;
    var i := match ev
             case DoConfirmSent(id, _) => MessageIndex(out, id)
             case DoReject(id, _) => MessageIndex(out, id)
             case DoConfirmReceiptSent(id, _) => ReceiptIndex(out, id)
             case DoConfirmAcked(id, _, _) => AckIndex(out, id);
    if i.Some? {
      var core := if ev.DoReject?
                  then c.mem.core.(sessions := c.mem.core.sessions - {out[i.value].recipient}) else c.mem.core;
      RetiredAligned(c, core, i.value, ev.ok);
    }
  }

  lemma ReplacingAligned(c: Client, i: nat, newId: Uuid, pairs: seq<Key32>, now: nat, ok: bool, okDelete: bool)
    requires Inv(c) && Aligned(c) && |pairs| == PREKEY_TARGET && i < |c.mem.outbox|
    ensures Aligned(ReplaceUpload(c, i, newId, pairs, now, ok, okDelete).0)
  {
    hide Inv, RemoveAt, InsertAt, DeleteId, Replenished, HasCapacity;
    var s, id := c.mem.outbox, CorrelationId(c.mem.outbox[i]);
    RetiredAligned(c, c.mem.core, i, ok);
    InsertUndoesRemove(s, i);
    assert HasId(s, id);
    if BatchFits(c.mem.core.opks) {
      var x := PrekeyUpload(newId, Batch(c.mem.core.opks, pairs));
      UploadKept(s, i, x);
      if newId != id {
        DeleteThenAppend(s, x, id);
      }
    }
  }

  lemma UploadingAligned(c: Client, log: set<PendingOutbound>, ev: Event)
    requires Inv(c) && Aligned(c) && Permitted(c, log, ev) && ev.DoConfirmUploaded?
    ensures Aligned(Step(c, log, ev).0)
  {
    var a := UploadIndex(c.mem.outbox, ev.id);
    if a.Some? {
      var core := c.mem.core.(opks := Without(c.mem.core.opks, UploadIds(c.mem.outbox[a.value])));
      RetiredAligned(c, core, a.value, ev.ok);
      ReplacingAligned(c, a.value, ev.newId, ev.pairs, ev.now, ev.ok, ev.okDelete);
    }
    hide Inv, Retire, RetireWithCore, ReplaceUpload;
  }

  /** Replacing in place and moving to the end agree only on the last item. */
  lemma ReplacedOrMoved(s: seq<PendingOutbound>, i: nat, x: PendingOutbound)
    requires UniqueIds(s) && i < |s| && !HasId(RemoveAt(s, i), CorrelationId(x))
    ensures s[i := x] == RemoveAt(s, i) + [x] <==> i == |s| - 1
  {
    if i < |s| - 1 {
      assert RemoveAt(s, i)[i] == s[i + 1];
      assert CorrelationId(RemoveAt(s, i)[i]) != CorrelationId(x);
      assert s[i := x][i] == x;
    }
  }

  lemma RotatedAligned(c: Client, log: set<PendingOutbound>, ev: Event)
    requires Inv(c) && Aligned(c) && Permitted(c, log, ev) && ev.DoConfirmRotated?
    ensures Aligned(Step(c, log, ev).0) <==> !MovesCandidate(c, ev)
  {
    var a, ring := RotationIndex(c.mem.outbox, ev.id), c.mem.core.spks;
    if a.Some? {
      RetiredAligned(c, c.mem.core.(spks := RotationConfirmed(ring)), a.value, ev.ok);
      if ring.previous != [] && ReplacementKeyId(ring, ev.serverCurrent).Some? {
        var x := SignedPrekeyRotation(ev.newId, ReplacementKeyId(ring, ev.serverCurrent).value, ev.pair);
        if !HasId(RemoveAt(c.mem.outbox, a.value), ev.newId) {
          ReplacedOrMoved(c.mem.outbox, a.value, x);
        }
      }
    }
    hide Inv, RemoveAt, DeleteId, RetireWithCore, Reconciled, RotationConfirmed, HasId;
  }

  /** One event, failed or not, keeps the two sequences equal if and only if it does
      not replace a rotation that has items behind it. */
  lemma StaysAligned(c: Client, log: set<PendingOutbound>, ev: Event)
    requires Inv(c) && Aligned(c) && Permitted(c, log, ev)
    ensures Aligned(Step(c, log, ev).0) <==> !MovesCandidate(c, ev)
  {
    hide Inv, Aligned, Step, Permitted;
    if ev.DoConfirmRotated? {
      RotatedAligned(c, log, ev);
    } else if ev.DoConfirmUploaded? {
      UploadingAligned(c, log, ev);
    } else if Queues(ev) {
      QueueingAligned(c, log, ev);
    } else if ev.DoConfirmSent? || ev.DoConfirmReceiptSent? || ev.DoReject? || ev.DoConfirmAcked? {
      RetiringAligned(c, log, ev);
    } else {
      OthersAligned(c, log, ev);
    }
  }
}
