/** What each event of the client can add to its outbox and take from it. */
module ClientItems {
  import opened Wire
  import opened KeyAlgebra
  import opened X3dh
  import Ratchet
  import opened Outbox
  import opened PrekeyStores
  import opened ClientSpec
  import opened ClientInvariant
  import ClientKeys
  import opened ClientRuns

  predicate Retires(ev: Event, x: PendingOutbound)
  {
    match ev
    case DoConfirmSent(id, ok) => ok && x.Message? && x.messageId == id
    case DoReject(id, ok) => ok && x.Message? && x.messageId == id
    case DoConfirmReceiptSent(id, _) => x.ReadReceipt? && x.receiptId == id
    case DoConfirmAcked(id, _, _) => (x.Ack? || x.ReadReceiptAck?) && x.ackId == id
    case DoConfirmRotated(_, _, _, _, _, _, _, _) => x.SignedPrekeyRotation?
    case DoConfirmUploaded(_, _, _, _, _, _, _, _) => x.PrekeyUpload?
    case _ => false
  }

  predicate Adds(ev: Event, x: PendingOutbound)
  {
    match ev
    case DoEncryptMessage(peer, id, _, _) => x.Message? && x.recipient == peer && x.messageId == id
    case DoEncryptReceipt(_, id, _, _) => x.ReadReceipt? && x.receiptId == id
    case DoQueueAck(id, ids, _) => x == Ack(id, ids)
    case DoQueueReceiptAck(id, ids, _) => x == ReadReceiptAck(id, ids)
    case DoQueueRotation(_, _, _, _) => x.SignedPrekeyRotation?
    case DoConfirmRotated(_, _, _, _, _, _, _, _) => x.SignedPrekeyRotation?
    case DoReplenish(_, _, _, _) => x.PrekeyUpload?
    case DoConfirmUploaded(_, _, _, _, _, _, _, _) => x.PrekeyUpload?
    case _ => false
  }

  ghost predicate Flow(ev: Event, before: seq<PendingOutbound>, after: seq<PendingOutbound>)
  {
    && (forall x :: x in before && !Retires(ev, x) ==> x in after)
    && (forall x :: x in after && x !in before ==> Adds(ev, x))
  }

  lemma OnDisk(c: Client)
    requires Inv(c)
    ensures forall x :: x in c.mem.outbox <==> x in c.disk.outbox
  {
    forall x
      ensures x in c.mem.outbox <==> x in c.disk.outbox
    {
      assert x in multiset(c.mem.outbox) <==> x in c.mem.outbox;
      assert x in multiset(c.disk.outbox) <==> x in c.disk.outbox;
    }
  }

  lemma Queued(ev: Event, c: Client, core: Core, item: PendingOutbound, ok: bool)
    requires Adds(ev, item)
    ensures Flow(ev, c.mem.outbox, Enqueue(c, core, item, ok).0.mem.outbox)
  {}

  lemma Removed(ev: Event, c: Client, core: Core, i: nat, ok: bool)
    requires Inv(c) && i < |c.mem.outbox| && Retires(ev, c.mem.outbox[i])
    ensures Flow(ev, c.mem.outbox, RemoveAt(c.mem.outbox, i))
    ensures Flow(ev, c.mem.outbox, Retire(c, i, ok).0.mem.outbox)
    ensures Flow(ev, c.mem.outbox, RetireWithCore(c, core, i, ok).0.mem.outbox)
  {
    forall x
      ensures x in RemoveAt(c.mem.outbox, i) <==> x in c.mem.outbox && x != c.mem.outbox[i]
    {
      RemovedItems(c.mem.outbox, i, x);
    }
    hide RemoveAt, Inv, Retires;
  }

  lemma SendingFlow(c: Client, log: set<PendingOutbound>, ev: Event)
    requires Permitted(c, log, ev)
    requires ev.DoEncryptMessage? || ev.DoEncryptReceipt? || ev.DoQueueAck? || ev.DoQueueReceiptAck?
    ensures Flow(ev, c.mem.outbox, Step(c, log, ev).0.mem.outbox)
  {
    match ev
    case DoEncryptMessage(peer, id, text, ok) =>
      var sealed := AdvanceEncryption(c.mem.core, c.identity, peer, text);
      if sealed.Success? { Queued(ev, c, sealed.value.0, Message(peer, id, sealed.value.1), ok); }
    case DoEncryptReceipt(peer, id, text, ok) =>
      var sealed := AdvanceEncryption(c.mem.core, c.identity, peer, text);
      if sealed.Success? { Queued(ev, c, sealed.value.0, ReadReceipt(peer, id, sealed.value.1), ok); }
    case DoQueueAck(id, ids, ok) => Queued(ev, c, c.mem.core, Ack(id, ids), ok);
    case DoQueueReceiptAck(id, ids, ok) => Queued(ev, c, c.mem.core, ReadReceiptAck(id, ids), ok);
    hide AdvanceEncryption, Enqueue, HasCapacity;
  }

  lemma ConfirmingFlow(c: Client, log: set<PendingOutbound>, ev: Event)
    requires Inv(c) && Permitted(c, log, ev)
    requires ev.DoConfirmSent? || ev.DoConfirmReceiptSent? || ev.DoReject? || ev.DoConfirmAcked?
    ensures Flow(ev, c.mem.outbox, Step(c, log, ev).0.mem.outbox)
  {
    hide Inv, Retire, RetireWithCore, RemoveAt, WithoutIds, DeleteId;
    match ev
    case DoConfirmSent(_, _) => RetiringMessage(c, log, ev);
    case DoReject(_, _) => RetiringMessage(c, log, ev);
    case DoConfirmReceiptSent(id, ok) =>
      var m := ReceiptIndex(c.mem.outbox, id);
      if m.Some? { Removed(ev, c, c.mem.core, m.value, ok); }
    case DoConfirmAcked(id, ids, ok) =>
      var m := AckIndex(c.mem.outbox, id);
      if m.Some? { Removed(ev, c, c.mem.core, m.value, ok); }
  }

  lemma RetiringMessage(c: Client, log: set<PendingOutbound>, ev: Event)
    requires Inv(c) && Permitted(c, log, ev) && (ev.DoConfirmSent? || ev.DoReject?)
    ensures Flow(ev, c.mem.outbox, Step(c, log, ev).0.mem.outbox)
  {
    hide Inv, RemoveAt, DeleteId;
    var m := MessageIndex(c.mem.outbox, ev.id);
    if m.Some? && ev.ok {
      var core := c.mem.core.(sessions := c.mem.core.sessions - {c.mem.outbox[m.value].recipient});
      Removed(ev, c, core, m.value, ev.ok);
    } else {
      assert Step(c, log, ev).0 == c;
    }
  }

  lemma RotatingFlow(c: Client, log: set<PendingOutbound>, ev: Event)
    requires Inv(c) && Permitted(c, log, ev) && (ev.DoQueueRotation? || ev.DoConfirmRotated?)
    ensures Flow(ev, c.mem.outbox, Step(c, log, ev).0.mem.outbox)
  {
    hide HasCapacity, Rotated, Reconciled, RotationConfirmed;
    if ev.DoConfirmRotated? {
      var a := RotationIndex(c.mem.outbox, ev.id);
      if a.Some? {
        var ring := c.mem.core.spks;
        Removed(ev, c, c.mem.core.(spks := RotationConfirmed(ring)), a.value, ev.ok);
        if ring.previous != [] && ReplacementKeyId(ring, ev.serverCurrent).Some? {
          Replaced(c.mem.outbox, a.value,
                   SignedPrekeyRotation(ev.newId, ReplacementKeyId(ring, ev.serverCurrent).value, ev.pair));
        }
      }
    }
    hide Inv, RetireWithCore, DeleteId;
  }

  lemma Replaced(s: seq<PendingOutbound>, i: nat, y: PendingOutbound)
    requires UniqueIds(s) && i < |s|
    ensures forall x :: x in s[i := y] <==> x == y || (x in s && x != s[i])
  {
    var t := s[i := y];
    assert t[i] == y;
    forall x | x in s && x != s[i]
      ensures x in t
    {
      var k :| 0 <= k < |s| && s[k] == x;
      assert t[k] == x;
    }
    forall x | x in t && x != y
      ensures x in s && x != s[i]
    {
      var k :| 0 <= k < |t| && t[k] == x;
      assert CorrelationId(s[k]) != CorrelationId(s[i]);
    }
  }

  lemma ReplenishingFlow(ev: Event, c: Client, id: Uuid, pairs: seq<Key32>, now: nat, ok: bool)
    requires |pairs| == PREKEY_TARGET && (ev.DoReplenish? || ev.DoConfirmUploaded?)
    ensures Flow(ev, c.mem.outbox, QueueReplenishment(c, id, pairs, now, ok).0.mem.outbox)
  {
    if BatchFits(c.mem.core.opks) {
      Queued(ev, c, c.mem.core.(opks := Replenished(c.mem.core.opks, pairs, now)),
             PrekeyUpload(id, Batch(c.mem.core.opks, pairs)), ok);
    }
    hide Replenished, Enqueue, HasCapacity;
  }

  lemma ReplacingFlow(c: Client, i: nat, ev: Event)
    requires Inv(c) && ev.DoConfirmUploaded? && |ev.pairs| == PREKEY_TARGET && i < |c.mem.outbox|
    requires c.mem.outbox[i].PrekeyUpload?
    ensures Flow(ev, c.mem.outbox, ReplaceUpload(c, i, ev.newId, ev.pairs, ev.now, ev.ok, ev.okDelete).0.mem.outbox)
  {
    hide QueueReplenishment;
    Removed(ev, c, c.mem.core, i, ev.ok);
    var less := c.(mem := c.mem.(outbox := RemoveAt(c.mem.outbox, i)));
    ReplenishingFlow(ev, less, ev.newId, ev.pairs, ev.now, ev.ok);
    var c1 := QueueReplenishment(less, ev.newId, ev.pairs, ev.now, ev.ok).0;
    hide Inv;
    forall x
      ensures x in InsertAt(c1.mem.outbox, i, c.mem.outbox[i]) <==> x == c.mem.outbox[i] || x in c1.mem.outbox
    {
      InsertedItem(c1.mem.outbox, i, c.mem.outbox[i], x);
    }
    hide RemoveAt, InsertAt;
  }

  lemma InsertedItem(s: seq<PendingOutbound>, i: nat, y: PendingOutbound, x: PendingOutbound)
    requires i <= |s|
    ensures x in InsertAt(s, i, y) <==> x == y || x in s
  {
    assert s == s[..i] + s[i..];
  }

  lemma UploadingFlow(c: Client, log: set<PendingOutbound>, ev: Event)
    requires Inv(c) && Permitted(c, log, ev) && ev.DoConfirmUploaded?
    ensures Flow(ev, c.mem.outbox, Step(c, log, ev).0.mem.outbox)
  {
    var a := UploadIndex(c.mem.outbox, ev.id);
    if a.Some? {
      var i := a.value;
      Removed(ev, c, c.mem.core.(opks := Without(c.mem.core.opks, UploadIds(c.mem.outbox[i]))), i, ev.ok);
      ReplacingFlow(c, i, ev);
    }
    hide Retire, RetireWithCore, ReplaceUpload, Inv;
  }

  lemma ReceivingFlow(peer: UserId, id: Uuid, e: Envelope, newPair: Key32, now: nat, ok: bool)
    ensures forall c :: Receive(c, peer, id, e, newPair, now, ok).0.mem.outbox == c.mem.outbox
    ensures forall c :: Receive(c, peer, id, e, newPair, now, ok).0.mem.core.spks == c.mem.core.spks
  {
    hide ContextBytes, CreateBobSession, Without;
  }

  lemma OtherFlow(c: Client, log: set<PendingOutbound>, ev: Event)
    requires Permitted(c, log, ev)
    requires ev.DoInitSession? || ev.DoExpireStale? || ev.DoConfirmStored? || ev.DoDecrypt? || ev.DoRegister?
    ensures Step(c, log, ev).0.mem.outbox == c.mem.outbox
    ensures !ev.DoRegister? ==> Step(c, log, ev).0.mem.core.spks == c.mem.core.spks
  {
    hide Pruned, CommittedRow, AliceInitiate, Receive, DerivedNext, ClientKeys.NewPair, LogEnvelopes;
    if ev.DoDecrypt? {
      ReceivingFlow(ev.peer, ev.id, ev.e, ev.newPair, ev.now, ev.ok);
    }
  }

  /** Every event of every client, failed or not: what the outbox gains and loses. */
  lemma StepFlow(c: Client, log: set<PendingOutbound>, ev: Event)
    requires Inv(c) && Permitted(c, log, ev)
    ensures Flow(ev, c.mem.outbox, Step(c, log, ev).0.mem.outbox)
  {
    hide Inv, Flow, Step, Permitted;
    match ev
    case DoEncryptMessage(_, _, _, _) => SendingFlow(c, log, ev);
    case DoEncryptReceipt(_, _, _, _) => SendingFlow(c, log, ev);
    case DoQueueAck(_, _, _) => SendingFlow(c, log, ev);
    case DoQueueReceiptAck(_, _, _) => SendingFlow(c, log, ev);
    case DoConfirmSent(_, _) => ConfirmingFlow(c, log, ev);
    case DoConfirmReceiptSent(_, _) => ConfirmingFlow(c, log, ev);
    case DoReject(_, _) => ConfirmingFlow(c, log, ev);
    case DoConfirmAcked(_, _, _) => ConfirmingFlow(c, log, ev);
    case DoQueueRotation(_, _, _, _) => RotatingFlow(c, log, ev);
    case DoConfirmRotated(_, _, _, _, _, _, _, _) => RotatingFlow(c, log, ev);
    case DoReplenish(id, pairs, now, ok) => QueueingFlow(c, log, ev);
    case DoConfirmUploaded(_, _, _, _, _, _, _, _) => UploadingFlow(c, log, ev);
    case Crash(now) => CrashFlow(c, log, ev);
    case _ =>
      OtherFlow(c, log, ev);
      SameFlow(ev, c.mem.outbox);
  }

  lemma CrashFlow(c: Client, log: set<PendingOutbound>, ev: Event)
    requires Inv(c) && Permitted(c, log, ev) && ev.Crash?
    ensures Flow(ev, c.mem.outbox, Step(c, log, ev).0.mem.outbox)
    ensures Step(c, log, ev).0.mem.core == c.mem.core
  {
    OnDisk(c);
    ReloadReproduces(c, ev.now);
    hide Inv, LoadedCore, Pruned;
  }

  lemma SameFlow(ev: Event, s: seq<PendingOutbound>)
    ensures Flow(ev, s, s)
  {}

  lemma QueueingFlow(c: Client, log: set<PendingOutbound>, ev: Event)
    requires Permitted(c, log, ev) && ev.DoReplenish?
    ensures Flow(ev, c.mem.outbox, Step(c, log, ev).0.mem.outbox)
  {
    hide QueueReplenishment, Flow;
    ReplenishingFlow(ev, c, ev.id, ev.pairs, ev.now, ev.ok);
  }

  lemma SealingKeepsRing(core: Core, identity: Key32, peer: UserId, plaintext: Bytes)
    ensures match AdvanceEncryption(core, identity, peer, plaintext)
            case Success(out) => out.0.spks == core.spks
            case Failure(_) => true
  {
    hide Ratchet.Encrypt, ContextBytes;
  }

  lemma QueueingKeepsRing(c: Client, log: set<PendingOutbound>, ev: Event)
    requires Permitted(c, log, ev) && Queues(ev) && !ev.DoQueueRotation?
    ensures Step(c, log, ev).0.mem.core.spks == c.mem.core.spks
  {
    if ev.DoEncryptMessage? || ev.DoEncryptReceipt? {
      SealingKeepsRing(c.mem.core, c.identity, ev.peer, ev.plaintext);
    }
    hide AdvanceEncryption, HasCapacity, Replenished, FirstIndex, HasId;
  }

  lemma RetiringKeepsRing(c: Client, log: set<PendingOutbound>, ev: Event)
    requires Permitted(c, log, ev)
    requires ev.DoConfirmSent? || ev.DoConfirmReceiptSent? || ev.DoReject? || ev.DoConfirmAcked?
    ensures Step(c, log, ev).0.mem.core.spks == c.mem.core.spks
  {
    hide HasId, WithoutIds, DeleteId, RemoveAt, FirstIndex;
  }

  lemma UploadKeepsRing(c: Client, log: set<PendingOutbound>, ev: Event)
    requires Permitted(c, log, ev) && ev.DoConfirmUploaded?
    ensures Step(c, log, ev).0.mem.core.spks == c.mem.core.spks
  {
    hide HasCapacity, Replenished, HasId, DeleteId, UploadIds, Without, Batch, FirstIndex;
  }

  /** Only registration and rotation change the signed-prekey ring. */
  lemma OthersKeepRing(c: Client, log: set<PendingOutbound>, ev: Event)
    requires Inv(c) && Permitted(c, log, ev) && !ev.DoRegister? && !ev.DoQueueRotation? && !ev.DoConfirmRotated?
    ensures Step(c, log, ev).0.mem.core.spks == c.mem.core.spks
  {
    hide Inv, Step, Permitted;
    if ev.Crash? {
      CrashFlow(c, log, ev);
    } else if Queues(ev) {
      QueueingKeepsRing(c, log, ev);
    } else if ev.DoInitSession? || ev.DoExpireStale? || ev.DoConfirmStored? || ev.DoDecrypt? {
      OtherFlow(c, log, ev);
    } else if ev.DoConfirmUploaded? {
      UploadKeepsRing(c, log, ev);
    } else {
      RetiringKeepsRing(c, log, ev);
    }
  }

  /** Every row of the later ledger stands in the earlier one. */
  ghost predicate Fewer(later: Ledger, earlier: Ledger)
  {
    forall k :: k in later ==> k in earlier && later[k] == earlier[k]
  }

  lemma QueueingKeepsLedger(c: Client, log: set<PendingOutbound>, ev: Event)
    requires Permitted(c, log, ev) && Queues(ev)
    ensures Step(c, log, ev).0.mem.processed == c.mem.processed
  {
    hide AdvanceEncryption, HasCapacity, Replenished, Rotated, FirstIndex, HasId;
  }

  lemma SessionsKeepLedger(c: Client, log: set<PendingOutbound>, ev: Event)
    requires Permitted(c, log, ev) && (ev.DoInitSession? || ev.DoExpireStale? || ev.DoRegister? || ev.DoConfirmRotated?)
    ensures Step(c, log, ev).0.mem.processed == c.mem.processed
  {
    hide AliceInitiate, DerivedNext, ClientKeys.NewPair, LogEnvelopes, Reconciled, RotationConfirmed, DeleteId, HasId;
  }

  lemma RetiringKeepsLedger(c: Client, log: set<PendingOutbound>, ev: Event)
    requires Permitted(c, log, ev)
    requires ev.DoConfirmSent? || ev.DoConfirmReceiptSent? || ev.DoReject? || ev.DoConfirmAcked?
    ensures Fewer(Step(c, log, ev).0.mem.processed, c.mem.processed)
  {
    hide HasId, DeleteId, RemoveAt, FirstIndex;
  }

  lemma UploadKeepsLedger(c: Client, log: set<PendingOutbound>, ev: Event)
    requires Permitted(c, log, ev) && ev.DoConfirmUploaded?
    ensures Step(c, log, ev).0.mem.processed == c.mem.processed
  {
    hide HasCapacity, Replenished, HasId, DeleteId, UploadIds, Without, Batch, FirstIndex;
  }

  /** Only receiving a message writes the ledger; other events can only shorten it. */
  lemma OthersShortenLedger(c: Client, log: set<PendingOutbound>, ev: Event)
    requires Inv(c) && Permitted(c, log, ev) && !ev.DoDecrypt? && !ev.DoConfirmStored?
    ensures Fewer(Step(c, log, ev).0.mem.processed, c.mem.processed)
  {
    hide Step, Permitted;
    if ev.Crash? {
      CrashShortens(c, log, ev);
    } else if Queues(ev) {
      QueueingKeepsLedger(c, log, ev);
    } else if ev.DoInitSession? || ev.DoExpireStale? || ev.DoRegister? || ev.DoConfirmRotated? {
      SessionsKeepLedger(c, log, ev);
    } else if ev.DoConfirmUploaded? {
      UploadKeepsLedger(c, log, ev);
    } else {
      RetiringKeepsLedger(c, log, ev);
    }
    hide Inv;
  }

  lemma CrashShortens(c: Client, log: set<PendingOutbound>, ev: Event)
    requires Inv(c) && Permitted(c, log, ev) && ev.Crash?
    ensures Fewer(Step(c, log, ev).0.mem.processed, c.mem.processed)
  {
    assert c.mem.processed == c.disk.processed;
    hide Inv, LoadedCore;
  }
}
