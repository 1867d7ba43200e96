/** What each event of the client does to one item of its outbox and to one session,
    exactly, and how it is answered. */
module ClientAnswers {
  import opened Wire
  import opened KeyAlgebra
  import opened X3dh
  import Ratchet
  import opened Outbox
  import opened PrekeyStores
  import opened ClientSpec
  import opened ClientInvariant
  import ClientKeys
  import opened ClientRuns
  import opened ClientItems
  import opened ClientSessions
  import opened LedgerLifetime
  import opened OutboxBytes
  import opened FirstMessages

  // -- Items -------------------------------------------------------------------------------

  /** There is an ID above the server's and above all of the client's own, and one after it. */
  predicate HasSuccessor(ring: SpkRing, serverCurrent: U32)
  {
    serverCurrent + 2 < U32_LIMIT && ring.nextId + 1 < U32_LIMIT
  }

  /** A replacement of the upload can be queued, or another upload waits already. */
  ghost predicate Renewable(c: Client, x: PendingOutbound, newId: Uuid, ok: bool)
  {
    || (exists y :: y in c.mem.outbox && y != x && y.PrekeyUpload?)
    || (ok && c.mem.core.opks.nextId + PREKEY_TARGET < U32_LIMIT && |c.mem.outbox| <= MAX_PENDING_OUTBOUND_ITEMS
        && TotalLength(c.mem.outbox) - CiphertextLength(x) + (PREKEY_TARGET * 48 + 18) / 3 * 4
           <= MAX_PENDING_OUTBOUND_BYTES
        && forall y :: y in c.mem.outbox ==> CorrelationId(y) != newId)
  }

  /** The event takes the item out of the outbox. */
  ghost predicate Leaves(c: Client, ev: Event, x: PendingOutbound)
  {
    match ev
    case DoConfirmSent(id, ok) => ok && x.Message? && x.messageId == id
    case DoReject(id, ok) => ok && x.Message? && x.messageId == id
    case DoConfirmReceiptSent(id, ok) => ok && x.ReadReceipt? && x.receiptId == id
    case DoConfirmAcked(id, ids, ok) => ok && IsAck(x, id, ids)
    case DoConfirmRotated(id, accepted, _, serverCurrent, newId, _, _, ok) =>
      ok && x.SignedPrekeyRotation? && x.rotationId == id
      && ((accepted && x.keyId == serverCurrent)
          || (HasSuccessor(c.mem.core.spks, serverCurrent)
              && forall y :: y in c.mem.outbox && y != x ==> CorrelationId(y) != newId))
    case DoConfirmUploaded(id, accepted, remaining, newId, _, _, ok, okDelete) =>
      x.PrekeyUpload? && x.uploadId == id
      && if accepted && remaining < PREKEY_TARGET then okDelete && Renewable(c, x, newId, ok) else ok
    case _ => false
  }

  lemma OnlyOne(c: Client, i: nat, x: PendingOutbound)
    requires Inv(c) && i < |c.mem.outbox| && x in c.mem.outbox && CorrelationId(x) == CorrelationId(c.mem.outbox[i])
    ensures x == c.mem.outbox[i]
  {
    var j :| 0 <= j < |c.mem.outbox| && c.mem.outbox[j] == x;
    hide Inv;
    Outboxed(c);
  }

  lemma RemovedOne(c: Client, i: nat)
    requires Inv(c) && i < |c.mem.outbox|
    ensures forall x :: x in RemoveAt(c.mem.outbox, i) <==> x in c.mem.outbox && x != c.mem.outbox[i]
  {
    hide Inv;
    Outboxed(c);
    forall x
      ensures x in RemoveAt(c.mem.outbox, i) <==> x in c.mem.outbox && x != c.mem.outbox[i]
    {
      RemovedItems(c.mem.outbox, i, x);
    }
  }

  lemma ConfirmedLeaves(c: Client, log: set<PendingOutbound>, ev: Event, x: PendingOutbound)
    requires Inv(c) && Permitted(c, log, ev) && x in c.mem.outbox
    requires ev.DoConfirmSent? || ev.DoReject? || ev.DoConfirmReceiptSent?
    ensures x in Step(c, log, ev).0.mem.outbox <==> !Leaves(c, ev, x)
  {
    hide Inv, DeleteId, RemoveAt;
    var out := c.mem.outbox;
    var i := match ev
             case DoConfirmSent(id, _) => MessageIndex(out, id)
             case DoReject(id, _) => MessageIndex(out, id)
             case DoConfirmReceiptSent(id, _) => ReceiptIndex(out, id);
    if i.Some? {
      RemovedOne(c, i.value);
      if Leaves(c, ev, x) {
        OnlyOne(c, i.value, x);
      }
    }
  }

  lemma AckedLeaves(c: Client, log: set<PendingOutbound>, ev: Event, x: PendingOutbound)
    requires Inv(c) && Permitted(c, log, ev) && x in c.mem.outbox && ev.DoConfirmAcked?
    ensures x in Step(c, log, ev).0.mem.outbox <==> !Leaves(c, ev, x)
  {
    hide Inv, DeleteId, RemoveAt, WithoutIds;
    var i := AckIndex(c.mem.outbox, ev.id);
    if i.Some? {
      RemovedOne(c, i.value);
      if IsAck(x, ev.id, ev.ids) {
        OnlyOne(c, i.value, x);
      }
    }
  }

  /** The pending rotation is for the ring's current key, which is below the next ID. */
  lemma PendingRing(c: Client, x: PendingOutbound)
    requires Inv(c) && x in c.mem.outbox && x.SignedPrekeyRotation?
    ensures var r := c.mem.core.spks;
            r.current.Some? && r.previous != [] && x.keyId < r.nextId && r.previous[0].keyId < r.nextId
  {
    var r := c.mem.core.spks;
    assert HasRotation(c.mem.outbox);
    assert Held(r)[0] == r.current.value && Held(r)[1] == r.previous[0];
  }

  lemma SuccessorExists(r: SpkRing, serverCurrent: U32)
    requires r.previous != [] && r.previous[0].keyId < r.nextId
    ensures ReplacementKeyId(r, serverCurrent).Some? <==> HasSuccessor(r, serverCurrent)
    ensures HasSuccessor(r, serverCurrent) ==> ReplacementKeyId(r, serverCurrent).value >= r.nextId
  {}

  /** The ID is free on disk once the item at `i` is deleted. */
  lemma FreeWithout(c: Client, i: nat, newId: Uuid)
    requires Inv(c) && i < |c.mem.outbox|
    ensures HasId(DeleteId(c.disk.outbox, CorrelationId(c.mem.outbox[i])), newId)
            <==> exists y :: y in c.mem.outbox && y != c.mem.outbox[i] && CorrelationId(y) == newId
  {
    var out, rest := c.mem.outbox, RemoveAt(c.mem.outbox, i);
    SameAfterDelete(out, c.disk.outbox, i);
    hide SameOutbox, DeleteId;
    SameIds(rest, DeleteId(c.disk.outbox, CorrelationId(out[i])), newId);
    RemovedOne(c, i);
    hide Inv, RemoveAt;
    if HasId(rest, newId) {
      var k :| 0 <= k < |rest| && CorrelationId(rest[k]) == newId;
      assert rest[k] in rest;
    }
    if y :| y in out && y != out[i] && CorrelationId(y) == newId {
      var k :| 0 <= k < |rest| && rest[k] == y;
    }
  }

  lemma ReplacedOne(c: Client, i: nat, y: PendingOutbound)
    requires Inv(c) && i < |c.mem.outbox| && y != c.mem.outbox[i]
    ensures forall x :: x in c.mem.outbox ==> (x in c.mem.outbox[i := y] <==> x != c.mem.outbox[i] || x == y)
  {
    var out := c.mem.outbox;
    Outboxed(c);
    hide Inv;
    forall x | x in out
      ensures x in out[i := y] <==> x != out[i] || x == y
    {
      var k :| 0 <= k < |out| && out[k] == x;
      if k != i {
        assert out[i := y][k] == x;
      }
    }
  }

  lemma RotatedLeaves(c: Client, log: set<PendingOutbound>, ev: Event, x: PendingOutbound)
    requires Inv(c) && Permitted(c, log, ev) && x in c.mem.outbox && ev.DoConfirmRotated?
    ensures x in Step(c, log, ev).0.mem.outbox <==> !Leaves(c, ev, x)
  {
    hide Inv, DeleteId, RemoveAt, HasId, Reconciled, RotationConfirmed, ReplacementKeyId, HasSuccessor;
    var out, ring, i := c.mem.outbox, c.mem.core.spks, RotationIndex(c.mem.outbox, ev.id);
    if i.Some? {
      var pending := out[i.value];
      RemovedOne(c, i.value);
      PendingRing(c, pending);
      SuccessorExists(ring, ev.serverCurrent);
      FreeWithout(c, i.value, ev.newId);
      if HasSuccessor(ring, ev.serverCurrent) {
        ReplacedOne(c, i.value,
                    SignedPrekeyRotation(ev.newId, ReplacementKeyId(ring, ev.serverCurrent).value, ev.pair));
      }
      if x.SignedPrekeyRotation? && x.rotationId == ev.id {
        OnlyOne(c, i.value, x);
      }
    }
  }

  // -- Uploads -------------------------------------------------------------------------------

  lemma RenewableWhen(c: Client, i: nat, newId: Uuid, ok: bool)
    requires Inv(c) && i < |c.mem.outbox|
    ensures
      var rest := RemoveAt(c.mem.outbox, i);
      Renewable(c, c.mem.outbox[i], newId, ok) <==>
        || AnyUpload(rest).Some?
        || (ok && BatchFits(c.mem.core.opks) && HasCapacity(rest, PREKEY_TARGET * 48) && !HasId(c.disk.outbox, newId))
  {
    hide Inv, CiphertextLength, TotalLength;
    var out, rest := c.mem.outbox, RemoveAt(c.mem.outbox, i);
    RemovedOne(c, i);
    TotalOfRemoved(out, i);
    OnDisk(c);
    var k := AnyUpload(rest);
    if k.Some? {
      assert rest[k.value] in rest;
    }
    if j :| 0 <= j < |c.disk.outbox| && CorrelationId(c.disk.outbox[j]) == newId {
      assert c.disk.outbox[j] in out;
    }
  }

  lemma UploadedLeaves(c: Client, log: set<PendingOutbound>, ev: Event, x: PendingOutbound)
    requires Inv(c) && Permitted(c, log, ev) && x in c.mem.outbox && ev.DoConfirmUploaded?
    ensures x in Step(c, log, ev).0.mem.outbox <==> !Leaves(c, ev, x)
  {
    hide Inv, DeleteId, RemoveAt, InsertAt, HasId, Replenished, Without, UploadIds, HasCapacity, Renewable, TotalLength;
    var out, i := c.mem.outbox, UploadIndex(c.mem.outbox, ev.id);
    if i.Some? {
      RemovedOne(c, i.value);
      RenewableWhen(c, i.value, ev.newId, ev.ok);
      InsertUndoesRemove(out, i.value);
      if BatchFits(c.mem.core.opks) {
        UploadKept(out, i.value, PrekeyUpload(ev.newId, Batch(c.mem.core.opks, ev.pairs)));
        FreshUpload(c, i.value, ev.newId);
      }
      if x.PrekeyUpload? && x.uploadId == ev.id {
        OnlyOne(c, i.value, x);
      }
    }
  }

  lemma FreshUpload(c: Client, i: nat, newId: Uuid)
    requires Inv(c) && i < |c.mem.outbox|
    ensures CorrelationId(c.mem.outbox[i]) == newId ==> HasId(c.disk.outbox, newId)
  {
    OnDisk(c);
    hide Inv;
    assert c.mem.outbox[i] in c.mem.outbox;
    var k :| 0 <= k < |c.disk.outbox| && c.disk.outbox[k] == c.mem.outbox[i];
  }

  /** For every event and every item of the outbox: it goes exactly when the event takes it. */
  lemma ItemLeavesExactly(c: Client, log: set<PendingOutbound>, ev: Event, x: PendingOutbound)
    requires Inv(c) && Permitted(c, log, ev) && x in c.mem.outbox
    ensures x in Step(c, log, ev).0.mem.outbox <==> !Leaves(c, ev, x)
  {
    hide Inv, Step, Permitted, Renewable;
    if ev.DoConfirmSent? || ev.DoReject? || ev.DoConfirmReceiptSent? {
      ConfirmedLeaves(c, log, ev, x);
    } else if ev.DoConfirmAcked? {
      AckedLeaves(c, log, ev, x);
    } else if ev.DoConfirmRotated? {
      RotatedLeaves(c, log, ev, x);
    } else if ev.DoConfirmUploaded? {
      UploadedLeaves(c, log, ev, x);
    } else {
      StepFlow(c, log, ev);
    }
  }

  // -- Sessions ------------------------------------------------------------------------------

  /** The event gives the session up: its first message was never sealed and its day is over,
      or a message to that peer is refused. */
  ghost predicate GivesUp(c: Client, ev: Event, p: UserId)
    requires p in c.mem.core.sessions
  {
    match ev
    case DoExpireStale(peer, now, ok) =>
      var s := c.mem.core.sessions[p];
      ok && peer == p && s.first.Some? && s.expiresAt.Some? && s.expiresAt.value < now
    case DoReject(id, ok) =>
      ok && exists x :: x in c.mem.outbox && x.Message? && x.messageId == id && x.recipient == p
    case _ => false
  }

  lemma RefusedSession(c: Client, log: set<PendingOutbound>, ev: Event, p: UserId)
    requires Inv(c) && Permitted(c, log, ev) && p in c.mem.core.sessions && ev.DoReject?
    ensures p in Step(c, log, ev).0.mem.core.sessions <==> !GivesUp(c, ev, p)
  {
    hide Inv, DeleteId, RemoveAt;
    var out, i := c.mem.outbox, MessageIndex(c.mem.outbox, ev.id);
    if i.Some? {
      assert out[i.value] in out;
      if x :| x in out && x.Message? && x.messageId == ev.id && x.recipient == p {
        OnlyOne(c, i.value, x);
      }
    }
  }

  lemma BegunSession(c: Client, log: set<PendingOutbound>, ev: Event, p: UserId)
    requires Permitted(c, log, ev) && p in c.mem.core.sessions
    requires ev.DoExpireStale? || ev.DoInitSession? || ev.DoRegister?
    ensures p in Step(c, log, ev).0.mem.core.sessions <==> !GivesUp(c, ev, p)
  {
    hide AliceInitiate, ClientKeys.NewPair, LogEnvelopes;
  }

  lemma UsedSession(c: Client, log: set<PendingOutbound>, ev: Event)
    requires Permitted(c, log, ev) && ((Seals(ev) && !Step(c, log, ev).1) || NewlyOpens(c, ev))
    ensures ev.peer in Step(c, log, ev).0.mem.core.sessions
  {
    hide Ratchet.Encrypt, Ratchet.Decrypt, ContextBytes, HasCapacity, HasId, FirstIndex, Pruned, ClientKeys.NewPair,
         LogEnvelopes, Without, CreateBobSession;
  }

  /** For every event and every session: it goes exactly when the event gives it up. */
  lemma SessionLeavesExactly(c: Client, log: set<PendingOutbound>, ev: Event, p: UserId)
    requires Inv(c) && Permitted(c, log, ev) && p in c.mem.core.sessions
    ensures p in Step(c, log, ev).0.mem.core.sessions <==> !GivesUp(c, ev, p)
  {
    hide Inv, Step, Permitted, DecryptToText;
    if ev.DoReject? {
      RefusedSession(c, log, ev, p);
    } else if ev.DoExpireStale? || ev.DoInitSession? || ev.DoRegister? {
      BegunSession(c, log, ev, p);
    } else if Seals(ev) && ev.peer == p {
      SealingSessions(c, log, ev, p);
      if !Step(c, log, ev).1 {
        UsedSession(c, log, ev);
      }
    } else if ev.DoDecrypt? && ev.peer == p && NewlyOpens(c, ev) {
      UsedSession(c, log, ev);
    } else {
      SessionsFlow(c, log, ev, p);
    }
  }

  /** A refusal is answered with the peer whose session went, if the message was waiting; the
      sessions with others are untouched, and so is everything if it was not or the store failed. */
  lemma RefusalAnswers(c: Client, id: Uuid, ok: bool)
    requires Inv(c)
    ensures
      var (c', r) := RejectMessage(c, id, ok);
      && (r == Success(None) <==> forall x :: x in c.mem.outbox && x.Message? ==> x.messageId != id)
      && (r.Failure? ==> !ok && r.error == Persistence)
      && (!(r.Success? && r.value.Some?) ==> c' == c)
      && (forall x :: x in c.mem.outbox && x.Message? && x.messageId == id && ok ==>
            && r == Success(Some(x.recipient))
            && (forall p :: p in c'.mem.core.sessions <==> p in c.mem.core.sessions && p != x.recipient)
            && (forall p :: p in c'.mem.core.sessions ==> c'.mem.core.sessions[p] == c.mem.core.sessions[p])
            && c'.disk.core == Some(c'.mem.core))
  {
    hide Inv, DeleteId, RemoveAt;
    var out, i := c.mem.outbox, MessageIndex(c.mem.outbox, id);
    if i.Some? {
      assert out[i.value] in out;
      forall x | x in out && x.Message? && x.messageId == id
        ensures x == out[i.value]
      {
        OnlyOne(c, i.value, x);
      }
    }
  }

  /** A session begins exactly when the bundle's signature holds and the store accepts it; it
      carries the header of the first message until a day later. */
  lemma BeginningAnswers(c: Client, peer: UserId, bundle: Bundle, ephemeral: Key32, newPair: Key32, now: nat, ok: bool)
    ensures
      var (c', r) := InitSession(c, peer, bundle, ephemeral, newPair, now, ok);
      && (r.Success? <==> AliceInitiate(c.identity, bundle, ephemeral).Success? && ok)
      && (r.Failure? ==> c' == c)
      && (r.Success? ==>
            && c'.mem.outbox == c.mem.outbox && c'.disk.core == Some(c'.mem.core)
            && peer in c'.mem.core.sessions
            && var s := c'.mem.core.sessions[peer];
               && s.first.Some? && s.first.value.ephemeral == ephemeral
               && s.first.value.signedPrekeyId == bundle.signedPrekeyId
               && (s.first.value.oneTimePrekeyId.Some? <==> bundle.oneTimePrekey.Some?)
               && (bundle.oneTimePrekey.Some? ==> s.first.value.oneTimePrekeyId.value == bundle.oneTimePrekey.value.0)
               && s.expiresAt == Some(now + DAY)
               && forall p :: p != peer ==>
                 && (p in c'.mem.core.sessions <==> p in c.mem.core.sessions)
                 && (p in c.mem.core.sessions ==> c'.mem.core.sessions[p] == c.mem.core.sessions[p]))
  {
    hide AliceInitiate;
  }

  /** Whether a session is given up as stale is what the caller hears. */
  lemma ExpiryAnswers(c: Client, peer: UserId, now: nat, ok: bool)
    ensures
      var (c', r) := ExpireStaleSession(c, peer, now, ok);
      && (r == Success(true) <==> peer in c.mem.core.sessions && GivesUp(c, DoExpireStale(peer, now, ok), peer))
      && (r != Success(true) ==> c' == c)
      && (r.Failure? ==> !ok && r.error == Persistence && peer in c.mem.core.sessions
                         && GivesUp(c, DoExpireStale(peer, now, true), peer))
  {}

  // -- Queueing and retiring -----------------------------------------------------------------

  /** There is room for one more item whose plaintext has this many bytes. */
  predicate Room(out: seq<PendingOutbound>, bytes: nat)
  {
    |out| < 1000 && TotalLength(out) + (bytes + 18) / 3 * 4 <= 64 * 1024 * 1024
  }

  /** No item has the ID. */
  ghost predicate Unused(out: seq<PendingOutbound>, id: Uuid)
  {
    forall x :: x in out ==> CorrelationId(x) != id
  }

  lemma UnusedOnDisk(c: Client, id: Uuid)
    requires Inv(c)
    ensures Unused(c.mem.outbox, id) <==> !HasId(c.disk.outbox, id)
  {
    SameIds(c.mem.outbox, c.disk.outbox, id);
    hide Inv;
    if i :| 0 <= i < |c.mem.outbox| && CorrelationId(c.mem.outbox[i]) == id {
      assert c.mem.outbox[i] in c.mem.outbox;
    }
  }

  /** The item is at the end of both outboxes, and is what the caller gets. */
  ghost predicate QueuedItem(c: Client, c': Client, r: Result<PendingOutbound, ClientError>, x: PendingOutbound)
  {
    r == Success(x) && c'.mem.outbox == c.mem.outbox + [x] && c'.disk.outbox == c.disk.outbox + [x]
    && c'.disk.core == Some(c'.mem.core) && c'.mem.processed == c.mem.processed
  }

  /** A message is refused in this order: a first message to the same peer waits, no room, no
      session, a spent ratchet, a failed save. Otherwise it is queued, as a first message
      exactly if the session's header was not spent, and spends it. */
  lemma SealingAnswers(c: Client, peer: UserId, id: Uuid, plaintext: Bytes, ok: bool)
    requires Inv(c)
    ensures
      var (c', r) := EncryptMessage(c, peer, id, plaintext, ok);
      var sealed := AdvanceEncryption(c.mem.core, c.identity, peer, plaintext);
      var waits := exists x :: x in c.mem.outbox && IsFirst(x) && x.recipient == peer;
      && (r.Failure? ==> c' == c)
      && (r == Failure(AwaitingPrekeyAdmission) <==> waits)
      && (r == Failure(OutboxFull) <==> !waits && !Room(c.mem.outbox, |plaintext|))
      && (!waits && Room(c.mem.outbox, |plaintext|) && sealed.Failure? ==> r == Failure(sealed.error))
      && (!waits && Room(c.mem.outbox, |plaintext|) && sealed.Success? ==>
            if ok && Unused(c.mem.outbox, id)
            then QueuedItem(c, c', r, Message(peer, id, sealed.value.1)) && c'.mem.core == sealed.value.0
            else r == Failure(Persistence))
  {
    SealingRefused(c.mem.core, c.identity, peer, plaintext);
    WaitsIsFound(c.mem.outbox, peer);
    UnusedOnDisk(c, id);
    hide Inv, AdvanceEncryption, HasId, TotalLength, Unused, FirstMessageTo;
  }

  /** What sealing does to the session it is for. */
  lemma SealingRefused(core: Core, identity: Key32, peer: UserId, plaintext: Bytes)
    ensures
      var r := AdvanceEncryption(core, identity, peer, plaintext);
      && (r == Failure(NoPeerSession) <==> peer !in core.sessions)
      && (r == Failure(RatchetFailed) <==>
            peer in core.sessions && (core.sessions[peer].ratchet.sendCount + 1 >= U32_LIMIT
                                      || core.sessions[peer].ratchet.sendingChainKey.None?))
      && (r.Failure? ==> r.error == NoPeerSession || r.error == RatchetFailed)
      && (r.Success? ==>
            var (core', e) := r.value;
            && peer in core'.sessions && core'.sessions[peer].first.None?
            && core'.sessions[peer].expiresAt
               == (if core.sessions[peer].first.Some? then None else core.sessions[peer].expiresAt)
            && e.version == 2 && e.header.PrekeyHeader? == core.sessions[peer].first.Some?
            && e.ciphertext.plaintext == plaintext)
  {
    hide ContextBytes;
  }

  /** A read receipt is refused in this order: too long, no room, no session, a spent ratchet,
      a failed save; a first message waiting does not hold it back. */
  lemma ReceiptAnswers(c: Client, peer: UserId, id: Uuid, plaintext: Bytes, ok: bool)
    requires Inv(c)
    ensures
      var (c', r) := EncryptReadReceipt(c, peer, id, plaintext, ok);
      var sealed := AdvanceEncryption(c.mem.core, c.identity, peer, plaintext);
      var fits := (|plaintext| + 18) / 3 * 4 <= 512 * 1024;
      && (r.Failure? ==> c' == c)
      && (!fits ==> r == Failure(RatchetFailed))
      && (fits && !Room(c.mem.outbox, |plaintext|) ==> r == Failure(OutboxFull))
      && (fits && Room(c.mem.outbox, |plaintext|) && sealed.Failure? ==> r == Failure(sealed.error))
      && (fits && Room(c.mem.outbox, |plaintext|) && sealed.Success? ==>
            if ok && Unused(c.mem.outbox, id)
            then QueuedItem(c, c', r, ReadReceipt(peer, id, sealed.value.1)) && c'.mem.core == sealed.value.0
            else r == Failure(Persistence))
  {
    UnusedOnDisk(c, id);
    hide Inv, AdvanceEncryption, HasId, TotalLength, Unused;
  }

  lemma AckAnswers(c: Client, id: Uuid, ids: seq<Uuid>, ok: bool)
    requires Inv(c)
    ensures
      var (c', r) := QueueAck(c, id, ids, ok);
      var (c'', r'') := QueueReceiptAck(c, id, ids, ok);
      && (r.Failure? ==> c' == c) && (r''.Failure? ==> c'' == c)
      && (!Room(c.mem.outbox, |ids| * 36) ==> r == r'' == Failure(OutboxFull))
      && (Room(c.mem.outbox, |ids| * 36) ==>
            if ok && Unused(c.mem.outbox, id)
            then && QueuedItem(c, c', r, Ack(id, ids)) && c'.mem.core == c.mem.core
                 && QueuedItem(c, c'', r'', ReadReceiptAck(id, ids)) && c''.mem.core == c.mem.core
            else r == r'' == Failure(Persistence))
  {
    UnusedOnDisk(c, id);
    hide Inv, HasId, TotalLength, Unused;
  }

  /** A confirmation fails exactly when the item waits and the store fails; then, or when
      nothing waits, nothing changes. */
  lemma ConfirmationAnswers(c: Client, id: Uuid, ids: seq<Uuid>, ok: bool)
    requires Inv(c)
    ensures
      var (c', r) := ConfirmMessageSent(c, id, ok);
      var waits := exists x :: x in c.mem.outbox && x.Message? && x.messageId == id;
      && r == (if waits && !ok then Failure(Persistence) else Success(()))
      && (!(waits && ok) ==> c' == c) && c'.mem.core == c.mem.core && c'.mem.processed == c.mem.processed
    ensures
      var (c', r) := ConfirmReceiptSent(c, id, ok);
      var waits := exists x :: x in c.mem.outbox && x.ReadReceipt? && x.receiptId == id;
      && r == (if waits && !ok then Failure(Persistence) else Success(()))
      && (!(waits && ok) ==> c' == c) && c'.mem.core == c.mem.core && c'.mem.processed == c.mem.processed
    ensures
      var (c', r) := ConfirmAcked(c, id, ids, ok);
      var waits := exists x :: x in c.mem.outbox && IsAck(x, id, ids);
      && r == (if waits && !ok then Failure(Persistence) else Success(()))
      && (!(waits && ok) ==> c' == c) && c'.mem.core == c.mem.core
  {
    AckFound(c, id, ids);
    hide Inv, DeleteId, RemoveAt, WithoutIds, AckIndex, AckedIds;
    var m, r := MessageIndex(c.mem.outbox, id), ReceiptIndex(c.mem.outbox, id);
    if m.Some? {
      assert c.mem.outbox[m.value] in c.mem.outbox;
    }
    if r.Some? {
      assert c.mem.outbox[r.value] in c.mem.outbox;
    }
  }

  /** Settling a row: its text goes on both sides, its time and all other rows stay. */
  lemma SettlingAnswers(c: Client, peer: UserId, id: Uuid, ok: bool)
    requires Inv(c)
    ensures
      var (c', r) := ConfirmInboundStored(c, peer, id, ok);
      var known := (peer, id) in c.mem.processed;
      && r == (if known && !ok then Failure(Persistence) else Success(()))
      && (!(known && ok) ==> c' == c)
      && c'.mem.core == c.mem.core && c'.mem.outbox == c.mem.outbox && c'.mem.processed == c'.disk.processed
      && c'.mem.processed.Keys == c.mem.processed.Keys
      && (forall k :: k in c'.mem.processed ==>
            c'.mem.processed[k].processedAt == c.mem.processed[k].processedAt
            && c'.mem.processed[k].pendingPlaintext
               == if ok && k == (peer, id) then None else c.mem.processed[k].pendingPlaintext)
  {
    assert c.mem.processed == c.disk.processed;
    hide Inv;
  }

  // -- Receiving -----------------------------------------------------------------------------

  /** The rows of the ledger that are at most 31 days old. */
  ghost function Recent(l: Ledger, now: nat): (ks: set<Key>)
  {
    set k: Key | k in l && now <= l[k].processedAt + 31 * DAY
  }

  lemma RecentIsKept(l: Ledger, now: nat)
    ensures Pruned(l, now).Keys == Recent(l, now) && |Pruned(l, now)| == |Recent(l, now)|
  {
    assert Pruned(l, now).Keys == Recent(l, now);
    assert |Pruned(l, now)| == |Pruned(l, now).Keys|;
  }

  /** An envelope under an ID that is not known is refused in this order: its version, the
      ledger cannot be pruned, the ledger is full, it does not open, a failed save. */
  lemma OpeningAnswers(c: Client, peer: UserId, id: Uuid, e: Envelope, newPair: Key32, now: nat, okPrune: bool,
                       ok: bool)
    requires Inv(c) && (peer, id) !in c.mem.processed
    ensures
      var (c', r) := DecryptWithMarker(c, peer, id, e, newPair, now, okPrune, ok);
      var full := |Recent(c.mem.processed, now)| >= 10_000;
      var o := Opened(c.mem.core, c.identity, peer, e, newPair);
      && (r == Failure(UnsupportedVersion) <==> e.version != 2)
      && (e.version == 2 && !okPrune ==> r == Failure(Persistence) && c' == c)
      && (e.version == 2 && okPrune && full ==> r == Failure(ReplayLedgerFull))
      && (e.version == 2 && okPrune && !full && o.Failure? ==> r == Failure(o.error))
      && (e.version == 2 && okPrune && !full && o.Success? ==>
            if !ok then r == Failure(Persistence)
            else && r == Success(o.value.1) && c'.mem.core == o.value.0 && c'.disk.core == Some(o.value.0)
                 && c'.mem.outbox == c.mem.outbox && c'.mem.processed == c'.disk.processed
                 && c'.mem.processed.Keys == Recent(c.mem.processed, now) + {(peer, id)}
                 && c'.mem.processed[(peer, id)] == Processed(Some(o.value.1), now))
  {
    assert c.mem.processed == c.disk.processed;
    hide Inv, Opened;
    RecentIsKept(c.mem.processed, now);
    hide Recent, Pruned;
  }

  /** A private half of the signed prekey is held under this ID. */
  ghost predicate Holds(core: Core, id: U32) { exists k :: k in Held(core.spks) && k.keyId == id }

  lemma {:induction false} HoldsIsFound(keys: seq<SignedPrekey>, id: U32)
    ensures FindSpk(keys, id).Some? <==> exists k :: k in keys && k.keyId == id
  {
    if keys != [] {
      HoldsIsFound(keys[1..], id);
      assert keys[0] in keys;
      if k :| k in keys && k.keyId == id {
        assert k == keys[0] || k in keys[1..];
      }
    }
  }

  /** An envelope from a peer without a session must name private halves that are held; the
      session it starts is the responder's, and the one-time prekey it names is used up. */
  lemma FirstOpeningAnswers(core: Core, identity: Key32, peer: UserId, e: Envelope, newPair: Key32)
    requires peer !in core.sessions
    ensures
      var o := Opened(core, identity, peer, e, newPair);
      && (o == Failure(NoPeerSession) <==> e.header.PlainHeader?)
      && (e.header.PrekeyHeader? ==>
            var named := e.header.oneTimePrekeyId;
            && (o == Failure(BadEnvelope) <==>
                  !Holds(core, e.header.signedPrekeyId) || (named.Some? && named.value !in core.opks.keys))
            && (o.Failure? ==> o.error == BadEnvelope || o.error == DecryptFailed)
            && (o.Success? ==>
                  var core' := o.value.0;
                  && peer in core'.sessions && core'.sessions[peer].first.None? && core'.sessions[peer].expiresAt.None?
                  && core'.spks == core.spks && core'.opks.nextId == core.opks.nextId
                  && (forall k :: k in core'.opks.keys <==> k in core.opks.keys && named != Some(k))
                  && (forall k :: k in core'.opks.keys ==> core'.opks.keys[k] == core.opks.keys[k])))
  {
    if e.header.PrekeyHeader? {
      HoldsIsFound(Held(core.spks), e.header.signedPrekeyId);
    }
    hide Ratchet.Decrypt, ContextBytes, BobRespond, FindSpk, Held;
  }

  /** With a session, only its ratchet moves. */
  lemma LaterOpeningAnswers(core: Core, identity: Key32, peer: UserId, e: Envelope, newPair: Key32)
    requires peer in core.sessions
    ensures
      var o := Opened(core, identity, peer, e, newPair);
      var s := core.sessions[peer];
      var (ratchet, text) := Ratchet.Decrypt(s.ratchet, e.header.ratchet, e.ciphertext, EnvelopeAad(e), newPair);
      && (text.Failure? ==> o == Failure(DecryptFailed))
      && (text.Success? ==>
            o.Success? && o.value.1 == text.value && o.value.0.opks == core.opks && o.value.0.spks == core.spks
                            && o.value.0.sessions == core.sessions[peer := PeerSession(ratchet, s.first, s.expiresAt)])
  {
    hide Ratchet.Decrypt, ContextBytes;
  }
}
