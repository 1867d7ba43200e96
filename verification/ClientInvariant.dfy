/** After every operation, successful or not, the durable tables reproduce the
    memory, and the signed-prekey ring and one-time prekeys are well formed. */
module ClientInvariant {
  import opened Wire
  import opened KeyAlgebra
  import opened X3dh
  import opened Outbox
  import opened PrekeyStores
  import opened ClientSpec

  predicate HasRotation(items: seq<PendingOutbound>)
  {
    exists x :: x in items && x.SignedPrekeyRotation?
  }

  /** At most one rotation is pending, for the ring's current key. */
  ghost predicate RotationOk(ring: SpkRing, items: seq<PendingOutbound>)
  {
    && (forall x, y :: x in items && y in items && x.SignedPrekeyRotation? && y.SignedPrekeyRotation? ==> x == y)
    && (forall x :: x in items && x.SignedPrekeyRotation? ==> ring.current == Some(SignedPrekey(x.keyId, x.publicKey)))
    && RingOk(ring, HasRotation(items))
  }

  ghost predicate CoreSaved(c: Client)
  {
    c.disk.core == Some(c.mem.core) || (c.disk.core.None? && c.mem.core == LoadedCore(c.disk, 0))
  }

  ghost predicate Inv(c: Client)
  {
    && CoreSaved(c)
    && SameOutbox(c.mem.outbox, c.disk.outbox)
    && c.mem.processed == c.disk.processed
    && OpksOk(c.mem.core.opks)
    && RotationOk(c.mem.core.spks, c.mem.outbox)
  }

  /** A client that has just been installed. */
  function Fresh(identity: Key32): (c: Client)
  {
    Client(identity,
           Memory(Core(map[], SpkRing(None, [], 0, 0), OpkStore(map[], map[], LEGACY_PREKEY_ID_FLOOR)), [], map[]),
           Disk(None, [], map[]))
  }

  lemma FreshOk(identity: Key32)
    ensures Inv(Fresh(identity))
  {}

  // -- Rotation items under list changes ---------------------------------------

  lemma RotationSameItems(ring: SpkRing, a: seq<PendingOutbound>, b: seq<PendingOutbound>)
    requires RotationOk(ring, a) && multiset(a) == multiset(b)
    ensures RotationOk(ring, b)
  {
    forall x
      ensures x in a <==> x in b
    {
      assert x in multiset(a) <==> x in a;
      assert x in multiset(b) <==> x in b;
    }
  }

  lemma RemovedItems(s: seq<PendingOutbound>, i: nat, x: PendingOutbound)
    requires UniqueIds(s) && i < |s|
    ensures x in RemoveAt(s, i) <==> x in s && x != s[i]
  {
    var r := RemoveAt(s, i);
    if x in r {
      var k :| 0 <= k < |r| && r[k] == x;
      assert x == s[if k < i then k else k + 1];
    }
    if x in s && x != s[i] {
      var k :| 0 <= k < |s| && s[k] == x;
      assert r[if k < i then k else k - 1] == x;
    }
  }

  lemma RotationAfterRemove(ring: SpkRing, s: seq<PendingOutbound>, i: nat)
    requires UniqueIds(s) && i < |s| && RotationOk(ring, s) && !s[i].SignedPrekeyRotation?
    ensures RotationOk(ring, RemoveAt(s, i))
  {
    forall x
      ensures x in RemoveAt(s, i) <==> x in s && x != s[i]
    {
      RemovedItems(s, i, x);
    }
  }

  lemma RotationSettled(ring: SpkRing, s: seq<PendingOutbound>, i: nat)
    requires UniqueIds(s) && i < |s| && RotationOk(ring, s) && s[i].SignedPrekeyRotation?
    ensures RotationOk(RotationConfirmed(ring), RemoveAt(s, i))
  {
    forall x
      ensures x in RemoveAt(s, i) <==> x in s && x != s[i]
    {
      RemovedItems(s, i, x);
    }
    assert s[i] in s;
    ConfirmedKeepsRing(ring);
    assert !HasRotation(RemoveAt(s, i));
  }

  lemma RotationAfterAppend(ring: SpkRing, s: seq<PendingOutbound>, x: PendingOutbound)
    requires RotationOk(ring, s) && !x.SignedPrekeyRotation?
    ensures RotationOk(ring, s + [x])
  {
    assert HasRotation(s + [x]) <==> HasRotation(s) by {
      if HasRotation(s) {
        var y :| y in s && y.SignedPrekeyRotation?;
        assert y in s + [x];
      }
    }
  }

  lemma RotationStarts(ring: SpkRing, s: seq<PendingOutbound>, id: Uuid, pair: Key32, now: nat)
    requires RotationOk(ring, s) && !HasRotation(s) && ring.current.Some? && RotationKeyId(ring).Some?
    ensures RotationOk(Rotated(ring, pair, now), s + [SignedPrekeyRotation(id, RotationKeyId(ring).value, pair)])
  {
    var x := SignedPrekeyRotation(id, RotationKeyId(ring).value, pair);
    RotatedKeepsRing(ring, pair, now);
    assert x in s + [x];
    assert HasRotation(s + [x]);
  }

  lemma RotationReplaced(ring: SpkRing, s: seq<PendingOutbound>, i: nat, id: Uuid, serverCurrent: U32,
                         previouslyAccepted: bool, pair: Key32, now: nat)
    requires UniqueIds(s) && i < |s| && RotationOk(ring, s) && s[i].SignedPrekeyRotation?
    requires ring.previous != [] && ring.current.Some? && ReplacementKeyId(ring, serverCurrent).Some?
    ensures RotationOk(Reconciled(ring, serverCurrent, previouslyAccepted, pair, now),
                       s[i := SignedPrekeyRotation(id, ReplacementKeyId(ring, serverCurrent).value, pair)])
  {
    var x := SignedPrekeyRotation(id, ReplacementKeyId(ring, serverCurrent).value, pair);
    var t := s[i := x];
    assert s[i] in s;
    ReconciledKeepsRing(ring, serverCurrent, previouslyAccepted, pair, now);
    forall k | 0 <= k < |s| && k != i
      ensures !s[k].SignedPrekeyRotation?
    {
      assert s[k] in s && CorrelationId(s[k]) != CorrelationId(s[i]);
    }
    assert t[i] in t;
    assert HasRotation(t);
  }

  // -- The building blocks -----------------------------------------------------

  lemma Enqueued(c: Client, core: Core, item: PendingOutbound, ok: bool)
    requires Inv(c) && OpksOk(core.opks) && RotationOk(core.spks, c.mem.outbox + [item])
    ensures Inv(Enqueue(c, core, item, ok).0)
  {
    if Enqueue(c, core, item, ok).1.Success? {
      SameAfterAppend(c.mem.outbox, c.disk.outbox, item);
    }
  }

  lemma EnqueuedPlain(c: Client, core: Core, item: PendingOutbound, ok: bool)
    requires Inv(c) && OpksOk(core.opks) && core.spks == c.mem.core.spks && !item.SignedPrekeyRotation?
    ensures Inv(Enqueue(c, core, item, ok).0)
  {
    RotationAfterAppend(core.spks, c.mem.outbox, item);
    Enqueued(c, core, item, ok);
  }

  lemma Retired(c: Client, i: nat, ok: bool)
    requires Inv(c) && i < |c.mem.outbox| && !c.mem.outbox[i].SignedPrekeyRotation?
    ensures Inv(Retire(c, i, ok).0)
  {
    SameAfterDelete(c.mem.outbox, c.disk.outbox, i);
    RotationAfterRemove(c.mem.core.spks, c.mem.outbox, i);
  }

  lemma RetiredWithCore(c: Client, core: Core, i: nat, ok: bool)
    requires Inv(c) && i < |c.mem.outbox| && OpksOk(core.opks)
    requires RotationOk(core.spks, RemoveAt(c.mem.outbox, i))
    ensures Inv(RetireWithCore(c, core, i, ok).0)
  {
    SameAfterDelete(c.mem.outbox, c.disk.outbox, i);
  }

  // -- Operation by operation --------------------------------------------------

  lemma SendingKeeps(c: Client, peer: UserId, id: Uuid, plaintext: Bytes, ok: bool)
    requires Inv(c)
    ensures Inv(EncryptMessage(c, peer, id, plaintext, ok).0)
    ensures Inv(EncryptReadReceipt(c, peer, id, plaintext, ok).0)
  {
    var sealed := AdvanceEncryption(c.mem.core, c.identity, peer, plaintext);
    if sealed.Success? {
      EnqueuedPlain(c, sealed.value.0, Message(peer, id, sealed.value.1), ok);
      EnqueuedPlain(c, sealed.value.0, ReadReceipt(peer, id, sealed.value.1), ok);
    }
  }

  lemma AckingKeeps(c: Client, id: Uuid, ids: seq<Uuid>, ok: bool)
    requires Inv(c)
    ensures Inv(QueueAck(c, id, ids, ok).0) && Inv(QueueReceiptAck(c, id, ids, ok).0)
  {
    EnqueuedPlain(c, c.mem.core, Ack(id, ids), ok);
    EnqueuedPlain(c, c.mem.core, ReadReceiptAck(id, ids), ok);
  }

  lemma ConfirmingKeeps(c: Client, id: Uuid, ok: bool)
    requires Inv(c)
    ensures Inv(ConfirmMessageSent(c, id, ok).0) && Inv(ConfirmReceiptSent(c, id, ok).0)
  {
    var m := MessageIndex(c.mem.outbox, id);
    var r := ReceiptIndex(c.mem.outbox, id);
    if m.Some? { Retired(c, m.value, ok); }
    if r.Some? { Retired(c, r.value, ok); }
  }

  lemma RejectingKeeps(c: Client, id: Uuid, ok: bool)
    requires Inv(c)
    ensures Inv(RejectMessage(c, id, ok).0)
  {
    var m := MessageIndex(c.mem.outbox, id);
    if m.Some? {
      var i := m.value;
      var core := c.mem.core.(sessions := c.mem.core.sessions - {c.mem.outbox[i].recipient});
      RotationAfterRemove(core.spks, c.mem.outbox, i);
      RetiredWithCore(c, core, i, ok);
    }
  }

  lemma AckedKeeps(c: Client, ackId: Uuid, ids: seq<Uuid>, ok: bool)
    requires Inv(c)
    ensures Inv(ConfirmAcked(c, ackId, ids, ok).0)
  {
    var a := AckIndex(c.mem.outbox, ackId);
    if a.Some? {
      SameAfterDelete(c.mem.outbox, c.disk.outbox, a.value);
      RotationAfterRemove(c.mem.core.spks, c.mem.outbox, a.value);
    }
  }

  lemma SessionsKeep(c: Client, peer: UserId, bundle: Bundle, ephemeral: Key32, newPair: Key32, now: nat, ok: bool)
    requires Inv(c)
    ensures Inv(InitSession(c, peer, bundle, ephemeral, newPair, now, ok).0)
    ensures Inv(ExpireStaleSession(c, peer, now, ok).0)
  {}

  lemma StoredKeeps(c: Client, peer: UserId, id: Uuid, ok: bool)
    requires Inv(c)
    ensures Inv(ConfirmInboundStored(c, peer, id, ok).0)
  {}

  /** Registration leaves a well-formed client exactly when no rotation is pending,
      whose candidate it would replace, and the registered ID leaves room for a next
      one. The client registers only while it has no signed prekey at all. */
  lemma RegistrationKeeps(c: Client, spk: SignedPrekey, opks: map<U32, Key32>, now: nat, ok: bool)
    requires Inv(c)
    ensures Inv(PersistRegistration(c, spk, opks, now, ok).0)
            <==> !ok || (!HasRotation(c.mem.outbox) && spk.keyId + 1 < U32_LIMIT)
    ensures c.mem.core.spks.current.None? ==> !HasRotation(c.mem.outbox)
  {
    var c' := PersistRegistration(c, spk, opks, now, ok).0;
    if ok {
      assert Held(c'.mem.core.spks) == [spk];
      assert Held(c'.mem.core.spks)[0] == spk;
    }
  }

  lemma RotatingKeeps(c: Client, id: Uuid, pair: Key32, now: nat, ok: bool)
    requires Inv(c)
    ensures Inv(QueueRotation(c, id, pair, now, ok).0)
  {
    var ring := c.mem.core.spks;
    var a := AnyRotation(c.mem.outbox);
    if a.None? && ring.current.Some? && RotationKeyId(ring).Some? {
      assert !HasRotation(c.mem.outbox);
      RotationStarts(ring, c.mem.outbox, id, pair, now);
      Enqueued(c, c.mem.core.(spks := Rotated(ring, pair, now)),
               SignedPrekeyRotation(id, RotationKeyId(ring).value, pair), ok);
    }
  }

  lemma RotatedKeeps(c: Client, id: Uuid, accepted: bool, previouslyAccepted: bool, serverCurrent: U32,
                     newId: Uuid, pair: Key32, now: nat, ok: bool)
    requires Inv(c)
    ensures Inv(ConfirmRotated(c, id, accepted, previouslyAccepted, serverCurrent, newId, pair, now, ok).0)
  {
    var a := RotationIndex(c.mem.outbox, id);
    if a.Some? {
      var i, ring := a.value, c.mem.core.spks;
      if accepted && c.mem.outbox[i].keyId == serverCurrent {
        RotationSettled(ring, c.mem.outbox, i);
        RetiredWithCore(c, c.mem.core.(spks := RotationConfirmed(ring)), i, ok);
      } else if ring.previous != [] && ReplacementKeyId(ring, serverCurrent).Some? && ring.current.Some? {
        var item := SignedPrekeyRotation(newId, ReplacementKeyId(ring, serverCurrent).value, pair);
        RotationReplaced(ring, c.mem.outbox, i, newId, serverCurrent, previouslyAccepted, pair, now);
        if !HasId(DeleteId(c.disk.outbox, id), newId) {
          SameAfterReplace(c.mem.outbox, c.disk.outbox, i, item);
        }
      }
    }
  }

  lemma ReplenishingKeeps(c: Client, id: Uuid, pairs: seq<Key32>, now: nat, ok: bool)
    requires Inv(c) && |pairs| == PREKEY_TARGET
    ensures Inv(QueueReplenishment(c, id, pairs, now, ok).0)
  {
    if BatchFits(c.mem.core.opks) {
      ReplenishedKeepsOpks(c.mem.core.opks, pairs, now);
      EnqueuedPlain(c, c.mem.core.(opks := Replenished(c.mem.core.opks, pairs, now)),
                    PrekeyUpload(id, Batch(c.mem.core.opks, pairs)), ok);
    }
  }

  lemma {:induction false} DeleteThenAppend(s: seq<PendingOutbound>, x: PendingOutbound, id: Uuid)
    requires CorrelationId(x) != id
    ensures DeleteId(s + [x], id) == DeleteId(s, id) + [x]
  {
    if s == [] {
      assert s + [x] == [x];
    } else {
      assert (s + [x])[1..] == s[1..] + [x];
      DeleteThenAppend(s[1..], x, id);
    }
  }

  /** The replacement upload and the deletion of the old one, both committed. */
  lemma SwappedUpload(mem: seq<PendingOutbound>, disk: seq<PendingOutbound>, i: nat, x: PendingOutbound)
    requires SameOutbox(mem, disk) && i < |mem| && !HasId(disk, CorrelationId(x))
    ensures SameOutbox(RemoveAt(mem, i) + [x], DeleteId(disk + [x], CorrelationId(mem[i])))
  {
    var id := CorrelationId(mem[i]);
    assert HasId(mem, id);
    SameIds(mem, disk, id);
    SameIds(mem, disk, CorrelationId(x));
    SameAfterDelete(mem, disk, i);
    DeleteIsRemove(mem, i);
    DeleteThenAppend(disk, x, id);
    forall k | 0 <= k < |DeleteId(disk, id)|
      ensures CorrelationId(DeleteId(disk, id)[k]) != CorrelationId(x)
    {
      var j := DeleteFromWhere(disk, id, k);
    }
    SameAfterAppend(RemoveAt(mem, i), DeleteId(disk, id), x);
  }

  /** With its deletion refused, the replacement upload is simply one more item. */
  lemma UploadKept(mem: seq<PendingOutbound>, i: nat, x: PendingOutbound)
    requires i < |mem|
    ensures InsertAt(RemoveAt(mem, i) + [x], i, mem[i]) == mem + [x]
  {}

  lemma UploadedKeeps(c: Client, id: Uuid, accepted: bool, remaining: U32, newId: Uuid, pairs: seq<Key32>, now: nat,
                      ok: bool, okDelete: bool)
    requires Inv(c) && |pairs| == PREKEY_TARGET
    ensures Inv(ConfirmUploaded(c, id, accepted, remaining, newId, pairs, now, ok, okDelete).0)
  {
    var a := UploadIndex(c.mem.outbox, id);
    if a.Some? {
      var i, ring := a.value, c.mem.core.spks;
      RotationAfterRemove(ring, c.mem.outbox, i);
      if !accepted {
        RetiredWithCore(c, c.mem.core.(opks := Without(c.mem.core.opks, UploadIds(c.mem.outbox[i]))), i, ok);
      } else if remaining >= PREKEY_TARGET {
        Retired(c, i, ok);
      } else {
        ReplacedUploadKeeps(c, i, newId, pairs, now, ok, okDelete);
      }
    }
  }

  lemma ReplacedUploadKeeps(c: Client, i: nat, newId: Uuid, pairs: seq<Key32>, now: nat, ok: bool, okDelete: bool)
    requires Inv(c) && |pairs| == PREKEY_TARGET && i < |c.mem.outbox| && c.mem.outbox[i].PrekeyUpload?
    ensures Inv(ReplaceUpload(c, i, newId, pairs, now, ok, okDelete).0)
  {
    var s, d := c.mem.outbox, c.disk.outbox;
    var rest := RemoveAt(s, i);
    RotationAfterRemove(c.mem.core.spks, s, i);
    SameAfterDelete(s, d, i);
    hide SameOutbox;
    hide RotationOk;
    InsertUndoesRemove(s, i);
    var b := AnyUpload(rest);
    if b.None? && BatchFits(c.mem.core.opks) {
      var x := PrekeyUpload(newId, Batch(c.mem.core.opks, pairs));
      ReplenishedKeepsOpks(c.mem.core.opks, pairs, now);
      hide OpksOk;
      hide Replenished;
      UploadKept(s, i, x);
      RotationAfterAppend(c.mem.core.spks, rest, x);
      RotationAfterAppend(c.mem.core.spks, s, x);
      if !HasId(d, newId) {
        SameAfterAppend(s, d, x);
        SwappedUpload(s, d, i, x);
      }
    }
  }

  lemma OpenedKeepsPrekeys(core: Core, identity: Key32, peer: UserId, e: Envelope, newPair: Key32)
    requires OpksOk(core.opks) && Opened(core, identity, peer, e, newPair).Success?
    ensures Opened(core, identity, peer, e, newPair).value.0.spks == core.spks
    ensures OpksOk(Opened(core, identity, peer, e, newPair).value.0.opks)
  {}

  lemma DecryptingKeeps(c: Client, peer: UserId, id: Uuid, e: Envelope, newPair: Key32, now: nat, okPrune: bool,
                        ok: bool)
    requires Inv(c)
    ensures Inv(DecryptToText(c, peer, id, e, newPair, now, okPrune, ok).0)
  {
    hide SameOutbox;
    hide RotationOk;
    if Opened(c.mem.core, c.identity, peer, e, newPair).Success? {
      OpenedKeepsPrekeys(c.mem.core, c.identity, peer, e, newPair);
    }
    hide Opened;
    hide OpksOk;
    hide Pruned;
  }

  /** Start-up reads back exactly what memory held: the same core state, the
      unexpired ledger, the same outbox items, ciphertexts in the same order. */
  lemma ReloadReproduces(c: Client, now: nat)
    requires Inv(c)
    ensures Reload(c, now).mem.core == c.mem.core
    ensures Reload(c, now).mem.processed == Pruned(c.mem.processed, now)
    ensures SameOutbox(c.mem.outbox, Reload(c, now).mem.outbox)
    ensures Inv(Reload(c, now))
  {
    RotationSameItems(c.mem.core.spks, c.mem.outbox, c.disk.outbox);
    if c.disk.core.Some? {
      LoadedOpksIdentity(c.mem.core.opks, now);
      LoadedRingIdentity(c.mem.core.spks, HasRotation(c.mem.outbox));
    }
  }
}
