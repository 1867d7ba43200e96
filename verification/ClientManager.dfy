/** The crypto manager as it is written: methods that change the fields first,
    then try the store, and put things back by hand when the store refuses. Each
    is proved to do exactly what its all-or-nothing specification says. */
module ClientManager {
  import opened Wire
  import opened KeyAlgebra
  import opened X3dh
  import opened Ratchet
  import opened Outbox
  import opened PrekeyStores
  import Spec = ClientSpec
  import opened ClientSpec
  import Invariant = ClientInvariant

  /** The three tables. Every method is one transaction: it commits, or leaves the
      tables untouched and reports failure. */
  class CryptoStore {
    var core: Option<Core>
    var outbox: seq<PendingOutbound>
    var processed: Ledger

    constructor ()
      ensures View() == Disk(None, [], map[])
    {
      core, outbox, processed := None, [], map[];
    }

    function View(): (d: Disk)
      reads this
    {
      Disk(core, outbox, processed)
    }

    method SaveCoreState(newCore: Core, ok: bool) returns (committed: bool)
      modifies this
      ensures committed == Spec.SaveCore(old(View()), newCore, ok).Some?
      ensures View() == if committed then Spec.SaveCore(old(View()), newCore, ok).value else old(View())
    {
      if ok {
        core := Some(newCore);
      }
      committed := ok;
    }

    method SaveCoreAndEnqueue(newCore: Core, item: PendingOutbound, ok: bool) returns (committed: bool)
      modifies this
      ensures committed == Spec.SaveCoreAndEnqueue(old(View()), newCore, item, ok).Some?
      ensures View() == if committed then Spec.SaveCoreAndEnqueue(old(View()), newCore, item, ok).value else old(View())
    {
      var before := core;
      core := Some(newCore);
      if !ok || HasId(outbox, CorrelationId(item)) {
        core := before;
        return false;
      }
      outbox := outbox + [item];
      return true;
    }

    method DeleteOutbound(id: Uuid, ok: bool) returns (committed: bool)
      modifies this
      ensures committed == Spec.DeleteOutbound(old(View()), id, ok).Some?
      ensures View() == if committed then Spec.DeleteOutbound(old(View()), id, ok).value else old(View())
    {
      if ok {
        outbox := DeleteId(outbox, id);
      }
      committed := ok;
    }

    method SaveCoreAndDelete(newCore: Core, id: Uuid, ok: bool) returns (committed: bool)
      modifies this
      ensures committed == Spec.SaveCoreAndDelete(old(View()), newCore, id, ok).Some?
      ensures View() == if committed then Spec.SaveCoreAndDelete(old(View()), newCore, id, ok).value else old(View())
    {
      var before := core;
      core := Some(newCore);
      if !ok {
        core := before;
        return false;
      }
      outbox := DeleteId(outbox, id);
      return true;
    }

    method SaveCoreAndReplace(newCore: Core, oldId: Uuid, item: PendingOutbound, ok: bool) returns (committed: bool)
      modifies this
      ensures committed == Spec.SaveCoreAndReplace(old(View()), newCore, oldId, item, ok).Some?
      ensures View() == if committed then Spec.SaveCoreAndReplace(old(View()), newCore, oldId, item, ok).value
                        else old(View())
    {
      var coreBefore, outboxBefore := core, outbox;
      core := Some(newCore);
      outbox := DeleteId(outbox, oldId);
      if !ok || HasId(outbox, CorrelationId(item)) {
        core, outbox := coreBefore, outboxBefore;
        return false;
      }
      outbox := outbox + [item];
      return true;
    }

    method SaveCoreAndProcessed(newCore: Core, key: (UserId, Uuid), row: Processed, ok: bool) returns (committed: bool)
      modifies this
      ensures committed == Spec.SaveCoreAndProcessed(old(View()), newCore, key, row, ok).Some?
      ensures View() == if committed then Spec.SaveCoreAndProcessed(old(View()), newCore, key, row, ok).value
                        else old(View())
    {
      var before := core;
      core := Some(newCore);
      if !ok || key in processed {
        core := before;
        return false;
      }
      processed := processed[key := row];
      return true;
    }

    method MarkCommitted(key: (UserId, Uuid), ok: bool) returns (committed: bool)
      modifies this
      ensures committed == ok
      ensures View() == if ok then old(View()).(processed := CommittedRow(old(processed), key)) else old(View())
    {
      if ok {
        processed := CommittedRow(processed, key);
      }
      committed := ok;
    }

    method ConfirmAck(ackId: Uuid, ids: seq<Uuid>, ok: bool) returns (committed: bool)
      modifies this
      ensures committed == ok
      ensures View() == if ok then old(View()).(outbox := DeleteId(old(outbox), ackId),
                                                processed := WithoutIds(old(processed), ids)) else old(View())
    {
      if !ok {
        return false;
      }
      outbox := DeleteId(outbox, ackId);
      var rows := processed;
      var i := 0;
      while i < |ids|
        modifies `processed
        invariant 0 <= i <= |ids|
        invariant processed == WithoutIds(rows, ids[..i])
      {
        processed := map k | k in processed && k.1 != ids[i] :: processed[k];
        assert ids[..i + 1] == ids[..i] + [ids[i]];
        i := i + 1;
      }
      assert ids[..i] == ids;
      return true;
    }

    method Prune(now: nat, ok: bool) returns (committed: bool)
      modifies this
      ensures committed == ok
      ensures View() == if ok then old(View()).(processed := Pruned(old(processed), now)) else old(View())
    {
      if ok {
        processed := Pruned(processed, now);
      }
      committed := ok;
    }
  }

  lemma DerivedNextUnique(ids: set<U32>, n: U32)
    requires forall k :: k in ids ==> SaturatingIncrement(k) <= n
    requires n == 0 || exists k :: k in ids && n == SaturatingIncrement(k)
    ensures n == DerivedNext(ids)
  {
    var m := DerivedNext(ids);
    if n != 0 {
      var k :| k in ids && n == SaturatingIncrement(k);
      assert n <= m;
    }
    if m != 0 {
      var k :| k in ids && m == SaturatingIncrement(k);
      assert m <= n;
    }
  }

  method NextAbove(ids: set<U32>) returns (n: U32)
    ensures n == DerivedNext(ids)
  {
    n := 0;
    var left := ids;
    while left != {}
      invariant left <= ids
      invariant forall k :: k in ids - left ==> SaturatingIncrement(k) <= n
      invariant n == 0 || exists k :: k in ids && n == SaturatingIncrement(k)
      decreases |left|
    {
      var k :| k in left;
      if n < SaturatingIncrement(k) {
        n := SaturatingIncrement(k);
      }
      left := left - {k};
    }
    DerivedNextUnique(ids, n);
  }

  class CryptoManager {
    const identity: Key32
    const store: CryptoStore
    var sessions: map<UserId, PeerSession>
    var spks: SpkRing
    var opks: OpkStore
    var pendingOutbound: seq<PendingOutbound>
    var processedMessages: Ledger

    constructor (identity: Key32, store: CryptoStore)
      requires store.View() == Disk(None, [], map[])
      ensures Value() == Invariant.Fresh(identity) && Valid() && this.store == store
    {
      this.identity, this.store := identity, store;
      sessions, spks := map[], SpkRing(None, [], 0, 0);
      opks := OpkStore(map[], map[], LEGACY_PREKEY_ID_FLOOR);
      pendingOutbound, processedMessages := [], map[];
      new;
      Invariant.FreshOk(identity);
    }

    function CoreState(): (c: Core)
      reads this
    {
      Core(sessions, spks, opks)
    }

    function Value(): (c: Client)
      reads this, store
    {
      Client(identity, Memory(CoreState(), pendingOutbound, processedMessages), store.View())
    }

    ghost predicate Valid()
      reads this, store
    {
      hide Invariant.Inv;
      Invariant.Inv(Value())
    }

    method InitSessionFromBundle(peer: UserId, bundle: Bundle, ephemeral: Key32, newPair: Key32, now: nat, ok: bool)
      returns (r: Result<(), ClientError>)
      requires Valid()
      modifies this, store
      ensures Valid() && (Value(), r) == Spec.InitSession(old(Value()), peer, bundle, ephemeral, newPair, now, ok)
    {
      hide Invariant.Inv;
      ghost var c := Value();
      Invariant.SessionsKeep(c, peer, bundle, ephemeral, newPair, now, ok);
      var secret := AliceInitiate(identity, bundle, ephemeral);
      if secret.Failure? {
        return Failure(X3dhFailed);
      }
      var opkId := match bundle.oneTimePrekey case Some(k) => Some(k.0) case None => None;
      var hadSession := peer in sessions;
      var previous := if hadSession then Some(sessions[peer]) else None;
      sessions := sessions[peer := PeerSession(InitializeAlice(secret.value, bundle.signedPrekey, newPair),
                                               Some(FirstHeader(ephemeral, bundle.signedPrekeyId, opkId)),
                                               Some(now + ONE_TIME_PREKEY_RESERVATION_SECS))];
      var saved := store.SaveCoreState(CoreState(), ok);
      if !saved {
        RestoreEntry(peer, previous);
        assert sessions == c.mem.core.sessions;
        return Failure(Persistence);
      }
      return Success(());
    }

    method RestoreEntry(peer: UserId, previous: Option<PeerSession>)
      modifies `sessions
      ensures sessions == if previous.Some? then old(sessions)[peer := previous.value] else old(sessions) - {peer}
    {
      if previous.Some? {
        sessions := sessions[peer := previous.value];
      } else {
        sessions := sessions - {peer};
      }
    }

    method ExpireStale(peer: UserId, now: nat, ok: bool) returns (r: Result<bool, ClientError>)
      requires Valid()
      modifies this, store
      ensures Valid() && (Value(), r) == ExpireStaleSession(old(Value()), peer, now, ok)
    {
      hide Invariant.Inv;
      ghost var c := Value();
      Invariant.SessionsKeep(c, peer, Bundle(0, 0, 0, Signature(0, 0), None), 0, 0, now, ok);
      if !Stale(CoreState(), peer, now) {
        return Success(false);
      }
      var previous := sessions[peer];
      sessions := sessions - {peer};
      var saved := store.SaveCoreState(CoreState(), ok);
      if !saved {
        sessions := sessions[peer := previous];
        assert sessions == c.mem.core.sessions;
        return Failure(Persistence);
      }
      return Success(true);
    }

    /** Moves the session on in place and hands back the original for the caller's undo. */
    method AdvanceSession(peer: UserId, plaintext: Bytes) returns (r: Result<(PeerSession, Envelope), ClientError>)
      modifies `sessions
      ensures match AdvanceEncryption(old(CoreState()), identity, peer, plaintext)
              case Success(out) => r.Success? && CoreState() == out.0 && r.value.1 == out.1
                                   && peer in old(sessions) && r.value.0 == old(sessions)[peer]
              case Failure(e) => r == Failure(e) && sessions == old(sessions)
    {
      if peer !in sessions {
        return Failure(NoPeerSession);
      }
      var original := sessions[peer];
      var sealed := Encrypt(original.ratchet, plaintext, ContextBytes(SessionContext(identity, original)));
      if sealed.Failure? {
        return Failure(RatchetFailed);
      }
      var envelope := SealedEnvelope(identity, original, sealed.value.1);
      sessions := sessions[peer := PeerSession(sealed.value.0, None,
                                               if original.first.Some? then None else original.expiresAt)];
      return Success((original, envelope));
    }

    /** Push, persist, and on failure pop. */
    method PersistNew(item: PendingOutbound, ok: bool) returns (committed: bool)
      modifies `pendingOutbound, store
      ensures committed == Spec.SaveCoreAndEnqueue(old(store.View()), CoreState(), item, ok).Some?
      ensures committed ==> pendingOutbound == old(pendingOutbound) + [item]
                            && store.View() == Spec.SaveCoreAndEnqueue(old(store.View()), CoreState(), item, ok).value
      ensures !committed ==> pendingOutbound == old(pendingOutbound) && store.View() == old(store.View())
    {
      pendingOutbound := pendingOutbound + [item];
      committed := store.SaveCoreAndEnqueue(CoreState(), item, ok);
      if !committed {
        pendingOutbound := pendingOutbound[..|pendingOutbound| - 1];
      }
    }

    method EncryptMessage(peer: UserId, id: Uuid, plaintext: Bytes, ok: bool)
      returns (r: Result<PendingOutbound, ClientError>)
      requires Valid()
      modifies this, store
      ensures Valid() && (Value(), r) == Spec.EncryptMessage(old(Value()), peer, id, plaintext, ok)
    {
      hide Invariant.Inv;
      ghost var c := Value();
      Invariant.SendingKeeps(c, peer, id, plaintext, ok);
      if FirstMessageTo(pendingOutbound, peer).Some? {
        return Failure(AwaitingPrekeyAdmission);
      }
      if !HasCapacity(pendingOutbound, |plaintext|) {
        return Failure(OutboxFull);
      }
      var sealed := AdvanceSession(peer, plaintext);
      if sealed.Failure? {
        return Failure(sealed.error);
      }
      var item := Message(peer, id, sealed.value.1);
      var saved := PersistNew(item, ok);
      if !saved {
        sessions := sessions[peer := sealed.value.0];
        assert sessions == c.mem.core.sessions;
        return Failure(Persistence);
      }
      return Success(item);
    }

    method EncryptReadReceipt(peer: UserId, id: Uuid, plaintext: Bytes, ok: bool)
      returns (r: Result<PendingOutbound, ClientError>)
      requires Valid()
      modifies this, store
      ensures Valid() && (Value(), r) == Spec.EncryptReadReceipt(old(Value()), peer, id, plaintext, ok)
    {
      hide Invariant.Inv;
      ghost var c := Value();
      Invariant.SendingKeeps(c, peer, id, plaintext, ok);
      if (|plaintext| + 18) / 3 * 4 > MAX_CIPHERTEXT_BYTES {
        return Failure(RatchetFailed);
      }
      if !HasCapacity(pendingOutbound, |plaintext|) {
        return Failure(OutboxFull);
      }
      var sealed := AdvanceSession(peer, plaintext);
      if sealed.Failure? {
        return Failure(sealed.error);
      }
      var item := ReadReceipt(peer, id, sealed.value.1);
      var saved := PersistNew(item, ok);
      if !saved {
        sessions := sessions[peer := sealed.value.0];
        assert sessions == c.mem.core.sessions;
        return Failure(Persistence);
      }
      return Success(item);
    }

    method QueueAck(id: Uuid, ids: seq<Uuid>, ok: bool) returns (r: Result<PendingOutbound, ClientError>)
      requires Valid()
      modifies this, store
      ensures Valid() && (Value(), r) == Spec.QueueAck(old(Value()), id, ids, ok)
    {
      hide Invariant.Inv;
      Invariant.AckingKeeps(Value(), id, ids, ok);
      if !HasCapacity(pendingOutbound, |ids| * 36) {
        return Failure(OutboxFull);
      }
      var item := Ack(id, ids);
      var saved := PersistNew(item, ok);
      return if saved then Success(item) else Failure(Persistence);
    }

    method QueueReceiptAck(id: Uuid, ids: seq<Uuid>, ok: bool) returns (r: Result<PendingOutbound, ClientError>)
      requires Valid()
      modifies this, store
      ensures Valid() && (Value(), r) == Spec.QueueReceiptAck(old(Value()), id, ids, ok)
    {
      hide Invariant.Inv;
      Invariant.AckingKeeps(Value(), id, ids, ok);
      if !HasCapacity(pendingOutbound, |ids| * 36) {
        return Failure(OutboxFull);
      }
      var item := ReadReceiptAck(id, ids);
      var saved := PersistNew(item, ok);
      return if saved then Success(item) else Failure(Persistence);
    }

    /** Remove, delete the row, and on failure insert at the same place. */
    method RetireAt(i: nat, ok: bool) returns (r: Result<(), ClientError>)
      requires i < |pendingOutbound|
      modifies this, store
      ensures (Value(), r) == Spec.Retire(old(Value()), i, ok)
    {
      var item := pendingOutbound[i];
      InsertUndoesRemove(pendingOutbound, i);
      pendingOutbound := RemoveAt(pendingOutbound, i);
      var deleted := store.DeleteOutbound(CorrelationId(item), ok);
      if !deleted {
        pendingOutbound := InsertAt(pendingOutbound, i, item);
        return Failure(Persistence);
      }
      return Success(());
    }

    method ConfirmMessageSent(id: Uuid, ok: bool) returns (r: Result<(), ClientError>)
      requires Valid()
      modifies this, store
      ensures Valid() && (Value(), r) == Spec.ConfirmMessageSent(old(Value()), id, ok)
    {
      hide Invariant.Inv;
      Invariant.ConfirmingKeeps(Value(), id, ok);
      var index := MessageIndex(pendingOutbound, id);
      if index.None? {
        return Success(());
      }
      r := RetireAt(index.value, ok);
    }

    method ConfirmReceiptSent(id: Uuid, ok: bool) returns (r: Result<(), ClientError>)
      requires Valid()
      modifies this, store
      ensures Valid() && (Value(), r) == Spec.ConfirmReceiptSent(old(Value()), id, ok)
    {
      hide Invariant.Inv;
      Invariant.ConfirmingKeeps(Value(), id, ok);
      var index := ReceiptIndex(pendingOutbound, id);
      if index.None? {
        return Success(());
      }
      r := RetireAt(index.value, ok);
    }

    method RejectMessage(id: Uuid, ok: bool) returns (r: Result<Option<UserId>, ClientError>)
      requires Valid()
      modifies this, store
      ensures Valid() && (Value(), r) == Spec.RejectMessage(old(Value()), id, ok)
    {
      hide Invariant.Inv;
      ghost var c := Value();
      Invariant.RejectingKeeps(c, id, ok);
      var index := MessageIndex(pendingOutbound, id);
      if index.None? {
        return Success(None);
      }
      var i := index.value;
      var item := pendingOutbound[i];
      var peer := item.recipient;
      var previous := if peer in sessions then Some(sessions[peer]) else None;
      InsertUndoesRemove(pendingOutbound, i);
      sessions := sessions - {peer};
      pendingOutbound := RemoveAt(pendingOutbound, i);
      var saved := store.SaveCoreAndDelete(CoreState(), id, ok);
      if !saved {
        RestoreEntry(peer, previous);
        assert sessions == c.mem.core.sessions;
        pendingOutbound := InsertAt(pendingOutbound, i, item);
        return Failure(Persistence);
      }
      return Success(Some(peer));
    }

    method ConfirmAcked(ackId: Uuid, ids: seq<Uuid>, ok: bool) returns (r: Result<(), ClientError>)
      requires Valid()
      modifies this, store
      ensures Valid() && (Value(), r) == Spec.ConfirmAcked(old(Value()), ackId, ids, ok)
    {
      hide Invariant.Inv;
      Invariant.AckedKeeps(Value(), ackId, ids, ok);
      var index := AckIndex(pendingOutbound, ackId);
      if index.None? {
        return Success(());
      }
      var i := index.value;
      var item := pendingOutbound[i];
      if AckedIds(item) != ids {
        return Success(());
      }
      var previous := processedMessages;
      InsertUndoesRemove(pendingOutbound, i);
      pendingOutbound := RemoveAt(pendingOutbound, i);
      processedMessages := WithoutIds(processedMessages, ids);
      var saved := store.ConfirmAck(ackId, ids, ok);
      if !saved {
        processedMessages := previous;
        pendingOutbound := InsertAt(pendingOutbound, i, item);
        return Failure(Persistence);
      }
      return Success(());
    }

    method ConfirmInboundStored(peer: UserId, id: Uuid, ok: bool) returns (r: Result<(), ClientError>)
      requires Valid()
      modifies this, store
      ensures Valid() && (Value(), r) == Spec.ConfirmInboundStored(old(Value()), peer, id, ok)
    {
      hide Invariant.Inv;
      Invariant.StoredKeeps(Value(), peer, id, ok);
      ghost var before := processedMessages;
      var key := (peer, id);
      if key !in processedMessages {
        return Success(());
      }
      var pending := processedMessages[key].pendingPlaintext;
      processedMessages := processedMessages[key := processedMessages[key].(pendingPlaintext := None)];
      var saved := store.MarkCommitted(key, ok);
      if !saved {
        processedMessages := processedMessages[key := processedMessages[key].(pendingPlaintext := pending)];
        assert processedMessages == before;
        return Failure(Persistence);
      }
      return Success(());
    }

    // -- Prekeys ---------------------------------------------------------------

    method PersistRegistrationKeys(spk: SignedPrekey, newOpks: map<U32, Key32>, now: nat, ok: bool)
      returns (r: Result<(), ClientError>)
      requires Valid()
      modifies this, store
      ensures (Value(), r) == Spec.PersistRegistration(old(Value()), spk, newOpks, now, ok)
      ensures Valid() <==> !ok || (!old(Invariant.HasRotation(pendingOutbound)) && spk.keyId + 1 < U32_LIMIT)
    {
      hide Invariant.Inv;
      Invariant.RegistrationKeeps(Value(), spk, newOpks, now, ok);
      var oldSpks, oldOpks := spks, opks;
      var next := NextAbove(newOpks.Keys);
      spks := SpkRing(Some(spk), [], now, SaturatingIncrement(spk.keyId));
      opks := OpkStore(newOpks, map k | k in newOpks :: now, Max(next, oldOpks.nextId));
      var saved := store.SaveCoreState(CoreState(), ok);
      if !saved {
        spks, opks := oldSpks, oldOpks;
        return Failure(Persistence);
      }
      return Success(());
    }

    method QueueSignedPrekeyRotation(id: Uuid, pair: Key32, now: nat, ok: bool) returns (r: Result<bool, ClientError>)
      requires Valid()
      modifies this, store
      ensures Valid() && (Value(), r) == Spec.QueueRotation(old(Value()), id, pair, now, ok)
    {
      hide Invariant.Inv;
      hide HasCapacity;
      hide AnyRotation;
      Invariant.RotatingKeeps(Value(), id, pair, now, ok);
      if AnyRotation(pendingOutbound).Some? || !RotationDue(spks, now) {
        return Success(false);
      }
      if spks.current.None? {
        return Failure(NoPeerSession);
      }
      var keyId := RotationKeyId(spks);
      if keyId.None? {
        return Failure(RatchetFailed);
      }
      if !HasCapacity(pendingOutbound, 96) {
        return Failure(OutboxFull);
      }
      var item := SignedPrekeyRotation(id, keyId.value, pair);
      var oldRotatedAt, oldNext := spks.rotatedAt, spks.nextId;
      spks := SpkRing(Some(SignedPrekey(keyId.value, pair)), [spks.current.value] + spks.previous, now,
                      keyId.value + 1);
      var saved := PersistNew(item, ok);
      if !saved {
        spks := SpkRing(Some(spks.previous[0]), spks.previous[1..], oldRotatedAt, oldNext);
        return Failure(Persistence);
      }
      return Success(true);
    }

    method ConfirmSignedPrekeyRotated(id: Uuid, accepted: bool, previouslyAccepted: bool, serverCurrent: U32,
                                      newId: Uuid, pair: Key32, now: nat, ok: bool)
      returns (r: Result<Option<PendingOutbound>, ClientError>)
      requires Valid()
      modifies this, store
      ensures Valid()
      ensures (Value(), r) == Spec.ConfirmRotated(old(Value()), id, accepted, previouslyAccepted, serverCurrent,
                                                  newId, pair, now, ok)
    {
      Invariant.RotatedKeeps(Value(), id, accepted, previouslyAccepted, serverCurrent, newId, pair, now, ok);
      assert spks.current.None? ==> spks.previous == [];
      hide Invariant.Inv;
      var index := RotationIndex(pendingOutbound, id);
      if index.None? {
        return Success(None);
      }
      var i := index.value;
      if accepted && pendingOutbound[i].keyId == serverCurrent {
        var settled := ConfirmAcceptedRotation(i, ok);
        return if settled.Success? then Success(None) else Failure(Persistence);
      }
      r := ReconcileRejectedRotation(i, previouslyAccepted, serverCurrent, newId, pair, now, ok);
    }

    method ConfirmAcceptedRotation(i: nat, ok: bool) returns (r: Result<(), ClientError>)
      requires i < |pendingOutbound|
      modifies this, store
      ensures (Value(), r) == Spec.RetireWithCore(old(Value()),
                                old(CoreState()).(spks := RotationConfirmed(old(CoreState()).spks)), i, ok)
    {
      var keys := spks.previous;
      var dropped := [];
      if |keys| > SIGNED_PREKEY_PRIVATE_HISTORY {
        dropped := keys[SIGNED_PREKEY_PRIVATE_HISTORY..];
        spks := spks.(previous := keys[..SIGNED_PREKEY_PRIVATE_HISTORY]);
      }
      var saved := store.SaveCoreAndDelete(CoreState(), CorrelationId(pendingOutbound[i]), ok);
      if !saved {
        spks := spks.(previous := spks.previous + dropped);
        assert spks.previous == keys;
        return Failure(Persistence);
      }
      pendingOutbound := RemoveAt(pendingOutbound, i);
      return Success(());
    }

    method ReconcileRejectedRotation(i: nat, previouslyAccepted: bool, serverCurrent: U32, newId: Uuid, pair: Key32,
                                     now: nat, ok: bool)
      returns (r: Result<Option<PendingOutbound>, ClientError>)
      requires i < |pendingOutbound| && pendingOutbound[i].SignedPrekeyRotation?
      requires spks.current.None? ==> spks.previous == []
      modifies this, store
      ensures (Value(), r) == Spec.Reconcile(old(Value()), i, previouslyAccepted, serverCurrent, newId, pair, now, ok)
    {
      if spks.previous == [] {
        return Failure(PreviousPrekeyMissing);
      }
      var keyId := ReplacementKeyId(spks, serverCurrent);
      if keyId.None? {
        return Failure(RatchetFailed);
      }
      var item := SignedPrekeyRotation(newId, keyId.value, pair);
      var before, rejected := spks, pendingOutbound[i];
      var history := if previouslyAccepted then [spks.current.value] + spks.previous else spks.previous;
      var dropped := [];
      if |history| > SIGNED_PREKEY_PRIVATE_HISTORY {
        dropped := history[SIGNED_PREKEY_PRIVATE_HISTORY..];
        history := history[..SIGNED_PREKEY_PRIVATE_HISTORY];
      }
      spks := SpkRing(Some(SignedPrekey(keyId.value, pair)), history, now, keyId.value + 1);
      pendingOutbound := pendingOutbound[i := item];
      var saved := store.SaveCoreAndReplace(CoreState(), rejected.rotationId, item, ok);
      if !saved {
        if previouslyAccepted {
          spks := spks.(current := Some(spks.previous[0]), previous := spks.previous[1..]);
        } else {
          spks := spks.(current := before.current);
        }
        spks := SpkRing(spks.current, spks.previous + dropped, before.rotatedAt, before.nextId);
        assert spks.previous == before.previous;
        assert spks == before;
        pendingOutbound := pendingOutbound[i := rejected];
        assert pendingOutbound == old(pendingOutbound);
        return Failure(Persistence);
      }
      return Success(Some(item));
    }

    static function Restricted<T>(m: map<U32, T>, ids: set<U32>): (r: map<U32, T>)
    {
      map k | k in m && k in ids :: m[k]
    }

    /** One batch out again, stale entries back: the map is as it was. */
    static lemma UndoneBatch<T>(m: map<U32, T>, stale: set<U32>, batch: map<U32, T>)
      requires m.Keys !! batch.Keys
      ensures ((m - stale) + batch) - batch.Keys + Restricted(m, stale) == m
    {}

    static method DropGenerated(s: OpkStore, first: U32) returns (r: OpkStore)
      requires first + PREKEY_TARGET < U32_LIMIT
      ensures r == Without(s, BatchIds(s.(nextId := first)))
    {
      r := s;
      ghost var gone: set<U32> := {};
      var i := 0;
      while i < PREKEY_TARGET
        invariant 0 <= i <= PREKEY_TARGET
        invariant forall k: U32 :: k in gone <==> InBatch(s.(nextId := first), k) && k < first + i
        invariant r == Without(s, gone)
      {
        var keyId := first + i;
        r := r.(keys := r.keys - {keyId}, createdAt := r.createdAt - {keyId});
        gone := gone + {keyId};
        i := i + 1;
      }
      assert gone == BatchIds(s.(nextId := first));
    }

    /** Drops stale keys, adds the new batch, and hands back what was stale. */
    static method AddBatch(s: OpkStore, pairs: seq<Key32>, now: nat)
      returns (r: OpkStore, staleKeys: map<U32, Key32>, staleTimes: map<U32, nat>)
      requires |pairs| == PREKEY_TARGET && BatchFits(s)
      ensures r == Replenished(s, pairs, now)
      ensures staleKeys == Restricted(s.keys, StaleIds(s, now))
      ensures staleTimes == Restricted(s.createdAt, StaleIds(s, now))
    {
      var stale := StaleIds(s, now);
      staleKeys, staleTimes := Restricted(s.keys, stale), Restricted(s.createdAt, stale);
      r := s.(keys := s.keys - stale, createdAt := s.createdAt - stale, nextId := s.nextId + PREKEY_TARGET);
      r := r.(keys := r.keys + (map k | k in BatchIds(s) :: pairs[k - s.nextId]),
              createdAt := r.createdAt + (map k | k in BatchIds(s) :: now));
    }

    static method RemoveBatch(s: OpkStore, before: OpkStore, ghost pairs: seq<Key32>, ghost now: nat,
                              staleKeys: map<U32, Key32>, staleTimes: map<U32, nat>)
      returns (r: OpkStore)
      requires OpksOk(before) && |pairs| == PREKEY_TARGET && BatchFits(before)
      requires s == Replenished(before, pairs, now)
      requires staleKeys == Restricted(before.keys, StaleIds(before, now))
      requires staleTimes == Restricted(before.createdAt, StaleIds(before, now))
      ensures r == before
    {
      ghost var ids, stale := BatchIds(before), StaleIds(before, now);
      assert BatchIds(s.(nextId := before.nextId)) == ids;
      assert before.keys.Keys !! ids && before.createdAt.Keys !! ids;
      ghost var keys := map k | k in ids :: pairs[k - before.nextId];
      ghost var times := map k | k in ids :: now;
      assert s.keys == (before.keys - stale) + keys;
      assert s.createdAt == (before.createdAt - stale) + times;
      assert keys.Keys == ids && times.Keys == ids;
      hide BatchIds, StaleIds, OpksOk, Replenished, Restricted;
      var kept := DropGenerated(s, before.nextId);
      r := OpkStore(kept.keys + staleKeys, kept.createdAt + staleTimes, before.nextId);
      UndoneBatch(before.keys, stale, keys);
      UndoneBatch(before.createdAt, stale, times);
    }

    method QueueReplenishment(id: Uuid, pairs: seq<Key32>, now: nat, ok: bool)
      returns (r: Result<PendingOutbound, ClientError>)
      requires OpksOk(opks) && |pairs| == PREKEY_TARGET
      modifies this, store
      ensures (Value(), r) == Spec.QueueReplenishment(old(Value()), id, pairs, now, ok)
    {
      hide HasCapacity;
      var index := AnyUpload(pendingOutbound);
      if index.Some? {
        return Success(pendingOutbound[index.value]);
      }
      var before := opks;
      if !BatchFits(before) {
        return Failure(RatchetFailed);
      }
      if !HasCapacity(pendingOutbound, PREKEY_TARGET * 48) {
        return Failure(OutboxFull);
      }
      hide OpksOk;
      hide Replenished;
      hide BatchFits;
      var item := PrekeyUpload(id, Batch(before, pairs));
      var after, staleKeys, staleTimes := AddBatch(before, pairs, now);
      opks := after;
      var saved := PersistNew(item, ok);
      if !saved {
        var restored := RemoveBatch(opks, before, pairs, now, staleKeys, staleTimes);
        opks := restored;
        return Failure(Persistence);
      }
      return Success(item);
    }

    method ConfirmPrekeysUploaded(id: Uuid, accepted: bool, remaining: U32, newId: Uuid, pairs: seq<Key32>, now: nat,
                                  ok: bool, okDelete: bool)
      returns (r: Result<Option<PendingOutbound>, ClientError>)
      requires Valid() && |pairs| == PREKEY_TARGET
      modifies this, store
      ensures Valid()
      ensures (Value(), r) == Spec.ConfirmUploaded(old(Value()), id, accepted, remaining, newId, pairs, now, ok,
                                                   okDelete)
    {
      ghost var c := Value();
      Invariant.UploadedKeeps(c, id, accepted, remaining, newId, pairs, now, ok, okDelete);
      assert OpksOk(opks);
      hide Invariant.Inv;
      var index := UploadIndex(pendingOutbound, id);
      if index.None? {
        return Success(None);
      }
      var i := index.value;
      if !accepted {
        var dropped := DropRejected(i, ok);
        return if dropped.Success? then Success(None) else Failure(Persistence);
      }
      if remaining >= PREKEY_TARGET {
        var retired := RetireAt(i, ok);
        return if retired.Success? then Success(None) else Failure(Persistence);
      }
      r := ReplaceUploadAt(i, newId, pairs, now, ok, okDelete);
    }

    /** Removes the keys and creation times of `ids`, and what to put back. */
    static method TakePrekeys(s: OpkStore, ids: set<U32>)
      returns (left: OpkStore, keys: map<U32, Key32>, times: map<U32, nat>)
      requires OpksOk(s)
      ensures left == Without(s, ids)
      ensures left.(keys := left.keys + keys, createdAt := left.createdAt + times) == s
    {
      keys := Restricted(s.keys, ids);
      times := Restricted(s.createdAt, keys.Keys);
      left := s.(keys := s.keys - ids, createdAt := s.createdAt - keys.Keys);
      assert left.createdAt == s.createdAt - ids;
      assert left.keys + keys == s.keys;
      assert left.createdAt + times == s.createdAt;
    }

    /** A refused upload: its private halves go with it. */
    method DropRejected(i: nat, ok: bool) returns (r: Result<(), ClientError>)
      requires OpksOk(opks) && i < |pendingOutbound| && pendingOutbound[i].PrekeyUpload?
      modifies this, store
      ensures (Value(), r) == Spec.RetireWithCore(old(Value()),
                                old(CoreState()).(opks := Without(old(opks), UploadIds(old(pendingOutbound[i])))), i,
                                  ok)
    {
      hide OpksOk;
      hide Without;
      var item := pendingOutbound[i];
      InsertUndoesRemove(pendingOutbound, i);
      pendingOutbound := RemoveAt(pendingOutbound, i);
      var left, keys, times := TakePrekeys(opks, UploadIds(item));
      opks := left;
      var saved := store.SaveCoreAndDelete(CoreState(), CorrelationId(item), ok);
      if !saved {
        opks := opks.(keys := opks.keys + keys, createdAt := opks.createdAt + times);
        pendingOutbound := InsertAt(pendingOutbound, i, item);
        return Failure(Persistence);
      }
      return Success(());
    }

    method ReplaceUploadAt(i: nat, newId: Uuid, pairs: seq<Key32>, now: nat, ok: bool, okDelete: bool)
      returns (r: Result<Option<PendingOutbound>, ClientError>)
      requires OpksOk(opks) && i < |pendingOutbound| && |pairs| == PREKEY_TARGET
      modifies this, store
      ensures (Value(), r) == Spec.ReplaceUpload(old(Value()), i, newId, pairs, now, ok, okDelete)
    {
      var item := pendingOutbound[i];
      InsertUndoesRemove(pendingOutbound, i);
      pendingOutbound := RemoveAt(pendingOutbound, i);
      var queued := QueueReplenishment(newId, pairs, now, ok);
      if queued.Failure? {
        pendingOutbound := InsertAt(pendingOutbound, i, item);
        return Failure(queued.error);
      }
      var deleted := store.DeleteOutbound(CorrelationId(item), okDelete);
      if !deleted {
        pendingOutbound := InsertAt(pendingOutbound, i, item);
        return Failure(Persistence);
      }
      return Success(Some(queued.value));
    }

    // -- Receiving -------------------------------------------------------------

    method DecryptMessageToText(peer: UserId, id: Uuid, e: Envelope, newPair: Key32, now: nat, okPrune: bool, ok: bool)
      returns (r: Inbound)
      requires Valid()
      modifies this, store
      ensures Valid() && (Value(), r) == Spec.DecryptToText(old(Value()), peer, id, e, newPair, now, okPrune, ok)
    {
      Invariant.DecryptingKeeps(Value(), peer, id, e, newPair, now, okPrune, ok);
      assert processedMessages == store.processed && OpksOk(opks);
      hide Invariant.Inv;
      if e.version != PROTOCOL_VERSION {
        return Failed;
      }
      if (peer, id) in processedMessages {
        var text := processedMessages[(peer, id)].pendingPlaintext;
        return if text.Some? then Pending(text.value) else Duplicate;
      }
      var pruned := store.Prune(now, okPrune);
      if !pruned {
        return Failed;
      }
      processedMessages := Pruned(processedMessages, now);
      if |processedMessages| >= MAX_PROCESSED_MESSAGES {
        return Failed;
      }
      var plaintext: Result<Bytes, ClientError>;
      if peer in sessions {
        plaintext := DecryptExisting(peer, id, e, newPair, now, ok);
      } else {
        plaintext := DecryptFirst(peer, id, e, newPair, now, ok);
      }
      return if plaintext.Success? then Pending(plaintext.value) else Failed;
    }

    method DecryptExisting(peer: UserId, id: Uuid, e: Envelope, newPair: Key32, now: nat, ok: bool)
      returns (r: Result<Bytes, ClientError>)
      requires peer in sessions && (peer, id) !in processedMessages
      modifies this, store
      ensures (Value(), r) == Spec.Receive(old(Value()), peer, id, e, newPair, now, ok)
    {
      hide EnvelopeAad;
      ghost var c := Value();
      var original := sessions[peer];
      var (ratchet, text) := Decrypt(original.ratchet, e.header.ratchet, e.ciphertext, EnvelopeAad(e), newPair);
      hide Decrypt;
      if text.Failure? {
        return Failure(DecryptFailed);
      }
      sessions := sessions[peer := original.(ratchet := ratchet)];
      var row := Processed(Some(text.value), now);
      processedMessages := processedMessages[(peer, id) := row];
      var saved := store.SaveCoreAndProcessed(CoreState(), (peer, id), row, ok);
      if !saved {
        sessions := sessions[peer := original];
        processedMessages := processedMessages - {(peer, id)};
        assert sessions == c.mem.core.sessions && processedMessages == c.mem.processed;
        return Failure(Persistence);
      }
      return Success(text.value);
    }

    /** Opens a first message without changing anything yet. */
    method OpenFirst(peer: UserId, e: Envelope, newPair: Key32)
      returns (r: Result<(PeerSession, set<U32>, Bytes), ClientError>)
      requires peer !in sessions
      ensures Opened(CoreState(), identity, peer, e, newPair)
              == match r
                 case Failure(error) => Failure(error)
                 case Success((s, used, text)) => Success((Core(sessions[peer := s], spks, Without(opks, used)), text))
    {
      if e.header.PlainHeader? {
        return Failure(NoPeerSession);
      }
      var bob := CreateBobSession(CoreState(), identity, e.header);
      if bob.Failure? {
        return Failure(bob.error);
      }
      hide EnvelopeAad;
      hide CreateBobSession;
      hide Decrypt;
      hide Without;
      var (ratchet, text) := Decrypt(bob.value, e.header.ratchet, e.ciphertext, EnvelopeAad(e), newPair);
      if text.Failure? {
        return Failure(DecryptFailed);
      }
      var used := match e.header.oneTimePrekeyId case Some(k) => {k} case None => {};
      return Success((PeerSession(ratchet, None, None), used, text.value));
    }

    method DecryptFirst(peer: UserId, id: Uuid, e: Envelope, newPair: Key32, now: nat, ok: bool)
      returns (r: Result<Bytes, ClientError>)
      requires peer !in sessions && (peer, id) !in processedMessages && OpksOk(opks)
      modifies this, store
      ensures (Value(), r) == Spec.Receive(old(Value()), peer, id, e, newPair, now, ok)
    {
      hide Opened;
      hide OpksOk;
      hide Without;
      ghost var c := Value();
      var first := OpenFirst(peer, e, newPair);
      if first.Failure? {
        return Failure(first.error);
      }
      var (session, used, text) := first.value;
      sessions := sessions[peer := session];
      var left, keys, times := TakePrekeys(opks, used);
      opks := left;
      var row := Processed(Some(text), now);
      processedMessages := processedMessages[(peer, id) := row];
      var saved := store.SaveCoreAndProcessed(CoreState(), (peer, id), row, ok);
      if !saved {
        sessions := sessions - {peer};
        opks := opks.(keys := opks.keys + keys, createdAt := opks.createdAt + times);
        processedMessages := processedMessages - {(peer, id)};
        assert sessions == c.mem.core.sessions && processedMessages == c.mem.processed;
        return Failure(Persistence);
      }
      return Success(text);
    }

    // -- Start-up --------------------------------------------------------------

    /** A new process: every field is rebuilt from the tables. */
    method Restart(now: nat)
      requires Valid()
      modifies this, store
      ensures Valid() && Value() == Spec.Reload(old(Value()), now)
    {
      Invariant.ReloadReproduces(Value(), now);
      hide Invariant.Inv;
      hide SameOutbox;
      if store.core.None? {
        sessions, spks := map[], SpkRing(None, [], 0, 0);
        opks := OpkStore(map[], map[], LEGACY_PREKEY_ID_FLOOR);
      } else {
        var core := store.core.value;
        var derived := NextAbove(core.opks.keys.Keys);
        sessions, spks := core.sessions, LoadedRing(core.spks);
        opks := OpkStore(core.opks.keys,
                         map k | k in core.opks.keys ::
                             if k in core.opks.createdAt then core.opks.createdAt[k] else now,
                         Max(Max(core.opks.nextId, derived), LEGACY_PREKEY_ID_FLOOR));
      }
      pendingOutbound := store.outbox;
      processedMessages := Pruned(store.processed, now);
      var pruned := store.Prune(now, true);
    }
  }
}
