/** Every run of the client: operations with arbitrary arguments, arbitrary store
    failures and arbitrary server answers, mixed with crashes. A crash inside an
    operation leaves the tables as if its remaining store calls had failed, so it
    is that failing operation followed by a reload. */
module ClientRuns {
  import opened Wire
  import opened KeyAlgebra
  import opened X3dh
  import opened Ratchet
  import opened Outbox
  import opened PrekeyStores
  import opened ClientSpec
  import opened ClientInvariant
  import opened ClientKeys

  datatype Event =
    | DoInitSession(peer: UserId, bundle: Bundle, ephemeral: Key32, newPair: Key32, now: nat, ok: bool)
    | DoExpireStale(peer: UserId, now: nat, ok: bool)
    | DoEncryptMessage(peer: UserId, id: Uuid, plaintext: Bytes, ok: bool)
    | DoEncryptReceipt(peer: UserId, id: Uuid, plaintext: Bytes, ok: bool)
    | DoQueueAck(id: Uuid, ids: seq<Uuid>, ok: bool)
    | DoQueueReceiptAck(id: Uuid, ids: seq<Uuid>, ok: bool)
    | DoConfirmSent(id: Uuid, ok: bool)
    | DoConfirmReceiptSent(id: Uuid, ok: bool)
    | DoReject(id: Uuid, ok: bool)
    | DoConfirmAcked(id: Uuid, ids: seq<Uuid>, ok: bool)
    | DoConfirmStored(peer: UserId, id: Uuid, ok: bool)
    | DoRegister(spk: SignedPrekey, opks: map<U32, Key32>, now: nat, ok: bool)
    | DoQueueRotation(id: Uuid, pair: Key32, now: nat, ok: bool)
    | DoConfirmRotated(id: Uuid, accepted: bool, previouslyAccepted: bool, serverCurrent: U32,
                       newId: Uuid, pair: Key32, now: nat, ok: bool)
    | DoReplenish(id: Uuid, pairs: seq<Key32>, now: nat, ok: bool)
    | DoConfirmUploaded(id: Uuid, accepted: bool, remaining: U32, newId: Uuid, pairs: seq<Key32>, now: nat,
                        ok: bool, okDelete: bool)
    | DoDecrypt(peer: UserId, id: Uuid, e: Envelope, newPair: Key32, now: nat, okPrune: bool, ok: bool)
    | Crash(now: nat)

  /** Registration runs only while there is no signed prekey; batches have their
      fixed size; the keys drawn are new. Everything else is unconstrained. */
  ghost predicate Permitted(c: Client, log: set<PendingOutbound>, ev: Event)
  {
    match ev
    case DoInitSession(_, _, _, newPair, _, _) => NewPair(c.mem.core, LogEnvelopes(log), newPair)
    case DoDecrypt(_, _, _, newPair, _, _, _) => NewPair(c.mem.core, LogEnvelopes(log), newPair)
    case DoRegister(spk, _, _, _) => c.mem.core.spks.current.None? && spk.keyId + 1 < U32_LIMIT
    case DoReplenish(_, pairs, _, _) => |pairs| == PREKEY_TARGET
    case DoConfirmUploaded(_, _, _, _, pairs, _, _, _) => |pairs| == PREKEY_TARGET
    case _ => true
  }

  /** The client after one event, and whether the operation reported an error. */
  ghost function Step(c: Client, log: set<PendingOutbound>, ev: Event): (r: (Client, bool))
    requires Permitted(c, log, ev)
  {
    match ev
    case DoInitSession(peer, bundle, ephemeral, newPair, now, ok) =>
      var (c', r) := InitSession(c, peer, bundle, ephemeral, newPair, now, ok); (c', r.Failure?)
    case DoExpireStale(peer, now, ok) => var (c', r) := ExpireStaleSession(c, peer, now, ok); (c', r.Failure?)
    case DoEncryptMessage(peer, id, text, ok) => var (c', r) := EncryptMessage(c, peer, id, text, ok); (c', r.Failure?)
    case DoEncryptReceipt(peer, id, text, ok) =>
      var (c', r) := EncryptReadReceipt(c, peer, id, text, ok); (c', r.Failure?)
    case DoQueueAck(id, ids, ok) => var (c', r) := QueueAck(c, id, ids, ok); (c', r.Failure?)
    case DoQueueReceiptAck(id, ids, ok) => var (c', r) := QueueReceiptAck(c, id, ids, ok); (c', r.Failure?)
    case DoConfirmSent(id, ok) => var (c', r) := ConfirmMessageSent(c, id, ok); (c', r.Failure?)
    case DoConfirmReceiptSent(id, ok) => var (c', r) := ConfirmReceiptSent(c, id, ok); (c', r.Failure?)
    case DoReject(id, ok) => var (c', r) := RejectMessage(c, id, ok); (c', r.Failure?)
    case DoConfirmAcked(id, ids, ok) => var (c', r) := ConfirmAcked(c, id, ids, ok); (c', r.Failure?)
    case DoConfirmStored(peer, id, ok) => var (c', r) := ConfirmInboundStored(c, peer, id, ok); (c', r.Failure?)
    case DoRegister(spk, opks, now, ok) => var (c', r) := PersistRegistration(c, spk, opks, now, ok); (c', r.Failure?)
    case DoQueueRotation(id, pair, now, ok) => var (c', r) := QueueRotation(c, id, pair, now, ok); (c', r.Failure?)
    case DoConfirmRotated(id, accepted, previously, serverCurrent, newId, pair, now, ok) =>
      var (c', r) := ConfirmRotated(c, id, accepted, previously, serverCurrent, newId, pair, now, ok); (c', r.Failure?)
    case DoReplenish(id, pairs, now, ok) => var (c', r) := QueueReplenishment(c, id, pairs, now, ok); (c', r.Failure?)
    case DoConfirmUploaded(id, accepted, remaining, newId, pairs, now, ok, okDelete) =>
      var (c', r) := ConfirmUploaded(c, id, accepted, remaining, newId, pairs, now, ok, okDelete); (c', r.Failure?)
    case DoDecrypt(peer, id, e, newPair, now, okPrune, ok) =>
      var (c', r) := DecryptToText(c, peer, id, e, newPair, now, okPrune, ok); (c', r.Failed?)
    case Crash(now) => (Reload(c, now), false)
  }

  /** An operation that reports an error changed nothing; decryption and upload
      confirmation are treated next. */
  lemma ErrorsChangeNothing(c: Client, log: set<PendingOutbound>, ev: Event)
    requires Permitted(c, log, ev) && !ev.DoDecrypt? && !ev.DoConfirmUploaded?
    ensures Step(c, log, ev).1 ==> Step(c, log, ev).0 == c
  {}

  /** The ledgers without the rows that are too old. */
  function LedgersPruned(c: Client, now: nat): (c': Client)
  {
    c.(mem := c.mem.(processed := Pruned(c.mem.processed, now)),
       disk := c.disk.(processed := Pruned(c.disk.processed, now)))
  }

  /** A failed decryption leaves a change behind exactly when it got as far as
      pruning and there was a row to prune; and then that is the change. */
  lemma ErrorsOfDecrypt(c: Client, log: set<PendingOutbound>, ev: Event)
    requires Permitted(c, log, ev) && ev.DoDecrypt? && Step(c, log, ev).1
    ensures Step(c, log, ev).0 != c <==>
              ev.e.version == PROTOCOL_VERSION && ev.okPrune && LedgersPruned(c, ev.now) != c
    ensures Step(c, log, ev).0 != c ==> Step(c, log, ev).0 == LedgersPruned(c, ev.now)
  {}

  /** An accepted upload runs low, its replacement is committed, and its own deletion
      then fails. */
  ghost predicate LeavesReplacement(c: Client, ev: Event)
  {
    && ev.DoConfirmUploaded? && ev.accepted && ev.remaining < PREKEY_TARGET && ev.ok && !ev.okDelete
    && var a := UploadIndex(c.mem.outbox, ev.id);
       a.Some?
       && AnyUpload(RemoveAt(c.mem.outbox, a.value)).None?
       && BatchFits(c.mem.core.opks)
       && HasCapacity(RemoveAt(c.mem.outbox, a.value), PREKEY_TARGET * 48)
       && !HasId(c.disk.outbox, ev.newId)
  }

  /** An upload confirmation that reports an error changed something in that one
      situation, and then queued exactly the replacement. */
  lemma ErrorsOfUpload(c: Client, log: set<PendingOutbound>, ev: Event)
    requires Inv(c) && Permitted(c, log, ev) && ev.DoConfirmUploaded?
    ensures Step(c, log, ev).1 && Step(c, log, ev).0 != c <==> LeavesReplacement(c, ev)
    ensures LeavesReplacement(c, ev) ==>
              Step(c, log, ev).0 == Enqueue(c, c.mem.core.(opks := Replenished(c.mem.core.opks, ev.pairs, ev.now)),
                                            PrekeyUpload(ev.newId, Batch(c.mem.core.opks, ev.pairs)), true).0
  {
    hide Inv, Replenished, TotalLength;
    var a := UploadIndex(c.mem.outbox, ev.id);
    if a.Some? {
      InsertUndoesRemove(c.mem.outbox, a.value);
      if BatchFits(c.mem.core.opks) {
        UploadKept(c.mem.outbox, a.value, PrekeyUpload(ev.newId, Batch(c.mem.core.opks, ev.pairs)));
        assert |c.mem.outbox + [PrekeyUpload(ev.newId, Batch(c.mem.core.opks, ev.pairs))]| != |c.mem.outbox|;
      }
    }
  }

  lemma PrekeysKeepInv(c: Client, log: set<PendingOutbound>, ev: Event)
    requires Inv(c) && Permitted(c, log, ev)
    requires ev.DoRegister? || ev.DoQueueRotation? || ev.DoConfirmRotated? || ev.DoReplenish? || ev.DoConfirmUploaded?
    ensures Inv(Step(c, log, ev).0)
  {
    hide Inv, PersistRegistration, QueueRotation, ConfirmRotated, QueueReplenishment, ConfirmUploaded;
    match ev
    case DoRegister(spk, opks, now, ok) => RegistrationKeeps(c, spk, opks, now, ok);
    case DoQueueRotation(id, pair, now, ok) => RotatingKeeps(c, id, pair, now, ok);
    case DoConfirmRotated(id, accepted, previously, serverCurrent, newId, pair, now, ok) =>
      RotatedKeeps(c, id, accepted, previously, serverCurrent, newId, pair, now, ok);
    case DoReplenish(id, pairs, now, ok) => ReplenishingKeeps(c, id, pairs, now, ok);
    case DoConfirmUploaded(id, accepted, remaining, newId, pairs, now, ok, okDelete) =>
      UploadedKeeps(c, id, accepted, remaining, newId, pairs, now, ok, okDelete);
  }

  lemma StepKeepsInv(c: Client, log: set<PendingOutbound>, ev: Event)
    requires Inv(c) && Permitted(c, log, ev)
    ensures Inv(Step(c, log, ev).0)
  {
    hide Inv, ConfirmInboundStored, Reload, NewPair, LogEnvelopes, InitSession, ExpireStaleSession, EncryptMessage,
         EncryptReadReceipt, QueueAck, QueueReceiptAck, ConfirmMessageSent, ConfirmReceiptSent, RejectMessage,
         ConfirmAcked, PersistRegistration, QueueRotation, ConfirmRotated, QueueReplenishment, ConfirmUploaded,
         DecryptToText;
    match ev
    case DoInitSession(peer, bundle, ephemeral, newPair, now, ok) =>
      SessionsKeep(c, peer, bundle, ephemeral, newPair, now, ok);
    case DoExpireStale(peer, now, ok) =>
      SessionsKeep(c, peer, Bundle(0, 0, 0, Signature(0, 0), None), 0, 0, now, ok);
    case DoEncryptMessage(peer, id, text, ok) => SendingKeeps(c, peer, id, text, ok);
    case DoEncryptReceipt(peer, id, text, ok) => SendingKeeps(c, peer, id, text, ok);
    case DoQueueAck(id, ids, ok) => AckingKeeps(c, id, ids, ok);
    case DoQueueReceiptAck(id, ids, ok) => AckingKeeps(c, id, ids, ok);
    case DoConfirmSent(id, ok) => ConfirmingKeeps(c, id, ok);
    case DoConfirmReceiptSent(id, ok) => ConfirmingKeeps(c, id, ok);
    case DoReject(id, ok) => RejectingKeeps(c, id, ok);
    case DoConfirmAcked(id, ids, ok) => AckedKeeps(c, id, ids, ok);
    case DoConfirmStored(peer, id, ok) => StoredKeeps(c, peer, id, ok);
    case DoDecrypt(peer, id, e, newPair, now, okPrune, ok) =>
      DecryptingKeeps(c, peer, id, e, newPair, now, okPrune, ok);
    case Crash(now) => ReloadReproduces(c, now);
    case _ => PrekeysKeepInv(c, log, ev);
  }

  // -- Everything that was ever durable in the outbox --------------------------

  function LogEnvelopes(log: set<PendingOutbound>): (es: set<Envelope>)
  {
    set x | x in log && BearsCiphertext(x) :: x.envelope
  }

  function Items(s: seq<PendingOutbound>): (r: set<PendingOutbound>) { set x | x in s }

  /** No signed-prekey ID is released for two different keys, and none is free again. */
  ghost predicate RotationsOk(log: set<PendingOutbound>, ring: SpkRing)
  {
    && (forall x, y ::
          (x in log && y in log && x.SignedPrekeyRotation? && y.SignedPrekeyRotation? && x.keyId == y.keyId) ==>
          x.publicKey == y.publicKey)
    && (forall x :: x in log && x.SignedPrekeyRotation? ==> x.keyId < ring.nextId && ring.current.Some?)
  }

  /** An upload carries PREKEY_TARGET consecutive IDs, starting here. */
  ghost predicate BatchAt(x: PendingOutbound, start: int)
  {
    && x.PrekeyUpload? && |x.prekeys| == PREKEY_TARGET
    && forall i :: 0 <= i < PREKEY_TARGET ==> x.prekeys[i].0 == start + i
  }

  /** Uploads ever released are disjoint intervals between the legacy floor and
      the next ID. */
  ghost predicate UploadsOk(log: set<PendingOutbound>, next: int)
  {
    && (forall x :: x in log && x.PrekeyUpload? ==>
          |x.prekeys| == PREKEY_TARGET && BatchAt(x, x.prekeys[0].0)
          && LEGACY_PREKEY_ID_FLOOR <= x.prekeys[0].0 && x.prekeys[0].0 + PREKEY_TARGET <= next)
    && (forall x, y :: x in log && y in log && x.PrekeyUpload? && y.PrekeyUpload? && x != y ==>
          |x.prekeys| > 0 && |y.prekeys| > 0 && (x.prekeys[0].0 + PREKEY_TARGET <= y.prekeys[0].0
                                             || y.prekeys[0].0 + PREKEY_TARGET <= x.prekeys[0].0))
  }

  ghost predicate LogOk(core: Core, log: set<PendingOutbound>)
  {
    && KeysOk(core, LogEnvelopes(log))
    && RotationsOk(log, core.spks)
    && UploadsOk(log, core.opks.nextId)
  }

  lemma LogShrinks(core: Core, log: set<PendingOutbound>, less: set<PendingOutbound>)
    requires LogOk(core, log) && less <= log
    ensures LogOk(core, less)
  {
    assert LogEnvelopes(less) <= LogEnvelopes(log);
  }

  /** A new core state with the same item log. */
  lemma LogSameItems(core: Core, core': Core, log: set<PendingOutbound>)
    requires LogOk(core, log) && KeysOk(core', LogEnvelopes(log))
    requires core.spks.nextId <= core'.spks.nextId && (core.spks.current.Some? ==> core'.spks.current.Some?)
    requires core.opks.nextId <= core'.opks.nextId
    ensures LogOk(core', log)
  {}

  lemma LogNewPlain(core: Core, log: set<PendingOutbound>, x: PendingOutbound)
    requires LogOk(core, log) && (x.Ack? || x.ReadReceiptAck?)
    ensures LogOk(core, log + {x})
  {
    assert LogEnvelopes(log + {x}) == LogEnvelopes(log);
  }

  lemma LogNewCiphertext(core: Core, identity: Key32, peer: UserId, plaintext: Bytes, log: set<PendingOutbound>,
                         x: PendingOutbound)
    requires LogOk(core, log) && AdvanceEncryption(core, identity, peer, plaintext).Success?
    requires BearsCiphertext(x) && x.envelope == AdvanceEncryption(core, identity, peer, plaintext).value.1
    ensures LogOk(AdvanceEncryption(core, identity, peer, plaintext).value.0, log + {x})
  {
    SealingKeepsKeys(core, identity, peer, plaintext, LogEnvelopes(log));
    assert LogEnvelopes(log + {x}) == LogEnvelopes(log) + {x.envelope};
  }

  lemma LogNewRotation(core: Core, core': Core, log: set<PendingOutbound>, x: PendingOutbound)
    requires LogOk(core, log) && x.SignedPrekeyRotation?
    requires core'.sessions == core.sessions && core'.opks == core.opks && core'.spks.current.Some?
    requires core.spks.nextId <= x.keyId < core'.spks.nextId
    ensures LogOk(core', log + {x})
  {
    assert LogEnvelopes(log + {x}) == LogEnvelopes(log);
    DroppingKeepsKeys(core, core', LogEnvelopes(log));
  }

  lemma LogNewUpload(core: Core, log: set<PendingOutbound>, id: Uuid, pairs: seq<Key32>, now: nat)
    requires LogOk(core, log) && |pairs| == PREKEY_TARGET && BatchFits(core.opks) && OpksOk(core.opks)
    ensures LogOk(core.(opks := Replenished(core.opks, pairs, now)), log + {PrekeyUpload(id, Batch(core.opks, pairs))})
  {
    var x, core' := PrekeyUpload(id, Batch(core.opks, pairs)), core.(opks := Replenished(core.opks, pairs, now));
    assert LogEnvelopes(log + {x}) == LogEnvelopes(log);
    DroppingKeepsKeys(core, core', LogEnvelopes(log));
    assert BatchAt(x, core.opks.nextId);
  }

  /** The log absorbs whatever is durable after the step. */
  ghost predicate LogKept(c: Client, log: set<PendingOutbound>)
  {
    LogOk(c.mem.core, log + Items(c.disk.outbox))
  }

  lemma ItemsDeleted(s: seq<PendingOutbound>, id: Uuid)
    ensures Items(DeleteId(s, id)) <= Items(s)
  {
    forall x | x in DeleteId(s, id)
      ensures x in s
    {
      var k :| 0 <= k < |DeleteId(s, id)| && DeleteId(s, id)[k] == x;
      var i := DeleteFromWhere(s, id, k);
    }
  }

  lemma LogQuiet(c: Client, log: set<PendingOutbound>)
    requires LogOk(c.mem.core, log) && Items(c.disk.outbox) <= log
    ensures LogKept(c, log)
  {
    assert log + Items(c.disk.outbox) == log;
  }

  lemma LogEnqueued(c: Client, core: Core, item: PendingOutbound, ok: bool, log: set<PendingOutbound>)
    requires LogOk(c.mem.core, log) && Items(c.disk.outbox) <= log && LogOk(core, log + {item})
    ensures LogKept(Enqueue(c, core, item, ok).0, log)
  {
    var c' := Enqueue(c, core, item, ok).0;
    if Enqueue(c, core, item, ok).1.Success? {
      assert Items(c'.disk.outbox) == Items(c.disk.outbox) + {item};
      assert log + Items(c'.disk.outbox) == log + {item};
    } else {
      LogQuiet(c, log);
    }
  }

  lemma LogRetired(c: Client, core: Core, i: nat, ok: bool, log: set<PendingOutbound>)
    requires LogOk(c.mem.core, log) && Items(c.disk.outbox) <= log && LogOk(core, log) && i < |c.mem.outbox|
    ensures LogKept(Retire(c, i, ok).0, log) && LogKept(RetireWithCore(c, core, i, ok).0, log)
  {
    ItemsDeleted(c.disk.outbox, CorrelationId(c.mem.outbox[i]));
    LogQuiet(Retire(c, i, ok).0, log);
    LogQuiet(RetireWithCore(c, core, i, ok).0, log);
  }

  lemma LogOfSending(c: Client, peer: UserId, id: Uuid, plaintext: Bytes, ok: bool, log: set<PendingOutbound>)
    requires LogOk(c.mem.core, log) && Items(c.disk.outbox) <= log
    ensures LogKept(EncryptMessage(c, peer, id, plaintext, ok).0, log)
    ensures LogKept(EncryptReadReceipt(c, peer, id, plaintext, ok).0, log)
  {
    LogQuiet(c, log);
    var sealed := AdvanceEncryption(c.mem.core, c.identity, peer, plaintext);
    if sealed.Success? {
      var x, y := Message(peer, id, sealed.value.1), ReadReceipt(peer, id, sealed.value.1);
      LogNewCiphertext(c.mem.core, c.identity, peer, plaintext, log, x);
      LogNewCiphertext(c.mem.core, c.identity, peer, plaintext, log, y);
      hide LogOk;
      LogEnqueued(c, sealed.value.0, x, ok, log);
      LogEnqueued(c, sealed.value.0, y, ok, log);
    }
  }

  lemma LogOfAcks(c: Client, id: Uuid, ids: seq<Uuid>, ok: bool, log: set<PendingOutbound>)
    requires LogOk(c.mem.core, log) && Items(c.disk.outbox) <= log
    ensures LogKept(QueueAck(c, id, ids, ok).0, log) && LogKept(QueueReceiptAck(c, id, ids, ok).0, log)
  {
    LogQuiet(c, log);
    LogNewPlain(c.mem.core, log, Ack(id, ids));
    LogNewPlain(c.mem.core, log, ReadReceiptAck(id, ids));
    hide LogOk;
    LogEnqueued(c, c.mem.core, Ack(id, ids), ok, log);
    LogEnqueued(c, c.mem.core, ReadReceiptAck(id, ids), ok, log);
  }

  lemma LogOfConfirmations(c: Client, id: Uuid, ok: bool, log: set<PendingOutbound>)
    requires LogOk(c.mem.core, log) && Items(c.disk.outbox) <= log
    ensures LogKept(ConfirmMessageSent(c, id, ok).0, log) && LogKept(ConfirmReceiptSent(c, id, ok).0, log)
  {
    LogQuiet(c, log);
    hide LogKept;
    var m, r := MessageIndex(c.mem.outbox, id), ReceiptIndex(c.mem.outbox, id);
    if m.Some? { LogRetired(c, c.mem.core, m.value, ok, log); }
    if r.Some? { LogRetired(c, c.mem.core, r.value, ok, log); }
  }

  lemma LogOfAcked(c: Client, id: Uuid, ids: seq<Uuid>, ok: bool, log: set<PendingOutbound>)
    requires LogOk(c.mem.core, log) && Items(c.disk.outbox) <= log
    ensures LogKept(ConfirmAcked(c, id, ids, ok).0, log)
  {
    hide LogOk;
    ItemsDeleted(c.disk.outbox, id);
    LogQuiet(ConfirmAcked(c, id, ids, ok).0, log);
  }

  lemma LogOfRejection(c: Client, id: Uuid, ok: bool, log: set<PendingOutbound>)
    requires LogOk(c.mem.core, log) && Items(c.disk.outbox) <= log
    ensures LogKept(RejectMessage(c, id, ok).0, log)
  {
    LogQuiet(c, log);
    var m := MessageIndex(c.mem.outbox, id);
    if m.Some? {
      var core := c.mem.core.(sessions := c.mem.core.sessions - {c.mem.outbox[m.value].recipient});
      DroppingKeepsKeys(c.mem.core, core, LogEnvelopes(log));
      LogSameItems(c.mem.core, core, log);
      LogRetired(c, core, m.value, ok, log);
    }
  }

  lemma LogOfSessions(c: Client, peer: UserId, bundle: Bundle, ephemeral: Key32, newPair: Key32, now: nat, ok: bool,
                      log: set<PendingOutbound>)
    requires LogOk(c.mem.core, log) && Items(c.disk.outbox) <= log
    ensures NewPair(c.mem.core, LogEnvelopes(log), newPair) ==>
              LogKept(InitSession(c, peer, bundle, ephemeral, newPair, now, ok).0, log)
    ensures LogKept(ExpireStaleSession(c, peer, now, ok).0, log)
  {
    LogQuiet(c, log);
    var expired := ExpireStaleSession(c, peer, now, ok).0;
    DroppingKeepsKeys(c.mem.core, expired.mem.core, LogEnvelopes(log));
    LogSameItems(c.mem.core, expired.mem.core, log);
    LogQuiet(expired, log);
    var started := InitSession(c, peer, bundle, ephemeral, newPair, now, ok).0;
    if NewPair(c.mem.core, LogEnvelopes(log), newPair) && started != c {
      NewChainKeepsKeys(c.mem.core, started.mem.core, peer, LogEnvelopes(log), newPair, bundle.signedPrekey);
      LogSameItems(c.mem.core, started.mem.core, log);
      LogQuiet(started, log);
    }
  }

  lemma OpenedKeepsLog(core: Core, identity: Key32, peer: UserId, e: Envelope, newPair: Key32,
                       log: set<PendingOutbound>)
    requires LogOk(core, log) && NewPair(core, LogEnvelopes(log), newPair)
    requires Opened(core, identity, peer, e, newPair).Success?
    ensures LogOk(Opened(core, identity, peer, e, newPair).value.0, log)
  {
    var core' := Opened(core, identity, peer, e, newPair).value.0;
    assert core'.spks == core.spks && core'.opks.nextId == core.opks.nextId;
    hide Opened, NewPair, RotationsOk, UploadsOk;
    OpeningKeepsKeys(core, identity, peer, e, newPair, LogEnvelopes(log));
    LogSameItems(core, core', log);
  }

  lemma LogOfDecrypt(c: Client, peer: UserId, id: Uuid, e: Envelope, newPair: Key32, now: nat, okPrune: bool, ok: bool,
                     log: set<PendingOutbound>)
    requires LogOk(c.mem.core, log) && Items(c.disk.outbox) <= log && NewPair(c.mem.core, LogEnvelopes(log), newPair)
    ensures LogKept(DecryptToText(c, peer, id, e, newPair, now, okPrune, ok).0, log)
  {
    hide LogOk, Opened, NewPair;
    LogQuiet(c, log);
    var o := Opened(c.mem.core, c.identity, peer, e, newPair);
    if o.Success? {
      OpenedKeepsLog(c.mem.core, c.identity, peer, e, newPair, log);
    }
    LogQuiet(DecryptToText(c, peer, id, e, newPair, now, okPrune, ok).0, log);
  }

  lemma LogOfRotation(c: Client, id: Uuid, pair: Key32, now: nat, ok: bool, log: set<PendingOutbound>)
    requires Inv(c) && LogOk(c.mem.core, log) && Items(c.disk.outbox) <= log
    ensures LogKept(QueueRotation(c, id, pair, now, ok).0, log)
  {
    LogQuiet(c, log);
    var ring := c.mem.core.spks;
    if ring.current.Some? && RotationKeyId(ring).Some? {
      var x := SignedPrekeyRotation(id, RotationKeyId(ring).value, pair);
      var core := c.mem.core.(spks := Rotated(ring, pair, now));
      LogNewRotation(c.mem.core, core, log, x);
      hide LogOk;
      LogEnqueued(c, core, x, ok, log);
    }
  }

  lemma LogOfRotated(c: Client, id: Uuid, accepted: bool, previouslyAccepted: bool, serverCurrent: U32,
                     newId: Uuid, pair: Key32, now: nat, ok: bool, log: set<PendingOutbound>)
    requires LogOk(c.mem.core, log) && Items(c.disk.outbox) <= log
    ensures LogKept(ConfirmRotated(c, id, accepted, previouslyAccepted, serverCurrent, newId, pair, now, ok).0, log)
  {
    LogQuiet(c, log);
    var a, core := RotationIndex(c.mem.outbox, id), c.mem.core.(spks := RotationConfirmed(c.mem.core.spks));
    DroppingKeepsKeys(c.mem.core, core, LogEnvelopes(log));
    LogSameItems(c.mem.core, core, log);
    hide LogOk, LogKept, RotationConfirmed;
    if a.Some? {
      LogRetired(c, core, a.value, ok, log);
      LogOfReconciled(c, a.value, previouslyAccepted, serverCurrent, newId, pair, now, ok, log);
    }
    hide RetireWithCore, Reconcile;
  }

  lemma LogOfReconciled(c: Client, i: nat, previouslyAccepted: bool, serverCurrent: U32, newId: Uuid, pair: Key32,
                        now: nat, ok: bool, log: set<PendingOutbound>)
    requires LogOk(c.mem.core, log) && Items(c.disk.outbox) <= log && i < |c.mem.outbox|
    ensures LogKept(Reconcile(c, i, previouslyAccepted, serverCurrent, newId, pair, now, ok).0, log)
  {
    LogQuiet(c, log);
    var id, ring := CorrelationId(c.mem.outbox[i]), c.mem.core.spks;
    if ring.previous != [] && ReplacementKeyId(ring, serverCurrent).Some? && ring.current.Some? {
      var x := SignedPrekeyRotation(newId, ReplacementKeyId(ring, serverCurrent).value, pair);
      var core := c.mem.core.(spks := Reconciled(ring, serverCurrent, previouslyAccepted, pair, now));
      LogNewRotation(c.mem.core, core, log, x);
      hide LogOk, Reconciled, ReplacementKeyId;
      ItemsDeleted(c.disk.outbox, id);
      assert Items(DeleteId(c.disk.outbox, id) + [x]) == Items(DeleteId(c.disk.outbox, id)) + {x};
      assert log + Items(DeleteId(c.disk.outbox, id) + [x]) == log + {x};
    }
  }

  lemma LogOfReplenishing(c: Client, id: Uuid, pairs: seq<Key32>, now: nat, ok: bool, log: set<PendingOutbound>)
    requires Inv(c) && LogOk(c.mem.core, log) && Items(c.disk.outbox) <= log && |pairs| == PREKEY_TARGET
    ensures LogKept(QueueReplenishment(c, id, pairs, now, ok).0, log)
  {
    LogQuiet(c, log);
    if BatchFits(c.mem.core.opks) {
      LogNewUpload(c.mem.core, log, id, pairs, now);
      hide LogOk;
      LogEnqueued(c, c.mem.core.(opks := Replenished(c.mem.core.opks, pairs, now)),
                  PrekeyUpload(id, Batch(c.mem.core.opks, pairs)), ok, log);
    }
  }

  lemma LogOfReplaceUpload(c: Client, i: nat, newId: Uuid, pairs: seq<Key32>, now: nat, ok: bool, okDelete: bool,
                           log: set<PendingOutbound>)
    requires Inv(c) && LogOk(c.mem.core, log) && Items(c.disk.outbox) <= log && |pairs| == PREKEY_TARGET
    requires i < |c.mem.outbox|
    ensures LogKept(ReplaceUpload(c, i, newId, pairs, now, ok, okDelete).0, log)
  {
    LogQuiet(c, log);
    var id, d := CorrelationId(c.mem.outbox[i]), c.disk.outbox;
    var c' := ReplaceUpload(c, i, newId, pairs, now, ok, okDelete).0;
    ItemsDeleted(d, id);
    if c'.mem.core == c.mem.core {
      if c'.disk.outbox == d || c'.disk.outbox == DeleteId(d, id) {
        LogQuiet(c', log);
      }
    }
    if BatchFits(c.mem.core.opks) {
      var x := PrekeyUpload(newId, Batch(c.mem.core.opks, pairs));
      var core := c.mem.core.(opks := Replenished(c.mem.core.opks, pairs, now));
      LogNewUpload(c.mem.core, log, newId, pairs, now);
      ItemsDeleted(d + [x], id);
      assert Items(d + [x]) == Items(d) + {x};
      if c'.mem.core == core && (c'.disk.outbox == d + [x] || c'.disk.outbox == DeleteId(d + [x], id)) {
        assert log + Items(c'.disk.outbox) <= log + {x};
        LogShrinks(core, log + {x}, log + Items(c'.disk.outbox));
      }
    }
  }

  lemma LogOfUploaded(c: Client, id: Uuid, accepted: bool, remaining: U32, newId: Uuid, pairs: seq<Key32>, now: nat,
                      ok: bool, okDelete: bool, log: set<PendingOutbound>)
    requires Inv(c) && LogOk(c.mem.core, log) && Items(c.disk.outbox) <= log && |pairs| == PREKEY_TARGET
    ensures LogKept(ConfirmUploaded(c, id, accepted, remaining, newId, pairs, now, ok, okDelete).0, log)
  {
    LogQuiet(c, log);
    var a := UploadIndex(c.mem.outbox, id);
    if a.Some? {
      var core := c.mem.core.(opks := Without(c.mem.core.opks, UploadIds(c.mem.outbox[a.value])));
      DroppingKeepsKeys(c.mem.core, core, LogEnvelopes(log));
      LogSameItems(c.mem.core, core, log);
      hide LogOk;
      LogRetired(c, core, a.value, ok, log);
      LogOfReplaceUpload(c, a.value, newId, pairs, now, ok, okDelete, log);
    }
  }

  lemma LogOfRegistration(c: Client, spk: SignedPrekey, opks: map<U32, Key32>, now: nat, ok: bool,
                          log: set<PendingOutbound>)
    requires LogOk(c.mem.core, log) && Items(c.disk.outbox) <= log && c.mem.core.spks.current.None?
    ensures LogKept(PersistRegistration(c, spk, opks, now, ok).0, log)
  {
    LogQuiet(c, log);
    var c' := PersistRegistration(c, spk, opks, now, ok).0;
    if ok {
      DroppingKeepsKeys(c.mem.core, c'.mem.core, LogEnvelopes(log));
      assert LogOk(c'.mem.core, log);
      LogQuiet(c', log);
    }
  }

  lemma StepKeepsLog(c: Client, log: set<PendingOutbound>, ev: Event)
    requires Inv(c) && LogOk(c.mem.core, log) && Items(c.disk.outbox) <= log && Permitted(c, log, ev)
    ensures LogKept(Step(c, log, ev).0, log)
  {
    hide LogKept, LogOk, Inv, LogEnvelopes, NewPair, LoadedCore, Pruned, CommittedRow;
    hide InitSession, ExpireStaleSession, EncryptMessage, EncryptReadReceipt, QueueAck, QueueReceiptAck,
         ConfirmMessageSent, ConfirmReceiptSent, RejectMessage, ConfirmAcked, PersistRegistration, QueueRotation,
         ConfirmRotated, QueueReplenishment, ConfirmUploaded, DecryptToText;
    match ev
    case DoInitSession(peer, bundle, ephemeral, newPair, now, ok) =>
      LogOfSessions(c, peer, bundle, ephemeral, newPair, now, ok, log);
    case DoExpireStale(peer, now, ok) =>
      LogOfSessions(c, peer, Bundle(0, 0, 0, Signature(0, 0), None), 0, 0, now, ok, log);
    case DoEncryptMessage(peer, id, text, ok) => LogOfSending(c, peer, id, text, ok, log);
    case DoEncryptReceipt(peer, id, text, ok) => LogOfSending(c, peer, id, text, ok, log);
    case DoQueueAck(id, ids, ok) => LogOfAcks(c, id, ids, ok, log);
    case DoQueueReceiptAck(id, ids, ok) => LogOfAcks(c, id, ids, ok, log);
    case DoConfirmSent(id, ok) => LogOfConfirmations(c, id, ok, log);
    case DoConfirmReceiptSent(id, ok) => LogOfConfirmations(c, id, ok, log);
    case DoReject(id, ok) => LogOfRejection(c, id, ok, log);
    case DoConfirmAcked(id, ids, ok) => LogOfAcked(c, id, ids, ok, log);
    case DoConfirmStored(peer, id, ok) => LogQuiet(Step(c, log, ev).0, log);
    case DoRegister(spk, opks, now, ok) => LogOfRegistration(c, spk, opks, now, ok, log);
    case DoQueueRotation(id, pair, now, ok) => LogOfRotation(c, id, pair, now, ok, log);
    case DoConfirmRotated(id, accepted, previously, serverCurrent, newId, pair, now, ok) =>
      LogOfRotated(c, id, accepted, previously, serverCurrent, newId, pair, now, ok, log);
    case DoReplenish(id, pairs, now, ok) => LogOfReplenishing(c, id, pairs, now, ok, log);
    case DoConfirmUploaded(id, accepted, remaining, newId, pairs, now, ok, okDelete) =>
      LogOfUploaded(c, id, accepted, remaining, newId, pairs, now, ok, okDelete, log);
    case DoDecrypt(peer, id, e, newPair, now, okPrune, ok) =>
      LogOfDecrypt(c, peer, id, e, newPair, now, okPrune, ok, log);
    case Crash(now) =>
      ReloadReproduces(c, now);
      LogQuiet(Reload(c, now), log);
  }

  /** The outbox grows past its item cap in one situation only. */
  ghost predicate OverflowsCap(c: Client, ev: Event)
  {
    LeavesReplacement(c, ev) && |c.mem.outbox| == MAX_PENDING_OUTBOUND_ITEMS
  }

  lemma CapOfUpload(c: Client, log: set<PendingOutbound>, ev: Event)
    requires Inv(c) && Permitted(c, log, ev) && ev.DoConfirmUploaded?
             && |c.mem.outbox| <= MAX_PENDING_OUTBOUND_ITEMS + 1
    ensures |Step(c, log, ev).0.mem.outbox| <= MAX_PENDING_OUTBOUND_ITEMS + 1
    ensures |c.mem.outbox| <= MAX_PENDING_OUTBOUND_ITEMS ==>
              (|Step(c, log, ev).0.mem.outbox| > MAX_PENDING_OUTBOUND_ITEMS <==> OverflowsCap(c, ev))
  {
    hide Inv, Replenished, TotalLength, Batch, Without, UploadIds, DeleteId, HasId, FirstIndex;
  }

  predicate Queues(ev: Event)
  {
    ev.DoEncryptMessage? || ev.DoEncryptReceipt? || ev.DoQueueAck? || ev.DoQueueReceiptAck? || ev.DoQueueRotation?
    || ev.DoReplenish?
  }

  lemma CapOfQueueing(c: Client, log: set<PendingOutbound>, ev: Event)
    requires Permitted(c, log, ev) && Queues(ev)
    ensures |Step(c, log, ev).0.mem.outbox| <= |c.mem.outbox|
            || |Step(c, log, ev).0.mem.outbox| <= MAX_PENDING_OUTBOUND_ITEMS
  {
    hide TotalLength, AdvanceEncryption, Rotated, Replenished;
  }

  lemma DecryptKeepsOutbox(peer: UserId, id: Uuid, e: Envelope, newPair: Key32, now: nat, ok: bool)
    ensures forall c0 :: Receive(c0, peer, id, e, newPair, now, ok).0.mem.outbox == c0.mem.outbox
  {
    hide Opened;
  }

  lemma CapOfRetiring(c: Client, log: set<PendingOutbound>, ev: Event)
    requires Permitted(c, log, ev)
    requires ev.DoConfirmSent? || ev.DoConfirmReceiptSent? || ev.DoReject? || ev.DoConfirmAcked? || ev.DoConfirmRotated?
    ensures |Step(c, log, ev).0.mem.outbox| <= |c.mem.outbox|
  {
    hide DeleteId, Reconciled, WithoutIds, FirstIndex, RotationConfirmed, ReplacementKeyId, HasId;
  }

  lemma CapOfOthers(c: Client, log: set<PendingOutbound>, ev: Event)
    requires Permitted(c, log, ev)
    requires ev.DoInitSession? || ev.DoExpireStale? || ev.DoConfirmStored? || ev.DoRegister? || ev.DoDecrypt?
    ensures |Step(c, log, ev).0.mem.outbox| == |c.mem.outbox|
  {
    hide Receive, RegisteredCore, Pruned, CommittedRow, NewPair, LogEnvelopes, AliceInitiate, InitializeAlice, SaveCore;
    if ev.DoDecrypt? {
      DecryptKeepsOutbox(ev.peer, ev.id, ev.e, ev.newPair, ev.now, ev.ok);
    }
  }

  lemma CapOfCrash(c: Client, now: nat)
    requires Inv(c)
    ensures |Reload(c, now).mem.outbox| == |c.mem.outbox|
  {
    assert |multiset(c.mem.outbox)| == |multiset(c.disk.outbox)|;
    hide Inv, LoadedCore;
  }

  /** At most one item beyond the cap, ever; and that one exactly when an accepted
      upload is replaced in a full outbox and its own deletion then fails. */
  lemma CapHolds(c: Client, log: set<PendingOutbound>, ev: Event)
    requires Inv(c) && Permitted(c, log, ev) && |c.mem.outbox| <= MAX_PENDING_OUTBOUND_ITEMS + 1
    ensures |Step(c, log, ev).0.mem.outbox| <= MAX_PENDING_OUTBOUND_ITEMS + 1
    ensures |c.mem.outbox| <= MAX_PENDING_OUTBOUND_ITEMS ==>
              (|Step(c, log, ev).0.mem.outbox| > MAX_PENDING_OUTBOUND_ITEMS <==> OverflowsCap(c, ev))
  {
    if ev.DoConfirmUploaded? {
      CapOfUpload(c, log, ev);
    } else if Queues(ev) {
      CapOfQueueing(c, log, ev);
    } else if ev.Crash? {
      CapOfCrash(c, ev.now);
      assert Step(c, log, ev).0 == Reload(c, ev.now);
    } else if ev.DoInitSession? || ev.DoExpireStale? || ev.DoConfirmStored? || ev.DoRegister? || ev.DoDecrypt? {
      CapOfOthers(c, log, ev);
    } else {
      CapOfRetiring(c, log, ev);
    }
    hide Step;
    hide Inv;
  }

  // -- Runs --------------------------------------------------------------------

  datatype History = History(c: Client, log: set<PendingOutbound>)

  ghost predicate PermittedRun(identity: Key32, evs: seq<Event>)
    decreases |evs|, 0
  {
    evs == [] ||
    (PermittedRun(identity, evs[..|evs| - 1]) &&
     var h := Run(identity, evs[..|evs| - 1]);
     Permitted(h.c, h.log, evs[|evs| - 1]))
  }

  /** The client after a run from a fresh installation, and everything that was
      durable in its outbox at any moment. */
  ghost function Run(identity: Key32, evs: seq<Event>): (h: History)
    requires PermittedRun(identity, evs)
    decreases |evs|, 1
  {
    if evs == [] then History(Fresh(identity), {})
    else
      var h := Run(identity, evs[..|evs| - 1]);
      var c' := Step(h.c, h.log, evs[|evs| - 1]).0;
      History(c', h.log + Items(c'.disk.outbox))
  }

  lemma {:induction false} RunKeepsAll(identity: Key32, evs: seq<Event>)
    requires PermittedRun(identity, evs)
    ensures Inv(Run(identity, evs).c)
    ensures LogOk(Run(identity, evs).c.mem.core, Run(identity, evs).log)
    ensures Items(Run(identity, evs).c.disk.outbox) <= Run(identity, evs).log
    ensures |Run(identity, evs).c.mem.outbox| <= MAX_PENDING_OUTBOUND_ITEMS + 1
  {
    if evs != [] {
      var h, ev := Run(identity, evs[..|evs| - 1]), evs[|evs| - 1];
      RunKeepsAll(identity, evs[..|evs| - 1]);
      hide LogOk;
      StepKeepsInv(h.c, h.log, ev);
      StepKeepsLog(h.c, h.log, ev);
      CapHolds(h.c, h.log, ev);
      hide Step;
      hide Inv;
    }
  }

  /** After every run, whatever failed on the way: a restart reproduces memory. */
  lemma RestartReproducesMemory(identity: Key32, evs: seq<Event>, now: nat)
    requires PermittedRun(identity, evs)
    ensures
      var mem, again := Run(identity, evs).c.mem, Reload(Run(identity, evs).c, now).mem;
      && again.core == mem.core
      && again.processed == Pruned(mem.processed, now)
      && multiset(again.outbox) == multiset(mem.outbox)
      && Ciphertexts(again.outbox) == Ciphertexts(mem.outbox)
  {
    RunKeepsAll(identity, evs);
    ReloadReproduces(Run(identity, evs).c, now);
  }

  /** After every run: no two different envelopes that were ever durable, and so
      none that was ever released, were sealed under the same message key. */
  lemma NoMessageKeyReused(identity: Key32, evs: seq<Event>, x: PendingOutbound, y: PendingOutbound)
    requires PermittedRun(identity, evs)
    requires x in Run(identity, evs).log && y in Run(identity, evs).log && BearsCiphertext(x) && BearsCiphertext(y)
    ensures x.envelope.ciphertext.key == y.envelope.ciphertext.key ==> x.envelope == y.envelope
  {
    RunKeepsAll(identity, evs);
    assert x.envelope in LogEnvelopes(Run(identity, evs).log) && y.envelope in LogEnvelopes(Run(identity, evs).log);
  }

  /** Nothing is released before it is durable. */
  lemma ReleasedIsDurable(c: Client, peer: UserId, id: Uuid, plaintext: Bytes, ok: bool)
    ensures EncryptMessage(c, peer, id, plaintext, ok).1.Success? ==>
              EncryptMessage(c, peer, id, plaintext, ok).1.value
              in EncryptMessage(c, peer, id, plaintext, ok).0.disk.outbox
    ensures EncryptReadReceipt(c, peer, id, plaintext, ok).1.Success? ==>
              EncryptReadReceipt(c, peer, id, plaintext, ok).1.value
              in EncryptReadReceipt(c, peer, id, plaintext, ok).0.disk.outbox
  {}

  /** After every run: uploads ever released are disjoint intervals of
      PREKEY_TARGET IDs between the legacy floor and the next ID. */
  lemma UploadsDisjoint(identity: Key32, evs: seq<Event>, x: PendingOutbound, y: PendingOutbound)
    requires PermittedRun(identity, evs)
    requires x in Run(identity, evs).log && y in Run(identity, evs).log && x.PrekeyUpload? && y.PrekeyUpload?
    ensures |x.prekeys| == |y.prekeys| == PREKEY_TARGET
    ensures LEGACY_PREKEY_ID_FLOOR <= x.prekeys[0].0
            && x.prekeys[0].0 + PREKEY_TARGET <= Run(identity, evs).c.mem.core.opks.nextId
    ensures forall i :: 0 <= i < PREKEY_TARGET ==> x.prekeys[i].0 == x.prekeys[0].0 + i
    ensures x != y ==> UploadIds(x) !! UploadIds(y)
  {
    RunKeepsAll(identity, evs);
    UploadInterval(x, x.prekeys[0].0);
    UploadInterval(y, y.prekeys[0].0);
  }

  lemma UploadInterval(x: PendingOutbound, start: int)
    requires BatchAt(x, start)
    ensures forall k :: k in UploadIds(x) ==> start <= k < start + PREKEY_TARGET
  {}
}
