/** What each operation of the client's crypto manager means: a change of the
    in-memory state and of the durable tables that happens entirely or, when the
    store refuses the transaction, not at all. Every operation takes the outcome
    of its store calls as a parameter (`ok`), one clock reading (`now`), and the
    random keys and IDs it draws. */
module ClientSpec {
  import opened Wire
  import opened KeyAlgebra
  import opened X3dh
  import opened Ratchet
  import opened Outbox
  import opened PrekeyStores

  const PROTOCOL_VERSION: U32 := 2
  const MAX_CIPHERTEXT_BYTES := 512 * 1024
  const ONE_TIME_PREKEY_RESERVATION_SECS := DAY
  const MAX_PROCESSED_MESSAGES := 10_000
  const RETENTION_SECS := 31 * DAY

  datatype FirstHeader = FirstHeader(ephemeral: Key32, signedPrekeyId: U32, oneTimePrekeyId: Option<U32>)

  datatype PeerSession = PeerSession(ratchet: SessionState, first: Option<FirstHeader>, expiresAt: Option<nat>)

  datatype Core = Core(sessions: map<UserId, PeerSession>, spks: SpkRing, opks: OpkStore)

  datatype Processed = Processed(pendingPlaintext: Option<Bytes>, processedAt: nat)

  /** The replay ledger, keyed by peer and message ID. */
  type Ledger = map<(UserId, Uuid), Processed>

  datatype Memory = Memory(core: Core, outbox: seq<PendingOutbound>, processed: Ledger)

  /** The durable tables; the outbox in `sequence` order. */
  datatype Disk = Disk(core: Option<Core>, outbox: seq<PendingOutbound>, processed: Ledger)

  datatype Client = Client(identity: Key32, mem: Memory, disk: Disk)

  datatype ClientError =
    | BadEnvelope
    | UnsupportedVersion
    | X3dhFailed
    | RatchetFailed
    | NoPeerSession
    | DecryptFailed
    | Persistence
    | OutboxFull
    | AwaitingPrekeyAdmission
    | ReplayLedgerFull
    | PreviousPrekeyMissing

  // -- The store's transactions ------------------------------------------------

  function SaveCore(d: Disk, core: Core, ok: bool): (r: Option<Disk>)
  {
    if ok then Some(d.(core := Some(core))) else None
  }

  function SaveCoreAndEnqueue(d: Disk, core: Core, item: PendingOutbound, ok: bool): (r: Option<Disk>)
  {
    if ok && !HasId(d.outbox, CorrelationId(item))
    then Some(d.(core := Some(core), outbox := d.outbox + [item])) else None
  }

  function DeleteOutbound(d: Disk, id: Uuid, ok: bool): (r: Option<Disk>)
  {
    if ok then Some(d.(outbox := DeleteId(d.outbox, id))) else None
  }

  function SaveCoreAndDelete(d: Disk, core: Core, id: Uuid, ok: bool): (r: Option<Disk>)
  {
    if ok then Some(d.(core := Some(core), outbox := DeleteId(d.outbox, id))) else None
  }

  function SaveCoreAndReplace(d: Disk, core: Core, oldId: Uuid, item: PendingOutbound, ok: bool): (r: Option<Disk>)
  {
    if ok && !HasId(DeleteId(d.outbox, oldId), CorrelationId(item))
    then Some(d.(core := Some(core), outbox := DeleteId(d.outbox, oldId) + [item])) else None
  }

  function SaveCoreAndProcessed(d: Disk, core: Core, key: (UserId, Uuid), row: Processed, ok: bool): (r: Option<Disk>)
  {
    if ok && key !in d.processed
    then Some(d.(core := Some(core), processed := d.processed[key := row])) else None
  }

  function CommittedRow(l: Ledger, key: (UserId, Uuid)): (r: Ledger)
  {
    if key in l then l[key := l[key].(pendingPlaintext := None)] else l
  }

  function WithoutIds(l: Ledger, ids: seq<Uuid>): (r: Ledger)
  {
    map k | k in l && k.1 !in ids :: l[k]
  }

  function Pruned(l: Ledger, now: nat): (r: Ledger)
  {
    map k | k in l && l[k].processedAt >= SaturatingSub(now, RETENTION_SECS) :: l[k]
  }

  /** Memory and disk move together, or neither moves. */
  function Committed(c: Client, mem: Memory, disk: Option<Disk>): (r: Client)
  {
    if disk.Some? then Client(c.identity, mem, disk.value) else c
  }

  function Reply<T>(disk: Option<Disk>, value: T): (r: Result<T, ClientError>)
  {
    if disk.Some? then Success(value) else Failure(Persistence)
  }

  // -- Positions in the outbox -------------------------------------------------

  function FirstIndex(items: seq<PendingOutbound>, p: PendingOutbound -> bool): (i: Option<nat>)
    ensures i.Some? ==> i.value < |items| && p(items[i.value])
    ensures i.None? ==> forall k :: 0 <= k < |items| ==> !p(items[k])
  {
    if items == [] then None
    else if p(items[0]) then Some(0)
    else match FirstIndex(items[1..], p)
      case Some(i) => Some(i + 1)
      case None => None
  }

  function MessageIndex(items: seq<PendingOutbound>, id: Uuid): (i: Option<nat>)
  {
    FirstIndex(items, (x: PendingOutbound) => x.Message? && x.messageId == id)
  }

  function ReceiptIndex(items: seq<PendingOutbound>, id: Uuid): (i: Option<nat>)
  {
    FirstIndex(items, (x: PendingOutbound) => x.ReadReceipt? && x.receiptId == id)
  }

  function AckIndex(items: seq<PendingOutbound>, id: Uuid): (i: Option<nat>)
  {
    FirstIndex(items, (x: PendingOutbound) => (x.Ack? || x.ReadReceiptAck?) && x.ackId == id)
  }

  function RotationIndex(items: seq<PendingOutbound>, id: Uuid): (i: Option<nat>)
  {
    FirstIndex(items, (x: PendingOutbound) => x.SignedPrekeyRotation? && x.rotationId == id)
  }

  function UploadIndex(items: seq<PendingOutbound>, id: Uuid): (i: Option<nat>)
  {
    FirstIndex(items, (x: PendingOutbound) => x.PrekeyUpload? && x.uploadId == id)
  }

  function AnyUpload(items: seq<PendingOutbound>): (i: Option<nat>)
  {
    FirstIndex(items, (x: PendingOutbound) => x.PrekeyUpload?)
  }

  function AnyRotation(items: seq<PendingOutbound>): (i: Option<nat>)
  {
    FirstIndex(items, (x: PendingOutbound) => x.SignedPrekeyRotation?)
  }

  function FirstMessageTo(items: seq<PendingOutbound>, peer: UserId): (i: Option<nat>)
  {
    FirstIndex(items, (x: PendingOutbound) => x.Message? && x.envelope.header.PrekeyHeader? && x.recipient == peer)
  }

  function AckedIds(item: PendingOutbound): (ids: seq<Uuid>)
    requires item.Ack? || item.ReadReceiptAck?
  {
    if item.Ack? then item.messageIds else item.receiptIds
  }

  // -- Sessions and sending ----------------------------------------------------

  function InitSession(c: Client, peer: UserId, bundle: Bundle, ephemeral: Key32, newPair: Key32, now: nat, ok: bool)
    : (r: (Client, Result<(), ClientError>))
  {
    var secret := AliceInitiate(c.identity, bundle, ephemeral);
    if secret.Failure? then (c, Failure(X3dhFailed))
    else
      var opkId := match bundle.oneTimePrekey case Some(k) => Some(k.0) case None => None;
      var session := PeerSession(InitializeAlice(secret.value, bundle.signedPrekey, newPair),
                                 Some(FirstHeader(ephemeral, bundle.signedPrekeyId, opkId)),
                                 Some(now + ONE_TIME_PREKEY_RESERVATION_SECS));
      var core := c.mem.core.(sessions := c.mem.core.sessions[peer := session]);
      var disk := SaveCore(c.disk, core, ok);
      (Committed(c, c.mem.(core := core), disk), Reply(disk, ()))
  }

  predicate Stale(core: Core, peer: UserId, now: nat)
  {
    peer in core.sessions && core.sessions[peer].first.Some?
    && core.sessions[peer].expiresAt.Some? && core.sessions[peer].expiresAt.value < now
  }

  function ExpireStaleSession(c: Client, peer: UserId, now: nat, ok: bool): (r: (Client, Result<bool, ClientError>))
  {
    if !Stale(c.mem.core, peer, now) then (c, Success(false))
    else
      var core := c.mem.core.(sessions := c.mem.core.sessions - {peer});
      var disk := SaveCore(c.disk, core, ok);
      (Committed(c, c.mem.(core := core), disk), Reply(disk, true))
  }

  function SessionContext(identity: Key32, s: PeerSession): (ctx: EnvelopeContext)
  {
    match s.first
    case Some(h) => PrekeyContext(PROTOCOL_VERSION, identity, h.ephemeral, h.signedPrekeyId, h.oneTimePrekeyId)
    case None => RatchetContext(PROTOCOL_VERSION)
  }

  function SealedEnvelope(identity: Key32, s: PeerSession, m: RatchetMessage): (e: Envelope)
  {
    Envelope(PROTOCOL_VERSION,
             match s.first
             case Some(h) => PrekeyHeader(identity, h.ephemeral, h.signedPrekeyId, h.oneTimePrekeyId, m.header)
             case None => PlainHeader(m.header),
             m.ciphertext)
  }

  /** Seal one message: the session moves on and its first-message header is spent. */
  function AdvanceEncryption(core: Core, identity: Key32, peer: UserId, plaintext: Bytes)
    : (r: Result<(Core, Envelope), ClientError>)
  {
    if peer !in core.sessions then Failure(NoPeerSession)
    else
      var s := core.sessions[peer];
      var sealed := Encrypt(s.ratchet, plaintext, ContextBytes(SessionContext(identity, s)));
      if sealed.Failure? then Failure(RatchetFailed)
      else
        var s' := PeerSession(sealed.value.0, None, if s.first.Some? then None else s.expiresAt);
        Success((core.(sessions := core.sessions[peer := s']), SealedEnvelope(identity, s, sealed.value.1)))
  }

  /** Queue one item together with the core state it belongs to. */
  function Enqueue(c: Client, core: Core, item: PendingOutbound, ok: bool)
    : (r: (Client, Result<PendingOutbound, ClientError>))
  {
    var disk := SaveCoreAndEnqueue(c.disk, core, item, ok);
    (Committed(c, c.mem.(core := core, outbox := c.mem.outbox + [item]), disk), Reply(disk, item))
  }

  function EncryptMessage(c: Client, peer: UserId, id: Uuid, plaintext: Bytes, ok: bool)
    : (r: (Client, Result<PendingOutbound, ClientError>))
  {
    if FirstMessageTo(c.mem.outbox, peer).Some? then (c, Failure(AwaitingPrekeyAdmission))
    else if !HasCapacity(c.mem.outbox, |plaintext|) then (c, Failure(OutboxFull))
    else
      var sealed := AdvanceEncryption(c.mem.core, c.identity, peer, plaintext);
      if sealed.Failure? then (c, Failure(sealed.error))
      else Enqueue(c, sealed.value.0, Message(peer, id, sealed.value.1), ok)
  }

  /** `plaintext` is the encoded list of at most MAX_RECEIPT_BATCH message IDs. */
  function EncryptReadReceipt(c: Client, peer: UserId, id: Uuid, plaintext: Bytes, ok: bool)
    : (r: (Client, Result<PendingOutbound, ClientError>))
  {
    if (|plaintext| + 18) / 3 * 4 > MAX_CIPHERTEXT_BYTES then (c, Failure(RatchetFailed))
    else if !HasCapacity(c.mem.outbox, |plaintext|) then (c, Failure(OutboxFull))
    else
      var sealed := AdvanceEncryption(c.mem.core, c.identity, peer, plaintext);
      if sealed.Failure? then (c, Failure(sealed.error))
      else Enqueue(c, sealed.value.0, ReadReceipt(peer, id, sealed.value.1), ok)
  }

  function QueueAck(c: Client, id: Uuid, ids: seq<Uuid>, ok: bool): (r: (Client, Result<PendingOutbound, ClientError>))
  {
    if !HasCapacity(c.mem.outbox, |ids| * 36) then (c, Failure(OutboxFull))
    else Enqueue(c, c.mem.core, Ack(id, ids), ok)
  }

  function QueueReceiptAck(c: Client, id: Uuid, ids: seq<Uuid>, ok: bool)
    : (r: (Client, Result<PendingOutbound, ClientError>))
  {
    if !HasCapacity(c.mem.outbox, |ids| * 36) then (c, Failure(OutboxFull))
    else Enqueue(c, c.mem.core, ReadReceiptAck(id, ids), ok)
  }

  // -- Retiring outbox items ---------------------------------------------------

  /** Drop the item at `i`; the core state is not written. */
  function Retire(c: Client, i: nat, ok: bool): (r: (Client, Result<(), ClientError>))
    requires i < |c.mem.outbox|
  {
    var disk := DeleteOutbound(c.disk, CorrelationId(c.mem.outbox[i]), ok);
    (Committed(c, c.mem.(outbox := RemoveAt(c.mem.outbox, i)), disk), Reply(disk, ()))
  }

  /** Drop the item at `i` and write a new core state in the same transaction. */
  function RetireWithCore(c: Client, core: Core, i: nat, ok: bool): (r: (Client, Result<(), ClientError>))
    requires i < |c.mem.outbox|
  {
    var disk := SaveCoreAndDelete(c.disk, core, CorrelationId(c.mem.outbox[i]), ok);
    (Committed(c, c.mem.(core := core, outbox := RemoveAt(c.mem.outbox, i)), disk), Reply(disk, ()))
  }

  function ConfirmMessageSent(c: Client, id: Uuid, ok: bool): (r: (Client, Result<(), ClientError>))
  {
    match MessageIndex(c.mem.outbox, id)
    case None => (c, Success(()))
    case Some(i) => Retire(c, i, ok)
  }

  function ConfirmReceiptSent(c: Client, id: Uuid, ok: bool): (r: (Client, Result<(), ClientError>))
  {
    match ReceiptIndex(c.mem.outbox, id)
    case None => (c, Success(()))
    case Some(i) => Retire(c, i, ok)
  }

  /** The server refused a first message: forget it and the session it opened. */
  function RejectMessage(c: Client, id: Uuid, ok: bool): (r: (Client, Result<Option<UserId>, ClientError>))
  {
    match MessageIndex(c.mem.outbox, id)
    case None => (c, Success(None))
    case Some(i) =>
      var peer := c.mem.outbox[i].recipient;
      var (c', r) := RetireWithCore(c, c.mem.core.(sessions := c.mem.core.sessions - {peer}), i, ok);
      (c', if r.Success? then Success(Some(peer)) else Failure(Persistence))
  }

  function ConfirmAcked(c: Client, ackId: Uuid, ids: seq<Uuid>, ok: bool): (r: (Client, Result<(), ClientError>))
  {
    match AckIndex(c.mem.outbox, ackId)
    case None => (c, Success(()))
    case Some(i) =>
      if AckedIds(c.mem.outbox[i]) != ids then (c, Success(()))
      else
        var disk := if ok then Some(c.disk.(outbox := DeleteId(c.disk.outbox, ackId),
                                            processed := WithoutIds(c.disk.processed, ids))) else None;
        (Committed(c, c.mem.(outbox := RemoveAt(c.mem.outbox, i), processed := WithoutIds(c.mem.processed, ids)), disk),
         Reply(disk, ()))
  }

  function ConfirmInboundStored(c: Client, peer: UserId, id: Uuid, ok: bool): (r: (Client, Result<(), ClientError>))
  {
    if (peer, id) !in c.mem.processed then (c, Success(()))
    else
      var disk := if ok then Some(c.disk.(processed := CommittedRow(c.disk.processed, (peer, id)))) else None;
      (Committed(c, c.mem.(processed := CommittedRow(c.mem.processed, (peer, id))), disk), Reply(disk, ()))
  }

  // -- Prekeys -----------------------------------------------------------------

  function RegisteredCore(core: Core, spk: SignedPrekey, opks: map<U32, Key32>, next: U32, now: nat): (r: Core)
  {
    Core(core.sessions,
         SpkRing(Some(spk), [], now, SaturatingIncrement(spk.keyId)),
         OpkStore(opks, map k | k in opks :: now, next))
  }

  /** The ID counter never goes back, and ends above every registered ID. */
  ghost function PersistRegistration(c: Client, spk: SignedPrekey, opks: map<U32, Key32>, now: nat, ok: bool)
    : (r: (Client, Result<(), ClientError>))
  {
    var core := RegisteredCore(c.mem.core, spk, opks, Max(DerivedNext(opks.Keys), c.mem.core.opks.nextId), now);
    var disk := SaveCore(c.disk, core, ok);
    (Committed(c, c.mem.(core := core), disk), Reply(disk, ()))
  }

  function QueueRotation(c: Client, id: Uuid, pair: Key32, now: nat, ok: bool): (r: (Client, Result<bool, ClientError>))
  {
    var ring := c.mem.core.spks;
    if AnyRotation(c.mem.outbox).Some? || !RotationDue(ring, now) then (c, Success(false))
    else if ring.current.None? then (c, Failure(NoPeerSession))
    else if RotationKeyId(ring).None? then (c, Failure(RatchetFailed))
    else if !HasCapacity(c.mem.outbox, 96) then (c, Failure(OutboxFull))
    else
      var item := SignedPrekeyRotation(id, RotationKeyId(ring).value, pair);
      var (c', r) := Enqueue(c, c.mem.core.(spks := Rotated(ring, pair, now)), item, ok);
      (c', if r.Success? then Success(true) else Failure(r.error))
  }

  /** The server would not make the candidate at `i` current: swap it for a new
      one and ask again. */
  function Reconcile(c: Client, i: nat, previouslyAccepted: bool, serverCurrent: U32, newId: Uuid, pair: Key32,
                     now: nat, ok: bool)
    : (r: (Client, Result<Option<PendingOutbound>, ClientError>))
    requires i < |c.mem.outbox|
  {
    var ring := c.mem.core.spks;
    if ring.previous == [] then (c, Failure(PreviousPrekeyMissing))
    else if ReplacementKeyId(ring, serverCurrent).None? then (c, Failure(RatchetFailed))
    else if ring.current.None? then (c, Failure(PreviousPrekeyMissing))
    else
      var item := SignedPrekeyRotation(newId, ReplacementKeyId(ring, serverCurrent).value, pair);
      var core := c.mem.core.(spks := Reconciled(ring, serverCurrent, previouslyAccepted, pair, now));
      var disk := SaveCoreAndReplace(c.disk, core, CorrelationId(c.mem.outbox[i]), item, ok);
      (Committed(c, c.mem.(core := core, outbox := c.mem.outbox[i := item]), disk), Reply(disk, Some(item)))
  }

  /** The server's answer to a rotation. */
  function ConfirmRotated(c: Client, id: Uuid, accepted: bool, previouslyAccepted: bool, serverCurrent: U32,
                          newId: Uuid, pair: Key32, now: nat, ok: bool)
    : (r: (Client, Result<Option<PendingOutbound>, ClientError>))
  {
    match RotationIndex(c.mem.outbox, id)
    case None => (c, Success(None))
    case Some(i) =>
      if accepted && c.mem.outbox[i].keyId == serverCurrent then
        var (c', r) := RetireWithCore(c, c.mem.core.(spks := RotationConfirmed(c.mem.core.spks)), i, ok);
        (c', if r.Success? then Success(None) else Failure(Persistence))
      else Reconcile(c, i, previouslyAccepted, serverCurrent, newId, pair, now, ok)
  }

  function QueueReplenishment(c: Client, id: Uuid, pairs: seq<Key32>, now: nat, ok: bool)
    : (r: (Client, Result<PendingOutbound, ClientError>))
    requires |pairs| == PREKEY_TARGET
    ensures |r.0.mem.outbox| >= |c.mem.outbox|
  {
    match AnyUpload(c.mem.outbox)
    case Some(i) => (c, Success(c.mem.outbox[i]))
    case None =>
      if !BatchFits(c.mem.core.opks) then (c, Failure(RatchetFailed))
      else if !HasCapacity(c.mem.outbox, PREKEY_TARGET * 48) then (c, Failure(OutboxFull))
      else Enqueue(c, c.mem.core.(opks := Replenished(c.mem.core.opks, pairs, now)),
                   PrekeyUpload(id, Batch(c.mem.core.opks, pairs)), ok)
  }

  function UploadIds(item: PendingOutbound): (ids: set<U32>)
    requires item.PrekeyUpload?
  {
    set k | k in item.prekeys :: k.0
  }

  /** Queue the replacement for the accepted upload at `i`, then delete that one. */
  function ReplaceUpload(c: Client, i: nat, newId: Uuid, pairs: seq<Key32>, now: nat, ok: bool, okDelete: bool)
    : (r: (Client, Result<Option<PendingOutbound>, ClientError>))
    requires |pairs| == PREKEY_TARGET && i < |c.mem.outbox|
  {
    var pending := c.mem.outbox[i];
    var (c1, queued) := QueueReplenishment(c.(mem := c.mem.(outbox := RemoveAt(c.mem.outbox, i))), newId, pairs, now,
                                           ok);
    if queued.Failure? then (c, Failure(queued.error))
    else
      match DeleteOutbound(c1.disk, CorrelationId(pending), okDelete)
      case Some(disk) => (c1.(disk := disk), Success(Some(queued.value)))
      case None => (c1.(mem := c1.mem.(outbox := InsertAt(c1.mem.outbox, i, pending))), Failure(Persistence))
  }

  /** The server's answer to an upload. Accepted with too few left, it is followed
      by a replacement upload, committed before the old row is deleted; if that
      deletion fails the replacement stays. */
  function ConfirmUploaded(c: Client, id: Uuid, accepted: bool, remaining: U32,
                           newId: Uuid, pairs: seq<Key32>, now: nat, ok: bool, okDelete: bool)
    : (r: (Client, Result<Option<PendingOutbound>, ClientError>))
    requires |pairs| == PREKEY_TARGET
  {
    match UploadIndex(c.mem.outbox, id)
    case None => (c, Success(None))
    case Some(i) =>
      if !accepted then
        var core := c.mem.core.(opks := Without(c.mem.core.opks, UploadIds(c.mem.outbox[i])));
        var (c', r) := RetireWithCore(c, core, i, ok);
        (c', if r.Success? then Success(None) else Failure(Persistence))
      else if remaining >= PREKEY_TARGET then
        var (c', r) := Retire(c, i, ok);
        (c', if r.Success? then Success(None) else Failure(Persistence))
      else
        ReplaceUpload(c, i, newId, pairs, now, ok, okDelete)
  }

  // -- Receiving ---------------------------------------------------------------

  datatype Inbound = Pending(text: Bytes) | Duplicate | Failed

  function FindSpk(keys: seq<SignedPrekey>, id: U32): (k: Option<SignedPrekey>)
  {
    if keys == [] then None
    else if keys[0].keyId == id then Some(keys[0])
    else FindSpk(keys[1..], id)
  }

  /** The responder's session for a first message, from the private halves it names. */
  function CreateBobSession(core: Core, identity: Key32, h: MessageHeader): (r: Result<SessionState, ClientError>)
    requires h.PrekeyHeader?
  {
    var spk := FindSpk(Held(core.spks), h.signedPrekeyId);
    if spk.None? then Failure(BadEnvelope)
    else if h.oneTimePrekeyId.Some? && h.oneTimePrekeyId.value !in core.opks.keys then Failure(BadEnvelope)
    else
      var opk := match h.oneTimePrekeyId case Some(id) => Some(core.opks.keys[id]) case None => None;
      Success(InitializeBob(BobRespond(identity, spk.value.pair, opk, h.identityKey, h.ephemeralKey), spk.value.pair))
  }

  function EnvelopeAad(e: Envelope): (aad: Bytes)
  {
    ContextBytes(match e.header
                 case PrekeyHeader(ik, ek, spk, opk, _) => PrekeyContext(e.version, ik, ek, spk, opk)
                 case PlainHeader(_) => RatchetContext(e.version))
  }

  /** Open an envelope: the core state afterwards and the plaintext. */
  function Opened(core: Core, identity: Key32, peer: UserId, e: Envelope, newPair: Key32)
    : (r: Result<(Core, Bytes), ClientError>)
  {
    if peer in core.sessions then
      var s := core.sessions[peer];
      var (ratchet, text) := Decrypt(s.ratchet, e.header.ratchet, e.ciphertext, EnvelopeAad(e), newPair);
      if text.Failure? then Failure(DecryptFailed)
      else Success((core.(sessions := core.sessions[peer := s.(ratchet := ratchet)]), text.value))
    else if e.header.PlainHeader? then Failure(NoPeerSession)
    else
      var bob := CreateBobSession(core, identity, e.header);
      if bob.Failure? then Failure(bob.error)
      else
        var (ratchet, text) := Decrypt(bob.value, e.header.ratchet, e.ciphertext, EnvelopeAad(e), newPair);
        if text.Failure? then Failure(DecryptFailed)
        else
          var used := match e.header.oneTimePrekeyId case Some(id) => {id} case None => {};
          Success((Core(core.sessions[peer := PeerSession(ratchet, None, None)], core.spks, Without(core.opks, used)),
                   text.value))
  }

  /** Open an envelope, note it in the ledger, and save both in one transaction. */
  function Receive(c: Client, peer: UserId, id: Uuid, e: Envelope, newPair: Key32, now: nat, ok: bool)
    : (r: (Client, Result<Bytes, ClientError>))
  {
    var o := Opened(c.mem.core, c.identity, peer, e, newPair);
    if o.Failure? then (c, Failure(o.error))
    else
      var row := Processed(Some(o.value.1), now);
      var disk := SaveCoreAndProcessed(c.disk, o.value.0, (peer, id), row, ok);
      (Committed(c, c.mem.(core := o.value.0, processed := c.mem.processed[(peer, id) := row]), disk),
       Reply(disk, o.value.1))
  }

  /** The ledger is pruned on both sides first; that stays even if the rest fails. */
  function DecryptWithMarker(c: Client, peer: UserId, id: Uuid, e: Envelope, newPair: Key32, now: nat,
                             okPrune: bool, ok: bool)
    : (r: (Client, Result<Bytes, ClientError>))
  {
    if e.version != PROTOCOL_VERSION then (c, Failure(UnsupportedVersion))
    else if !okPrune then (c, Failure(Persistence))
    else
      var c1 := c.(mem := c.mem.(processed := Pruned(c.mem.processed, now)),
                   disk := c.disk.(processed := Pruned(c.disk.processed, now)));
      if |c1.mem.processed| >= MAX_PROCESSED_MESSAGES then (c1, Failure(ReplayLedgerFull))
      else Receive(c1, peer, id, e, newPair, now, ok)
  }

  function DecryptToText(c: Client, peer: UserId, id: Uuid, e: Envelope, newPair: Key32, now: nat, okPrune: bool,
                         ok: bool)
    : (r: (Client, Inbound))
  {
    if e.version != PROTOCOL_VERSION then (c, Failed)
    else if (peer, id) in c.mem.processed then
      (c, match c.mem.processed[(peer, id)].pendingPlaintext case Some(text) => Pending(text) case None => Duplicate)
    else
      var (c', r) := DecryptWithMarker(c, peer, id, e, newPair, now, okPrune, ok);
      (c', if r.Success? then Pending(r.value) else Failed)
  }

  // -- Start-up ----------------------------------------------------------------

  ghost function LoadedCore(d: Disk, now: nat): (core: Core)
  {
    match d.core
    case None => Core(map[], SpkRing(None, [], 0, 0), OpkStore(map[], map[], LEGACY_PREKEY_ID_FLOOR))
    case Some(core) => Core(core.sessions, LoadedRing(core.spks), LoadedOpks(core.opks, now))
  }

  ghost function LoadedMemory(d: Disk, now: nat): (m: Memory)
  {
    Memory(LoadedCore(d, now), d.outbox, Pruned(d.processed, now))
  }

  /** Memory is lost; the manager is rebuilt from the tables. */
  ghost function Reload(c: Client, now: nat): (r: Client)
  {
    Client(c.identity, LoadedMemory(c.disk, now), c.disk.(processed := Pruned(c.disk.processed, now)))
  }
}
