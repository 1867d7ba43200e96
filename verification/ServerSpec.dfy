/** The relay's tables and what each of its transactions means. A transaction
    that is rolled back leaves every table as it was. */
module ServerSpec {
  import opened Wire
  import opened Outbox
  import opened PrekeyStores

  const PUBLIC_PREKEY_RETENTION_SECS := 30 * DAY
  const MAX_PREKEYS_PER_USER := 200
  const MAX_QUEUE_PER_USER := 10_000
  const MAX_GLOBAL_ACCEPTANCES := 1_000_000
  const RESERVATION_SECS := DAY
  const PUBLIC_SIGNED_PREKEYS := 2

  /** A one-time prekey of one user. */
  datatype Slot = Slot(user: UserId, keyId: U32)

  datatype PublicPrekey = PublicPrekey(key: Key32, createdAt: nat)

  datatype FetchEvent = FetchEvent(requester: UserId, target: UserId, at: nat)

  datatype Reservation = Reservation(requester: UserId, slot: Slot)

  /** One queued ciphertext; `rowId` is the order of delivery. */
  datatype QueuedRow = QueuedRow(rowId: nat, messageId: Uuid, recipient: UserId, sender: UserId, envelope: Envelope,
                                 createdAt: nat)

  /** The digest of an envelope is injective, so the envelope stands for it. */
  datatype Acceptance = Acceptance(recipient: UserId, sender: UserId, digest: Envelope, acceptedAt: nat)

  /** `signed` lists each user's public signed prekeys, newest first; `itemCount`
      is the stored count of acceptances. */
  datatype Db = Db(
    signed: map<UserId, seq<SignedPrekey>>,
    prekeys: map<Slot, PublicPrekey>,
    highWater: map<UserId, int>,
    events: seq<FetchEvent>,
    reservations: map<Reservation, nat>,
    queue: seq<QueuedRow>,
    acceptances: map<Uuid, Acceptance>,
    itemCount: int)

  // -- One-time prekeys --------------------------------------------------------

  function MaxId(batch: seq<(U32, Key32)>): (m: int)
    ensures forall i :: 0 <= i < |batch| ==> batch[i].0 <= m
    ensures batch != [] ==> exists i :: 0 <= i < |batch| && m == batch[i].0
    ensures -1 <= m
  {
    if batch == [] then -1 else Max(batch[|batch| - 1].0, MaxId(batch[..|batch| - 1]))
  }

  function MinId(batch: seq<(U32, Key32)>): (m: int)
    requires batch != []
    ensures forall i :: 0 <= i < |batch| ==> m <= batch[i].0
    ensures exists i :: 0 <= i < |batch| && m == batch[i].0
  {
    var last := batch[|batch| - 1].0;
    if |batch| == 1 then last
    else
      var rest := MinId(batch[..|batch| - 1]);
      if last <= rest then last else rest
  }

  /** Rows already present are left alone. */
  function InsertedBatch(prekeys: map<Slot, PublicPrekey>, user: UserId, batch: seq<(U32, Key32)>, now: nat)
    : (r: map<Slot, PublicPrekey>)
  {
    if batch == [] then prekeys
    else
      var (id, key) := batch[|batch| - 1];
      var r := InsertedBatch(prekeys, user, batch[..|batch| - 1], now);
      if Slot(user, id) in r then r else r[Slot(user, id) := PublicPrekey(key, now)]
  }

  function WithoutExpired(prekeys: map<Slot, PublicPrekey>, user: UserId, cutoff: int): (r: map<Slot, PublicPrekey>)
  {
    map s | s in prekeys && (s.user != user || prekeys[s].createdAt >= cutoff) :: prekeys[s]
  }

  function Inventory(prekeys: map<Slot, PublicPrekey>, user: UserId): (r: set<Slot>)
  {
    set s | s in prekeys && s.user == user
  }

  /** The first registration of a user ID wins. */
  function Register(d: Db, user: UserId, spk: SignedPrekey, batch: seq<(U32, Key32)>, now: nat): (r: (Db, bool))
  {
    if user in d.highWater then (d, false)
    else (d.(signed := d.signed[user := [spk]],
             prekeys := InsertedBatch(d.prekeys, user, batch, now),
             highWater := d.highWater[user := Max(MaxId(batch), LEGACY_PREKEY_ID_FLOOR - 1)]), true)
  }

  datatype UploadResult = Accepted(remaining: nat) | InventoryFull(remaining: nat) | InvalidSequence | UploadFailed

  function Upload(d: Db, user: UserId, batch: seq<(U32, Key32)>, now: nat): (r: (Db, UploadResult))
  {
    if user !in d.highWater then (d, UploadFailed)
    else
      var kept := WithoutExpired(d.prekeys, user, now - PUBLIC_PREKEY_RETENTION_SECS);
      var existing := |Inventory(kept, user)|;
      if batch != [] && MaxId(batch) <= d.highWater[user] then (d, Accepted(existing))
      else if batch == [] || MinId(batch) <= d.highWater[user] then (d, InvalidSequence)
      else if existing + |batch| > MAX_PREKEYS_PER_USER then (d, InventoryFull(existing))
      else
        var prekeys := InsertedBatch(kept, user, batch, now);
        (d.(prekeys := prekeys, highWater := d.highWater[user := MaxId(batch)]), Accepted(|Inventory(prekeys, user)|))
  }

  datatype FetchLimits = FetchLimits(windowSecs: nat, perRequester: nat, perTarget: nat)

  datatype FetchResult = Fetched(keyId: U32, key: Key32) | Empty | TargetDepleted | RateLimited | FetchFailed

  /** Which fetches a limit counts. */
  datatype Counted = ByRequester(user: UserId) | ByTarget(user: UserId)

  predicate Counts(who: Counted, e: FetchEvent)
  {
    match who case ByRequester(u) => e.requester == u case ByTarget(u) => e.target == u
  }

  function CountFrom(events: seq<FetchEvent>, who: Counted, from: nat): (n: nat)
  {
    if events == [] then 0
    else
      var e := events[|events| - 1];
      CountFrom(events[..|events| - 1], who, from) + if Counts(who, e) && e.at >= from then 1 else 0
  }

  function KeptEvents(events: seq<FetchEvent>, cutoff: nat): (r: seq<FetchEvent>)
  {
    if events == [] then []
    else
      var e := events[|events| - 1];
      KeptEvents(events[..|events| - 1], cutoff) + if e.at < cutoff then [] else [e]
  }

  function LiveReservations(reservations: map<Reservation, nat>, now: nat): (r: map<Reservation, nat>)
  {
    map k | k in reservations && reservations[k] >= now :: reservations[k]
  }

  /** `pick` is the row the delete hits: any one of the target's unexpired prekeys, if it has one. */
  predicate Pickable(d: Db, target: UserId, pick: U32, now: nat)
  {
    var prekeys := WithoutExpired(d.prekeys, target, SaturatingSub(now, PUBLIC_PREKEY_RETENTION_SECS));
    Inventory(prekeys, target) == {} || Slot(target, pick) in prekeys
  }

  function Fetch(d: Db, requester: UserId, target: UserId, pick: U32, now: nat, limits: FetchLimits)
    : (r: (Db, FetchResult))
    requires Pickable(d, target, pick, now)
  {
    var cutoff := SaturatingSub(now, limits.windowSecs);
    var prekeys := WithoutExpired(d.prekeys, target, SaturatingSub(now, PUBLIC_PREKEY_RETENTION_SECS));
    var pruned := d.(reservations := LiveReservations(d.reservations, now), prekeys := prekeys,
                     events := KeptEvents(d.events, cutoff));
    var slot := Slot(target, pick);
    var reservation := Reservation(requester, slot);
    if CountFrom(pruned.events, ByRequester(requester), cutoff) >= limits.perRequester then (d, RateLimited)
    else if CountFrom(pruned.events, ByTarget(target), cutoff) >= limits.perTarget then (d, TargetDepleted)
    else if slot !in prekeys then (pruned, Empty)
    else if reservation in pruned.reservations then (d, FetchFailed)
    else (pruned.(prekeys := prekeys - {slot},
                  events := pruned.events + [FetchEvent(requester, target, now)],
                  reservations := pruned.reservations[reservation := now + RESERVATION_SECS]),
          Fetched(pick, prekeys[slot].key))
  }

  // -- Signed prekeys ----------------------------------------------------------

  datatype RotationResult =
    | RotationAccepted(current: U32)
    | PreviouslyAccepted(current: U32)
    | RotationInvalid(current: U32)
    | RotationConflict(current: U32)
    | RotationFailed

  function FindKey(keys: seq<SignedPrekey>, id: U32): (k: Option<SignedPrekey>)
    ensures k.Some? ==> k.value in keys && k.value.keyId == id
    ensures k.None? ==> forall i :: 0 <= i < |keys| ==> keys[i].keyId != id
  {
    if keys == [] then None else if keys[0].keyId == id then Some(keys[0]) else FindKey(keys[1..], id)
  }

  /** One user's public signed prekeys under a rotation request. */
  function RotateKeys(keys: seq<SignedPrekey>, k: SignedPrekey): (r: (seq<SignedPrekey>, RotationResult))
    requires keys != []
  {
    var current := keys[0].keyId;
    match FindKey(keys, k.keyId)
    case Some(e) =>
      (keys, if e != k then RotationConflict(current)
             else if k.keyId == current then RotationAccepted(current) else PreviouslyAccepted(current))
    case None =>
      if k.keyId <= current then (keys, RotationInvalid(current))
      else (([k] + keys)[..PUBLIC_SIGNED_PREKEYS], RotationAccepted(k.keyId))
  }

  function Rotate(d: Db, user: UserId, k: SignedPrekey): (r: (Db, RotationResult))
  {
    if user !in d.signed || d.signed[user] == [] then (d, RotationFailed)
    else
      var (keys, result) := RotateKeys(d.signed[user], k);
      (d.(signed := d.signed[user := keys]), result)
  }

  // -- The message queue and the acceptance ledger -----------------------------

  datatype EnqueueRequest = EnqueueRequest(messageId: Uuid, recipient: UserId, sender: UserId, envelope: Envelope,
                                           now: nat)

  function SignedPrekeyIdOf(e: Envelope): (id: Option<U32>)
  {
    if e.header.PrekeyHeader? then Some(e.header.signedPrekeyId) else None
  }

  function OneTimePrekeyIdOf(e: Envelope): (id: Option<U32>)
  {
    if e.header.PrekeyHeader? then e.header.oneTimePrekeyId else None
  }

  datatype EnqueueResult =
    | Inserted
    | Duplicate
    | QueueFull
    | RecipientNotFound
    | PrekeyReservationInvalid
    | SignedPrekeyExpired
    | MessageIdConflict
    | AcceptanceLedgerFull

  function QueuedFor(queue: seq<QueuedRow>, user: UserId): (n: nat)
  {
    if queue == [] then 0
    else QueuedFor(queue[..|queue| - 1], user) + if queue[|queue| - 1].recipient == user then 1 else 0
  }

  function AcceptedFrom(acceptances: map<Uuid, Acceptance>, sender: UserId): (ids: set<Uuid>)
  {
    set id | id in acceptances && acceptances[id].sender == sender
  }

  predicate InQueue(queue: seq<QueuedRow>, id: Uuid) { exists i :: 0 <= i < |queue| && queue[i].messageId == id }

  function NextRowId(queue: seq<QueuedRow>): (n: nat)
  {
    if queue == [] then 1 else queue[|queue| - 1].rowId + 1
  }

  /** Reserve a place in the ledger and consume the prekeys a first message names. */
  function Claim(d: Db, q: EnqueueRequest): (r: Result<Db, EnqueueResult>)
  {
    if |AcceptedFrom(d.acceptances, q.sender)| >= MAX_PENDING_OUTBOUND_ITEMS then Failure(AcceptanceLedgerFull)
    else if d.itemCount >= MAX_GLOBAL_ACCEPTANCES then Failure(AcceptanceLedgerFull)
    else
      var live := d.(itemCount := d.itemCount + 1, reservations := LiveReservations(d.reservations, q.now));
      var spk, opk := SignedPrekeyIdOf(q.envelope), OneTimePrekeyIdOf(q.envelope);
      if spk.Some? && (q.recipient !in d.signed || FindKey(d.signed[q.recipient], spk.value).None?)
      then Failure(SignedPrekeyExpired)
      else if opk.None? then Success(live)
      else
        var reservation := Reservation(q.sender, Slot(q.recipient, opk.value));
        if reservation !in live.reservations then Failure(PrekeyReservationInvalid)
        else Success(live.(reservations := live.reservations - {reservation}))
  }

  function Enqueue(d: Db, q: EnqueueRequest): (r: (Db, EnqueueResult))
  {
    if q.messageId in d.acceptances then
      var a := d.acceptances[q.messageId];
      (d, if a.recipient == q.recipient && a.sender == q.sender && a.digest == q.envelope then Duplicate
          else MessageIdConflict)
    else if q.recipient !in d.highWater then (d, RecipientNotFound)
    else if QueuedFor(d.queue, q.recipient) >= MAX_QUEUE_PER_USER then (d, QueueFull)
    else
      match Claim(d, q)
      case Failure(e) => (d, e)
      case Success(claimed) =>
        var row := QueuedRow(NextRowId(d.queue), q.messageId, q.recipient, q.sender, q.envelope, q.now);
        var present := InQueue(d.queue, q.messageId);
        (claimed.(queue := if present then d.queue else d.queue + [row],
                  acceptances := d.acceptances[q.messageId := Acceptance(q.recipient, q.sender, q.envelope, q.now)]),
         if present then Duplicate else Inserted)
  }

  function Unconfirmed(acceptances: map<Uuid, Acceptance>, sender: UserId, ids: seq<Uuid>): (r: map<Uuid, Acceptance>)
  {
    map id | id in acceptances && (acceptances[id].sender != sender || id !in ids) :: acceptances[id]
  }

  function ConfirmAcceptances(d: Db, sender: UserId, ids: seq<Uuid>): (r: Db)
  {
    var left := Unconfirmed(d.acceptances, sender, ids);
    d.(acceptances := left, itemCount := Max(0, d.itemCount - (|d.acceptances| - |left|)))
  }

  /** The rows that stay, in order. */
  function Remaining(queue: seq<QueuedRow>, keep: QueuedRow -> bool): (r: seq<QueuedRow>)
  {
    if queue == [] then []
    else
      var last := queue[|queue| - 1];
      Remaining(queue[..|queue| - 1], keep) + if keep(last) then [last] else []
  }

  function DeleteMessages(d: Db, recipient: UserId, ids: seq<Uuid>): (r: Db)
  {
    d.(queue := Remaining(d.queue, (row: QueuedRow) => row.recipient != recipient || row.messageId !in ids))
  }

  function DeleteInvalidRow(d: Db, recipient: UserId, rowId: nat): (r: Db)
  {
    d.(queue := Remaining(d.queue, (row: QueuedRow) => row.recipient != recipient || row.rowId != rowId))
  }

  function CollectOld(d: Db, cutoff: int): (r: Db)
  {
    d.(queue := Remaining(d.queue, (row: QueuedRow) => row.createdAt >= cutoff))
  }

  // -- Filtering the queue -------------------------------------------------------

  lemma {:induction false} RemainingExactly(queue: seq<QueuedRow>, keep: QueuedRow -> bool, row: QueuedRow)
    ensures row in Remaining(queue, keep) <==> row in queue && keep(row)
  {
    if queue != [] {
      RemainingExactly(queue[..|queue| - 1], keep, row);
      assert row in queue <==> row in queue[..|queue| - 1] || row == queue[|queue| - 1];
    }
  }

  lemma {:induction false} EverythingRemains(rows: seq<QueuedRow>, keep: QueuedRow -> bool)
    requires forall row :: keep(row)
    ensures Remaining(rows, keep) == rows
  {
    if rows != [] {
      EverythingRemains(rows[..|rows| - 1], keep);
    }
  }

  lemma {:induction false} RemainingTwice(rows: seq<QueuedRow>, p: QueuedRow -> bool, q: QueuedRow -> bool,
                                          both: QueuedRow -> bool)
    requires forall row :: both(row) == (p(row) && q(row))
    ensures Remaining(Remaining(rows, p), q) == Remaining(rows, both)
  {
    if rows != [] {
      var front, last := rows[..|rows| - 1], rows[|rows| - 1];
      RemainingTwice(front, p, q, both);
      if p(last) {
        assert (Remaining(front, p) + [last])[..|Remaining(front, p)|] == Remaining(front, p);
      } else {
        assert Remaining(front, p) + [] == Remaining(front, p);
      }
    }
  }

  lemma {:induction false} RemainingSame(rows: seq<QueuedRow>, p: QueuedRow -> bool, q: QueuedRow -> bool)
    requires forall row :: p(row) == q(row)
    ensures Remaining(rows, p) == Remaining(rows, q)
  {
    if rows != [] {
      RemainingSame(rows[..|rows| - 1], p, q);
    }
  }
}
