/** Every run of the relay: registrations, uploads, rotations, fetches, sends,
    confirmations, acknowledgements, deletions and garbage collection, with
    arbitrary arguments in any order. */
module ServerRuns {
  import opened Wire
  import opened Outbox
  import opened PrekeyStores
  import opened ServerSpec

  datatype Event =
    | Registering(user: UserId, spk: SignedPrekey, batch: seq<(U32, Key32)>, now: nat)
    | Uploading(user: UserId, batch: seq<(U32, Key32)>, now: nat)
    | Rotating(user: UserId, k: SignedPrekey)
    | Fetching(requester: UserId, target: UserId, pick: U32, now: nat)
    | Sending(q: EnqueueRequest)
    | Confirming(sender: UserId, ids: seq<Uuid>)
    | Acking(recipient: UserId, ids: seq<Uuid>)
    | Discarding(recipient: UserId, rowId: nat)
    | Collecting(cutoff: int)

  /** The tables, and what the tables forget: every prekey handed out, every
      prekey an admitted message named, every fetch that succeeded, the largest
      cutoff up to which fetch events were pruned, and the time of the last fetch. */
  datatype History = History(db: Db, handed: seq<Slot>, admitted: seq<Slot>, fetches: seq<FetchEvent>,
                             prunedBefore: nat, lastFetch: nat)

  predicate Permitted(h: History, ev: Event)
  {
    ev.Fetching? ==> Pickable(h.db, ev.target, ev.pick, ev.now)
  }

  predicate Admits(r: EnqueueResult) { r == Inserted || r == Duplicate }

  function AfterFetch(h: History, limits: FetchLimits, ev: Event): (r: History)
    requires ev.Fetching? && Permitted(h, ev)
  {
    var (db, result) := Fetch(h.db, ev.requester, ev.target, ev.pick, ev.now, limits);
    var h' := h.(db := db, lastFetch := ev.now);
    if result.Fetched? || result.Empty? then
      var h'' := h'.(prunedBefore := Max(h.prunedBefore, SaturatingSub(ev.now, limits.windowSecs)));
      if result.Empty? then h''
      else h''.(handed := h.handed + [Slot(ev.target, result.keyId)],
                fetches := h.fetches + [FetchEvent(ev.requester, ev.target, ev.now)])
    else h'
  }

  /** The one-time prekey a message names, if any. */
  function Naming(q: EnqueueRequest): (r: seq<Slot>)
  {
    match OneTimePrekeyIdOf(q.envelope) case Some(id) => [Slot(q.recipient, id)] case None => []
  }

  /** A message is admitted when it is answered as accepted and was not already in the ledger. */
  function AfterSend(h: History, q: EnqueueRequest): (r: History)
  {
    var (db, result) := Enqueue(h.db, q);
    h.(db := db,
       admitted := if Admits(result) && q.messageId !in h.db.acceptances then h.admitted + Naming(q) else h.admitted)
  }

  function After(h: History, limits: FetchLimits, ev: Event): (r: History)
    requires Permitted(h, ev)
  {
    match ev
    case Registering(user, spk, batch, now) => h.(db := Register(h.db, user, spk, batch, now).0)
    case Uploading(user, batch, now) => h.(db := Upload(h.db, user, batch, now).0)
    case Rotating(user, k) => h.(db := Rotate(h.db, user, k).0)
    case Fetching(_, _, _, _) => AfterFetch(h, limits, ev)
    case Sending(q) => AfterSend(h, q)
    case Confirming(sender, ids) => h.(db := ConfirmAcceptances(h.db, sender, ids))
    case Acking(recipient, ids) => h.(db := DeleteMessages(h.db, recipient, ids))
    case Discarding(recipient, rowId) => h.(db := DeleteInvalidRow(h.db, recipient, rowId))
    case Collecting(cutoff) => h.(db := CollectOld(h.db, cutoff))
  }

  function Initial(): (h: History)
  {
    History(Db(map[], map[], map[], [], map[], [], map[], 0), [], [], [], 0, 0)
  }

  predicate PermittedRun(limits: FetchLimits, evs: seq<Event>)
    decreases |evs|, 0
  {
    evs == [] || (PermittedRun(limits, evs[..|evs| - 1]) && Permitted(Run(limits, evs[..|evs| - 1]), evs[|evs| - 1]))
  }

  function Run(limits: FetchLimits, evs: seq<Event>): (h: History)
    requires PermittedRun(limits, evs)
    decreases |evs|, 1
  {
    if evs == [] then Initial() else After(Run(limits, evs[..|evs| - 1]), limits, evs[|evs| - 1])
  }

  // -- One-time prekeys are handed out and admitted at most once ----------------

  ghost predicate NoRepeats(s: seq<Slot>) { forall i, j :: 0 <= i < j < |s| ==> s[i] != s[j] }

  /** The high-water mark bounds every ID ever inserted or handed out. */
  ghost predicate Bounded(prekeys: map<Slot, PublicPrekey>, highWater: map<UserId, int>, handed: seq<Slot>)
  {
    && (forall s :: s in prekeys ==> s.user in highWater && s.keyId <= highWater[s.user])
    && (forall s :: s in handed ==> s.user in highWater && s.keyId <= highWater[s.user])
    && (forall s :: s in handed ==> s !in prekeys)
    && NoRepeats(handed)
  }

  /** A handed-out prekey has at most one reservation, and none once admitted. */
  ghost predicate Reserved(reservations: map<Reservation, nat>, handed: seq<Slot>, admitted: seq<Slot>)
  {
    && (forall r :: r in reservations ==> r.slot in handed && r.slot !in admitted)
    && (forall r, r' :: r in reservations && r' in reservations && r.slot == r'.slot ==> r == r')
    && (forall s :: s in admitted ==> s in handed)
    && NoRepeats(admitted)
  }

  ghost predicate SlotsOk(h: History)
  {
    && Bounded(h.db.prekeys, h.db.highWater, h.handed)
    && Reserved(h.db.reservations, h.handed, h.admitted)
  }

  lemma HandingOut(prekeys: map<Slot, PublicPrekey>, highWater: map<UserId, int>, reservations: map<Reservation, nat>,
                   handed: seq<Slot>, admitted: seq<Slot>, requester: UserId, slot: Slot, expires: nat)
    requires Bounded(prekeys, highWater, handed) && Reserved(reservations, handed, admitted) && slot in prekeys
    ensures Bounded(prekeys - {slot}, highWater, handed + [slot])
    ensures Reserved(reservations[Reservation(requester, slot) := expires], handed + [slot], admitted)
    ensures Reservation(requester, slot) !in reservations
  {}

  lemma Claiming(reservations: map<Reservation, nat>, handed: seq<Slot>, admitted: seq<Slot>, r: Reservation)
    requires Reserved(reservations, handed, admitted) && r in reservations
    ensures Reserved(reservations - {r}, handed, admitted + [r.slot])
  {}

  lemma Expiring(prekeys: map<Slot, PublicPrekey>, highWater: map<UserId, int>, reservations: map<Reservation, nat>,
                 handed: seq<Slot>, admitted: seq<Slot>, user: UserId, cutoff: int, now: nat)
    requires Bounded(prekeys, highWater, handed) && Reserved(reservations, handed, admitted)
    ensures Bounded(WithoutExpired(prekeys, user, cutoff), highWater, handed)
    ensures Reserved(LiveReservations(reservations, now), handed, admitted)
  {}

  lemma {:induction false} InsertedRows(prekeys: map<Slot, PublicPrekey>, user: UserId, batch: seq<(U32, Key32)>,
                                        now: nat, s: Slot)
    ensures s in InsertedBatch(prekeys, user, batch, now)
            <==> s in prekeys || (s.user == user && exists i :: 0 <= i < |batch| && batch[i].0 == s.keyId)
  {
    if batch != [] {
      var front, last := batch[..|batch| - 1], batch[|batch| - 1];
      InsertedRows(prekeys, user, front, now, s);
      assert forall i :: 0 <= i < |front| ==> front[i] == batch[i];
      assert s in InsertedBatch(prekeys, user, batch, now)
             <==> s in InsertedBatch(prekeys, user, front, now) || s == Slot(user, last.0);
      if s == Slot(user, last.0) {
        assert batch[|batch| - 1].0 == s.keyId;
      }
    }
  }

  lemma BatchBounded(prekeys: map<Slot, PublicPrekey>, user: UserId, batch: seq<(U32, Key32)>, now: nat)
    ensures forall s :: s in InsertedBatch(prekeys, user, batch, now) && s !in prekeys
                        ==> s.user == user && s.keyId <= MaxId(batch) && batch != [] && MinId(batch) <= s.keyId
  {
    forall s | s in InsertedBatch(prekeys, user, batch, now) && s !in prekeys
      ensures s.user == user && s.keyId <= MaxId(batch) && batch != [] && MinId(batch) <= s.keyId
    {
      InsertedRows(prekeys, user, batch, now, s);
    }
  }

  lemma RaisingBounded(prekeys: map<Slot, PublicPrekey>, highWater: map<UserId, int>, handed: seq<Slot>, user: UserId,
                       batch: seq<(U32, Key32)>, mark: int, now: nat)
    requires Bounded(prekeys, highWater, handed) && MaxId(batch) <= mark
    requires user in highWater ==> batch != [] && highWater[user] < MinId(batch)
    ensures Bounded(InsertedBatch(prekeys, user, batch, now), highWater[user := mark], handed)
  {
    BatchBounded(prekeys, user, batch, now);
    forall s | s in prekeys
      ensures s in InsertedBatch(prekeys, user, batch, now)
    {
      InsertedRows(prekeys, user, batch, now, s);
    }
    hide InsertedBatch, MaxId, MinId;
  }

  lemma UploadKeeps(h: History, user: UserId, batch: seq<(U32, Key32)>, now: nat)
    requires SlotsOk(h)
    ensures SlotsOk(h.(db := Upload(h.db, user, batch, now).0))
  {
    var d := h.db;
    if user in d.highWater && batch != [] && d.highWater[user] < MinId(batch) {
      var cutoff := now - PUBLIC_PREKEY_RETENTION_SECS;
      Expiring(d.prekeys, d.highWater, d.reservations, h.handed, h.admitted, user, cutoff, now);
      RaisingBounded(WithoutExpired(d.prekeys, user, cutoff), d.highWater, h.handed, user, batch, MaxId(batch), now);
    }
    hide Bounded, Reserved;
  }

  lemma RegisterKeeps(h: History, user: UserId, spk: SignedPrekey, batch: seq<(U32, Key32)>, now: nat)
    requires SlotsOk(h)
    ensures SlotsOk(h.(db := Register(h.db, user, spk, batch, now).0))
  {
    if user !in h.db.highWater {
      RaisingBounded(h.db.prekeys, h.db.highWater, h.handed, user, batch, Max(MaxId(batch), LEGACY_PREKEY_ID_FLOOR - 1),
                     now);
    }
    hide Bounded, Reserved;
  }

  lemma FetchKeeps(h: History, limits: FetchLimits, ev: Event)
    requires SlotsOk(h) && ev.Fetching? && Permitted(h, ev)
    ensures SlotsOk(AfterFetch(h, limits, ev))
    ensures !Fetch(h.db, ev.requester, ev.target, ev.pick, ev.now, limits).1.FetchFailed?
  {
    hide CountFrom, KeptEvents, Inventory, Bounded, Reserved, WithoutExpired, LiveReservations;
    var d, slot := h.db, Slot(ev.target, ev.pick);
    var cutoff := SaturatingSub(ev.now, PUBLIC_PREKEY_RETENTION_SECS);
    Expiring(d.prekeys, d.highWater, d.reservations, h.handed, h.admitted, ev.target, cutoff, ev.now);
    var prekeys, live := WithoutExpired(d.prekeys, ev.target, cutoff), LiveReservations(d.reservations, ev.now);
    if slot in prekeys {
      HandingOut(prekeys, d.highWater, live, h.handed, h.admitted, ev.requester, slot, ev.now + RESERVATION_SECS);
    }
  }

  lemma ClaimKeeps(h: History, q: EnqueueRequest)
    requires SlotsOk(h) && Claim(h.db, q).Success?
    ensures SlotsOk(h.(db := Claim(h.db, q).value, admitted := h.admitted + Naming(q)))
  {
    hide AcceptedFrom, FindKey, Bounded, Reserved, LiveReservations;
    Expiring(h.db.prekeys, h.db.highWater, h.db.reservations, h.handed, h.admitted, q.recipient, 0, q.now);
    var live, opk := LiveReservations(h.db.reservations, q.now), OneTimePrekeyIdOf(q.envelope);
    if opk.Some? {
      Claiming(live, h.handed, h.admitted, Reservation(q.sender, Slot(q.recipient, opk.value)));
    } else {
      assert h.admitted + Naming(q) == h.admitted;
    }
  }

  lemma SendKeeps(h: History, q: EnqueueRequest)
    requires SlotsOk(h)
    ensures SlotsOk(AfterSend(h, q))
  {
    hide QueuedFor, InQueue, Bounded, Reserved, NextRowId;
    if Claim(h.db, q).Success? {
      ClaimKeeps(h, q);
    }
    hide Claim;
  }

  lemma StepKeepsSlots(h: History, limits: FetchLimits, ev: Event)
    requires SlotsOk(h) && Permitted(h, ev)
    ensures SlotsOk(After(h, limits, ev))
  {
    hide Bounded, Reserved, AfterFetch, AfterSend, Upload, Register, Pickable, RotateKeys, Remaining, Unconfirmed;
    match ev
    case Registering(user, spk, batch, now) => RegisterKeeps(h, user, spk, batch, now);
    case Uploading(user, batch, now) => UploadKeeps(h, user, batch, now);
    case Fetching(_, _, _, _) => FetchKeeps(h, limits, ev);
    case Sending(q) => SendKeeps(h, q);
    case _ =>
  }

  lemma {:induction false} SlotsKept(limits: FetchLimits, evs: seq<Event>)
    requires PermittedRun(limits, evs)
    ensures SlotsOk(Run(limits, evs))
  {
    if evs != [] {
      SlotsKept(limits, evs[..|evs| - 1]);
      hide SlotsOk, After;
      StepKeepsSlots(Run(limits, evs[..|evs| - 1]), limits, evs[|evs| - 1]);
    }
  }

  /** Over every run, each one-time prekey of each user is handed out at most once,
      and at most one admitted message ever names it, one it was handed out for. */
  lemma PrekeysUsedAtMostOnce(limits: FetchLimits, evs: seq<Event>)
    requires PermittedRun(limits, evs)
    ensures NoRepeats(Run(limits, evs).handed)
    ensures NoRepeats(Run(limits, evs).admitted)
    ensures forall s :: s in Run(limits, evs).admitted ==> s in Run(limits, evs).handed
  {
    SlotsKept(limits, evs);
  }

  // -- The acceptance ledger and the queue --------------------------------------

  ghost predicate QueueOk(queue: seq<QueuedRow>)
  {
    && (forall i, j :: 0 <= i < j < |queue| ==>
          queue[i].rowId < queue[j].rowId && queue[i].messageId != queue[j].messageId)
    && (forall row :: row in queue ==> row.rowId >= 1)
    && (forall u :: QueuedFor(queue, u) <= MAX_QUEUE_PER_USER)
  }

  ghost predicate LedgerOk(acceptances: map<Uuid, Acceptance>, itemCount: int)
  {
    && itemCount == |acceptances| <= MAX_GLOBAL_ACCEPTANCES
    && (forall u :: |AcceptedFrom(acceptances, u)| <= MAX_PENDING_OUTBOUND_ITEMS)
  }

  ghost predicate StoreOk(d: Db) { QueueOk(d.queue) && LedgerOk(d.acceptances, d.itemCount) }

  lemma {:induction false} RemainingRows(queue: seq<QueuedRow>, keep: QueuedRow -> bool)
    ensures forall i :: 0 <= i < |Remaining(queue, keep)| ==>
              Remaining(queue, keep)[i] in queue && keep(Remaining(queue, keep)[i])
    ensures forall u :: QueuedFor(Remaining(queue, keep), u) <= QueuedFor(queue, u)
    ensures (forall i, j :: 0 <= i < j < |queue| ==>
               queue[i].rowId < queue[j].rowId && queue[i].messageId != queue[j].messageId)
            ==> forall i, j :: 0 <= i < j < |Remaining(queue, keep)| ==>
                  Remaining(queue, keep)[i].rowId < Remaining(queue, keep)[j].rowId
                  && Remaining(queue, keep)[i].messageId != Remaining(queue, keep)[j].messageId
  {
    if queue != [] {
      var front, last := queue[..|queue| - 1], queue[|queue| - 1];
      RemainingRows(front, keep);
      var r := Remaining(front, keep);
      assert (r + [last])[..|r|] == r;
      assert r + [] == r;
    }
  }

  lemma RemainingKeeps(queue: seq<QueuedRow>, keep: QueuedRow -> bool)
    requires QueueOk(queue)
    ensures QueueOk(Remaining(queue, keep))
  {
    RemainingRows(queue, keep);
    var r := Remaining(queue, keep);
    forall u
      ensures QueuedFor(r, u) <= MAX_QUEUE_PER_USER
    {
      assert QueuedFor(r, u) <= QueuedFor(queue, u);
    }
  }

  lemma AppendKeeps(queue: seq<QueuedRow>, row: QueuedRow)
    requires QueueOk(queue) && row.rowId == NextRowId(queue) && !InQueue(queue, row.messageId)
    requires QueuedFor(queue, row.recipient) < MAX_QUEUE_PER_USER
    ensures QueueOk(queue + [row])
  {
    assert (queue + [row])[..|queue|] == queue;
    forall u
      ensures QueuedFor(queue + [row], u) == QueuedFor(queue, u) + if row.recipient == u then 1 else 0
    {}
  }

  lemma AcceptingKeeps(acceptances: map<Uuid, Acceptance>, itemCount: int, id: Uuid, a: Acceptance)
    requires LedgerOk(acceptances, itemCount) && id !in acceptances && itemCount < MAX_GLOBAL_ACCEPTANCES
    requires |AcceptedFrom(acceptances, a.sender)| < MAX_PENDING_OUTBOUND_ITEMS
    ensures LedgerOk(acceptances[id := a], itemCount + 1)
  {
    assert acceptances[id := a].Keys == acceptances.Keys + {id};
    var after := acceptances[id := a];
    forall u
      ensures |AcceptedFrom(after, u)| <= MAX_PENDING_OUTBOUND_ITEMS
    {
      AcceptingCounted(acceptances, id, a, u);
    }
  }

  lemma AcceptingCounted(acceptances: map<Uuid, Acceptance>, id: Uuid, a: Acceptance, u: UserId)
    requires id !in acceptances
    ensures |AcceptedFrom(acceptances[id := a], u)| == |AcceptedFrom(acceptances, u)| + if a.sender == u then 1 else 0
  {
    var before, after := AcceptedFrom(acceptances, u), AcceptedFrom(acceptances[id := a], u);
    if a.sender == u {
      assert after == before + {id};
    } else {
      assert after == before;
    }
  }

  /** The stored count is never below the number of rows deleted, so clamping at zero does nothing. */
  lemma ConfirmingKeeps(d: Db, sender: UserId, ids: seq<Uuid>)
    requires StoreOk(d)
    ensures StoreOk(ConfirmAcceptances(d, sender, ids))
    ensures d.itemCount - (|d.acceptances| - |Unconfirmed(d.acceptances, sender, ids)|) >= 0
  {
    var left := Unconfirmed(d.acceptances, sender, ids);
    assert left.Keys <= d.acceptances.Keys;
    SmallerSet(left.Keys, d.acceptances.Keys);
    forall u
      ensures |AcceptedFrom(left, u)| <= MAX_PENDING_OUTBOUND_ITEMS
    {
      SmallerSet(AcceptedFrom(left, u), AcceptedFrom(d.acceptances, u));
    }
  }

  lemma {:induction false} SmallerSet<T>(a: set<T>, b: set<T>)
    requires a <= b
    ensures |a| <= |b|
  {
    assert b == a + (b - a);
  }

  lemma EnqueueKeeps(d: Db, q: EnqueueRequest)
    requires StoreOk(d)
    ensures StoreOk(Enqueue(d, q).0)
  {
    hide QueueOk, LedgerOk, QueuedFor, LiveReservations, FindKey;
    var row := QueuedRow(NextRowId(d.queue), q.messageId, q.recipient, q.sender, q.envelope, q.now);
    if q.messageId !in d.acceptances && QueuedFor(d.queue, q.recipient) < MAX_QUEUE_PER_USER && Claim(d, q).Success? {
      AcceptingKeeps(d.acceptances, d.itemCount, q.messageId, Acceptance(q.recipient, q.sender, q.envelope, q.now));
      if !InQueue(d.queue, q.messageId) {
        AppendKeeps(d.queue, row);
      }
    }
    hide InQueue, NextRowId, AcceptedFrom;
  }

  lemma StepKeepsStore(h: History, limits: FetchLimits, ev: Event)
    requires StoreOk(h.db) && Permitted(h, ev)
    ensures StoreOk(After(h, limits, ev).db)
  {
    hide QueueOk, LedgerOk, Enqueue, Upload, Register, Rotate, Remaining, ConfirmAcceptances, Pickable;
    match ev
    case Registering(user, spk, batch, now) => PrekeysKeepStore(h, ev);
    case Uploading(user, batch, now) => PrekeysKeepStore(h, ev);
    case Rotating(user, k) => PrekeysKeepStore(h, ev);
    case Fetching(_, _, _, _) => FetchKeepsStore(h, limits, ev);
    case Sending(q) => EnqueueKeeps(h.db, q);
    case Confirming(sender, ids) => ConfirmingKeeps(h.db, sender, ids);
    case Acking(recipient, ids) =>
      RemainingKeeps(h.db.queue, (row: QueuedRow) => row.recipient != recipient || row.messageId !in ids);
    case Discarding(recipient, rowId) =>
      RemainingKeeps(h.db.queue, (row: QueuedRow) => row.recipient != recipient || row.rowId != rowId);
    case Collecting(cutoff) => RemainingKeeps(h.db.queue, (row: QueuedRow) => row.createdAt >= cutoff);
  }

  predicate SameStore(d: Db, d': Db)
  {
    d.queue == d'.queue && d.acceptances == d'.acceptances && d.itemCount == d'.itemCount
  }

  lemma PrekeysKeepStore(h: History, ev: Event)
    ensures ev.Registering? ==> SameStore(h.db, Register(h.db, ev.user, ev.spk, ev.batch, ev.now).0)
    ensures ev.Uploading? ==> SameStore(h.db, Upload(h.db, ev.user, ev.batch, ev.now).0)
    ensures ev.Rotating? ==> SameStore(h.db, Rotate(h.db, ev.user, ev.k).0)
  {
    hide InsertedBatch, MaxId, MinId, WithoutExpired, Inventory, RotateKeys;
  }

  lemma FetchKeepsStore(h: History, limits: FetchLimits, ev: Event)
    requires ev.Fetching? && Permitted(h, ev)
    ensures SameStore(h.db, AfterFetch(h, limits, ev).db)
  {
    hide CountFrom, KeptEvents, WithoutExpired, LiveReservations, Pickable;
  }

  /** Over every run: the stored count equals the number of acceptance rows, the
      per-sender, global and per-recipient caps hold, and queued rows have
      increasing row IDs and distinct message IDs. */
  lemma {:induction false} LedgerHolds(limits: FetchLimits, evs: seq<Event>)
    requires PermittedRun(limits, evs)
    ensures StoreOk(Run(limits, evs).db)
  {
    if evs != [] {
      LedgerHolds(limits, evs[..|evs| - 1]);
      hide StoreOk, After;
      StepKeepsStore(Run(limits, evs[..|evs| - 1]), limits, evs[|evs| - 1]);
    }
  }

  /** A refused message changes nothing; one the ledger already holds is answered from the ledger. */
  lemma RefusalChangesNothing(d: Db, q: EnqueueRequest)
    ensures !Admits(Enqueue(d, q).1) || q.messageId in d.acceptances ==> Enqueue(d, q).0 == d
    ensures q.messageId in d.acceptances ==> Enqueue(d, q).1 == Duplicate || Enqueue(d, q).1 == MessageIdConflict
    ensures q.messageId !in d.acceptances && Admits(Enqueue(d, q).1) ==>
              Enqueue(d, q).0.acceptances
              == d.acceptances[q.messageId := Acceptance(q.recipient, q.sender, q.envelope, q.now)]
  {}

  predicate HasRow(d: Db, q: EnqueueRequest)
  {
    q.messageId in d.acceptances
    && var a := d.acceptances[q.messageId]; a.recipient == q.recipient && a.sender == q.sender && a.digest == q.envelope
  }

  predicate Confirms(ev: Event, q: EnqueueRequest)
  {
    ev.Confirming? && ev.sender == q.sender && q.messageId in ev.ids
  }

  /** Once accepted, an identical retry is a duplicate that changes nothing, at any
      later moment before its own sender confirms it: whatever has meanwhile
      happened to the queue, the quotas, the reservations and the clock. */
  lemma {:induction false} RetryIsDuplicate(limits: FetchLimits, evs: seq<Event>, i: nat, q: EnqueueRequest, later: nat)
    requires PermittedRun(limits, evs) && i < |evs| && evs[i] == Sending(q)
    requires PermittedRun(limits, evs[..i]) && Admits(Enqueue(Run(limits, evs[..i]).db, q).1)
    requires forall j :: i < j < |evs| ==> !Confirms(evs[j], q)
    ensures HasRow(Run(limits, evs).db, q)
    ensures Enqueue(Run(limits, evs).db, q.(now := later)) == (Run(limits, evs).db, Duplicate)
  {
    var front, last := evs[..|evs| - 1], evs[|evs| - 1];
    if i == |evs| - 1 {
      assert evs[..i] == front;
      RefusalChangesNothing(Run(limits, front).db, q);
    } else {
      assert front[..i] == evs[..i];
      RetryIsDuplicate(limits, front, i, q, later);
      RowStays(Run(limits, front), limits, last, q);
    }
  }

  lemma RowStays(h: History, limits: FetchLimits, ev: Event, q: EnqueueRequest)
    requires Permitted(h, ev) && HasRow(h.db, q) && !Confirms(ev, q)
    ensures HasRow(After(h, limits, ev).db, q)
  {
    if ev.Sending? { RefusalChangesNothing(h.db, ev.q); }
    hide Enqueue;
  }

  /** A request is answered as a duplicate and changes nothing if and only if its row is
      in the ledger; so once its sender has confirmed it, a late copy is a new message. */
  lemma DuplicateExactly(d: Db, q: EnqueueRequest)
    ensures Enqueue(d, q) == (d, Duplicate) <==> HasRow(d, q)
  {
    RefusalChangesNothing(d, q);
    hide Claim, QueuedFor, NextRowId;
    assert q.messageId !in d.acceptances && Admits(Enqueue(d, q).1) ==> q.messageId in Enqueue(d, q).0.acceptances;
  }

  function LateCopy(e: Envelope): (q: EnqueueRequest) { EnqueueRequest(7, 1, 2, e, 0) }

  /** A message is sent, acknowledged by its recipient and confirmed by its sender. */
  function Confirmed(e: Envelope): (evs: seq<Event>)
  {
    [Registering(1, SignedPrekey(0, 0), [], 0), Sending(LateCopy(e)), Acking(1, [7]), Confirming(2, [7])]
  }

  lemma Extended(limits: FetchLimits, evs: seq<Event>, ev: Event)
    requires PermittedRun(limits, evs) && Permitted(Run(limits, evs), ev)
    ensures PermittedRun(limits, evs + [ev]) && Run(limits, evs + [ev]) == After(Run(limits, evs), limits, ev)
  {
    assert (evs + [ev])[..|evs|] == evs;
    hide Permitted, After;
  }

  lemma Accepts(d: Db, q: EnqueueRequest)
    requires q.messageId !in d.acceptances && q.recipient in d.highWater && d.queue == [] && d.acceptances == map[]
    requires d.itemCount == 0 && q.envelope.header.PlainHeader?
    ensures Enqueue(d, q).1 == Inserted && Enqueue(d, q).0.itemCount == 1
    ensures Enqueue(d, q).0.highWater == d.highWater
    ensures Enqueue(d, q).0.acceptances == map[q.messageId := Acceptance(q.recipient, q.sender, q.envelope, q.now)]
    ensures Enqueue(d, q).0.queue == [QueuedRow(1, q.messageId, q.recipient, q.sender, q.envelope, q.now)]
  {
    assert AcceptedFrom(d.acceptances, q.sender) == {};
    assert QueuedFor(d.queue, q.recipient) == 0;
  }

  lemma Registered(limits: FetchLimits, ev: Event)
    requires ev.Registering? && ev.user == 1
    ensures PermittedRun(limits, [ev])
    ensures var d := Run(limits, [ev]).db;
            1 in d.highWater && d.queue == [] && d.acceptances == map[] && d.itemCount == 0
  {
    assert [] + [ev] == [ev];
    Extended(limits, [], ev);
  }

  /** In a run: a copy of a confirmed message is admitted anew. */
  lemma ConfirmedCopyAdmitted(limits: FetchLimits, e: Envelope)
    requires e.header.PlainHeader?
    ensures PermittedRun(limits, Confirmed(e)) && Enqueue(Run(limits, Confirmed(e)).db, LateCopy(e)).1 == Inserted
  {
    var evs, q := Confirmed(e), LateCopy(e);
    var e1, e2, e3 := [evs[0]], [evs[0]] + [evs[1]], [evs[0]] + [evs[1]] + [evs[2]];
    assert e3 + [evs[3]] == evs;
    hide Run, PermittedRun, Enqueue, DeleteMessages, ConfirmAcceptances;
    Registered(limits, evs[0]);
    var d1 := Run(limits, e1).db;
    Extended(limits, e1, evs[1]);
    Accepts(d1, q);
    Extended(limits, e2, evs[2]);
    Settles(Run(limits, e2).db, q);
    Extended(limits, e3, evs[3]);
    Accepts(Run(limits, evs).db, q);
  }

  lemma Settles(d: Db, q: EnqueueRequest)
    requires d.queue == [QueuedRow(1, q.messageId, q.recipient, q.sender, q.envelope, q.now)] && d.itemCount == 1
    requires d.acceptances == map[q.messageId := Acceptance(q.recipient, q.sender, q.envelope, q.now)]
    ensures var d' := ConfirmAcceptances(DeleteMessages(d, q.recipient, [q.messageId]), q.sender, [q.messageId]);
            d'.queue == [] && d'.acceptances == map[] && d'.itemCount == 0 && d'.highWater == d.highWater
  {
    var keep := (row: QueuedRow) => row.recipient != q.recipient || row.messageId !in [q.messageId];
    RemainingRows(d.queue, keep);
    assert Remaining(d.queue, keep) == [];
    assert DeleteMessages(d, q.recipient, [q.messageId]).queue == [] by {
      RemainingSame(d.queue, keep, (row: QueuedRow) => row.recipient != q.recipient || row.messageId !in [q.messageId]);
    }
    assert Unconfirmed(d.acceptances, q.sender, [q.messageId]) == map[];
    assert d.acceptances.Keys == {q.messageId};
  }

  // -- Fetch limits -------------------------------------------------------------

  /** How many of the fetches a limit counts fall in the closed interval. */
  function CountIn(events: seq<FetchEvent>, who: Counted, lo: nat, hi: nat): (n: nat)
  {
    if events == [] then 0
    else
      var e := events[|events| - 1];
      CountIn(events[..|events| - 1], who, lo, hi) + if Counts(who, e) && lo <= e.at <= hi then 1 else 0
  }

  function Limit(limits: FetchLimits, who: Counted): (n: nat)
  {
    if who.ByRequester? then limits.perRequester else limits.perTarget
  }

  /** The clock the fetches read never goes back. */
  predicate FetchesInOrder(limits: FetchLimits, evs: seq<Event>)
    requires PermittedRun(limits, evs)
  {
    evs == [] ||
    (FetchesInOrder(limits, evs[..|evs| - 1])
     && (evs[|evs| - 1].Fetching? ==> Run(limits, evs[..|evs| - 1]).lastFetch <= evs[|evs| - 1].now))
  }

  lemma {:induction false} KeptKeepsCount(events: seq<FetchEvent>, who: Counted, cutoff: nat, from: nat)
    requires cutoff <= from
    ensures CountFrom(KeptEvents(events, cutoff), who, from) == CountFrom(events, who, from)
  {
    if events != [] {
      var front, e := events[..|events| - 1], events[|events| - 1];
      KeptKeepsCount(front, who, cutoff, from);
      var r := KeptEvents(front, cutoff);
      assert (r + [e])[..|r|] == r;
      assert r + [] == r;
    }
  }

  lemma {:induction false} KeptTwice(events: seq<FetchEvent>, a: nat, b: nat)
    ensures KeptEvents(KeptEvents(events, a), b) == KeptEvents(events, Max(a, b))
  {
    if events != [] {
      var front, e := events[..|events| - 1], events[|events| - 1];
      KeptTwice(front, a, b);
      var r := KeptEvents(front, a);
      assert (r + [e])[..|r|] == r;
      assert r + [] == r;
    }
  }

  lemma {:induction false} InIsFrom(events: seq<FetchEvent>, who: Counted, lo: nat, hi: nat, from: nat)
    requires from <= lo
    ensures CountIn(events, who, lo, hi) <= CountFrom(events, who, from)
  {
    if events != [] { InIsFrom(events[..|events| - 1], who, lo, hi, from); }
  }

  /** The event table is the fetch history, pruned no further than the window reaches. */
  ghost predicate EventsOk(h: History, limits: FetchLimits)
  {
    && h.db.events == KeptEvents(h.fetches, h.prunedBefore)
    && h.prunedBefore <= SaturatingSub(h.lastFetch, limits.windowSecs)
  }

  lemma KeptNew(events: seq<FetchEvent>, e: FetchEvent, cutoff: nat)
    requires e.at >= cutoff
    ensures KeptEvents(events + [e], cutoff) == KeptEvents(events, cutoff) + [e]
  {
    assert (events + [e])[..|events|] == events;
  }

  /** A fetch that succeeds found room in every limit that counts it. */
  lemma RoomFound(d: Db, limits: FetchLimits, ev: Event, who: Counted)
    requires ev.Fetching? && Pickable(d, ev.target, ev.pick, ev.now)
    requires Fetch(d, ev.requester, ev.target, ev.pick, ev.now, limits).1.Fetched?
    requires Counts(who, FetchEvent(ev.requester, ev.target, ev.now))
    ensures CountFrom(d.events, who, SaturatingSub(ev.now, limits.windowSecs)) < Limit(limits, who)
  {
    hide KeptEvents, CountFrom, WithoutExpired, Inventory, LiveReservations;
    var cutoff := SaturatingSub(ev.now, limits.windowSecs);
    KeptKeepsCount(d.events, who, cutoff, cutoff);
  }

  lemma FetchRecorded(h: History, limits: FetchLimits, ev: Event)
    requires EventsOk(h, limits) && ev.Fetching? && Permitted(h, ev) && h.lastFetch <= ev.now
    ensures EventsOk(AfterFetch(h, limits, ev), limits)
  {
    hide KeptEvents, CountFrom, WithoutExpired, Inventory, LiveReservations, Pickable;
    var cutoff := SaturatingSub(ev.now, limits.windowSecs);
    KeptTwice(h.fetches, h.prunedBefore, cutoff);
    KeptNew(h.fetches, FetchEvent(ev.requester, ev.target, ev.now), Max(h.prunedBefore, cutoff));
  }

  lemma OthersFetchNothing(h: History, limits: FetchLimits, ev: Event)
    requires Permitted(h, ev) && !ev.Fetching?
    ensures var h' := After(h, limits, ev);
            h'.fetches == h.fetches && h'.lastFetch == h.lastFetch && h'.prunedBefore == h.prunedBefore
            && h'.db.events == h.db.events
  {
    hide InsertedBatch, MaxId, MinId, WithoutExpired, Inventory, RotateKeys, QueuedFor, AcceptedFrom, FindKey,
         Remaining, Unconfirmed, InQueue, NextRowId, LiveReservations;
  }

  lemma {:induction false} EventsKept(limits: FetchLimits, evs: seq<Event>)
    requires PermittedRun(limits, evs) && FetchesInOrder(limits, evs)
    ensures EventsOk(Run(limits, evs), limits)
  {
    if evs != [] {
      var h, ev := Run(limits, evs[..|evs| - 1]), evs[|evs| - 1];
      EventsKept(limits, evs[..|evs| - 1]);
      if ev.Fetching? {
        FetchRecorded(h, limits, ev);
        assert After(h, limits, ev) == AfterFetch(h, limits, ev);
      } else {
        OthersFetchNothing(h, limits, ev);
      }
      hide AfterFetch, After;
    }
  }

  /** With a clock that never goes back, any closed interval of `windowSecs` seconds
      of the whole history holds at most `perRequester` successful fetches by one
      requester and at most `perTarget` for one target. */
  lemma {:induction false} WindowsLimited(limits: FetchLimits, evs: seq<Event>, who: Counted, lo: nat)
    requires PermittedRun(limits, evs) && FetchesInOrder(limits, evs)
    ensures CountIn(Run(limits, evs).fetches, who, lo, lo + limits.windowSecs) <= Limit(limits, who)
  {
    if evs != [] {
      var front, ev := evs[..|evs| - 1], evs[|evs| - 1];
      WindowsLimited(limits, front, who, lo);
      if ev.Fetching? {
        EventsKept(limits, front);
        WindowAfterFetch(Run(limits, front), limits, ev, who, lo);
        assert Run(limits, evs) == AfterFetch(Run(limits, front), limits, ev);
      } else {
        OthersFetchNothing(Run(limits, front), limits, ev);
      }
      hide AfterFetch, After;
    }
  }

  lemma WindowAfterFetch(h: History, limits: FetchLimits, ev: Event, who: Counted, lo: nat)
    requires EventsOk(h, limits) && ev.Fetching? && Permitted(h, ev) && h.lastFetch <= ev.now
    requires CountIn(h.fetches, who, lo, lo + limits.windowSecs) <= Limit(limits, who)
    ensures CountIn(AfterFetch(h, limits, ev).fetches, who, lo, lo + limits.windowSecs) <= Limit(limits, who)
  {
    hide Fetch, KeptEvents, CountFrom, Pickable;
    var e, cutoff := FetchEvent(ev.requester, ev.target, ev.now), SaturatingSub(ev.now, limits.windowSecs);
    var fetched := Fetch(h.db, ev.requester, ev.target, ev.pick, ev.now, limits).1.Fetched?;
    if fetched && Counts(who, e) && ev.now <= lo + limits.windowSecs {
      RoomFound(h.db, limits, ev, who);
      KeptKeepsCount(h.fetches, who, h.prunedBefore, cutoff);
      InIsFrom(h.fetches, who, lo, lo + limits.windowSecs, cutoff);
    }
    assert (h.fetches + [e])[..|h.fetches|] == h.fetches;
  }
}
