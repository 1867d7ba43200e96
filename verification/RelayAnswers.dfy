/** What each request to the relay is answered and leaves behind, said of the tables as
    sets of rows: for every database and every request, exactly. */
module RelayAnswers {
  import opened Wire
  import opened KeyAlgebra
  import opened Outbox
  import opened PrekeyStores
  import opened ServerSpec
  import Relay = ServerRuns

  // -- Submitting a message ----------------------------------------------------------------

  function RowsFor(queue: seq<QueuedRow>, user: UserId): (r: set<nat>)
  {
    set i | 0 <= i < |queue| && queue[i].recipient == user
  }

  lemma {:induction false} QueuedForCounts(queue: seq<QueuedRow>, user: UserId)
    ensures QueuedFor(queue, user) == |RowsFor(queue, user)|
  {
    if queue != [] {
      var front, n := queue[..|queue| - 1], |queue| - 1;
      QueuedForCounts(front, user);
      assert RowsFor(queue, user) == RowsFor(front, user) + if queue[n].recipient == user then {n} else {};
    }
  }

  predicate QueueHasRoom(d: Db, q: EnqueueRequest) { |RowsFor(d.queue, q.recipient)| < 10_000 }

  /** The sender has fewer than a thousand unconfirmed acceptances, all senders fewer than a million. */
  predicate LedgerHasRoom(d: Db, q: EnqueueRequest)
  {
    |set id | id in d.acceptances && d.acceptances[id].sender == q.sender| < 1000 && d.itemCount < 1_000_000
  }

  /** A first message names a signed prekey that the recipient publishes. */
  ghost predicate SignedPublished(d: Db, q: EnqueueRequest)
  {
    q.envelope.header.PrekeyHeader? ==>
      q.recipient in d.signed && exists k :: k in d.signed[q.recipient] && k.keyId == q.envelope.header.signedPrekeyId
  }

  /** If it names a one-time prekey, the sender has an unexpired reservation of it. */
  predicate OneTimeReserved(d: Db, q: EnqueueRequest)
  {
    var h := q.envelope.header;
    h.PrekeyHeader? && h.oneTimePrekeyId.Some? ==>
      var r := Reservation(q.sender, Slot(q.recipient, h.oneTimePrekeyId.value));
      r in d.reservations && d.reservations[r] >= q.now
  }

  ghost predicate Admissible(d: Db, q: EnqueueRequest)
  {
    q.recipient in d.highWater && QueueHasRoom(d, q) && LedgerHasRoom(d, q) && SignedPublished(d, q)
      && OneTimeReserved(d, q)
  }

  lemma SignedFound(d: Db, q: EnqueueRequest)
    ensures SignedPublished(d, q) <==>
              !(SignedPrekeyIdOf(q.envelope).Some?
                && (q.recipient !in d.signed
                    || FindKey(d.signed[q.recipient], SignedPrekeyIdOf(q.envelope).value).None?))
  {}

  lemma ClaimExactly(d: Db, q: EnqueueRequest)
    ensures Claim(d, q).Success? <==> LedgerHasRoom(d, q) && SignedPublished(d, q) && OneTimeReserved(d, q)
    ensures Claim(d, q).Failure? ==>
              Claim(d, q).error == if !LedgerHasRoom(d, q) then AcceptanceLedgerFull
                                   else if !SignedPublished(d, q) then SignedPrekeyExpired
                                   else PrekeyReservationInvalid
  {
    SignedFound(d, q);
    assert AcceptedFrom(d.acceptances, q.sender) == set id | id in d.acceptances
           && d.acceptances[id].sender == q.sender;
    hide FindKey, SignedPublished;
  }

  /** A message under an ID the ledger does not have is accepted exactly if the recipient is
      registered, the recipient's queue and the ledger have room, and what a first message
      names is published and reserved; otherwise the answer is the first of these that fails. */
  lemma AdmittedExactly(d: Db, q: EnqueueRequest)
    requires q.messageId !in d.acceptances
    ensures Enqueue(d, q).1 ==
              if q.recipient !in d.highWater then RecipientNotFound
              else if !QueueHasRoom(d, q) then QueueFull
              else if !LedgerHasRoom(d, q) then AcceptanceLedgerFull
              else if !SignedPublished(d, q) then SignedPrekeyExpired
              else if !OneTimeReserved(d, q) then PrekeyReservationInvalid
              else if exists row :: row in d.queue && row.messageId == q.messageId then Duplicate
              else Inserted
    ensures Relay.Admits(Enqueue(d, q).1) <==> Admissible(d, q)
  {
    QueuedForCounts(d.queue, q.recipient);
    ClaimExactly(d, q);
    InQueueRow(d.queue, q.messageId);
    hide Claim, QueuedFor, InQueue, NextRowId, SignedPublished, OneTimeReserved, LedgerHasRoom, RowsFor;
  }

  lemma InQueueRow(queue: seq<QueuedRow>, id: Uuid)
    ensures InQueue(queue, id) <==> exists row :: row in queue && row.messageId == id
  {
    if exists row :: row in queue && row.messageId == id {
      var row :| row in queue && row.messageId == id;
      var i :| 0 <= i < |queue| && queue[i] == row;
      assert queue[i].messageId == id;
    }
  }

  /** One under an ID the ledger has: the same message again, or another one. */
  lemma KnownExactly(d: Db, q: EnqueueRequest)
    requires q.messageId in d.acceptances
    ensures Enqueue(d, q).0 == d
    ensures Enqueue(d, q).1 == Duplicate <==>
              var a := d.acceptances[q.messageId];
              a.recipient == q.recipient && a.sender == q.sender && a.digest == q.envelope
    ensures Enqueue(d, q).1 != Duplicate ==> Enqueue(d, q).1 == MessageIdConflict
  {}

  /** What an accepted message changes: one acceptance and, if its ID was not queued, one row
      at the end; the reservation it names and all that have expired are gone. */
  lemma AdmittedLeaves(d: Db, q: EnqueueRequest)
    requires q.messageId !in d.acceptances && Admissible(d, q)
    ensures
      var d' := Enqueue(d, q).0;
      && d'.acceptances == d.acceptances[q.messageId := Acceptance(q.recipient, q.sender, q.envelope, q.now)]
      && d'.itemCount == d.itemCount + 1
      && (if exists row :: row in d.queue && row.messageId == q.messageId then d'.queue == d.queue
          else |d'.queue| == |d.queue| + 1 && d'.queue[..|d.queue|] == d.queue
               && d'.queue[|d.queue|].(rowId := 0) == QueuedRow(0, q.messageId, q.recipient, q.sender, q.envelope,
                                                                q.now)
               && d'.queue[|d.queue|].rowId == if d.queue == [] then 1 else d.queue[|d.queue| - 1].rowId + 1)
      && (forall r :: r in d'.reservations <==>
            && r in d.reservations && d.reservations[r] >= q.now
            && !(q.envelope.header.PrekeyHeader? && q.envelope.header.oneTimePrekeyId.Some?
                 && r == Reservation(q.sender, Slot(q.recipient, q.envelope.header.oneTimePrekeyId.value))))
      && (forall r :: r in d'.reservations ==> d'.reservations[r] == d.reservations[r])
      && d'.signed == d.signed && d'.prekeys == d.prekeys && d'.highWater == d.highWater && d'.events == d.events
  {
    QueuedForCounts(d.queue, q.recipient);
    ClaimExactly(d, q);
    InQueueRow(d.queue, q.messageId);
    ClaimLeaves(d, q);
    hide Claim, QueuedFor, InQueue, SignedPublished, OneTimeReserved, LedgerHasRoom, RowsFor;
  }

  lemma ClaimLeaves(d: Db, q: EnqueueRequest)
    requires Claim(d, q).Success?
    ensures
      var d' := Claim(d, q).value;
      && d'.itemCount == d.itemCount + 1
      && (forall r :: r in d'.reservations <==>
            && r in d.reservations && d.reservations[r] >= q.now
            && !(q.envelope.header.PrekeyHeader? && q.envelope.header.oneTimePrekeyId.Some?
                 && r == Reservation(q.sender, Slot(q.recipient, q.envelope.header.oneTimePrekeyId.value))))
      && (forall r :: r in d'.reservations ==> d'.reservations[r] == d.reservations[r])
      && d' == d.(itemCount := d'.itemCount, reservations := d'.reservations)
  {
    hide FindKey, AcceptedFrom;
  }

  /** Confirming takes out exactly the sender's acceptances that are named. */
  lemma ConfirmedExactly(d: Db, sender: UserId, ids: seq<Uuid>)
    ensures
      var d' := ConfirmAcceptances(d, sender, ids);
      && (forall id ::
            id in d'.acceptances <==> id in d.acceptances && !(d.acceptances[id].sender == sender && id in ids))
      && (forall id :: id in d'.acceptances ==> d'.acceptances[id] == d.acceptances[id])
      && d' == d.(acceptances := d'.acceptances, itemCount := d'.itemCount)
      && (d.itemCount == |d.acceptances| ==> d'.itemCount == |d'.acceptances|)
  {
    assert ConfirmAcceptances(d, sender, ids).acceptances == Unconfirmed(d.acceptances, sender, ids);
  }

  // -- One-time prekeys ---------------------------------------------------------------------

  /** The user's one-time prekeys that are at most thirty days old. */
  function Live(d: Db, user: UserId, now: int): (r: set<Slot>)
  {
    set s | s in d.prekeys && s.user == user && d.prekeys[s].createdAt >= now - 30 * DAY
  }

  function SlotsOf(user: UserId, batch: seq<(U32, Key32)>): (r: set<Slot>)
  {
    set i | 0 <= i < |batch| :: Slot(user, batch[i].0)
  }

  ghost predicate AllAbove(batch: seq<(U32, Key32)>, mark: int) { batch != [] && forall k :: k in batch ==> k.0 > mark }

  ghost predicate NoneAbove(batch: seq<(U32, Key32)>, mark: int) { batch != [] && forall k :: k in batch ==>
                                                                    k.0 <= mark }

  lemma MarkExactly(batch: seq<(U32, Key32)>, mark: int)
    requires batch != []
    ensures AllAbove(batch, mark) <==> MinId(batch) > mark
    ensures NoneAbove(batch, mark) <==> MaxId(batch) <= mark
  {
    var i :| 0 <= i < |batch| && MinId(batch) == batch[i].0;
    var j :| 0 <= j < |batch| && MaxId(batch) == batch[j].0;
    assert batch[i] in batch && batch[j] in batch;
  }

  lemma LiveIsKept(d: Db, user: UserId, now: nat)
    ensures Inventory(WithoutExpired(d.prekeys, user, now - PUBLIC_PREKEY_RETENTION_SECS), user) == Live(d, user, now)
    ensures Inventory(WithoutExpired(d.prekeys, user, SaturatingSub(now, PUBLIC_PREKEY_RETENTION_SECS)),
                      user) == Live(d, user, now)
  {}

  /** An upload is answered by where its IDs lie against the highest one ever accepted, and
      by the room left; the count reported is that of the prekeys that can be fetched. */
  lemma UploadExactly(d: Db, user: UserId, batch: seq<(U32, Key32)>, now: nat)
    requires user in d.highWater
    ensures
      var (d', r) := Upload(d, user, batch, now);
      var live, mark := Live(d, user, now), d.highWater[user];
      && r == (if NoneAbove(batch, mark) then Accepted(|live|)
               else if !AllAbove(batch, mark) then InvalidSequence
               else if |live| + |batch| > 200 then InventoryFull(|live|)
               else Accepted(|live + SlotsOf(user, batch)|))
      && (!(AllAbove(batch, mark) && r.Accepted?) ==> d' == d)
  {
    LiveIsKept(d, user, now);
    if batch != [] {
      MarkExactly(batch, d.highWater[user]);
      var kept := WithoutExpired(d.prekeys, user, now - PUBLIC_PREKEY_RETENTION_SECS);
      InventoryInserted(kept, user, batch, now);
    }
    hide AllAbove, NoneAbove, MinId, MaxId, InsertedBatch, WithoutExpired, Inventory, Live, SlotsOf;
  }

  lemma InventoryInserted(prekeys: map<Slot, PublicPrekey>, user: UserId, batch: seq<(U32, Key32)>, now: nat)
    ensures Inventory(InsertedBatch(prekeys, user, batch, now), user) == Inventory(prekeys, user) + SlotsOf(user, batch)
  {
    forall s: Slot
      ensures s in Inventory(InsertedBatch(prekeys, user, batch, now), user)
              <==> s in Inventory(prekeys, user) + SlotsOf(user, batch)
    {
      Relay.InsertedRows(prekeys, user, batch, now, s);
    }
  }

  /** The rows after an accepted upload: those of others as they were, the user's that had not
      expired, and one for each ID of the batch, with a key the batch gives it. */
  lemma UploadLeaves(d: Db, user: UserId, batch: seq<(U32, Key32)>, now: nat)
    requires user in d.highWater && AllAbove(batch, d.highWater[user]) && Upload(d, user, batch, now).1.Accepted?
    requires forall s :: s in d.prekeys && s.user == user ==> s.keyId <= d.highWater[user]
    ensures
      var d' := Upload(d, user, batch, now).0;
      && (forall s :: s in d'.prekeys <==>
            (s in d.prekeys && (s.user != user || s in Live(d, user, now))) || s in SlotsOf(user, batch))
      && (forall s :: s in d'.prekeys && s !in SlotsOf(user, batch) ==> d'.prekeys[s] == d.prekeys[s])
      && (forall s :: s in SlotsOf(user, batch) ==>
            s in d'.prekeys && (s.keyId, d'.prekeys[s].key) in batch && d'.prekeys[s].createdAt == now)
      && d' == d.(prekeys := d'.prekeys, highWater := d'.highWater)
      && (forall u :: u in d'.highWater <==> u in d.highWater)
      && (forall u :: u in d.highWater && u != user ==> d'.highWater[u] == d.highWater[u])
      && (forall k :: k in batch ==> k.0 <= d'.highWater[user]) && (exists k :: k in batch && k.0 == d'.highWater[user])
  {
    MarkExactly(batch, d.highWater[user]);
    var d' := Upload(d, user, batch, now).0;
    var kept := WithoutExpired(d.prekeys, user, now - PUBLIC_PREKEY_RETENTION_SECS);
    assert d'.prekeys == InsertedBatch(kept, user, batch, now);
    assert forall s :: s in kept <==> s in d.prekeys && (s.user != user || s in Live(d, user, now));
    forall s: Slot
      ensures s in d'.prekeys <==> s in kept || s in SlotsOf(user, batch)
      ensures s in SlotsOf(user, batch) ==> s !in kept
      ensures s in d'.prekeys && s in kept ==> d'.prekeys[s] == kept[s]
      ensures s in d'.prekeys && s !in kept ==> (s.keyId, d'.prekeys[s].key) in batch && d'.prekeys[s].createdAt == now
    {
      Relay.InsertedRows(kept, user, batch, now, s);
      InsertedKeys(kept, user, batch, now, s);
    }
    var j :| 0 <= j < |batch| && MaxId(batch) == batch[j].0;
    assert batch[j] in batch;
    hide InsertedBatch, MinId, WithoutExpired, Live, SlotsOf;
  }

  lemma {:induction false} InsertedKeys(prekeys: map<Slot, PublicPrekey>, user: UserId, batch: seq<(U32, Key32)>,
                                        now: nat, s: Slot)
    ensures
      var r := InsertedBatch(prekeys, user, batch, now);
      s in r ==>
        if s in prekeys then r[s] == prekeys[s]
        else s.user == user && (s.keyId, r[s].key) in batch && r[s].createdAt == now
  {
    if batch != [] {
      var front, last := batch[..|batch| - 1], batch[|batch| - 1];
      InsertedKeys(prekeys, user, front, now, s);
      Relay.InsertedRows(prekeys, user, front, now, s);
      var before, after := InsertedBatch(prekeys, user, front, now), InsertedBatch(prekeys, user, batch, now);
      assert after == if Slot(user, last.0) in before then before
                      else before[Slot(user, last.0) := PublicPrekey(last.1, now)];
      hide InsertedBatch;
      assert forall k :: k in front ==> k in batch;
      assert last in batch;
    }
  }

  /** How many fetches from `from` on count against a limit. */
  function FetchesSince(events: seq<FetchEvent>, who: Counted, from: nat): (r: set<nat>)
  {
    set i | 0 <= i < |events| && events[i].at >= from
            && (match who case ByRequester(u) => events[i].requester == u case ByTarget(u) => events[i].target == u)
  }

  lemma {:induction false} CountIsSize(events: seq<FetchEvent>, who: Counted, from: nat)
    ensures CountFrom(events, who, from) == |FetchesSince(events, who, from)|
  {
    if events != [] {
      var front, n := events[..|events| - 1], |events| - 1;
      CountIsSize(front, who, from);
      assert FetchesSince(events, who, from)
          == FetchesSince(front, who, from) + if Counts(who, events[n]) && events[n].at >= from then {n} else {};
    }
  }

  /** A fetch is refused exactly when the window is full for the requester, or else for the
      target; it is empty exactly when the target has no live prekey, and otherwise hands
      out a live one with the key published under its ID. */
  lemma FetchExactly(d: Db, requester: UserId, target: UserId, pick: U32, now: nat, limits: FetchLimits)
    requires Pickable(d, target, pick, now)
    ensures
      var r := Fetch(d, requester, target, pick, now, limits).1;
      var from := SaturatingSub(now, limits.windowSecs);
      var slot := Slot(target, pick);
      && (r == RateLimited <==> |FetchesSince(d.events, ByRequester(requester), from)| >= limits.perRequester)
      && (r == TargetDepleted
          <==> r != RateLimited && |FetchesSince(d.events, ByTarget(target), from)| >= limits.perTarget)
      && (r == Empty <==> r != RateLimited && r != TargetDepleted && Live(d, target, now) == {})
      && (r.Fetched? ==> slot in Live(d, target, now) && r == Fetched(pick, d.prekeys[slot].key))
      && (r.FetchFailed? ==> Reservation(requester, slot) in d.reservations)
  {
    var from := SaturatingSub(now, limits.windowSecs);
    Relay.KeptKeepsCount(d.events, ByRequester(requester), from, from);
    Relay.KeptKeepsCount(d.events, ByTarget(target), from, from);
    CountIsSize(d.events, ByRequester(requester), from);
    CountIsSize(d.events, ByTarget(target), from);
    LiveIsKept(d, target, now);
    var prekeys := WithoutExpired(d.prekeys, target, SaturatingSub(now, PUBLIC_PREKEY_RETENTION_SECS));
    assert Slot(target, pick) in prekeys <==> Slot(target, pick) in Inventory(prekeys, target);
    hide CountFrom, KeptEvents, LiveReservations, FetchesSince;
  }

  /** What a fetch changes: refused nothing; otherwise what has expired goes, and a key handed
      out leaves the table for a reservation of one day. */
  lemma FetchLeaves(d: Db, requester: UserId, target: UserId, pick: U32, now: nat, limits: FetchLimits)
    requires Pickable(d, target, pick, now)
    ensures
      var (d', r) := Fetch(d, requester, target, pick, now, limits);
      var mine, slot := Reservation(requester, Slot(target, pick)), Slot(target, pick);
      if r.RateLimited? || r.TargetDepleted? || r.FetchFailed? then d' == d
      else
        && (forall s :: s in d'.prekeys <==>
              s in d.prekeys && (s.user != target || s in Live(d, target, now)) && !(r.Fetched? && s == slot))
        && (forall s :: s in d'.prekeys ==> d'.prekeys[s] == d.prekeys[s])
        && (forall x ::
              x in d'.reservations <==> (x in d.reservations && d.reservations[x] >= now) || (r.Fetched? && x == mine))
        && (forall x :: x in d'.reservations ==>
              d'.reservations[x] == if r.Fetched? && x == mine then now + DAY else d.reservations[x])
        && (r.Fetched? ==> d'.events != [] && d'.events[|d'.events| - 1] == FetchEvent(requester, target, now))
        && d' == d.(prekeys := d'.prekeys, reservations := d'.reservations, events := d'.events)
  {
    hide CountFrom, KeptEvents, Inventory;
  }

  // -- Registration and the signed prekey ------------------------------------------------------

  /** The first registration of an ID counts, and no other. */
  lemma RegisterExactly(d: Db, user: UserId, spk: SignedPrekey, batch: seq<(U32, Key32)>, now: nat)
    ensures
      var (d', first) := Register(d, user, spk, batch, now);
      && (first <==> user !in d.highWater)
      && (!first ==> d' == d)
      && (first ==>
            && d'.signed == d.signed[user := [spk]] && d'.highWater.Keys == d.highWater.Keys + {user}
            && (forall u :: u in d.highWater ==> d'.highWater[u] == d.highWater[u])
            && d'.highWater[user] >= 0x7fff_ffff && (forall k :: k in batch ==> k.0 <= d'.highWater[user])
            && (d'.highWater[user] == 0x7fff_ffff || exists k :: k in batch && k.0 == d'.highWater[user])
            && (forall s :: s in d'.prekeys <==> s in d.prekeys || s in SlotsOf(user, batch))
            && (forall s :: s in d.prekeys ==> d'.prekeys[s] == d.prekeys[s])
            && (forall s :: s in d'.prekeys && s !in d.prekeys ==>
                  (s.keyId, d'.prekeys[s].key) in batch && d'.prekeys[s].createdAt == now)
            && d' == d.(signed := d'.signed, prekeys := d'.prekeys, highWater := d'.highWater))
  {
    var d' := Register(d, user, spk, batch, now).0;
    if user !in d.highWater {
      forall s: Slot
        ensures s in d'.prekeys <==> s in d.prekeys || s in SlotsOf(user, batch)
        ensures s in d.prekeys ==> s in d'.prekeys && d'.prekeys[s] == d.prekeys[s]
        ensures s in d'.prekeys && s !in d.prekeys ==>
                  (s.keyId, d'.prekeys[s].key) in batch && d'.prekeys[s].createdAt == now
      {
        Relay.InsertedRows(d.prekeys, user, batch, now, s);
        InsertedKeys(d.prekeys, user, batch, now, s);
      }
      if batch != [] {
        var j :| 0 <= j < |batch| && MaxId(batch) == batch[j].0;
        assert batch[j] in batch;
      }
      hide InsertedBatch, SlotsOf;
    }
  }

  /** A rotation request is answered by what the relay publishes under its ID, and by the ID's
      order against the current one; only a new current key changes the list. */
  lemma RotateExactly(keys: seq<SignedPrekey>, k: SignedPrekey)
    requires keys != [] && forall i, j :: 0 <= i < j < |keys| ==> keys[i].keyId != keys[j].keyId
    ensures
      var (keys', r) := RotateKeys(keys, k);
      var taken := exists e :: e in keys && e.keyId == k.keyId;
      && r == (if k == keys[0] then RotationAccepted(k.keyId)
               else if k in keys then PreviouslyAccepted(keys[0].keyId)
               else if taken then RotationConflict(keys[0].keyId)
               else if k.keyId <= keys[0].keyId then RotationInvalid(keys[0].keyId)
               else RotationAccepted(k.keyId))
      && keys' == if r.RotationAccepted? && k != keys[0] then [k, keys[0]] else keys
  {
    var f := FindKey(keys, k.keyId);
    if f.Some? {
      var i :| 0 <= i < |keys| && keys[i] == f.value;
      if k in keys {
        var j :| 0 <= j < |keys| && keys[j] == k;
      }
    }
    assert ([k] + keys)[..2] == [k, keys[0]];
  }

  // -- Over whole runs -------------------------------------------------------------------------

  /** The user registered or uploaded this key under this ID. */
  ghost predicate Offered(evs: seq<Relay.Event>, user: UserId, id: U32, key: Key32)
  {
    exists i :: 0 <= i < |evs| && Offers(evs[i], user, id, key)
  }

  predicate Offers(ev: Relay.Event, user: UserId, id: U32, key: Key32)
  {
    (ev.Registering? || ev.Uploading?) && ev.user == user && (id, key) in ev.batch
  }

  lemma OfferedGrows(evs: seq<Relay.Event>, ev: Relay.Event, user: UserId, id: U32, key: Key32)
    requires Offered(evs, user, id, key)
    ensures Offered(evs + [ev], user, id, key)
  {
    var i :| 0 <= i < |evs| && Offers(evs[i], user, id, key);
    assert (evs + [ev])[i] == evs[i];
  }

  /** Rows only go, if neither a registration nor an upload brings them. */
  lemma RowWasThere(h: Relay.History, limits: FetchLimits, ev: Relay.Event, s: Slot)
    requires Relay.Permitted(h, ev) && !ev.Registering? && !ev.Uploading?
    ensures s in Relay.After(h, limits, ev).db.prekeys ==>
              s in h.db.prekeys && h.db.prekeys[s] == Relay.After(h, limits, ev).db.prekeys[s]
  {
    hide CountFrom, KeptEvents, Inventory, Enqueue, Remaining, RotateKeys, Unconfirmed, LiveReservations;
    if ev.Sending? {
      SendingKeepsPrekeys(h.db, ev.q);
    }
  }

  /** A row that an event leaves in the table was there, or the event offers it. */
  lemma RowOffered(h: Relay.History, limits: FetchLimits, ev: Relay.Event, s: Slot)
    requires Relay.Permitted(h, ev) && s in Relay.After(h, limits, ev).db.prekeys
    ensures var key := Relay.After(h, limits, ev).db.prekeys[s].key;
            Offers(ev, s.user, s.keyId, key) || (s in h.db.prekeys && h.db.prekeys[s].key == key)
  {
    hide Upload, Register, Rotate, Relay.AfterFetch, Relay.AfterSend, ConfirmAcceptances, DeleteMessages,
         DeleteInvalidRow, CollectOld;
    if ev.Registering? {
      RegisteredRow(h.db, ev.user, ev.spk, ev.batch, ev.now, s);
    } else if ev.Uploading? {
      UploadedRow(h.db, ev.user, ev.batch, ev.now, s);
    } else {
      RowWasThere(h, limits, ev, s);
    }
  }

  lemma RegisteredRow(d: Db, user: UserId, spk: SignedPrekey, batch: seq<(U32, Key32)>, now: nat, s: Slot)
    ensures var d' := Register(d, user, spk, batch, now).0;
            s in d'.prekeys ==>
              (s in d.prekeys && d'.prekeys[s] == d.prekeys[s])
                || (s.user == user && (s.keyId, d'.prekeys[s].key) in batch)
  {
    InsertedKeys(d.prekeys, user, batch, now, s);
    hide InsertedBatch;
  }

  lemma UploadedRow(d: Db, user: UserId, batch: seq<(U32, Key32)>, now: nat, s: Slot)
    ensures var d' := Upload(d, user, batch, now).0;
            s in d'.prekeys ==>
              (s in d.prekeys && d'.prekeys[s] == d.prekeys[s])
                || (s.user == user && (s.keyId, d'.prekeys[s].key) in batch)
  {
    InsertedKeys(WithoutExpired(d.prekeys, user, now - PUBLIC_PREKEY_RETENTION_SECS), user, batch, now, s);
    hide InsertedBatch, MinId, MaxId, Inventory;
  }

  lemma SendingKeepsPrekeys(d: Db, q: EnqueueRequest)
    ensures Enqueue(d, q).0.prekeys == d.prekeys
  {
    hide AcceptedFrom, FindKey, LiveReservations, QueuedFor, InQueue, NextRowId;
  }

  lemma {:induction false} PublishedWasOffered(limits: FetchLimits, evs: seq<Relay.Event>, s: Slot)
    requires Relay.PermittedRun(limits, evs) && s in Relay.Run(limits, evs).db.prekeys
    ensures Offered(evs, s.user, s.keyId, Relay.Run(limits, evs).db.prekeys[s].key)
  {
    if evs != [] {
      var front, ev := evs[..|evs| - 1], evs[|evs| - 1];
      assert front + [ev] == evs;
      var h := Relay.Run(limits, front);
      var key := Relay.Run(limits, evs).db.prekeys[s].key;
      RowOffered(h, limits, ev, s);
      hide Relay.After, Relay.Permitted, Offers;
      if Offers(ev, s.user, s.keyId, key) {
        assert evs[|evs| - 1] == ev;
      } else {
        PublishedWasOffered(limits, front, s);
        OfferedGrows(front, ev, s.user, s.keyId, key);
      }
    }
  }

  /** After every run, a fetch hands out a key that the target registered or uploaded under that ID. */
  lemma FetchedWasOffered(limits: FetchLimits, evs: seq<Relay.Event>, requester: UserId, target: UserId, pick: U32,
                          now: nat)
    requires Relay.PermittedRun(limits, evs) && Pickable(Relay.Run(limits, evs).db, target, pick, now)
    ensures var r := Fetch(Relay.Run(limits, evs).db, requester, target, pick, now, limits).1;
            r.Fetched? ==> r.keyId == pick && Offered(evs, target, pick, r.key)
  {
    var d := Relay.Run(limits, evs).db;
    hide Relay.Run, Relay.PermittedRun;
    FetchExactly(d, requester, target, pick, now, limits);
    if Fetch(d, requester, target, pick, now, limits).1.Fetched? {
      PublishedWasOffered(limits, evs, Slot(target, pick));
    }
    hide Fetch;
  }
}
