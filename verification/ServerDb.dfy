/** The relay's database as it is written: transactions that change the tables
    step by step and roll back on refusal, each proved to do what its
    specification says. */
module ServerDb {
  import opened Wire
  import opened Outbox
  import opened PrekeyStores
  import Spec = ServerSpec
  import opened ServerSpec

  class RelayDb {
    var signed: map<UserId, seq<SignedPrekey>>
    var prekeys: map<Slot, PublicPrekey>
    var highWater: map<UserId, int>
    var events: seq<FetchEvent>
    var reservations: map<Reservation, nat>
    var queue: seq<QueuedRow>
    var acceptances: map<Uuid, Acceptance>
    var itemCount: int

    constructor ()
      ensures View() == Db(map[], map[], map[], [], map[], [], map[], 0)
    {
      signed, prekeys, highWater, events, reservations := map[], map[], map[], [], map[];
      queue, acceptances, itemCount := [], map[], 0;
    }

    function View(): (d: Db)
      reads this
    {
      Db(signed, prekeys, highWater, events, reservations, queue, acceptances, itemCount)
    }

    /** INSERT OR IGNORE for each key of the batch. */
    method InsertBatch(user: UserId, batch: seq<(U32, Key32)>, now: nat)
      modifies `prekeys
      ensures prekeys == InsertedBatch(old(prekeys), user, batch, now)
    {
      var i := 0;
      while i < |batch|
        modifies `prekeys
        invariant 0 <= i <= |batch|
        invariant prekeys == InsertedBatch(old(prekeys), user, batch[..i], now)
      {
        var slot := Slot(user, batch[i].0);
        assert batch[..i + 1][..i] == batch[..i];
        if slot !in prekeys {
          prekeys := prekeys[slot := PublicPrekey(batch[i].1, now)];
        }
        i := i + 1;
      }
      assert batch[..i] == batch;
    }

    static method Extremes(batch: seq<(U32, Key32)>) returns (min: int, max: int)
      ensures max == MaxId(batch)
      ensures batch != [] ==> min == MinId(batch)
    {
      min, max := 0, -1;
      var i := 0;
      while i < |batch|
        invariant 0 <= i <= |batch|
        invariant max == MaxId(batch[..i])
        invariant i > 0 ==> min == MinId(batch[..i])
      {
        assert batch[..i + 1][..i] == batch[..i];
        if i == 0 || batch[i].0 < min {
          min := batch[i].0;
        }
        if batch[i].0 > max {
          max := batch[i].0;
        }
        i := i + 1;
      }
      assert batch[..i] == batch;
    }

    method RegisterAtomic(user: UserId, spk: SignedPrekey, batch: seq<(U32, Key32)>, now: nat) returns (r: bool)
      modifies this
      ensures (View(), r) == Spec.Register(old(View()), user, spk, batch, now)
    {
      if user in highWater {
        return false;
      }
      signed := signed[user := [spk]];
      InsertBatch(user, batch, now);
      var _, max := Extremes(batch);
      highWater := highWater[user := Max(max, LEGACY_PREKEY_ID_FLOOR - 1)];
      return true;
    }

    method UploadPrekeys(user: UserId, batch: seq<(U32, Key32)>, now: nat) returns (r: UploadResult)
      modifies this
      ensures (View(), r) == Spec.Upload(old(View()), user, batch, now)
    {
      if user !in highWater {
        return UploadFailed;
      }
      var rollback := prekeys;
      prekeys := WithoutExpired(prekeys, user, now - PUBLIC_PREKEY_RETENTION_SECS);
      var min, max := Extremes(batch);
      var existing := |Inventory(prekeys, user)|;
      if batch != [] && max <= highWater[user] {
        prekeys := rollback;
        return Accepted(existing);
      }
      if batch == [] || min <= highWater[user] {
        prekeys := rollback;
        return InvalidSequence;
      }
      if existing + |batch| > MAX_PREKEYS_PER_USER {
        prekeys := rollback;
        return InventoryFull(existing);
      }
      InsertBatch(user, batch, now);
      highWater := highWater[user := max];
      return Accepted(|Inventory(prekeys, user)|);
    }

    method RotateSignedPrekey(user: UserId, k: SignedPrekey) returns (r: RotationResult)
      modifies `signed
      ensures (View(), r) == Spec.Rotate(old(View()), user, k)
    {
      if user !in signed || signed[user] == [] {
        return RotationFailed;
      }
      var keys := signed[user];
      assert signed[user := keys] == signed;
      var current, existing := keys[0].keyId, FindKey(keys, k.keyId);
      if existing.Some? {
        if existing.value != k {
          return RotationConflict(current);
        }
        return if k.keyId == current then RotationAccepted(current) else PreviouslyAccepted(current);
      }
      if k.keyId <= current {
        return RotationInvalid(current);
      }
      signed := signed[user := ([k] + keys)[..PUBLIC_SIGNED_PREKEYS]];
      return RotationAccepted(k.keyId);
    }

    method CountEvents(who: Counted, from: nat) returns (n: nat)
      ensures n == CountFrom(events, who, from)
    {
      n := 0;
      var i := 0;
      while i < |events|
        invariant 0 <= i <= |events|
        invariant n == CountFrom(events[..i], who, from)
      {
        assert events[..i + 1][..i] == events[..i];
        if Counts(who, events[i]) && events[i].at >= from {
          n := n + 1;
        }
        i := i + 1;
      }
      assert events[..i] == events;
    }

    method Rollback(d: Db)
      modifies this
      ensures View() == d
    {
      signed, prekeys, highWater, events := d.signed, d.prekeys, d.highWater, d.events;
      reservations, queue, acceptances, itemCount := d.reservations, d.queue, d.acceptances, d.itemCount;
    }

    method FetchForRequester(requester: UserId, target: UserId, now: nat, limits: FetchLimits)
      returns (r: FetchResult, pick: U32)
      modifies this
      ensures Pickable(old(View()), target, pick, now)
      ensures (View(), r) == Spec.Fetch(old(View()), requester, target, pick, now, limits)
    {
      var before := View();
      var cutoff := SaturatingSub(now, limits.windowSecs);
      reservations := LiveReservations(reservations, now);
      prekeys := WithoutExpired(prekeys, target, SaturatingSub(now, PUBLIC_PREKEY_RETENTION_SECS));
      events := KeptEvents(events, cutoff);
      pick := 0;
      var rows := Inventory(prekeys, target);
      if rows != {} {
        var row :| row in rows;
        pick := row.keyId;
      }
      var byRequester := CountEvents(ByRequester(requester), cutoff);
      var byTarget := CountEvents(ByTarget(target), cutoff);
      if byRequester >= limits.perRequester {
        Rollback(before);
        return RateLimited, pick;
      }
      if byTarget >= limits.perTarget {
        Rollback(before);
        return TargetDepleted, pick;
      }
      if rows == {} {
        assert Slot(target, pick) !in rows;
        return Empty, pick;
      }
      var slot := Slot(target, pick);
      var reservation := Reservation(requester, slot);
      r := Fetched(pick, prekeys[slot].key);
      prekeys := prekeys - {slot};
      events := events + [FetchEvent(requester, target, now)];
      if reservation in reservations {
        Rollback(before);
        return FetchFailed, pick;
      }
      reservations := reservations[reservation := now + RESERVATION_SECS];
    }

    method ClaimPrekeyReservation(q: EnqueueRequest) returns (refused: Option<EnqueueResult>)
      modifies `itemCount, `reservations
      ensures match Spec.Claim(old(View()), q)
              case Failure(e) => refused == Some(e)
              case Success(d) => refused.None? && View() == d
    {
      if |AcceptedFrom(acceptances, q.sender)| >= MAX_PENDING_OUTBOUND_ITEMS {
        return Some(AcceptanceLedgerFull);
      }
      if itemCount >= MAX_GLOBAL_ACCEPTANCES {
        return Some(AcceptanceLedgerFull);
      }
      itemCount := itemCount + 1;
      reservations := LiveReservations(reservations, q.now);
      var spk := SignedPrekeyIdOf(q.envelope);
      if spk.Some? && (q.recipient !in signed || FindKey(signed[q.recipient], spk.value).None?) {
        return Some(SignedPrekeyExpired);
      }
      var opk := OneTimePrekeyIdOf(q.envelope);
      if opk.None? {
        return None;
      }
      var reservation := Reservation(q.sender, Slot(q.recipient, opk.value));
      if reservation !in reservations {
        return Some(PrekeyReservationInvalid);
      }
      reservations := reservations - {reservation};
      return None;
    }

    method Enqueue(q: EnqueueRequest) returns (r: EnqueueResult)
      modifies this
      ensures (View(), r) == Spec.Enqueue(old(View()), q)
    {
      hide Claim, QueuedFor;
      var before := View();
      if q.messageId in acceptances {
        var a := acceptances[q.messageId];
        return if a.recipient == q.recipient && a.sender == q.sender && a.digest == q.envelope then Duplicate
               else MessageIdConflict;
      }
      if q.recipient !in highWater {
        return RecipientNotFound;
      }
      if QueuedFor(queue, q.recipient) >= MAX_QUEUE_PER_USER {
        return QueueFull;
      }
      var refused := ClaimPrekeyReservation(q);
      if refused.Some? {
        Rollback(before);
        return refused.value;
      }
      r := Duplicate;
      if !InQueue(queue, q.messageId) {
        queue := queue + [QueuedRow(NextRowId(queue), q.messageId, q.recipient, q.sender, q.envelope, q.now)];
        r := Inserted;
      }
      acceptances := acceptances[q.messageId := Acceptance(q.recipient, q.sender, q.envelope, q.now)];
    }

    method ConfirmAcceptances(sender: UserId, ids: seq<Uuid>)
      modifies `acceptances, `itemCount
      ensures View() == Spec.ConfirmAcceptances(old(View()), sender, ids)
    {
      var deleted := 0;
      var i := 0;
      ghost var rows := acceptances;
      while i < |ids|
        modifies `acceptances
        invariant 0 <= i <= |ids|
        invariant acceptances == Unconfirmed(rows, sender, ids[..i])
        invariant deleted == |rows| - |acceptances|
      {
        assert ids[..i + 1] == ids[..i] + [ids[i]];
        if ids[i] in acceptances && acceptances[ids[i]].sender == sender {
          acceptances := acceptances - {ids[i]};
          deleted := deleted + 1;
        }
        i := i + 1;
      }
      assert ids[..i] == ids;
      itemCount := Max(0, itemCount - deleted);
    }

    /** One delete per ID; together, one pass over the queue. */
    method DeleteMessages(recipient: UserId, ids: seq<Uuid>)
      modifies `queue
      ensures View() == Spec.DeleteMessages(old(View()), recipient, ids)
    {
      var i := 0;
      ghost var rows := queue;
      EverythingRemains(rows, (row: QueuedRow) => row.recipient != recipient || row.messageId !in []);
      while i < |ids|
        modifies `queue
        invariant 0 <= i <= |ids|
        invariant queue == Remaining(rows, (row: QueuedRow) => row.recipient != recipient || row.messageId !in ids[..i])
      {
        var id := ids[i];
        queue := Remaining(queue, (row: QueuedRow) => row.recipient != recipient || row.messageId != id);
        RemainingTwice(rows, (row: QueuedRow) => row.recipient != recipient || row.messageId !in ids[..i],
                       (row: QueuedRow) => row.recipient != recipient || row.messageId != id,
                       (row: QueuedRow) => row.recipient != recipient || row.messageId !in ids[..i + 1]);
        i := i + 1;
      }
      RemainingTwice(rows, (row: QueuedRow) => row.recipient != recipient || row.messageId !in ids[..i],
                     (row: QueuedRow) => true,
                     (row: QueuedRow) => row.recipient != recipient || row.messageId !in ids);
      EverythingRemains(queue, (row: QueuedRow) => true);
    }

    method DeleteInvalidRow(recipient: UserId, rowId: nat)
      modifies `queue
      ensures View() == Spec.DeleteInvalidRow(old(View()), recipient, rowId)
    {
      queue := Remaining(queue, (row: QueuedRow) => row.recipient != recipient || row.rowId != rowId);
      RemainingSame(old(queue), (row: QueuedRow) => row.recipient != recipient || row.rowId != rowId,
                    (row: QueuedRow) => row.recipient != recipient || row.rowId != rowId);
    }
  }
}
