/** The retention times of one-time prekeys fit together exactly: the private half
    is kept 61 days, the public one 30, a reservation one day, so the way to the relay
    and the way back may take 30 days together and no second more. */
module PrekeyTightness {
  import opened Wire
  import opened KeyAlgebra
  import opened Outbox
  import opened PrekeyStores
  import opened ServerSpec
  import opened ClientPrekeys
  import opened PrekeyWorld
  import opened PrekeyLifetime
  import ClientSpec
  import ClientInvariant
  import Runs = ClientRuns
  import Relay = ServerRuns
  import Witnesses = ClientWitnesses

  const BOB: UserId := 1
  const SOMEONE: UserId := 2
  const FIRST: U32 := LEGACY_PREKEY_ID_FLOOR

  /** Bob registers with one one-time prekey at an unused relay. */
  function Bobs(): (p: Setup)
  {
    Setup(BOB, FetchLimits(3600, 10, 20), 0, SignedPrekey(0, 0), map[1 := 0], [(1, 0)], [], 1)
  }

  ghost predicate Reachable(w: World)
  {
    Registrable(Bobs()) && exists evs :: PermittedRun(Bobs(), evs) && Run(Bobs(), evs) == w
  }

  lemma Next(w: World, ev: Event)
    requires Reachable(w) && Permitted(Bobs(), w, ev)
    ensures Reachable(Step(Bobs(), w, ev))
  {
    hide Permitted, Step, Registrable;
    var evs :| PermittedRun(Bobs(), evs) && Run(Bobs(), evs) == w;
    assert (evs + [ev])[..|evs|] == evs;
    assert Run(Bobs(), evs + [ev]) == Step(Bobs(), w, ev);
  }

  lemma PassNext(w: World, secs: nat) returns (w': World)
    requires Reachable(w)
    ensures Reachable(w') && w' == w.(now := w.now + secs)
  {
    hide Reachable;
    Next(w, Pass(secs));
    w' := w.(now := w.now + secs);
  }

  lemma LocalNext(w: World, ev: Runs.Event) returns (w': World)
    requires Reachable(w) && Runs.Permitted(w.client, w.log, ev) && OnTime(ev, w.now) && Heard(w.answers, ev)
    requires (ev.DoReplenish? || ev.DoConfirmUploaded?) && DrawnNew(w.log, ev)
    ensures Reachable(w') && w' == AfterLocal(w, ev)
    ensures w'.client == Runs.Step(w.client, w.log, ev).0 && w'.relay == w.relay && w'.now == w.now
            && w'.answers == w.answers
    ensures w'.log == w.log + Runs.Items(w'.client.disk.outbox) && w'.book.used == w.book.used
    ensures w'.book.admitted == w.book.admitted && w'.book.published == w.book.published
    ensures !Refuses(ev) ==> w'.book.refused == w.book.refused
  {
    hide Reachable, Runs.Permitted, Runs.Step;
    Next(w, Local(ev));
    w' := AfterLocal(w, ev);
  }

  lemma UploadNext(w: World, x: PendingOutbound) returns (w': World)
    requires Reachable(w) && x in w.log && x.PrekeyUpload?
    ensures Reachable(w') && w' == AfterUpload(Bobs(), w, x)
    ensures w'.relay.db == Upload(w.relay.db, BOB, x.prekeys, w.now).0
  {
    hide Reachable, Upload;
    Next(w, Deliver(x));
    w' := AfterUpload(Bobs(), w, x);
  }

  lemma ServeNext(w: World, ev: Relay.Event) returns (w': World)
    requires Reachable(w) && Relay.Permitted(w.relay, ev) && OthersRequest(BOB, ev, w.now)
    ensures Reachable(w') && w' == AfterServe(Bobs(), w, ev)
  {
    hide Reachable, Relay.Permitted, Relay.After;
    Next(w, Serve(ev));
    w' := AfterServe(Bobs(), w, ev);
  }

  lemma ReachableOk(w: World)
    requires Reachable(w)
    ensures WorldOk(Bobs(), w)
  {
    var evs :| PermittedRun(Bobs(), evs) && Run(Bobs(), evs) == w;
    RunKeeps(Bobs(), evs);
  }

  // -- Bob's client --------------------------------------------------------------------

  function Stored(): (s: OpkStore) { OpkStore(map[1 := 0], map[1 := 1], FIRST) }

  ghost predicate Waiting(c: ClientSpec.Client, s: OpkStore, out: seq<PendingOutbound>)
  {
    c.mem.core.opks == s && c.mem.outbox == out && c.disk.outbox == out
  }

  function NewUpload(id: Uuid, s: OpkStore): (x: PendingOutbound)
    requires BatchFits(s)
    ensures x.PrekeyUpload? && x.uploadId == id
  {
    PrekeyUpload(id, Batch(s, Witnesses.Pairs()))
  }

  lemma Replenishing(c: ClientSpec.Client, log: set<PendingOutbound>, s: OpkStore, id: Uuid, now: nat)
    requires Waiting(c, s, []) && BatchFits(s)
    ensures var ev := Runs.DoReplenish(id, Witnesses.Pairs(), now, true);
            Runs.Permitted(c, log, ev)
            && Waiting(Runs.Step(c, log, ev).0, Replenished(s, Witnesses.Pairs(), now), [NewUpload(id, s)])
  {
    hide Replenished, Batch;
    assert ClientSpec.AnyUpload([]).None? && TotalLength([]) == 0;
    assert [] + [NewUpload(id, s)] == [NewUpload(id, s)];
  }

  /** The answer to the one upload that is waiting. */
  function Confirming(id: Uuid, accepted: bool, remaining: U32, now: nat): (ev: Runs.Event)
  {
    Runs.DoConfirmUploaded(id, accepted, remaining, id + 1, Witnesses.Pairs(), now, true, true)
  }

  lemma Answered(c: ClientSpec.Client, log: set<PendingOutbound>, s: OpkStore, x: PendingOutbound, accepted: bool,
                 remaining: U32, now: nat)
    requires x.PrekeyUpload? && Waiting(c, s, [x]) && (accepted ==> BatchFits(s))
    ensures var ev := Confirming(x.uploadId, accepted, remaining, now);
            Runs.Permitted(c, log, ev)
            && var c' := Runs.Step(c, log, ev).0;
               if !accepted then Waiting(c', Without(s, ClientSpec.UploadIds(x)), [])
               else if remaining >= PREKEY_TARGET then Waiting(c', s, [])
               else c'.mem.core.opks == Replenished(s, Witnesses.Pairs(), now)
  {
    hide Replenished, Batch, ClientSpec.UploadIds, Without;
    assert ClientSpec.UploadIndex([x], x.uploadId) == Some(0);
    assert RemoveAt([x], 0) == [];
    assert DeleteId([x], x.uploadId) == [];
    assert ClientSpec.AnyUpload([]).None? && TotalLength([]) == 0;
  }

  // -- The relay -------------------------------------------------------------------------

  function Unused(prekeys: map<Slot, PublicPrekey>, mark: int): (d: Db)
  {
    Db(map[BOB := [SignedPrekey(0, 0)]], prekeys, map[BOB := mark], [], map[], [], map[], 0)
  }

  function Registered(): (d: Db) { Unused(map[Slot(BOB, 1) := PublicPrekey(0, 1)], FIRST - 1) }

  /** The store after the first batch, made at time one. */
  function Batched(): (s: OpkStore) { Replenished(Stored(), Witnesses.Pairs(), 1) }

  function First(): (x: PendingOutbound) { NewUpload(1, Stored()) }

  lemma BatchEnds(s: OpkStore, id: Uuid)
    requires BatchFits(s)
    ensures var b := NewUpload(id, s).prekeys; MinId(b) == s.nextId && MaxId(b) == s.nextId + PREKEY_TARGET - 1
  {
    var b := NewUpload(id, s).prekeys;
    assert b[0].0 == s.nextId && b[PREKEY_TARGET - 1].0 == s.nextId + PREKEY_TARGET - 1;
  }

  /** Every public key of Bob's is at least as old as that. */
  ghost predicate PublicBefore(d: Db, t: nat) { forall s :: s in d.prekeys ==> d.prekeys[s].createdAt <= t }

  /** A batch above the mark goes in while there is room. */
  lemma Accepting(d: Db, s: OpkStore, id: Uuid, now: nat)
    requires BatchFits(s) && BOB in d.highWater && d.highWater[BOB] < s.nextId
    requires |Inventory(WithoutExpired(d.prekeys, BOB, now - PUBLIC_PREKEY_RETENTION_SECS), BOB)| <= PREKEY_TARGET
    ensures var (d', r) := Upload(d, BOB, NewUpload(id, s).prekeys, now);
            && d' == d.(prekeys := d'.prekeys, highWater := d.highWater[BOB := s.nextId + PREKEY_TARGET - 1])
            && d'.prekeys == InsertedBatch(WithoutExpired(d.prekeys, BOB, now - PUBLIC_PREKEY_RETENTION_SECS), BOB,
                                           NewUpload(id, s).prekeys, now)
            && r == Accepted(|Inventory(d'.prekeys, BOB)|)
  {
    hide MinId, MaxId, InsertedBatch, WithoutExpired, Inventory;
    BatchEnds(s, id);
    assert |NewUpload(id, s).prekeys| == PREKEY_TARGET;
    hide Batch;
  }

  lemma BatchPublic(prekeys: map<Slot, PublicPrekey>, s: OpkStore, id: Uuid, now: nat)
    requires BatchFits(s)
    ensures var r := InsertedBatch(prekeys, BOB, NewUpload(id, s).prekeys, now);
            && Slot(BOB, s.nextId) in r
            && forall x :: x in r ==> if x in prekeys then r[x] == prekeys[x] else r[x].createdAt == now
  {
    var b := NewUpload(id, s).prekeys;
    assert b[0] == (s.nextId, Witnesses.Pairs()[0]);
    Relay.InsertedRows(prekeys, BOB, b, now, Slot(BOB, s.nextId));
    InsertedExtends(prekeys, BOB, b, now);
    hide InsertedBatch, Batch, Ids;
  }

  lemma FirstUploaded(now: nat)
    requires now >= 1
    ensures var (d, r) := Upload(Registered(), BOB, First().prekeys, now);
            && d == Unused(d.prekeys, FIRST + PREKEY_TARGET - 1) && Slot(BOB, FIRST) in d.prekeys
            && d.prekeys[Slot(BOB, FIRST)].createdAt == now && PublicBefore(d, now)
            && r == Accepted(|Inventory(d.prekeys, BOB)|)
  {
    hide InsertedBatch, Upload, NewUpload;
    var d := Registered();
    var kept := WithoutExpired(d.prekeys, BOB, now - PUBLIC_PREKEY_RETENTION_SECS);
    Fewer(Inventory(kept, BOB), Slot(BOB, 1));
    Accepting(d, Stored(), 1, now);
    BatchPublic(kept, Stored(), 1, now);
  }

  lemma Fewer<T>(s: set<T>, x: T)
    requires s <= {x}
    ensures |s| <= 1
  {
    assert s == {} || s == {x};
  }

  lemma Begun() returns (w: World)
    ensures Reachable(w) && Waiting(w.client, Stored(), []) && w.relay.db == Registered() && w.now == 1 && w.log == {}
    ensures w.book.used == {} && w.book.refused == {}
  {
    var p := Bobs();
    assert Relay.Run(p.limits, []) == Relay.Initial();
    assert Registrable(p);
    w := Start(p);
    assert PermittedRun(p, []) && Run(p, []) == w;
    assert w.client.mem.core.opks == Stored();
    assert InsertedBatch(map[], BOB, [(1, 0)], 1) == map[Slot(BOB, 1) := PublicPrekey(0, 1)] by {
      assert [(1, 0)][..0] == [];
    }
    assert MaxId([(1, 0)]) == 1 by {
      assert [(1, 0)][..0] == [];
    }
  }

  /** A batch is made at time one, and time passes. */
  lemma Prepared(lag: nat) returns (w: World)
    ensures Reachable(w) && Waiting(w.client, Batched(), [First()]) && w.log == {First()} && w.relay.db == Registered()
    ensures w.now == 1 + lag && w.book.used == {} && w.book.refused == {}
    ensures FIRST in w.book.made && w.book.made[FIRST] == 1
  {
    hide Reachable, Runs.Permitted, Runs.Step, Replenished, Batch, AfterLocal;
    var w0 := Begun();
    Replenishing(w0.client, w0.log, Stored(), 1, 1);
    var w1 := LocalNext(w0, Runs.DoReplenish(1, Witnesses.Pairs(), 1, true));
    w := PassNext(w1, lag);
    FirstMade(w);
  }

  lemma FirstMade(w: World)
    requires Reachable(w) && w.client.mem.core.opks == Batched()
    ensures FIRST in w.book.made && w.book.made[FIRST] == 1
  {
    ReachableOk(w);
    hide Reachable, ClientInvariant.Inv, RelayOk, RefusedOk;
    assert FIRST in Batched().keys && Batched().createdAt[FIRST] == 1 by {
      Renewed(Stored(), Witnesses.Pairs(), 1, FIRST);
    }
    assert KeyOk(w.client.mem.core.opks, w.book, w.now, FIRST);
  }

  // -- A first message that comes too late -------------------------------------------------

  /** The key was made at time one, published at `t`, and its private half is still there. */
  ghost predicate PublishedAt(w: World, t: nat)
  {
    && Reachable(w) && Waiting(w.client, Batched(), [First()]) && w.log == {First()}
    && w.book.used == {} && w.book.refused == {} && FIRST in w.book.made && w.book.made[FIRST] == 1
    && Slot(BOB, FIRST) in w.book.published && w.book.published[Slot(BOB, FIRST)] == t
  }

  lemma Delivered(lag: nat) returns (w: World)
    ensures PublishedAt(w, 1 + lag) && w.now == 1 + lag
    ensures var d := w.relay.db;
            && d == Unused(d.prekeys, FIRST + PREKEY_TARGET - 1) && PublicBefore(d, 1 + lag)
            && Slot(BOB, FIRST) in d.prekeys && d.prekeys[Slot(BOB, FIRST)].createdAt == 1 + lag
  {
    hide Reachable, Replenished, Upload, NewUpload;
    var w0 := Prepared(lag);
    FirstUploaded(1 + lag);
    w := UploadNext(w0, First());
    PublishedThen(w, 1 + lag);
  }

  lemma PublishedThen(w: World, t: nat)
    requires Reachable(w) && Slot(BOB, FIRST) in w.relay.db.prekeys
             && w.relay.db.prekeys[Slot(BOB, FIRST)].createdAt == t
    ensures Slot(BOB, FIRST) in w.book.published && w.book.published[Slot(BOB, FIRST)] == t
  {
    ReachableOk(w);
    hide Reachable, ClientInvariant.Inv, HeldOk, RefusedOk;
  }

  /** Someone fetches the key on the last day it is public. */
  lemma Fetching(h: Relay.History, t: nat)
    requires h.db == Unused(h.db.prekeys, FIRST + PREKEY_TARGET - 1) && PublicBefore(h.db, t)
    requires Slot(BOB, FIRST) in h.db.prekeys && h.db.prekeys[Slot(BOB, FIRST)].createdAt == t
    ensures var now := t + PUBLIC_PREKEY_RETENTION_SECS;
            var ev := Relay.Fetching(SOMEONE, BOB, FIRST, now);
            Relay.Permitted(h, ev)
            && var d := Relay.After(h, Bobs().limits, ev).db;
               && d == Unused(d.prekeys, FIRST + PREKEY_TARGET - 1).(
                         events := d.events,
                         reservations := map[Reservation(SOMEONE, Slot(BOB, FIRST)) := now + RESERVATION_SECS])
               && PublicBefore(d, t)
  {
    var none: map<Reservation, nat> := map[];
    assert LiveReservations(none, t + PUBLIC_PREKEY_RETENTION_SECS) == none;
  }

  function FirstMessage(now: nat): (q: EnqueueRequest)
  {
    EnqueueRequest(1, BOB, SOMEONE,
                   Envelope(ClientSpec.PROTOCOL_VERSION, PrekeyHeader(0, 0, 0, Some(FIRST), RatchetHeader(0, 0, 0)),
                            Sealed(MessageKey(ChainStart(Agreed([]), DhOutput(0, 0))), [], [])), now)
  }

  /** And sends on the last day the reservation stands. */
  lemma Sending(d: Db, now: nat)
    requires d == Unused(d.prekeys, FIRST + PREKEY_TARGET - 1).(
                    events := d.events, reservations := map[Reservation(SOMEONE, Slot(BOB, FIRST)) := now])
    ensures var d' := Enqueue(d, FirstMessage(now)).0;
            && d'.prekeys == d.prekeys && d'.highWater == d.highWater
            && OneTimeAdmitted(d, BOB, Relay.Sending(FirstMessage(now)), now) == {Admission(FIRST, now)}
  {
    assert AcceptedFrom(map[], SOMEONE) == {};
    assert FindKey([SignedPrekey(0, 0)], 0).Some?;
  }

  lemma Admitted(lag: nat) returns (w: World)
    ensures PublishedAt(w, 1 + lag) && w.now == 1 + lag + LAST_ADMISSION && Admission(FIRST, w.now) in w.book.admitted
    ensures w.relay.db.highWater == map[BOB := FIRST + PREKEY_TARGET - 1] && PublicBefore(w.relay.db, 1 + lag)
  {
    hide Reachable, Replenished, NewUpload, Fetch, Enqueue, Pickable, OneTimeAdmitted, SignedAdmitted;
    var w0 := Delivered(lag);
    var w1 := PassNext(w0, PUBLIC_PREKEY_RETENTION_SECS);
    Fetching(w1.relay, 1 + lag);
    var w2 := ServeNext(w1, Relay.Fetching(SOMEONE, BOB, FIRST, w1.now));
    var w3 := PassNext(w2, RESERVATION_SECS);
    Sending(w3.relay.db, w3.now);
    w := ServeNext(w3, Relay.Sending(FirstMessage(w3.now)));
  }

  /** By then nothing of Bob's is public, and a copy of the upload is answered so. */
  lemma Emptied(d: Db, t: nat, now: nat)
    requires d.highWater == map[BOB := FIRST + PREKEY_TARGET - 1] && PublicBefore(d, t)
    requires now > t + PUBLIC_PREKEY_RETENTION_SECS
    ensures Upload(d, BOB, First().prekeys, now) == (d, Accepted(0))
  {
    BatchEnds(Stored(), 1);
    assert Inventory(WithoutExpired(d.prekeys, BOB, now - PUBLIC_PREKEY_RETENTION_SECS), BOB) == {};
  }

  lemma DroppedAsStale(now: nat)
    requires now > 1 + ONE_TIME_PREKEY_PRIVATE_RETENTION_SECS
    ensures BatchFits(Batched()) && FIRST !in Replenished(Batched(), Witnesses.Pairs(), now).keys
  {
    var s := Batched();
    Renewed(Stored(), Witnesses.Pairs(), 1, FIRST);
    assert s.createdAt.Keys == s.keys.Keys;
    Renewed(s, Witnesses.Pairs(), now, FIRST);
  }

  lemma LongDelaysUnsafe(lag: nat, delay: nat)
    requires lag + delay > GRACE
    ensures !Safe(lag, delay)
  {
    hide Reachable, Replenished, NewUpload, Upload, Runs.Permitted, Runs.Step, AfterLocal;
    var w0 := Admitted(lag);
    var a := Admission(FIRST, w0.now);
    var w1 := PassNext(w0, delay);
    Emptied(w1.relay.db, 1 + lag, w1.now);
    var w2 := UploadNext(w1, First());
    DroppedAsStale(w2.now);
    Answered(w2.client, w2.log, Batched(), First(), true, 0, w2.now);
    var w := LocalNext(w2, Confirming(1, true, 0, w2.now));
    assert FIRST in w.book.made && w.book.made[FIRST] == 1 by { MadeKept(w2, w, Confirming(1, true, 0, w2.now)); }
    assert !HeldAfter(Bobs(), w, a, lag, delay);
    NotSafe(w, a, lag, delay);
  }

  lemma MadeKept(w: World, w': World, ev: Runs.Event)
    requires Reachable(w) && Reachable(w') && Runs.Permitted(w.client, w.log, ev) && w' == AfterLocal(w, ev)
    requires FIRST in w.book.made
    ensures FIRST in w'.book.made && w'.book.made[FIRST] == w.book.made[FIRST]
  {
    hide Reachable, Runs.Permitted, Runs.Step, ClientInvariant.Inv, RelayOk, RefusedOk;
    ReachableOk(w);
    ReachableOk(w');
    MadeGrows(w.client.mem.core.opks, w'.client.mem.core.opks, w.book, ev, w.now);
  }

  lemma NotSafe(w: World, a: Admission, lag: nat, delay: nat)
    requires Reachable(w) && !HeldAfter(Bobs(), w, a, lag, delay)
    ensures !Safe(lag, delay)
  {
    hide HeldAfter;
    var evs :| PermittedRun(Bobs(), evs) && Run(Bobs(), evs) == w;
  }

  /** Published within `lag` of being made and delivered within `delay` of being admitted:
      safe in every run if and only if that is thirty days together, or less. */
  lemma SafeExactly(lag: nat, delay: nat)
    ensures Safe(lag, delay) <==> lag + delay <= 30 * DAY
  {
    assert GRACE == 30 * DAY;
    if lag + delay <= GRACE {
      ShortDelaysSafe(lag, delay);
    } else {
      LongDelaysUnsafe(lag, delay);
    }
  }

  /** The relay collects messages older than this, so often. */
  const GC_MAX_AGE_SECS := 30 * DAY
  const GC_INTERVAL_SECS := 3600

  /** A key published as soon as it is made covers the age at which messages are
      collected, but not the interval between two collections on top of it. */
  lemma PublishedAtOnce(delay: nat)
    ensures Safe(0, delay) <==> delay <= GC_MAX_AGE_SECS
    ensures !Safe(0, GC_MAX_AGE_SECS + GC_INTERVAL_SECS)
  {
    SafeExactly(0, delay);
    SafeExactly(0, GC_MAX_AGE_SECS + GC_INTERVAL_SECS);
  }

  // -- A refused upload that is accepted later -----------------------------------------------

  lemma {:induction false} Grown(prekeys: map<Slot, PublicPrekey>, user: UserId, batch: seq<(U32, Key32)>, now: nat)
    requires forall i, j :: 0 <= i < j < |batch| ==> batch[i].0 != batch[j].0
    requires forall i :: 0 <= i < |batch| ==> Slot(user, batch[i].0) !in prekeys
    ensures |Inventory(InsertedBatch(prekeys, user, batch, now), user)| == |Inventory(prekeys, user)| + |batch|
  {
    if batch != [] {
      var front, slot := batch[..|batch| - 1], Slot(user, batch[|batch| - 1].0);
      Grown(prekeys, user, front, now);
      Relay.InsertedRows(prekeys, user, front, now, slot);
      var r := InsertedBatch(prekeys, user, front, now);
      assert slot !in r;
      assert Inventory(InsertedBatch(prekeys, user, batch, now), user) == Inventory(r, user) + {slot};
    }
  }

  lemma FirstCount()
    ensures Upload(Registered(), BOB, First().prekeys, 1).1 == Accepted(PREKEY_TARGET + 1)
  {
    var prekeys := Registered().prekeys;
    assert WithoutExpired(prekeys, BOB, 1 - PUBLIC_PREKEY_RETENTION_SECS) == prekeys;
    assert Inventory(prekeys, BOB) == {Slot(BOB, 1)};
    assert |First().prekeys| == PREKEY_TARGET;
    Accepting(Registered(), Stored(), 1, 1);
    Grown(prekeys, BOB, First().prekeys, 1);
    hide InsertedBatch, Batch, Upload;
  }

  function Second(): (x: PendingOutbound)
  {
    NewUpload(2, Batched())
  }

  /** A second batch does not fit beside the first. */
  lemma NoRoom(d: Db)
    requires d == Unused(d.prekeys, FIRST + PREKEY_TARGET - 1) && |Inventory(d.prekeys, BOB)| == PREKEY_TARGET + 1
    ensures Upload(d, BOB, Second().prekeys, 1) == (d, InventoryFull(PREKEY_TARGET + 1))
  {
    BatchEnds(Batched(), 2);
    assert |Second().prekeys| == PREKEY_TARGET;
    assert WithoutExpired(d.prekeys, BOB, 1 - PUBLIC_PREKEY_RETENTION_SECS) == d.prekeys;
    hide Batch, MinId, MaxId;
  }

  lemma SecondRefused() returns (w: World)
    ensures Reachable(w) && w.now == 1 && Second() in w.log && w.book.used == {}
    ensures w.relay.db == Unused(w.relay.db.prekeys, FIRST + PREKEY_TARGET - 1) && PublicBefore(w.relay.db, 1)
    ensures w.client.mem.core.opks == Without(Replenished(Batched(), Witnesses.Pairs(), 1),
                                              ClientSpec.UploadIds(Second()))
  {
    hide Reachable, Replenished, NewUpload, Upload, Runs.Permitted, Runs.Step, AfterLocal, ClientSpec.UploadIds,
         Without;
    var w0 := Prepared(0);
    FirstUploaded(1);
    FirstCount();
    var w1 := UploadNext(w0, First());
    assert BatchFits(Batched()) by { DroppedAsStale(2 + ONE_TIME_PREKEY_PRIVATE_RETENTION_SECS); }
    Answered(w1.client, w1.log, Batched(), First(), true, PREKEY_TARGET + 1, 1);
    var w2 := LocalNext(w1, Confirming(1, true, PREKEY_TARGET + 1, 1));
    Replenishing(w2.client, w2.log, Batched(), 2, 1);
    var w3 := LocalNext(w2, Runs.DoReplenish(2, Witnesses.Pairs(), 1, true));
    NoRoom(w3.relay.db);
    var w4 := UploadNext(w3, Second());
    Answered(w4.client, w4.log, w3.client.mem.core.opks, Second(), false, PREKEY_TARGET + 1, 1);
    w := LocalNext(w4, Confirming(2, false, PREKEY_TARGET + 1, 1));
  }

  const LATER := FIRST + PREKEY_TARGET

  lemma AcceptedLate(d: Db, now: nat)
    requires d == Unused(d.prekeys, FIRST + PREKEY_TARGET - 1) && PublicBefore(d, 1)
             && now > 1 + PUBLIC_PREKEY_RETENTION_SECS
    ensures Slot(BOB, LATER) in Upload(d, BOB, Second().prekeys, now).0.prekeys
  {
    var kept := WithoutExpired(d.prekeys, BOB, now - PUBLIC_PREKEY_RETENTION_SECS);
    assert Inventory(kept, BOB) == {};
    assert Batched().nextId == LATER;
    Accepting(d, Batched(), 2, now);
    BatchPublic(kept, Batched(), 2, now);
    hide InsertedBatch, Upload, NewUpload, Replenished;
  }

  /** The copy of an upload that was refused for want of room is accepted a month later:
      its keys are public, and their private halves are gone. */
  lemma RefusedCopyPublished() returns (evs: seq<Event>)
    ensures Registrable(Bobs()) && PermittedRun(Bobs(), evs)
    ensures var w := Run(Bobs(), evs);
            && Slot(BOB, LATER) in Public(w.relay.db, BOB)
            && LATER !in w.client.mem.core.opks.keys && LATER in w.book.refused
  {
    var w := LateCopy();
    evs :| PermittedRun(Bobs(), evs) && Run(Bobs(), evs) == w;
  }

  lemma LateCopy() returns (w: World)
    ensures Reachable(w) && Slot(BOB, LATER) in Public(w.relay.db, BOB)
    ensures LATER !in w.client.mem.core.opks.keys && LATER in w.book.refused
  {
    hide Reachable, Replenished, NewUpload, Upload, Batch;
    var w0 := SecondRefused();
    var w1 := PassNext(w0, PUBLIC_PREKEY_RETENTION_SECS + 1);
    AcceptedLate(w1.relay.db, w1.now);
    w := UploadNext(w1, Second());
    assert LATER in ClientSpec.UploadIds(Second()) by { LaterSecond(); }
    WhyGone(w);
  }

  lemma LaterSecond()
    ensures LATER in ClientSpec.UploadIds(Second())
  {
    assert Batched().nextId == LATER;
    hide Replenished;
    assert Second().prekeys[0].0 == LATER;
    assert Second().prekeys[0] in Second().prekeys;
  }

  lemma WhyGone(w: World)
    requires Reachable(w) && Slot(BOB, LATER) in Public(w.relay.db, BOB) && LATER !in w.client.mem.core.opks.keys
    requires w.book.used == {} && w.now <= 2 + PUBLIC_PREKEY_RETENTION_SECS
    ensures LATER in w.book.refused
  {
    hide Reachable, ClientInvariant.Inv, RefusedOk;
    ReachableOk(w);
    assert KeyOk(w.client.mem.core.opks, w.book, w.now, LATER);
  }
}
