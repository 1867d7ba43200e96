/** What became of every one-time prekey the client ever published, over every run
    of client and relay together. */
module PrekeyLifetime {
  import opened Wire
  import opened Outbox
  import opened PrekeyStores
  import opened ServerSpec
  import opened ClientPrekeys
  import opened PrekeyWorld
  import ClientSpec
  import ClientInvariant
  import ClientItems
  import Runs = ClientRuns
  import Relay = ServerRuns

  function Gone(b: Book): (ids: set<U32>) { b.used + b.refused + b.stale }

  // -- The client's side -----------------------------------------------------------

  /** The client holds the key exactly if it made it and has not deleted it, knows
      when it made it, will not make the ID again, and deletes as stale only what is old. */
  ghost predicate KeyOk(s: OpkStore, b: Book, now: nat, k: U32)
  {
    && (k in s.keys <==> k in b.made && k !in Gone(b))
    && (k in Gone(b) ==> k in b.made)
    && (k in s.keys ==> k in s.createdAt && s.createdAt[k] == b.made[k])
    && (k in b.made ==> SaturatingIncrement(k) <= s.nextId && b.made[k] <= now)
    && (k in b.stale ==> b.made[k] + ONE_TIME_PREKEY_PRIVATE_RETENTION_SECS < now)
  }

  ghost predicate HeldOk(s: OpkStore, b: Book, now: nat) { forall k :: KeyOk(s, b, now, k) }

  ghost predicate UploadsMade(log: set<PendingOutbound>, made: map<U32, nat>)
  {
    forall x :: x in log && x.PrekeyUpload? ==> ClientSpec.UploadIds(x) <= made.Keys
  }

  lemma Renewed(s: OpkStore, pairs: seq<Key32>, now: nat, k: U32)
    requires |pairs| == PREKEY_TARGET && BatchFits(s) && s.createdAt.Keys == s.keys.Keys
    ensures var s' := Replenished(s, pairs, now);
            && (k in s'.keys <==> (k in s.keys && k !in StaleIds(s, now)) || InBatch(s, k))
            && (k in s'.keys ==> k in s'.createdAt && s'.createdAt[k] == if InBatch(s, k) then now else s.createdAt[k])
            && s'.nextId == s.nextId + PREKEY_TARGET
  {}

  /** What the book says of one key after a renewal. */
  lemma RecordedKey(b: Book, held: set<U32>, held': set<U32>, ev: Runs.Event, now: nat, k: U32)
    requires Renews(ev)
    ensures var b' := Recorded(b, held, held', ev, now);
            && (k in b'.made <==> k in b.made || (k in held' && k !in held))
            && (k in b'.made ==> b'.made[k] == if k in held' && k !in held then now else b.made[k])
            && b'.used == b.used && b'.refused == b.refused
               && (k in b'.stale <==> k in b.stale || (k in held && k !in held'))
  {}

  lemma RenewedKey(s: OpkStore, b: Book, pairs: seq<Key32>, ev: Runs.Event, now: nat, k: U32)
    requires KeyOk(s, b, now, k) && s.createdAt.Keys == s.keys.Keys
    requires |pairs| == PREKEY_TARGET && BatchFits(s) && Renews(ev)
    ensures var s' := Replenished(s, pairs, now); KeyOk(s', Recorded(b, s.keys.Keys, s'.keys.Keys, ev, now), now, k)
  {
    hide Replenished, Recorded, Renews;
    Renewed(s, pairs, now, k);
    RecordedKey(b, s.keys.Keys, Replenished(s, pairs, now).keys.Keys, ev, now, k);
  }

  lemma DroppedKey(s: OpkStore, b: Book, ids: set<U32>, ev: Runs.Event, now: nat, k: U32)
    requires KeyOk(s, b, now, k) && ((ev.DoDecrypt? && ids == NamedIds(ev.e)) || Refuses(ev) || ids == {})
    ensures var s' := Without(s, ids); KeyOk(s', Recorded(b, s.keys.Keys, s'.keys.Keys, ev, now), now, k)
  {}

  lemma StepKey(out: seq<PendingOutbound>, s: OpkStore, s': OpkStore, b: Book, ev: Runs.Event, now: nat, k: U32)
    requires KeyOk(s, b, now, k) && s.createdAt.Keys == s.keys.Keys && OpksStep(out, s, s', ev) && OnTime(ev, now)
    ensures KeyOk(s', Recorded(b, s.keys.Keys, s'.keys.Keys, ev, now), now, k)
  {
    hide KeyOk, Replenished, Without, Recorded, OpksStep;
    if Renews(ev) && |ev.pairs| == PREKEY_TARGET && BatchFits(s) && s' == Replenished(s, ev.pairs, ev.now) {
      RenewedKey(s, b, ev.pairs, ev, now, k);
    } else {
      var ids := Drops(out, s, s', ev);
      DroppedKey(s, b, ids, ev, now, k);
    }
  }

  lemma Drops(out: seq<PendingOutbound>, s: OpkStore, s': OpkStore, ev: Runs.Event) returns (ids: set<U32>)
    requires OpksStep(out, s, s', ev)
    requires !(Renews(ev) && |ev.pairs| == PREKEY_TARGET && BatchFits(s) && s' == Replenished(s, ev.pairs, ev.now))
    ensures s' == Without(s, ids) && ((ev.DoDecrypt? && ids == NamedIds(ev.e)) || Refuses(ev) || ids == {})
  {
    hide Replenished, Without, ClientSpec.UploadIds;
    ids := {};
    if s' == s {
      NothingDropped(s);
    } else if ev.DoDecrypt? {
      ids := NamedIds(ev.e);
    } else {
      var x :| x in out && x.PrekeyUpload? && x.uploadId == ev.id && s' == Without(s, ClientSpec.UploadIds(x));
      ids := ClientSpec.UploadIds(x);
    }
  }

  lemma StepHeld(out: seq<PendingOutbound>, s: OpkStore, s': OpkStore, b: Book, ev: Runs.Event, now: nat)
    requires HeldOk(s, b, now) && s.createdAt.Keys == s.keys.Keys && OpksStep(out, s, s', ev) && OnTime(ev, now)
    ensures HeldOk(s', Recorded(b, s.keys.Keys, s'.keys.Keys, ev, now), now)
  {
    hide KeyOk, OpksStep, Recorded, OnTime;
    forall k
      ensures KeyOk(s', Recorded(b, s.keys.Keys, s'.keys.Keys, ev, now), now, k)
    {
      StepKey(out, s, s', b, ev, now, k);
    }
  }

  lemma NothingDropped(s: OpkStore)
    ensures Without(s, {}) == s
  {
    assert s.keys - {} == s.keys && s.createdAt - {} == s.createdAt;
  }

  /** The key belongs to an upload that the relay answered as refused. */
  ghost predicate Refused(log: set<PendingOutbound>, answers: set<Answer>, k: U32)
  {
    exists x, n :: RefusedUpload(log, answers, x, n) && k in ClientSpec.UploadIds(x)
  }

  ghost predicate RefusedUpload(log: set<PendingOutbound>, answers: set<Answer>, x: PendingOutbound, n: nat)
  {
    x in log && x.PrekeyUpload? && UploadAnswer(x.uploadId, false, n) in answers
  }

  ghost predicate RefusedOk(log: set<PendingOutbound>, answers: set<Answer>, refused: set<U32>)
  {
    forall k :: k in refused ==> Refused(log, answers, k)
  }

  lemma RefusedGrows(log: set<PendingOutbound>, answers: set<Answer>, refused: set<U32>, log': set<PendingOutbound>,
                     answers': set<Answer>)
    requires RefusedOk(log, answers, refused) && log <= log' && answers <= answers'
    ensures RefusedOk(log', answers', refused)
  {
    hide ClientSpec.UploadIds;
    forall k | k in refused
      ensures Refused(log', answers', k)
    {
      var x, n :| RefusedUpload(log, answers, x, n) && k in ClientSpec.UploadIds(x);
      assert RefusedUpload(log', answers', x, n);
    }
  }

  lemma StepRefused(out: seq<PendingOutbound>, log: set<PendingOutbound>, answers: set<Answer>, s: OpkStore,
                    s': OpkStore, b: Book, ev: Runs.Event, now: nat)
    requires OpksStep(out, s, s', ev) && Heard(answers, ev) && RefusedOk(log, answers, b.refused)
             && Runs.Items(out) <= log
    ensures RefusedOk(log, answers, Recorded(b, s.keys.Keys, s'.keys.Keys, ev, now).refused)
  {
    hide Replenished, ClientSpec.UploadIds, Refused;
    if Refuses(ev) && s' != s {
      var x :| x in out && x.PrekeyUpload? && x.uploadId == ev.id && s' == Without(s, ClientSpec.UploadIds(x));
      assert x in Runs.Items(out);
      forall k | k in s.keys.Keys - s'.keys.Keys
        ensures Refused(log, answers, k)
      {
        OneRefused(log, answers, x, ev.remaining, k);
      }
    }
  }

  lemma OneRefused(log: set<PendingOutbound>, answers: set<Answer>, x: PendingOutbound, n: nat, k: U32)
    requires RefusedUpload(log, answers, x, n) && k in ClientSpec.UploadIds(x)
    ensures Refused(log, answers, k)
  {}

  lemma StepLogged(log: set<PendingOutbound>, c: ClientSpec.Client, c': ClientSpec.Client,
                   made: map<U32, nat>, made': map<U32, nat>)
    requires ClientInvariant.Inv(c) && ClientInvariant.Inv(c') && UploadsMade(log, made)
             && Runs.Items(c.disk.outbox) <= log
    requires NewHeld(c.mem.outbox, c'.mem.outbox, c.mem.core.opks, c'.mem.core.opks)
    requires made.Keys <= made'.Keys && c'.mem.core.opks.keys.Keys <= made'.Keys
    ensures UploadsMade(log + Runs.Items(c'.disk.outbox), made')
  {
    ClientItems.OnDisk(c);
    ClientItems.OnDisk(c');
    hide ClientInvariant.Inv, ClientSpec.UploadIds;
    forall x | x in log + Runs.Items(c'.disk.outbox) && x.PrekeyUpload?
      ensures ClientSpec.UploadIds(x) <= made'.Keys
    {
      if x in c.mem.outbox {
        assert x in Runs.Items(c.disk.outbox);
      }
    }
  }

  // -- Which upload a key belongs to ---------------------------------------------------

  /** No two uploads share a key, and none has a registered one. */
  ghost predicate Lineage(registered: set<U32>, log: set<PendingOutbound>, made: map<U32, nat>)
  {
    && registered <= made.Keys
    && (forall x :: x in log && x.PrekeyUpload? ==> ClientSpec.UploadIds(x) !! registered)
    && (forall x, y, k ::
          (x in log && y in log && x.PrekeyUpload? && y.PrekeyUpload?
           && k in ClientSpec.UploadIds(x) && k in ClientSpec.UploadIds(y)) ==> x == y)
  }

  lemma StepLineage(registered: set<U32>, log: set<PendingOutbound>, c: ClientSpec.Client, c': ClientSpec.Client,
                    made: map<U32, nat>, made': map<U32, nat>)
    requires ClientInvariant.Inv(c) && ClientInvariant.Inv(c') && UploadsMade(log, made)
             && Lineage(registered, log, made)
    requires Runs.Items(c.disk.outbox) <= log
    requires NewHeld(c.mem.outbox, c'.mem.outbox, c.mem.core.opks, c'.mem.core.opks)
    requires made.Keys <= made'.Keys
    requires forall k :: k in c'.mem.core.opks.keys && k !in c.mem.core.opks.keys ==> k !in made
    ensures Lineage(registered, log + Runs.Items(c'.disk.outbox), made')
  {
    ClientItems.OnDisk(c);
    ClientItems.OnDisk(c');
    hide ClientInvariant.Inv, ClientSpec.UploadIds;
    var log' := log + Runs.Items(c'.disk.outbox);
    forall x | x in log' && x !in log && x.PrekeyUpload?
      ensures x in c'.mem.outbox && x !in c.mem.outbox && ClientSpec.UploadIds(x) !! made.Keys
    {
      assert x in c.mem.outbox ==> x in Runs.Items(c.disk.outbox);
    }
  }

  ghost predicate AcceptedUpload(log: set<PendingOutbound>, answers: set<Answer>, x: PendingOutbound, n: nat)
  {
    x in log && x.PrekeyUpload? && UploadAnswer(x.uploadId, true, n) in answers
  }

  /** The key is in an upload that the relay answered as accepted. */
  ghost predicate AcceptedKey(log: set<PendingOutbound>, answers: set<Answer>, k: U32)
  {
    exists x, n :: AcceptedUpload(log, answers, x, n) && k in ClientSpec.UploadIds(x)
  }

  /** Every published key was registered, or is in an upload answered as accepted. */
  ghost predicate PublishedFrom(registered: set<U32>, published: map<Slot, nat>, log: set<PendingOutbound>,
                                answers: set<Answer>)
  {
    forall s :: s in published ==> s.keyId in registered || AcceptedKey(log, answers, s.keyId)
  }

  lemma PublishedFromGrows(registered: set<U32>, published: map<Slot, nat>, log: set<PendingOutbound>,
                           answers: set<Answer>, log': set<PendingOutbound>, answers': set<Answer>)
    requires PublishedFrom(registered, published, log, answers) && log <= log' && answers <= answers'
    ensures PublishedFrom(registered, published, log', answers')
  {
    hide ClientSpec.UploadIds;
    forall s | s in published && s.keyId !in registered
      ensures AcceptedKey(log', answers', s.keyId)
    {
      var x, n :| AcceptedUpload(log, answers, x, n) && s.keyId in ClientSpec.UploadIds(x);
      assert AcceptedUpload(log', answers', x, n);
    }
  }

  /** An upload that publishes anything is answered as accepted, and publishes its own keys. */
  lemma UploadPublishes(p: Setup, w: World, x: PendingOutbound, s: Slot)
    requires x.PrekeyUpload? && p.user in w.relay.db.highWater
    requires s in AfterUpload(p, w, x).book.published && s !in w.book.published
    ensures s.keyId in ClientSpec.UploadIds(x)
    ensures exists n :: UploadAnswer(x.uploadId, true, n) in AfterUpload(p, w, x).answers
  {
    hide Upload, WithoutExpired, InsertedBatch, Extends;
    var d, batch, w' := w.relay.db, x.prekeys, AfterUpload(p, w, x);
    var kept := WithoutExpired(d.prekeys, p.user, w.now - PUBLIC_PREKEY_RETENTION_SECS);
    var (d', r) := Upload(d, p.user, batch, w.now);
    assert s in Public(d', p.user) && s !in Public(d, p.user);
    UploadAccepted(d, p.user, batch, w.now);
    InsertedExtends(kept, p.user, batch, w.now);
    Kept(d.prekeys, p.user, w.now);
    AddedIn(d.prekeys, kept, d'.prekeys, p.user, Ids(batch), w.now, s);
    assert Ids(batch) == ClientSpec.UploadIds(x);
    assert UploadAnswer(x.uploadId, true, r.remaining) in w'.answers;
  }

  lemma AddedIn(prekeys: map<Slot, PublicPrekey>, kept: map<Slot, PublicPrekey>, after: map<Slot, PublicPrekey>,
                user: UserId, ids: set<U32>, now: nat, s: Slot)
    requires Extends(kept, after, user, ids, now) && forall s :: s in kept ==> s in prekeys
    requires s in Inventory(after, user) && s !in Inventory(prekeys, user)
    ensures s.keyId in ids
  {}

  lemma UploadAccepted(d: Db, user: UserId, batch: seq<(U32, Key32)>, now: nat)
    requires user in d.highWater
    ensures var (d', r) := Upload(d, user, batch, now);
            d' != d ==>
              && r.Accepted?
              && d'.prekeys == InsertedBatch(WithoutExpired(d.prekeys, user, now - PUBLIC_PREKEY_RETENTION_SECS), user,
                                             batch, now)
  {
    hide InsertedBatch, WithoutExpired, Inventory, MinId, MaxId;
  }

  lemma UploadedFrom(p: Setup, w: World, x: PendingOutbound)
    requires x.PrekeyUpload? && x in w.log && p.user in w.relay.db.highWater
    requires PublishedFrom(p.opks.Keys, w.book.published, w.log, w.answers)
    ensures var w' := AfterUpload(p, w, x); PublishedFrom(p.opks.Keys, w'.book.published, w'.log, w'.answers)
  {
    hide AfterUpload, ClientSpec.UploadIds;
    var w' := AfterUpload(p, w, x);
    assert w'.log == w.log && w.answers <= w'.answers by { UploadKeepsLog(p, w, x); }
    PublishedFromGrows(p.opks.Keys, w.book.published, w.log, w.answers, w'.log, w'.answers);
    forall s | s in w'.book.published && s.keyId !in p.opks.Keys
      ensures AcceptedKey(w'.log, w'.answers, s.keyId)
    {
      if s !in w.book.published {
        UploadPublishes(p, w, x, s);
        var n :| UploadAnswer(x.uploadId, true, n) in w'.answers;
        assert AcceptedUpload(w'.log, w'.answers, x, n);
      }
    }
  }

  lemma UploadKeepsLog(p: Setup, w: World, x: PendingOutbound)
    requires x.PrekeyUpload?
    ensures AfterUpload(p, w, x).log == w.log && w.answers <= AfterUpload(p, w, x).answers
  {
    hide Upload;
  }

  // -- The relay's side --------------------------------------------------------------

  const LAST_ADMISSION := PUBLIC_PREKEY_RETENTION_SECS + RESERVATION_SECS

  ghost predicate PublicOk(prekeys: map<Slot, PublicPrekey>, user: UserId, published: map<Slot, nat>)
  {
    forall s :: s in prekeys && s.user == user ==> s in published && prekeys[s].createdAt == published[s]
  }

  ghost predicate PublishedOk(published: map<Slot, nat>, user: UserId, highWater: map<UserId, int>, made: map<U32, nat>,
                              now: nat)
  {
    && user in highWater
    && forall s :: s in published ==>
         s.user == user && s.keyId in made && made[s.keyId] <= published[s] <= now && s.keyId <= highWater[user]
  }

  ghost predicate ReservedOk(reservations: map<Reservation, nat>, user: UserId, published: map<Slot, nat>)
  {
    forall r :: r in reservations && r.slot.user == user ==>
      r.slot in published && reservations[r] <= published[r.slot] + LAST_ADMISSION
  }

  ghost predicate AdmittedOk(admitted: set<Admission>, user: UserId, published: map<Slot, nat>, now: nat)
  {
    forall a :: a in admitted ==>
      Slot(user, a.keyId) in published && a.at <= published[Slot(user, a.keyId)] + LAST_ADMISSION && a.at <= now
  }

  ghost predicate RelayOk(d: Db, user: UserId, b: Book, now: nat)
  {
    && PublicOk(d.prekeys, user, b.published) && PublishedOk(b.published, user, d.highWater, b.made, now)
    && ReservedOk(d.reservations, user, b.published) && AdmittedOk(b.admitted, user, b.published, now)
  }

  ghost predicate WorldOk(p: Setup, w: World)
  {
    && ClientInvariant.Inv(w.client) && Runs.Items(w.client.disk.outbox) <= w.log
    && HeldOk(w.client.mem.core.opks, w.book, w.now)
    && UploadsMade(w.log, w.book.made) && RefusedOk(w.log, w.answers, w.book.refused)
    && RelayOk(w.relay.db, p.user, w.book, w.now)
    && Lineage(p.opks.Keys, w.log, w.book.made) && PublishedFrom(p.opks.Keys, w.book.published, w.log, w.answers)
  }

  // -- Uploads and registration --------------------------------------------------------

  lemma {:induction false} InsertedValues(prekeys: map<Slot, PublicPrekey>, user: UserId, batch: seq<(U32, Key32)>,
                                          now: nat, s: Slot)
    requires s in InsertedBatch(prekeys, user, batch, now)
    ensures s in prekeys ==> InsertedBatch(prekeys, user, batch, now)[s] == prekeys[s]
    ensures s !in prekeys ==> InsertedBatch(prekeys, user, batch, now)[s].createdAt == now
  {
    if batch != [] {
      var front := batch[..|batch| - 1];
      Relay.InsertedRows(prekeys, user, front, now, s);
      if s in InsertedBatch(prekeys, user, front, now) {
        InsertedValues(prekeys, user, front, now, s);
      }
    }
  }

  /** The rows of an inserted batch: those there before, as they were, and those of the batch. */
  ghost predicate Extends(before: map<Slot, PublicPrekey>, after: map<Slot, PublicPrekey>, user: UserId, ids: set<U32>,
                          now: nat)
  {
    forall s :: s in after ==>
      if s in before then after[s] == before[s] else s.user == user && s.keyId in ids && after[s].createdAt == now
  }

  function Ids(batch: seq<(U32, Key32)>): (ids: set<U32>) { set k | k in batch :: k.0 }

  lemma InsertedExtends(prekeys: map<Slot, PublicPrekey>, user: UserId, batch: seq<(U32, Key32)>, now: nat)
    ensures Extends(prekeys, InsertedBatch(prekeys, user, batch, now), user, Ids(batch), now)
  {
    forall s | s in InsertedBatch(prekeys, user, batch, now)
      ensures s in prekeys ==> InsertedBatch(prekeys, user, batch, now)[s] == prekeys[s]
      ensures s !in prekeys ==> s.user == user && s.keyId in Ids(batch)
                                && InsertedBatch(prekeys, user, batch, now)[s].createdAt == now
    {
      Relay.InsertedRows(prekeys, user, batch, now, s);
      InsertedValues(prekeys, user, batch, now, s);
      if s !in prekeys {
        var i :| 0 <= i < |batch| && batch[i].0 == s.keyId;
        assert batch[i] in batch;
      }
    }
    hide InsertedBatch;
  }

  lemma Published(prekeys: map<Slot, PublicPrekey>, kept: map<Slot, PublicPrekey>, after: map<Slot, PublicPrekey>,
                  user: UserId, ids: set<U32>, b: Book, highWater: map<UserId, int>, mark: int, now: nat)
    requires PublicOk(prekeys, user, b.published) && PublishedOk(b.published, user, highWater, b.made, now)
    requires forall k :: k in b.made ==> b.made[k] <= now
    requires forall s :: s in kept ==> s in prekeys && kept[s] == prekeys[s]
    requires Extends(kept, after, user, ids, now) && ids <= b.made.Keys
    requires forall k :: k in ids ==> highWater[user] < k <= mark
    requires highWater[user] <= mark
    ensures var published := b.published + (map s | s in Inventory(after, user) - Inventory(prekeys, user) :: now);
            && PublicOk(after, user, published) && PublishedOk(published, user, highWater[user := mark], b.made, now)
            && forall s :: s in b.published ==> s in published && published[s] == b.published[s]
  {}

  /** More is published, at the same times as before for what was published before. */
  lemma StillAdmitted(d: Db, user: UserId, b: Book, published: map<Slot, nat>, now: nat)
    requires ReservedOk(d.reservations, user, b.published) && AdmittedOk(b.admitted, user, b.published, now)
    requires forall s :: s in b.published ==> s in published && published[s] == b.published[s]
    ensures ReservedOk(d.reservations, user, published) && AdmittedOk(b.admitted, user, published, now)
  {}

  lemma UploadKeeps(p: Setup, w: World, x: PendingOutbound)
    requires RelayOk(w.relay.db, p.user, w.book, w.now) && x.PrekeyUpload?
    requires ClientSpec.UploadIds(x) <= w.book.made.Keys && forall k :: k in w.book.made ==> w.book.made[k] <= w.now
    ensures RelayOk(AfterUpload(p, w, x).relay.db, p.user, AfterUpload(p, w, x).book, w.now)
  {
    hide PublicOk, ReservedOk, AdmittedOk, InsertedBatch, Upload, WithoutExpired, Extends;
    var d, batch, w' := w.relay.db, x.prekeys, AfterUpload(p, w, x);
    var kept := WithoutExpired(d.prekeys, p.user, w.now - PUBLIC_PREKEY_RETENTION_SECS);
    Uploading(d, p.user, batch, w.now);
    if w'.relay.db != d {
      InsertedExtends(kept, p.user, batch, w.now);
      assert Ids(batch) == ClientSpec.UploadIds(x);
      hide Ids, ClientSpec.UploadIds;
      assert forall s :: s in kept ==> s in d.prekeys && kept[s] == d.prekeys[s] by { Kept(d.prekeys, p.user, w.now); }
      Published(d.prekeys, kept, w'.relay.db.prekeys, p.user, Ids(batch), w.book, d.highWater, MaxId(batch), w.now);
      hide PublishedOk;
      StillAdmitted(d, p.user, w.book, w'.book.published, w.now);
    } else {
      assert Public(d, p.user) - Public(d, p.user) == {};
      assert w'.book.published == w.book.published;
    }
  }

  lemma Kept(prekeys: map<Slot, PublicPrekey>, user: UserId, now: nat)
    ensures var kept := WithoutExpired(prekeys, user, now - PUBLIC_PREKEY_RETENTION_SECS);
            forall s :: s in kept ==> s in prekeys && kept[s] == prekeys[s]
  {}

  /** An upload that changes anything inserts a batch above the mark. */
  lemma Uploading(d: Db, user: UserId, batch: seq<(U32, Key32)>, now: nat)
    requires user in d.highWater
    ensures var d' := Upload(d, user, batch, now).0;
            d' != d ==>
              && d' == d.(prekeys := InsertedBatch(WithoutExpired(d.prekeys, user, now - PUBLIC_PREKEY_RETENTION_SECS),
                                                   user, batch, now),
                          highWater := d.highWater[user := MaxId(batch)])
              && d.highWater[user] <= MaxId(batch)
              && forall k :: k in Ids(batch) ==> d.highWater[user] < k <= MaxId(batch)
  {
    hide InsertedBatch, WithoutExpired, Inventory;
    forall k | k in Ids(batch)
      ensures batch != [] && MinId(batch) <= k <= MaxId(batch)
    {
      var i :| 0 <= i < |batch| && batch[i].0 == k;
    }
    if batch != [] {
      assert batch[0] in batch;
    }
  }

  // -- Requests of others --------------------------------------------------------------

  /** Nothing of the user's is added. */
  ghost predicate OnlyLess(d: Db, d': Db, user: UserId)
  {
    && (forall s :: s in d'.prekeys && s.user == user ==> s in d.prekeys && d'.prekeys[s] == d.prekeys[s])
    && (forall r :: r in d'.reservations && r.slot.user == user ==>
          r in d.reservations && d'.reservations[r] == d.reservations[r])
    && (user in d.highWater ==> user in d'.highWater && d'.highWater[user] == d.highWater[user])
  }

  lemma LessKeeps(d: Db, d': Db, user: UserId, b: Book, now: nat)
    requires RelayOk(d, user, b, now) && OnlyLess(d, d', user)
    ensures RelayOk(d', user, b, now)
  {}

  lemma OthersUpload(d: Db, user: UserId, other: UserId, batch: seq<(U32, Key32)>, now: nat)
    requires other != user
    ensures OnlyLess(d, Upload(d, other, batch, now).0, user)
  {
    hide InsertedBatch, WithoutExpired, Inventory, MinId, MaxId, OnlyLess, Extends;
    var kept := WithoutExpired(d.prekeys, other, now - PUBLIC_PREKEY_RETENTION_SECS);
    var after := InsertedBatch(kept, other, batch, now);
    InsertedExtends(kept, other, batch, now);
    Kept(d.prekeys, other, now);
    OthersExtend(d, kept, user, other, after, Ids(batch), now, MaxId(batch));
  }

  lemma OthersExtend(d: Db, kept: map<Slot, PublicPrekey>, user: UserId, other: UserId, after: map<Slot, PublicPrekey>,
                     ids: set<U32>, now: nat, mark: int)
    requires other != user && Extends(kept, after, other, ids, now)
    requires forall s :: s in kept ==> s in d.prekeys && kept[s] == d.prekeys[s]
    ensures OnlyLess(d, d.(prekeys := after, highWater := d.highWater[other := mark]), user)
    ensures OnlyLess(d, d, user)
  {}

  lemma OthersRegister(d: Db, user: UserId, other: UserId, spk: SignedPrekey, batch: seq<(U32, Key32)>, now: nat)
    requires user in d.highWater
    ensures OnlyLess(d, Register(d, other, spk, batch, now).0, user)
  {
    InsertedExtends(d.prekeys, other, batch, now);
    hide InsertedBatch;
  }

  /** The reservation of a key fetched while it is public ends in time. */
  lemma Reserving(d: Db, user: UserId, published: map<Slot, nat>, slot: Slot, requester: UserId, now: nat)
    requires PublicOk(d.prekeys, user, published) && ReservedOk(d.reservations, user, published)
    requires slot in d.prekeys && SaturatingSub(now, PUBLIC_PREKEY_RETENTION_SECS) <= d.prekeys[slot].createdAt
    ensures ReservedOk(LiveReservations(d.reservations, now)[Reservation(requester, slot) := now + RESERVATION_SECS],
                       user, published)
  {}

  lemma Pruning(d: Db, user: UserId, published: map<Slot, nat>, target: UserId, slot: Slot, cutoff: nat, now: nat)
    requires PublicOk(d.prekeys, user, published) && ReservedOk(d.reservations, user, published)
    ensures PublicOk(WithoutExpired(d.prekeys, target, cutoff), user, published)
    ensures PublicOk(WithoutExpired(d.prekeys, target, cutoff) - {slot}, user, published)
    ensures ReservedOk(LiveReservations(d.reservations, now), user, published)
  {}

  lemma FetchKeepsRelay(d: Db, user: UserId, b: Book, limits: FetchLimits, ev: Relay.Event)
    requires ev.Fetching? && RelayOk(d, user, b, ev.now) && Pickable(d, ev.target, ev.pick, ev.now)
    ensures RelayOk(Fetch(d, ev.requester, ev.target, ev.pick, ev.now, limits).0, user, b, ev.now)
  {
    hide CountFrom, KeptEvents, Inventory, PublicOk, PublishedOk, ReservedOk, AdmittedOk, LiveReservations;
    var cutoff, slot := SaturatingSub(ev.now, PUBLIC_PREKEY_RETENTION_SECS), Slot(ev.target, ev.pick);
    Pruning(d, user, b.published, ev.target, slot, cutoff, ev.now);
    if slot in WithoutExpired(d.prekeys, ev.target, cutoff) {
      Reserving(d, user, b.published, slot, ev.requester, ev.now);
    }
    hide WithoutExpired;
  }

  /** A claimed reservation was still standing. */
  lemma Claiming(d: Db, user: UserId, b: Book, q: EnqueueRequest)
    requires ReservedOk(d.reservations, user, b.published) && AdmittedOk(b.admitted, user, b.published, q.now)
    requires Claim(d, q).Success?
    ensures var d', opk := Claim(d, q).value, OneTimePrekeyIdOf(q.envelope);
            && d'.prekeys == d.prekeys && d'.highWater == d.highWater && ReservedOk(d'.reservations, user, b.published)
            && (q.recipient == user && opk.Some? ==>
                  AdmittedOk(b.admitted + {Admission(opk.value, q.now)}, user, b.published, q.now))
  {
    hide AcceptedFrom, FindKey;
  }

  lemma ClaimErrors(d: Db, q: EnqueueRequest)
    ensures Claim(d, q).Failure? ==> !Relay.Admits(Claim(d, q).error)
  {
    hide AcceptedFrom, FindKey, LiveReservations;
  }

  lemma SendKeepsRelay(d: Db, user: UserId, b: Book, q: EnqueueRequest)
    requires RelayOk(d, user, b, q.now)
    ensures RelayOk(Enqueue(d, q).0, user,
                    b.(admitted := b.admitted + OneTimeAdmitted(d, user, Relay.Sending(q), q.now)), q.now)
  {
    hide QueuedFor, InQueue, NextRowId, Claim, PublicOk, PublishedOk, ReservedOk, AdmittedOk;
    ClaimErrors(d, q);
    if Claim(d, q).Success? {
      Claiming(d, user, b, q);
    }
    var more := OneTimeAdmitted(d, user, Relay.Sending(q), q.now);
    assert more == {} ==> b.admitted + more == b.admitted;
  }

  lemma ServeKeeps(p: Setup, w: World, ev: Relay.Event)
    requires RelayOk(w.relay.db, p.user, w.book, w.now) && Relay.Permitted(w.relay, ev)
             && OthersRequest(p.user, ev, w.now)
    ensures RelayOk(AfterServe(p, w, ev).relay.db, p.user, AfterServe(p, w, ev).book, w.now)
  {
    var d, w' := w.relay.db, AfterServe(p, w, ev);
    if !ev.Sending? {
      assert w'.book.admitted == w.book.admitted;
      assert w'.book == w.book;
    }
    hide RelayOk, Upload, Register, Fetch, Enqueue, RotateKeys, Remaining, Unconfirmed, Pickable;
    if ev.Fetching? {
      FetchKeepsRelay(d, p.user, w.book, p.limits, ev);
    } else if ev.Sending? {
      SendKeepsRelay(d, p.user, w.book, ev.q);
    } else {
      if ev.Uploading? {
        OthersUpload(d, p.user, ev.user, ev.batch, ev.now);
      } else if ev.Registering? {
        UserKnown(d, p.user, w.book, w.now);
        OthersRegister(d, p.user, ev.user, ev.spk, ev.batch, ev.now);
      }
      LessKeeps(d, w'.relay.db, p.user, w.book, w.now);
    }
  }

  lemma UserKnown(d: Db, user: UserId, b: Book, now: nat)
    requires RelayOk(d, user, b, now)
    ensures user in d.highWater
  {}

  // -- Whole runs ------------------------------------------------------------------------

  lemma LocalKeeps(p: Setup, w: World, ev: Runs.Event)
    requires WorldOk(p, w) && Permitted(p, w, Local(ev))
    ensures WorldOk(p, AfterLocal(w, ev))
  {
    hide Runs.Permitted, OpksStep, NewHeld, Runs.Step, KeyOk, UploadsMade, RelayOk, RefusedOk, Lineage, PublishedFrom;
    var c, c', w' := w.client, Runs.Step(w.client, w.log, ev).0, AfterLocal(w, ev);
    Runs.StepKeepsInv(c, w.log, ev);
    OpksFlow(c, w.log, ev);
    assert c.mem.core.opks.createdAt.Keys == c.mem.core.opks.keys.Keys;
    MemoryLogged(c, w.log);
    hide ClientInvariant.Inv;
    StepRefused(c.mem.outbox, w.log, w.answers, c.mem.core.opks, c'.mem.core.opks, w.book, ev, w.now);
    RefusedGrows(w.log, w.answers, w'.book.refused, w'.log, w.answers);
    StepHeld(c.mem.outbox, c.mem.core.opks, c'.mem.core.opks, w.book, ev, w.now);
    MadeGrows(c.mem.core.opks, c'.mem.core.opks, w.book, ev, w.now);
    StepLogged(w.log, c, c', w.book.made, w'.book.made);
    StepLineage(p.opks.Keys, w.log, c, c', w.book.made, w'.book.made);
    PublishedFromGrows(p.opks.Keys, w.book.published, w.log, w.answers, w'.log, w.answers);
    RelayMade(w.relay.db, p.user, w.book, w'.book, w.now);
  }

  lemma MemoryLogged(c: ClientSpec.Client, log: set<PendingOutbound>)
    requires ClientInvariant.Inv(c) && Runs.Items(c.disk.outbox) <= log
    ensures Runs.Items(c.mem.outbox) <= log
  {
    ClientItems.OnDisk(c);
    hide ClientInvariant.Inv;
    forall x | x in c.mem.outbox
      ensures x in log
    {
      assert x in Runs.Items(c.disk.outbox);
    }
  }

  lemma MadeGrows(s: OpkStore, s': OpkStore, b: Book, ev: Runs.Event, now: nat)
    requires HeldOk(s, b, now) && HeldOk(s', Recorded(b, s.keys.Keys, s'.keys.Keys, ev, now), now)
    ensures var b' := Recorded(b, s.keys.Keys, s'.keys.Keys, ev, now);
            && (forall k :: k in b.made ==> k in b'.made && b'.made[k] == b.made[k])
            && s'.keys.Keys <= b'.made.Keys && b'.published == b.published && b'.admitted == b.admitted
            && (forall k :: k in s'.keys && k !in s.keys ==> k !in b.made)
  {
    var b' := Recorded(b, s.keys.Keys, s'.keys.Keys, ev, now);
    forall k
      ensures k in b.made ==> k in b'.made && b'.made[k] == b.made[k]
      ensures k in s'.keys ==> k in b'.made
      ensures k in s'.keys && k !in s.keys ==> k !in b.made
    {
      assert KeyOk(s, b, now, k) && KeyOk(s', b', now, k);
    }
  }

  lemma RelayMade(d: Db, user: UserId, b: Book, b': Book, now: nat)
    requires RelayOk(d, user, b, now) && b'.published == b.published && b'.admitted == b.admitted
    requires forall k :: k in b.made ==> k in b'.made && b'.made[k] == b.made[k]
    ensures RelayOk(d, user, b', now)
  {}

  lemma MadeBefore(s: OpkStore, b: Book, now: nat)
    requires HeldOk(s, b, now)
    ensures forall k :: k in b.made ==> b.made[k] <= now
  {
    forall k | k in b.made
      ensures b.made[k] <= now
    {
      assert KeyOk(s, b, now, k);
    }
  }

  lemma DeliverKeeps(p: Setup, w: World, x: PendingOutbound)
    requires WorldOk(p, w) && Permitted(p, w, Deliver(x))
    ensures WorldOk(p, Step(p, w, Deliver(x)))
  {
    hide ClientInvariant.Inv, Upload, RotateKeys, KeyOk, RefusedOk, Lineage, PublishedFrom;
    var w' := Step(p, w, Deliver(x));
    MadeBefore(w.client.mem.core.opks, w.book, w.now);
    RefusedGrows(w.log, w.answers, w.book.refused, w.log, w'.answers);
    if x.PrekeyUpload? {
      UserKnown(w.relay.db, p.user, w.book, w.now);
      hide RelayOk;
      UploadKeeps(p, w, x);
      UploadedFrom(p, w, x);
      SameKeys(w.client.mem.core.opks, w.book, AfterUpload(p, w, x).book, w.now);
    } else {
      PublishedFromGrows(p.opks.Keys, w.book.published, w.log, w.answers, w.log, w'.answers);
    }
  }

  lemma SameKeys(s: OpkStore, b: Book, b': Book, now: nat)
    requires HeldOk(s, b, now)
    requires b'.made == b.made && b'.used == b.used && b'.refused == b.refused && b'.stale == b.stale
    ensures HeldOk(s, b', now)
  {
    forall k
      ensures KeyOk(s, b', now, k)
    {
      assert KeyOk(s, b, now, k);
    }
  }

  lemma PassKeeps(p: Setup, w: World, secs: nat)
    requires WorldOk(p, w)
    ensures WorldOk(p, w.(now := w.now + secs))
  {
    hide ClientInvariant.Inv;
    var later := w.now + secs;
    forall k
      ensures KeyOk(w.client.mem.core.opks, w.book, later, k)
    {
      assert KeyOk(w.client.mem.core.opks, w.book, w.now, k);
    }
    hide KeyOk;
  }

  lemma StartKeeps(p: Setup)
    requires Registrable(p)
    ensures WorldOk(p, Start(p))
  {
    var w, h := Start(p), Relay.Run(p.limits, p.past);
    ClientInvariant.FreshOk(p.identity);
    ClientInvariant.RegistrationKeeps(ClientInvariant.Fresh(p.identity), p.spk, p.opks, p.at, true);
    Relay.SlotsKept(p.limits, p.past);
    hide Relay.Run, Relay.PermittedRun, ClientInvariant.Inv;
    StartHeld(p);
    StartRelay(p);
    hide HeldOk, RelayOk;
  }

  lemma StartHeld(p: Setup)
    requires Registrable(p)
    ensures HeldOk(Start(p).client.mem.core.opks, Start(p).book, p.at)
  {
    hide Relay.Run, Relay.PermittedRun, Relay.After;
  }

  lemma SlotsKnown(h: Relay.History)
    requires Relay.SlotsOk(h)
    ensures forall s :: s in h.db.prekeys ==> s.user in h.db.highWater
    ensures forall r :: r in h.db.reservations ==> r.slot.user in h.db.highWater
  {}

  lemma BatchStored(p: Setup)
    requires Registrable(p)
    ensures forall k :: k in Ids(p.batch) ==> k in p.opks && k <= MaxId(p.batch)
  {
    hide Relay.Run, Relay.PermittedRun;
    forall k | k in Ids(p.batch)
      ensures k in p.opks && k <= MaxId(p.batch)
    {
      var i :| 0 <= i < |p.batch| && p.batch[i].0 == k;
    }
  }

  lemma StartRelay(p: Setup)
    requires Registrable(p) && Relay.SlotsOk(Relay.Run(p.limits, p.past))
    ensures RelayOk(Start(p).relay.db, p.user, Start(p).book, p.at)
  {
    hide Relay.Run, Relay.PermittedRun, Relay.SlotsOk, InsertedBatch, Extends, PublicOk, PublishedOk, ReservedOk, MaxId,
         Ids;
    var d := Relay.Run(p.limits, p.past).db;
    SlotsKnown(Relay.Run(p.limits, p.past));
    InsertedExtends(d.prekeys, p.user, p.batch, p.at);
    BatchStored(p);
    var after := InsertedBatch(d.prekeys, p.user, p.batch, p.at);
    var mark := Max(MaxId(p.batch), LEGACY_PREKEY_ID_FLOOR - 1);
    Registered(d, p.user, Ids(p.batch), after, map k | k in p.opks :: p.at, mark, p.at);
    hide ClientSpec.PersistRegistration, ClientInvariant.Fresh;
  }

  lemma Registered(d: Db, user: UserId, ids: set<U32>, after: map<Slot, PublicPrekey>, made: map<U32, nat>, mark: int,
                   at: nat)
    requires user !in d.highWater && (forall s :: s in d.prekeys ==> s.user in d.highWater)
    requires forall r :: r in d.reservations ==> r.slot.user in d.highWater
    requires Extends(d.prekeys, after, user, ids, at)
    requires forall k :: k in ids ==> k in made && made[k] <= at && k <= mark
    ensures var published := map s | s in Inventory(after, user) :: at;
            && PublicOk(after, user, published) && PublishedOk(published, user, d.highWater[user := mark], made, at)
            && ReservedOk(d.reservations, user, published)
  {}

  lemma {:induction false} RunKeeps(p: Setup, evs: seq<Event>)
    requires Registrable(p) && PermittedRun(p, evs)
    ensures WorldOk(p, Run(p, evs))
  {
    hide Registrable;
    if evs == [] {
      StartKeeps(p);
    } else {
      RunKeeps(p, evs[..|evs| - 1]);
      StepKeeps(p, Run(p, evs[..|evs| - 1]), evs[|evs| - 1]);
      hide WorldOk, Step, Permitted;
    }
  }

  lemma StepKeeps(p: Setup, w: World, ev: Event)
    requires WorldOk(p, w) && Permitted(p, w, ev)
    ensures WorldOk(p, Step(p, w, ev))
  {
    hide WorldOk, AfterLocal, AfterUpload, AfterRotation, AfterServe, Runs.Permitted, Relay.Permitted, OnTime, Heard,
         DrawnNew, OthersRequest;
    match ev
    case Pass(secs) => PassKeeps(p, w, secs);
    case Local(e) => LocalKeeps(p, w, e);
    case Deliver(x) => DeliverKeeps(p, w, x);
    case Serve(e) => ServingKeeps(p, w, e);
  }

  lemma ServingKeeps(p: Setup, w: World, ev: Relay.Event)
    requires WorldOk(p, w) && Relay.Permitted(w.relay, ev) && OthersRequest(p.user, ev, w.now)
    ensures WorldOk(p, AfterServe(p, w, ev))
  {
    hide Relay.After, Relay.Permitted, OthersRequest, HeldOk, RelayOk, ClientInvariant.Inv, OneTimeAdmitted,
         SignedAdmitted, Lineage, PublishedFrom, UploadsMade, RefusedOk;
    ServeKeeps(p, w, ev);
    SameKeys(w.client.mem.core.opks, w.book, AfterServe(p, w, ev).book, w.now);
  }

  // -- What the runs promise --------------------------------------------------------------

  /** The key belongs to one upload that the relay refused once and accepted once. */
  ghost predicate AnsweredTwice(log: set<PendingOutbound>, answers: set<Answer>, k: U32)
  {
    exists x, n, n' :: RefusedUpload(log, answers, x, n) && AcceptedUpload(log, answers, x, n')
      && k in ClientSpec.UploadIds(x)
  }

  lemma RefusedYetPublished(registered: set<U32>, log: set<PendingOutbound>, made: map<U32, nat>,
                            published: map<Slot, nat>, answers: set<Answer>, s: Slot)
    requires Lineage(registered, log, made) && PublishedFrom(registered, published, log, answers)
    requires s in published && Refused(log, answers, s.keyId)
    ensures AnsweredTwice(log, answers, s.keyId)
  {
    hide ClientSpec.UploadIds;
    var x, n :| RefusedUpload(log, answers, x, n) && s.keyId in ClientSpec.UploadIds(x);
    assert AcceptedKey(log, answers, s.keyId);
    var y, n' :| AcceptedUpload(log, answers, y, n') && s.keyId in ClientSpec.UploadIds(y);
    assert x == y;
  }

  /** Of every one-time prekey that was ever public, the client holds the private half
      exactly unless a message it opened used it, or the relay answered the upload that
      carried it as refused and then accepted a copy of it, or it was dropped as stale,
      more than 61 days old. */
  lemma PublishedKeysAccounted(p: Setup, evs: seq<Event>, s: Slot)
    requires Registrable(p) && PermittedRun(p, evs) && s in Run(p, evs).book.published
    ensures var w := Run(p, evs);
            var b := w.book;
            && (s.keyId in w.client.mem.core.opks.keys
                <==> s.keyId !in b.used && s.keyId !in b.refused && s.keyId !in b.stale)
            && (s.keyId in b.refused ==> AnsweredTwice(w.log, w.answers, s.keyId))
            && (s.keyId in b.stale ==> s.keyId in b.made && b.made[s.keyId] + 61 * DAY < w.now)
  {
    RunKeeps(p, evs);
    var w := Run(p, evs);
    hide Run, PermittedRun, Registrable, ClientInvariant.Inv, Lineage, PublishedFrom, Refused, AnsweredTwice, RelayOk;
    assert KeyOk(w.client.mem.core.opks, w.book, w.now, s.keyId);
    if s.keyId in w.book.refused {
      RefusedYetPublished(p.opks.Keys, w.log, w.book.made, w.book.published, w.answers, s);
    }
  }

  /** So as long as no upload was answered both ways, every published key is held unless
      it was used or is stale. */
  lemma HeldUnlessUsedOrStale(p: Setup, evs: seq<Event>, s: Slot)
    requires Registrable(p) && PermittedRun(p, evs) && s in Run(p, evs).book.published
    requires !AnsweredTwice(Run(p, evs).log, Run(p, evs).answers, s.keyId)
    ensures var w := Run(p, evs);
            s.keyId in w.client.mem.core.opks.keys <==> s.keyId !in w.book.used && s.keyId !in w.book.stale
  {
    hide Run, PermittedRun, Registrable, AnsweredTwice;
    PublishedKeysAccounted(p, evs, s);
  }

  /** Whatever can be fetched was published, at the time the relay notes. */
  lemma FetchableWasPublished(p: Setup, evs: seq<Event>, s: Slot)
    requires Registrable(p) && PermittedRun(p, evs) && s in Public(Run(p, evs).relay.db, p.user)
    ensures s in Run(p, evs).book.published
    ensures Run(p, evs).relay.db.prekeys[s].createdAt == Run(p, evs).book.published[s]
  {
    RunKeeps(p, evs);
    hide Run, PermittedRun, Registrable, ClientInvariant.Inv;
  }

  /** Published within `lag` seconds of being made, a key named by an admitted first
      message is not dropped as stale while the message is at most `delay` seconds old. */
  ghost predicate Safe(lag: nat, delay: nat)
  {
    forall p: Setup, evs: seq<Event>, a: Admission :: Registrable(p) && PermittedRun(p, evs) ==>
      HeldAfter(p, Run(p, evs), a, lag, delay)
  }

  ghost predicate HeldAfter(p: Setup, w: World, a: Admission, lag: nat, delay: nat)
  {
    var b, s := w.book, Slot(p.user, a.keyId);
    a in b.admitted && s in b.published && a.keyId in b.made && b.published[s] <= b.made[a.keyId] + lag
      && w.now <= a.at + delay
    ==> a.keyId in w.client.mem.core.opks.keys || a.keyId in b.used || a.keyId in b.refused
  }

  const GRACE := ONE_TIME_PREKEY_PRIVATE_RETENTION_SECS - PUBLIC_PREKEY_RETENTION_SECS - RESERVATION_SECS

  lemma AdmittedHeld(p: Setup, w: World, a: Admission, lag: nat, delay: nat)
    requires WorldOk(p, w) && lag + delay <= GRACE
    ensures HeldAfter(p, w, a, lag, delay)
  {
    hide ClientInvariant.Inv, RefusedOk, UploadsMade, PublicOk, ReservedOk;
    assert KeyOk(w.client.mem.core.opks, w.book, w.now, a.keyId);
  }

  lemma ShortDelaysSafe(lag: nat, delay: nat)
    requires lag + delay <= GRACE
    ensures Safe(lag, delay)
  {
    forall p: Setup, evs: seq<Event>, a: Admission | Registrable(p) && PermittedRun(p, evs)
      ensures HeldAfter(p, Run(p, evs), a, lag, delay)
    {
      RunKeeps(p, evs);
      AdmittedHeld(p, Run(p, evs), a, lag, delay);
    }
  }
}
