/** How the client's prekey operations are answered and what they leave of its keys. */
module PrekeyAnswers {
  import opened Wire
  import opened X3dh
  import opened Outbox
  import opened PrekeyStores
  import opened ClientSpec
  import opened ClientInvariant
  import opened ClientAnswers

  // -- Signed prekeys ------------------------------------------------------------------------

  ghost predicate RotationWaits(out: seq<PendingOutbound>) { exists x :: x in out && x.SignedPrekeyRotation? }

  /** Thirty days after the last rotation, or if there never was one. */
  predicate Due(ring: SpkRing, now: nat) { ring.rotatedAt == 0 || ring.rotatedAt + 30 * DAY <= now }

  /** There is a key to replace, and an ID above all used ones with one to spare. */
  predicate CanRotate(ring: SpkRing)
  {
    ring.current.Some? && ring.current.value.keyId + 2 < U32_LIMIT && ring.nextId + 1 < U32_LIMIT
  }

  lemma WaitsWhen(out: seq<PendingOutbound>)
    ensures RotationWaits(out) <==> AnyRotation(out).Some?
  {
    var i := AnyRotation(out);
    if i.Some? {
      assert out[i.value] in out;
    }
  }

  /** A rotation is started exactly when none waits, it is due, and there is an ID, room and a
      working store for it; the old key becomes the first predecessor. */
  lemma RotationAnswers(c: Client, id: Uuid, pair: Key32, now: nat, ok: bool)
    requires Inv(c)
    ensures
      var (c', r) := QueueRotation(c, id, pair, now, ok);
      var ring, ring', out := c.mem.core.spks, c'.mem.core.spks, c.mem.outbox;
      && (r == Success(false) <==> RotationWaits(out) || !Due(ring, now))
      && (r == Success(true) <==>
            !RotationWaits(out) && Due(ring, now) && CanRotate(ring) && Room(out, 96) && ok && Unused(out, id))
      && (r == Failure(OutboxFull) <==> !RotationWaits(out) && Due(ring, now) && CanRotate(ring) && !Room(out, 96))
      && (r != Success(true) ==> c' == c)
      && (r == Success(true) ==>
            && ring'.current.Some? && ring'.current.value.pair == pair
            && ring'.current.value.keyId > ring.current.value.keyId && ring'.current.value.keyId >= ring.nextId
            && ring'.nextId == ring'.current.value.keyId + 1 && ring'.rotatedAt == now
            && ring'.previous == [ring.current.value] + ring.previous
            && c'.mem.core == c.mem.core.(spks := ring') && c'.disk.core == Some(c'.mem.core)
            && c'.mem.outbox == out + [SignedPrekeyRotation(id, ring'.current.value.keyId, pair)])
  {
    WaitsWhen(c.mem.outbox);
    UnusedOnDisk(c, id);
    hide Inv, HasId, TotalLength, Unused, AnyRotation, RotationWaits;
  }

  /** The first `n` of them. */
  function AtMost(keys: seq<SignedPrekey>, n: nat): (r: seq<SignedPrekey>)
  {
    if |keys| <= n then keys else keys[..n]
  }

  /** The rotation that waits under this ID. */
  ghost predicate Waiting(c: Client, id: Uuid, x: PendingOutbound)
  {
    x in c.mem.outbox && x.SignedPrekeyRotation? && x.rotationId == id
  }

  /** The server took the candidate: it stays, with three predecessors. */
  lemma AcceptedRotationAnswers(c: Client, id: Uuid, x: PendingOutbound, previously: bool, newId: Uuid, pair: Key32,
                                now: nat, ok: bool)
    requires Inv(c) && Waiting(c, id, x)
    ensures
      var (c', r) := ConfirmRotated(c, id, true, previously, x.keyId, newId, pair, now, ok);
      var ring := c.mem.core.spks;
      && (!ok ==> r == Failure(Persistence) && c' == c)
      && (ok ==>
            && r == Success(None) && c'.disk.core == Some(c'.mem.core)
            && c'.mem.core == c.mem.core.(spks := ring.(previous := AtMost(ring.previous, 3))))
  {
    hide Inv, DeleteId, RemoveAt;
    Sought(c, id, x);
  }

  lemma Sought(c: Client, id: Uuid, x: PendingOutbound)
    requires Inv(c) && Waiting(c, id, x)
    ensures var i := RotationIndex(c.mem.outbox, id); i.Some? && c.mem.outbox[i.value] == x
  {
    var i := RotationIndex(c.mem.outbox, id);
    assert i.Some?;
    OnlyOne(c, i.value, x);
    hide Inv;
  }

  /** The server has another key: the candidate is replaced by one above both, and stays only
      if the server once had it; or there is no such ID, or the store fails, and nothing changes. */
  lemma RefusedRotationAnswers(c: Client, id: Uuid, x: PendingOutbound, accepted: bool, previously: bool,
                               serverCurrent: U32, newId: Uuid, pair: Key32, now: nat, ok: bool)
    requires Inv(c) && Waiting(c, id, x) && !(accepted && x.keyId == serverCurrent)
    ensures
      var (c', r) := ConfirmRotated(c, id, accepted, previously, serverCurrent, newId, pair, now, ok);
      var ring, ring' := c.mem.core.spks, c'.mem.core.spks;
      var free := forall y :: y in c.mem.outbox && y != x ==> CorrelationId(y) != newId;
      && (r.Success? <==> HasSuccessor(ring, serverCurrent) && ok && free)
      && (!HasSuccessor(ring, serverCurrent) ==> r == Failure(RatchetFailed))
      && (HasSuccessor(ring, serverCurrent) && r.Failure? ==> r.error == Persistence)
      && (r.Failure? ==> c' == c)
      && (r.Success? ==>
            && ring.current.Some? && ring'.current.Some? && ring'.current.value.pair == pair
            && ring'.current.value.keyId > serverCurrent && ring'.current.value.keyId >= ring.nextId
            && ring'.nextId == ring'.current.value.keyId + 1 && ring'.rotatedAt == now
            && ring'.previous == AtMost(if previously then [ring.current.value] + ring.previous else ring.previous, 3)
            && r.value == Some(SignedPrekeyRotation(newId, ring'.current.value.keyId, pair))
            && c'.mem.core == c.mem.core.(spks := ring') && c'.disk.core == Some(c'.mem.core))
  {
    Sought(c, id, x);
    PendingRing(c, x);
    var i := RotationIndex(c.mem.outbox, id).value;
    SuccessorExists(c.mem.core.spks, serverCurrent);
    FreeWithout(c, i, newId);
    hide Inv, DeleteId, HasId, RotationIndex;
  }

  /** An answer to a rotation that does not wait is ignored. */
  lemma StrayRotationAnswers(c: Client, id: Uuid, accepted: bool, previously: bool, serverCurrent: U32, newId: Uuid,
                             pair: Key32, now: nat, ok: bool)
    requires forall x :: x in c.mem.outbox && x.SignedPrekeyRotation? ==> x.rotationId != id
    ensures ConfirmRotated(c, id, accepted, previously, serverCurrent, newId, pair, now, ok) == (c, Success(None))
  {
    assert RotationIndex(c.mem.outbox, id).None?;
    hide Reconcile, RetireWithCore;
  }

  // -- One-time prekeys ----------------------------------------------------------------------

  /** Made at most 61 days ago. */
  predicate Young(s: OpkStore, k: U32, now: nat)
  {
    k in s.createdAt && now <= s.createdAt[k] + 61 * DAY
  }

  predicate InNext(s: OpkStore, k: U32) { s.nextId <= k < s.nextId + 100 }

  /** Which keys a replenishment leaves, with which times. */
  lemma ReplenishedExactly(s: OpkStore, pairs: seq<Key32>, now: nat, k: U32)
    requires OpksOk(s) && |pairs| == PREKEY_TARGET && BatchFits(s)
    ensures
      var s' := Replenished(s, pairs, now);
      && (k in s'.keys <==> (k in s.keys && Young(s, k, now)) || InNext(s, k))
      && (k in s'.keys ==> k in s'.createdAt)
      && (k in s'.keys && !InNext(s, k) ==> s'.keys[k] == s.keys[k] && s'.createdAt[k] == s.createdAt[k])
      && (InNext(s, k) ==> s'.keys[k] == pairs[k - s.nextId] && s'.createdAt[k] == now)
      && s'.nextId == s.nextId + 100
  {}

  ghost predicate UploadWaits(out: seq<PendingOutbound>) { exists x :: x in out && x.PrekeyUpload? }

  lemma UploadWaitsWhen(out: seq<PendingOutbound>)
    ensures UploadWaits(out) <==> AnyUpload(out).Some?
  {
    var i := AnyUpload(out);
    if i.Some? {
      assert out[i.value] in out;
    }
  }

  /** A batch is made exactly when no upload waits and there are IDs, room and a working store
      for it; an upload that waits is handed out again. */
  lemma ReplenishmentAnswers(c: Client, id: Uuid, pairs: seq<Key32>, now: nat, ok: bool)
    requires Inv(c) && |pairs| == PREKEY_TARGET
    ensures
      var (c', r) := QueueReplenishment(c, id, pairs, now, ok);
      var s, out := c.mem.core.opks, c.mem.outbox;
      var fits, room := s.nextId + 100 < U32_LIMIT, Room(out, 100 * 48);
      && (UploadWaits(out) ==> c' == c && r.Success? && r.value in out && r.value.PrekeyUpload?)
      && (!UploadWaits(out) && !fits ==> r == Failure(RatchetFailed) && c' == c)
      && (!UploadWaits(out) && fits && !room ==> r == Failure(OutboxFull) && c' == c)
      && (!UploadWaits(out) && fits && room ==>
            if ok && Unused(out, id)
            then && r.Success? && r.value.PrekeyUpload? && QueuedItem(c, c', r, r.value) && r.value.uploadId == id
                 && |r.value.prekeys| == 100
                 && (forall i :: 0 <= i < 100 ==> r.value.prekeys[i] == (s.nextId + i, pairs[i]))
                 && c'.mem.core == c.mem.core.(opks := Replenished(s, pairs, now))
            else r == Failure(Persistence) && c' == c)
  {
    UploadWaitsWhen(c.mem.outbox);
    UnusedOnDisk(c, id);
    hide Inv, HasId, TotalLength, Unused, AnyUpload, UploadWaits, Replenished;
  }

  ghost predicate UploadUnder(c: Client, id: Uuid, x: PendingOutbound)
  {
    x in c.mem.outbox && x.PrekeyUpload? && x.uploadId == id
  }

  lemma SoughtUpload(c: Client, id: Uuid, x: PendingOutbound)
    requires Inv(c) && UploadUnder(c, id, x)
    ensures var i := UploadIndex(c.mem.outbox, id); i.Some? && c.mem.outbox[i.value] == x
  {
    var i := UploadIndex(c.mem.outbox, id);
    assert i.Some?;
    OnlyOne(c, i.value, x);
    hide Inv;
  }

  /** A refused upload takes exactly its own keys with it. */
  lemma RefusedUploadAnswers(c: Client, id: Uuid, x: PendingOutbound, remaining: U32, newId: Uuid, pairs: seq<Key32>,
                             now: nat, ok: bool, okDelete: bool, k: U32)
    requires Inv(c) && UploadUnder(c, id, x) && |pairs| == PREKEY_TARGET
    ensures
      var (c', r) := ConfirmUploaded(c, id, false, remaining, newId, pairs, now, ok, okDelete);
      var s, s' := c.mem.core.opks, c'.mem.core.opks;
      && (!ok ==> r == Failure(Persistence) && c' == c)
      && (ok ==>
            && r == Success(None) && c'.mem.core == c.mem.core.(opks := s') && c'.disk.core == Some(c'.mem.core)
            && (k in s'.keys <==> k in s.keys && forall i :: 0 <= i < |x.prekeys| ==> x.prekeys[i].0 != k)
            && (k in s'.keys ==> s'.keys[k] == s.keys[k])
            && s'.nextId == s.nextId)
  {
    SoughtUpload(c, id, x);
    hide Inv, DeleteId, RemoveAt, UploadIndex;
    assert k in UploadIds(x) <==> exists i :: 0 <= i < |x.prekeys| && x.prekeys[i].0 == k by {
      if i :| 0 <= i < |x.prekeys| && x.prekeys[i].0 == k {
        assert x.prekeys[i] in x.prekeys;
      }
    }
    hide UploadIds;
  }

  /** An accepted upload leaves the keys alone while at least 100 are left at the server. */
  lemma AcceptedUploadAnswers(c: Client, id: Uuid, x: PendingOutbound, remaining: U32, newId: Uuid, pairs: seq<Key32>,
                              now: nat, ok: bool, okDelete: bool)
    requires Inv(c) && UploadUnder(c, id, x) && |pairs| == PREKEY_TARGET && remaining >= 100
    ensures
      var (c', r) := ConfirmUploaded(c, id, true, remaining, newId, pairs, now, ok, okDelete);
      && c'.mem.core == c.mem.core && c'.disk.core == c.disk.core
      && r == (if ok then Success(None) else Failure(Persistence))
  {
    SoughtUpload(c, id, x);
    hide Inv, DeleteId, RemoveAt, UploadIndex;
  }

  /** Below that it is answered with the next upload: one that waits already, or a new batch. */
  lemma LowUploadAnswers(c: Client, id: Uuid, x: PendingOutbound, remaining: U32, newId: Uuid, pairs: seq<Key32>,
                         now: nat, ok: bool, okDelete: bool)
    requires Inv(c) && UploadUnder(c, id, x) && |pairs| == PREKEY_TARGET && remaining < 100
    ensures
      var (c', r) := ConfirmUploaded(c, id, true, remaining, newId, pairs, now, ok, okDelete);
      var other := exists y :: y in c.mem.outbox && y != x && y.PrekeyUpload?;
      && (r.Success? <==> okDelete && Renewable(c, x, newId, ok))
      && (r.Success? && other ==>
            c'.mem.core == c.mem.core && r.value.Some? && r.value.value in c.mem.outbox && r.value.value.PrekeyUpload?)
      && (r.Success? && !other ==>
            && BatchFits(c.mem.core.opks)
            && c'.mem.core == c.mem.core.(opks := Replenished(c.mem.core.opks, pairs, now))
            && c'.disk.core == Some(c'.mem.core)
            && r.value == Some(PrekeyUpload(newId, Batch(c.mem.core.opks, pairs))))
  {
    SoughtUpload(c, id, x);
    var i := UploadIndex(c.mem.outbox, id).value;
    RenewableWhen(c, i, newId, ok);
    OtherUpload(c, i);
    hide Inv, DeleteId, RemoveAt, InsertAt, HasId, Replenished, HasCapacity, Renewable, TotalLength, UploadIndex,
         AnyUpload;
  }

  lemma OtherUpload(c: Client, i: nat)
    requires Inv(c) && i < |c.mem.outbox|
    ensures
      var rest := RemoveAt(c.mem.outbox, i);
      var k := AnyUpload(rest);
      && (k.Some? <==> exists y :: y in c.mem.outbox && y != c.mem.outbox[i] && y.PrekeyUpload?)
      && (k.Some? ==> rest[k.value] in c.mem.outbox && rest[k.value].PrekeyUpload?)
  {
    RemovedOne(c, i);
    hide Inv;
    var rest := RemoveAt(c.mem.outbox, i);
    hide RemoveAt;
    UploadWaitsWhen(rest);
    var k := AnyUpload(rest);
    if k.Some? {
      assert rest[k.value] in rest;
    }
  }

  /** An answer to an upload that does not wait is ignored. */
  lemma StrayUploadAnswers(c: Client, id: Uuid, accepted: bool, remaining: U32, newId: Uuid, pairs: seq<Key32>,
                           now: nat, ok: bool, okDelete: bool)
    requires |pairs| == PREKEY_TARGET && forall x :: x in c.mem.outbox && x.PrekeyUpload? ==> x.uploadId != id
    ensures ConfirmUploaded(c, id, accepted, remaining, newId, pairs, now, ok, okDelete) == (c, Success(None))
  {
    assert UploadIndex(c.mem.outbox, id).None?;
    hide ReplaceUpload, RetireWithCore;
  }

  /** Registration takes effect exactly when it is saved: the keys with their time, an ID counter
      that is the old one or just above the largest of them, and no predecessor. */
  lemma RegistrationAnswers(c: Client, spk: SignedPrekey, opks: map<U32, Key32>, now: nat, ok: bool)
    ensures
      var (c', r) := PersistRegistration(c, spk, opks, now, ok);
      var s, s', ring' := c.mem.core.opks, c'.mem.core.opks, c'.mem.core.spks;
      && r == (if ok then Success(()) else Failure(Persistence))
      && (!ok ==> c' == c)
      && (ok ==>
            && c'.mem.core.sessions == c.mem.core.sessions && c'.mem.outbox == c.mem.outbox
            && c'.mem.processed == c.mem.processed && c'.disk.core == Some(c'.mem.core)
            && ring'.current == Some(spk) && ring'.previous == [] && ring'.rotatedAt == now
            && ring'.nextId == (if spk.keyId + 1 < U32_LIMIT then spk.keyId + 1 else spk.keyId)
            && s'.keys == opks && s'.createdAt.Keys == opks.Keys && (forall k :: k in opks ==> s'.createdAt[k] == now)
            && s.nextId <= s'.nextId && (forall k :: k in opks ==> k < s'.nextId || k + 1 == U32_LIMIT)
            && (s'.nextId == s.nextId || exists k :: k in opks && s'.nextId == SaturatingIncrement(k)))
  {}
}
