/** Client and relay together: whatever an honest client ever committed to its
    outbox, delivered to the relay in any order and any number of times, is
    answered in sequence. */
module UploadProtocol {
  import opened Wire
  import opened Outbox
  import opened PrekeyStores
  import opened ServerSpec
  import ClientSpec
  import Client = ClientRuns
  import Relay = ServerRuns

  /** Every upload of the user is a copy of one its client committed; its
      registration used IDs below the floor, where no upload ever lies. */
  ghost predicate Honest(log: set<PendingOutbound>, user: UserId, ev: Relay.Event)
  {
    && (ev.Uploading? && ev.user == user ==> exists x :: x in log && x.PrekeyUpload? && x.prekeys == ev.batch)
    && (ev.Registering? && ev.user == user ==> MaxId(ev.batch) < LEGACY_PREKEY_ID_FLOOR)
  }

  ghost predicate HonestRun(log: set<PendingOutbound>, user: UserId, evs: seq<Relay.Event>)
  {
    forall i :: 0 <= i < |evs| ==> Honest(log, user, evs[i])
  }

  /** The mark lies below every upload, or at the end of one of them. */
  ghost predicate Aligned(log: set<PendingOutbound>, mark: int)
  {
    mark == LEGACY_PREKEY_ID_FLOOR - 1
    || exists x :: x in log && x.PrekeyUpload? && x.prekeys != [] && mark == MaxId(x.prekeys)
  }

  lemma BatchEnds(identity: Key32, run: seq<Client.Event>, x: PendingOutbound)
    requires Client.PermittedRun(identity, run) && x in Client.Run(identity, run).log && x.PrekeyUpload?
    ensures |x.prekeys| == PREKEY_TARGET && LEGACY_PREKEY_ID_FLOOR <= x.prekeys[0].0
    ensures MinId(x.prekeys) == x.prekeys[0].0 && MaxId(x.prekeys) == x.prekeys[0].0 + PREKEY_TARGET - 1
  {
    Client.UploadsDisjoint(identity, run, x, x);
    hide Client.Run, Client.PermittedRun;
    assert x.prekeys[PREKEY_TARGET - 1].0 == x.prekeys[0].0 + PREKEY_TARGET - 1;
  }

  lemma DisjointIntervals(x: PendingOutbound, y: PendingOutbound)
    requires x.PrekeyUpload? && y.PrekeyUpload? && |x.prekeys| == |y.prekeys| == PREKEY_TARGET
    requires forall i :: 0 <= i < PREKEY_TARGET ==> x.prekeys[i].0 == x.prekeys[0].0 + i
    requires forall i :: 0 <= i < PREKEY_TARGET ==> y.prekeys[i].0 == y.prekeys[0].0 + i
    requires ClientSpec.UploadIds(x) !! ClientSpec.UploadIds(y)
    ensures x.prekeys[0].0 + PREKEY_TARGET <= y.prekeys[0].0 || y.prekeys[0].0 + PREKEY_TARGET <= x.prekeys[0].0
  {
    var a: int, b: int := x.prekeys[0].0, y.prekeys[0].0;
    forall i, j | 0 <= i < PREKEY_TARGET && 0 <= j < PREKEY_TARGET
      ensures x.prekeys[i].0 != y.prekeys[j].0
    {
      assert x.prekeys[i].0 in ClientSpec.UploadIds(x);
      assert y.prekeys[j].0 in ClientSpec.UploadIds(y);
    }
    var i := if 0 <= b - a < PREKEY_TARGET then b - a else 0;
    var j := if 0 <= a - b < PREKEY_TARGET then a - b else 0;
    assert x.prekeys[i].0 != y.prekeys[j].0;
  }

  /** The mark never splits a batch. */
  lemma NeverSplit(identity: Key32, run: seq<Client.Event>, x: PendingOutbound, mark: int)
    requires Client.PermittedRun(identity, run) && x in Client.Run(identity, run).log && x.PrekeyUpload?
    requires Aligned(Client.Run(identity, run).log, mark)
    ensures x.prekeys != [] && (MaxId(x.prekeys) <= mark || mark < MinId(x.prekeys))
  {
    hide Client.Run, Client.PermittedRun, MaxId, MinId, ClientSpec.UploadIds;
    BatchEnds(identity, run, x);
    if mark != LEGACY_PREKEY_ID_FLOOR - 1 {
      var y :| y in Client.Run(identity, run).log && y.PrekeyUpload? && y.prekeys != [] && mark == MaxId(y.prekeys);
      BatchEnds(identity, run, y);
      if x != y {
        Client.UploadsDisjoint(identity, run, x, y);
        Client.UploadsDisjoint(identity, run, y, x);
        DisjointIntervals(x, y);
      }
    }
  }

  lemma OthersKeepMark(h: Relay.History, limits: FetchLimits, ev: Relay.Event, user: UserId)
    requires Relay.Permitted(h, ev)
    ensures
      var d, d' := h.db, Relay.After(h, limits, ev).db;
      user in d'.highWater ==>
        || (user in d.highWater && d'.highWater[user] == d.highWater[user])
        || (ev.Registering? && ev.user == user && user !in d.highWater
            && d'.highWater[user] == Max(MaxId(ev.batch), LEGACY_PREKEY_ID_FLOOR - 1))
        || (ev.Uploading? && ev.user == user && user in d.highWater && ev.batch != []
            && d.highWater[user] < MinId(ev.batch)
            && d'.highWater[user] == MaxId(ev.batch))
    ensures user in h.db.highWater ==> user in Relay.After(h, limits, ev).db.highWater
  {
    hide InsertedBatch, MaxId, MinId, WithoutExpired, Inventory, RotateKeys, QueuedFor, AcceptedFrom, FindKey,
         Remaining, Unconfirmed, InQueue, NextRowId, LiveReservations, CountFrom, KeptEvents, Pickable;
  }

  lemma {:induction false} MarkAligned(identity: Key32, run: seq<Client.Event>, limits: FetchLimits,
                                       evs: seq<Relay.Event>, user: UserId)
    requires Client.PermittedRun(identity, run) && Relay.PermittedRun(limits, evs)
    requires HonestRun(Client.Run(identity, run).log, user, evs)
    ensures user in Relay.Run(limits, evs).db.highWater ==>
              Aligned(Client.Run(identity, run).log, Relay.Run(limits, evs).db.highWater[user])
  {
    hide Client.Run, Client.PermittedRun, MaxId, MinId;
    if evs != [] {
      var front, ev := evs[..|evs| - 1], evs[|evs| - 1];
      MarkAligned(identity, run, limits, front, user);
      OthersKeepMark(Relay.Run(limits, front), limits, ev, user);
      hide Relay.After;
      assert Honest(Client.Run(identity, run).log, user, ev);
    }
  }

  lemma {:induction false} MarkRises(limits: FetchLimits, evs: seq<Relay.Event>, user: UserId, i: nat)
    requires Relay.PermittedRun(limits, evs) && i <= |evs| && Relay.PermittedRun(limits, evs[..i])
    requires user in Relay.Run(limits, evs[..i]).db.highWater
    ensures user in Relay.Run(limits, evs).db.highWater
    ensures Relay.Run(limits, evs[..i]).db.highWater[user] <= Relay.Run(limits, evs).db.highWater[user]
  {
    if i == |evs| {
      assert evs[..i] == evs;
    } else {
      var front := evs[..|evs| - 1];
      assert front[..i] == evs[..i];
      MarkRises(limits, front, user, i);
      OthersKeepMark(Relay.Run(limits, front), limits, evs[|evs| - 1], user);
      hide Relay.After;
    }
  }

  /** For every run of an honest client and every run of the relay that receives
      copies of its uploads, duplicated, reordered, delayed or lost: no upload is
      ever answered as out of sequence. */
  lemma UploadsInSequence(identity: Key32, run: seq<Client.Event>, limits: FetchLimits, evs: seq<Relay.Event>,
                          user: UserId, ev: Relay.Event)
    requires Client.PermittedRun(identity, run) && Relay.PermittedRun(limits, evs)
    requires HonestRun(Client.Run(identity, run).log, user, evs + [ev]) && ev.Uploading? && ev.user == user
    ensures !Upload(Relay.Run(limits, evs).db, user, ev.batch, ev.now).1.InvalidSequence?
  {
    hide Client.Run, Client.PermittedRun, Relay.Run, Relay.PermittedRun;
    var log, d := Client.Run(identity, run).log, Relay.Run(limits, evs).db;
    assert (evs + [ev])[|evs|] == ev;
    assert HonestRun(log, user, evs) by {
      assert forall i :: 0 <= i < |evs| ==> evs[i] == (evs + [ev])[i];
    }
    MarkAligned(identity, run, limits, evs, user);
    if user in d.highWater {
      var x :| x in log && x.PrekeyUpload? && x.prekeys == ev.batch;
      NeverSplit(identity, run, x, d.highWater[user]);
    }
  }

  /** A copy of an upload that reaches the relay at any time after the upload was
      accepted is accepted again and changes nothing. */
  lemma CopiesChangeNothing(limits: FetchLimits, evs: seq<Relay.Event>, i: nat, now: nat)
    requires Relay.PermittedRun(limits, evs) && i < |evs| && Relay.PermittedRun(limits, evs[..i])
    requires Relay.PermittedRun(limits, evs[..i + 1]) && evs[i].Uploading? && evs[i].batch != []
    requires Upload(Relay.Run(limits, evs[..i]).db, evs[i].user, evs[i].batch, evs[i].now).1.Accepted?
    ensures
      var (d, r) := Upload(Relay.Run(limits, evs).db, evs[i].user, evs[i].batch, now);
      d == Relay.Run(limits, evs).db && r.Accepted?
  {
    var upto := evs[..i + 1];
    assert upto[..|upto| - 1] == evs[..i];
    assert Relay.Run(limits, upto) == Relay.After(Relay.Run(limits, evs[..i]), limits, evs[i]);
    MarkRises(limits, evs, evs[i].user, i + 1);
    hide Relay.Run, Relay.PermittedRun, Inventory, InsertedBatch, WithoutExpired;
  }
}
