/** The rotation protocol's promise for the full client: whatever client and relay do
    together, seen through the signed-prekey ring, is a run of the rotation protocol. */
module SignedLifetime {
  import opened Wire
  import opened Outbox
  import opened PrekeyStores
  import opened ServerSpec
  import opened PrekeyWorld
  import opened RotationRefinement
  import PrekeyLifetime
  import ClientSpec
  import ClientInvariant
  import ClientItems
  import Runs = ClientRuns
  import Relay = ServerRuns
  import Protocol = RotationProtocol

  const KEEP := SIGNED_PREKEY_PRIVATE_HISTORY

  ghost predicate SameSent(log: set<PendingOutbound>, sent: set<Protocol.Request>)
  {
    forall r :: r in sent <==> Item(r) in log
  }

  function AsAnswer(a: Protocol.Answer): (r: Answer) { RotationAnswer(a.id, a.accepted, a.previously, a.current) }

  ghost predicate SameAnswers(answers: set<Answer>, heard: set<Protocol.Answer>)
  {
    forall a :: a in heard <==> AsAnswer(a) in answers
  }

  ghost predicate Matches(user: UserId, w: World, j: Protocol.Joint)
  {
    && j.ring == w.client.mem.core.spks && RotationPending(w.client.mem.outbox, j.pending)
    && SameSent(w.log, j.sent) && SameAnswers(w.answers, j.answers)
    && user in w.relay.db.signed && j.published == w.relay.db.signed[user]
    && j.now == w.now && j.admitted == w.signed
  }

  /** The step is none of the protocol's, or one of its steps. */
  ghost predicate Follows(user: UserId, w': World, j: Protocol.Joint)
  {
    Matches(user, w', j) || exists e :: Protocol.Permitted(j, e) && Matches(user, w', Protocol.Step(KEEP, j, e))
  }

  lemma PassFollows(user: UserId, w: World, j: Protocol.Joint, secs: nat)
    requires Matches(user, w, j)
    ensures Follows(user, w.(now := w.now + secs), j)
  {
    var e := Protocol.Advance(secs);
    assert Protocol.Permitted(j, e) && Matches(user, w.(now := w.now + secs), Protocol.Step(KEEP, j, e));
  }

  // -- The client's steps --------------------------------------------------------------

  function Asked(p: Option<Protocol.Request>): (s: set<Protocol.Request>)
  {
    match p case Some(r) => {r} case None => {}
  }

  /** The rotations ever durable after a step: those before, and the pending one. */
  lemma SentAfter(c': ClientSpec.Client, log: set<PendingOutbound>, sent: set<Protocol.Request>,
                  p': Option<Protocol.Request>)
    requires ClientInvariant.Inv(c') && SameSent(log, sent) && RotationPending(c'.mem.outbox, p')
    ensures SameSent(log + Runs.Items(c'.disk.outbox), sent + Asked(p'))
  {
    ClientItems.OnDisk(c');
    hide ClientInvariant.Inv;
    forall r
      ensures r in sent + Asked(p') <==> Item(r) in log + Runs.Items(c'.disk.outbox)
    {
      assert Item(r) in Runs.Items(c'.disk.outbox) <==> Item(r) in c'.mem.outbox;
      assert Item(r) in c'.mem.outbox <==> p'.Some? && Item(r) == Item(p'.value);
    }
  }

  lemma UnusedByAll(log: set<PendingOutbound>, j: Protocol.Joint, id: Uuid)
    requires SameSent(log, j.sent) && UnusedId(log, id)
    ensures Protocol.UnusedId(j, id)
  {
    forall r | r in j.sent
      ensures r.id != id
    {
      assert Item(r) in log;
    }
  }

  lemma LocalFollows(user: UserId, w: World, j: Protocol.Joint, ev: Runs.Event)
    requires Matches(user, w, j) && (j.pending.Some? ==> j.pending.value in j.sent)
    requires ClientInvariant.Inv(w.client) && Runs.Permitted(w.client, w.log, ev) && !ev.DoRegister?
    requires OnTime(ev, w.now) && Heard(w.answers, ev) && DrawnNew(w.log, ev)
    ensures Follows(user, AfterLocal(w, ev), j)
  {
    hide Runs.Permitted, Runs.Step, ClientInvariant.Inv, RotationPending, SameSent, Rotated, Reconciled,
         RotationConfirmed, ReplacementKeyId, RotationKeyId;
    var c', w' := Runs.Step(w.client, w.log, ev).0, AfterLocal(w, ev);
    Runs.StepKeepsInv(w.client, w.log, ev);
    ClientTakesRotationSteps(w.client, j.pending, w.log, ev);
    var p' :| RotationPending(c'.mem.outbox, p') && RotationStep(j.ring, j.pending, c'.mem.core.spks, p', ev);
    SentAfter(c', w.log, j.sent, p');
    if c'.mem.core.spks == j.ring && p' == j.pending {
      assert j.sent + Asked(p') == j.sent;
    } else if ev.DoQueueRotation? {
      UnusedByAll(w.log, j, ev.id);
      var e := Protocol.Begin(ev.id, ev.pair);
      assert Protocol.Permitted(j, e) && Matches(user, w', Protocol.Step(KEEP, j, e));
    } else {
      HearFollows(user, w, j, ev, p');
    }
  }

  lemma HearFollows(user: UserId, w: World, j: Protocol.Joint, ev: Runs.Event, p': Option<Protocol.Request>)
    requires Matches(user, w, j) && Runs.Permitted(w.client, w.log, ev) && ev.DoConfirmRotated?
    requires OnTime(ev, w.now) && Heard(w.answers, ev) && DrawnNew(w.log, ev)
    requires var w' := AfterLocal(w, ev);
             && RotationPending(w'.client.mem.outbox, p')
             && SameSent(w'.log, j.sent + Asked(p'))
             && RotationStep(j.ring, j.pending, w'.client.mem.core.spks, p', ev)
             && !(w'.client.mem.core.spks == j.ring && p' == j.pending)
    ensures Follows(user, AfterLocal(w, ev), j)
  {
    hide Runs.Permitted, Runs.Step, RotationPending, SameSent, Reconciled, RotationConfirmed, ReplacementKeyId,
         Protocol.Newest, Protocol.Swapped;
    var a := Protocol.Answer(ev.id, ev.accepted, ev.previouslyAccepted, ev.serverCurrent);
    assert AsAnswer(a) in w.answers;
    UnusedByAll(w.log, j, ev.newId);
    Protocol.StandardHistory(j.ring, a, ev.pair, w.now);
    var e, w' := Protocol.Hear(a, ev.newId, ev.pair), AfterLocal(w, ev);
    assert p'.None? ==> j.sent + Asked(p') == j.sent;
    assert Protocol.Permitted(j, e) && Matches(user, w', Protocol.Step(KEEP, j, e));
  }

  // -- The relay's steps ------------------------------------------------------------------

  lemma DeliverFollows(p: Setup, w: World, j: Protocol.Joint, x: PendingOutbound)
    requires Matches(p.user, w, j) && j.published != [] && Permitted(p, w, Deliver(x))
    ensures Follows(p.user, Step(p, w, Deliver(x)), j)
  {
    hide RotationPending, RotateKeys;
    var w' := Step(p, w, Deliver(x));
    if x.PrekeyUpload? {
      hide SameSent;
      UploadElsewhere(w.relay.db, p.user, x.prekeys, w.now);
      hide Upload;
      assert Matches(p.user, w', j);
    } else {
      var r := Protocol.Request(x.rotationId, SignedPrekey(x.keyId, x.publicKey));
      assert Item(r) == x;
      var e := Protocol.Serve(r);
      assert Protocol.Permitted(j, e);
      AlwaysAnswered(j.published, r.key);
      AnswerMatches(w.answers, j.answers, r.id, RotateKeys(j.published, r.key).1);
      hide SameSent, SameAnswers;
      assert Matches(p.user, w', Protocol.Step(KEEP, j, e));
    }
  }

  lemma AlwaysAnswered(keys: seq<SignedPrekey>, k: SignedPrekey)
    requires keys != []
    ensures !RotateKeys(keys, k).1.RotationFailed?
  {}

  lemma AnswerMatches(answers: set<Answer>, heard: set<Protocol.Answer>, id: Uuid, r: RotationResult)
    requires SameAnswers(answers, heard) && !r.RotationFailed?
    ensures SameAnswers(answers + RotationAnswers(id, r), heard + {Protocol.AnswerTo(id, r)})
  {}

  lemma UploadElsewhere(d: Db, user: UserId, batch: seq<(U32, Key32)>, now: nat)
    ensures Upload(d, user, batch, now).0.signed == d.signed
  {
    hide InsertedBatch, WithoutExpired, MinId, MaxId;
  }

  lemma SignedKept(d: Db, user: UserId, limits: FetchLimits, h: Relay.History, ev: Relay.Event, now: nat)
    requires h.db == d && Relay.Permitted(h, ev) && OthersRequest(user, ev, now) && user in d.highWater
             && user in d.signed
    ensures var d' := Relay.After(h, limits, ev).db; user in d'.signed && d'.signed[user] == d.signed[user]
  {
    hide InsertedBatch, WithoutExpired, MinId, MaxId, CountFrom, KeptEvents, QueuedFor, InQueue, NextRowId,
         AcceptedFrom, FindKey, Remaining, Unconfirmed, Pickable, Inventory, LiveReservations, RotateKeys;
  }

  lemma ServeFollows(p: Setup, w: World, j: Protocol.Joint, ev: Relay.Event)
    requires Matches(p.user, w, j) && Relay.Permitted(w.relay, ev) && OthersRequest(p.user, ev, w.now)
    requires p.user in w.relay.db.highWater
    ensures Follows(p.user, AfterServe(p, w, ev), j)
  {
    hide RotationPending, SameSent, SameAnswers, Relay.Permitted, Relay.After, SignedAdmitted, OneTimeAdmitted,
         OthersRequest;
    var w' := AfterServe(p, w, ev);
    SignedKept(w.relay.db, p.user, p.limits, w.relay, ev, w.now);
    var more := SignedAdmitted(w.relay.db, p.user, ev, w.now);
    if more == {} {
      assert Matches(p.user, w', j);
    } else {
      var id := AdmittedUnder(w.relay.db, p.user, ev, w.now);
      var e := Protocol.Admit(id);
      assert Protocol.Permitted(j, e) && Matches(p.user, w', Protocol.Step(KEEP, j, e));
    }
  }

  lemma AdmittedUnder(d: Db, user: UserId, ev: Relay.Event, now: nat) returns (id: U32)
    requires SignedAdmitted(d, user, ev, now) != {}
    ensures user in d.signed && FindKey(d.signed[user], id).Some?
    ensures SignedAdmitted(d, user, ev, now) == {Protocol.Admission(FindKey(d.signed[user], id).value, now)}
  {
    hide Enqueue;
    id := SignedPrekeyIdOf(ev.q.envelope).value;
  }

  // -- Whole runs ----------------------------------------------------------------------------

  ghost predicate Shadows(p: Setup, w: World, evs: seq<Protocol.Event>)
  {
    && p.spk.keyId + 1 < U32_LIMIT && p.at >= 1
    && Protocol.PermittedRun(KEEP, Protocol.Start(p.spk, p.at), evs)
    && Matches(p.user, w, Protocol.Run(KEEP, Protocol.Start(p.spk, p.at), evs))
  }

  lemma StepFollows(p: Setup, w: World, j: Protocol.Joint, ev: Event)
    requires PrekeyLifetime.WorldOk(p, w) && Matches(p.user, w, j) && Protocol.Inv(KEEP, j) && Permitted(p, w, ev)
    ensures Follows(p.user, Step(p, w, ev), j)
  {
    assert j.published != [] && (j.pending.Some? ==> j.pending.value in j.sent);
    hide Follows, Matches, Protocol.Inv, ClientInvariant.Inv, Runs.Permitted, Relay.Permitted;
    match ev
    case Pass(secs) => PassFollows(p.user, w, j, secs);
    case Local(e) => LocalFollows(p.user, w, j, e);
    case Deliver(x) => DeliverFollows(p, w, j, x);
    case Serve(e) => ServeFollows(p, w, j, e);
  }

  lemma Extended(p: Setup, w': World, evs: seq<Protocol.Event>) returns (evs': seq<Protocol.Event>)
    requires p.spk.keyId + 1 < U32_LIMIT && p.at >= 1 && Protocol.PermittedRun(KEEP, Protocol.Start(p.spk, p.at), evs)
    requires Follows(p.user, w', Protocol.Run(KEEP, Protocol.Start(p.spk, p.at), evs))
    ensures Shadows(p, w', evs')
  {
    hide Matches, Protocol.Permitted, Protocol.Step;
    var j := Protocol.Run(KEEP, Protocol.Start(p.spk, p.at), evs);
    if Matches(p.user, w', j) {
      evs' := evs;
    } else {
      var e :| Protocol.Permitted(j, e) && Matches(p.user, w', Protocol.Step(KEEP, j, e));
      evs' := evs + [e];
      assert evs'[..|evs|] == evs;
    }
  }

  lemma StartShadowed(p: Setup)
    requires Registrable(p)
    ensures Shadows(p, Start(p), [])
  {
    hide Relay.Run, Relay.PermittedRun, InsertedBatch;
  }

  lemma {:induction false} RunShadowed(p: Setup, evs: seq<Event>) returns (shadow: seq<Protocol.Event>)
    requires Registrable(p) && PermittedRun(p, evs)
    ensures Shadows(p, Run(p, evs), shadow)
  {
    hide Registrable;
    if evs == [] {
      StartShadowed(p);
      shadow := [];
    } else {
      var front, ev := evs[..|evs| - 1], evs[|evs| - 1];
      var before := RunShadowed(p, front);
      PrekeyLifetime.RunKeeps(p, front);
      Protocol.RunKeeps(KEEP, p.spk, p.at, before);
      hide Matches, Follows, Step, Permitted, Protocol.Run, Protocol.PermittedRun, Protocol.Inv, PrekeyLifetime.WorldOk;
      StepFollows(p, Run(p, front), Protocol.Run(KEEP, Protocol.Start(p.spk, p.at), before), ev);
      shadow := Extended(p, Run(p, evs), before);
    }
  }

  lemma {:induction false} Found(keys: seq<SignedPrekey>, k: SignedPrekey)
    requires StrictlyDecreasing(keys) && k in keys
    ensures ClientSpec.FindSpk(keys, k.keyId) == Some(k)
  {
    if keys[0] != k {
      var i :| 0 <= i < |keys| && keys[i] == k;
      assert keys[1..][i - 1] == k;
      Found(keys[1..], k);
    }
  }

  /** In every run of client and relay, a first message admitted under a published
      signed prekey and delivered less than thirty days later: the client finds the
      private half by the ID the message names. */
  lemma SignedHalfOutlivesAdmission(p: Setup, evs: seq<Event>, x: Protocol.Admission)
    requires Registrable(p) && PermittedRun(p, evs) && x in Run(p, evs).signed && Run(p, evs).now < x.at + 30 * DAY
    ensures ClientSpec.FindSpk(Held(Run(p, evs).client.mem.core.spks), x.key.keyId) == Some(x.key)
  {
    var shadow := RunShadowed(p, evs);
    PrekeyLifetime.RunKeeps(p, evs);
    var w := Run(p, evs);
    assert StrictlyDecreasing(Held(w.client.mem.core.spks)) by {
      Decreasing(w.client);
    }
    hide Run, PermittedRun, Registrable, ClientInvariant.Inv, PrekeyLifetime.WorldOk, ClientSpec.FindSpk;
    Protocol.PrivateHalfOutlivesAdmission(p.spk, p.at, shadow, x);
    Found(Held(w.client.mem.core.spks), x.key);
  }

  lemma Decreasing(c: ClientSpec.Client)
    requires ClientInvariant.Inv(c)
    ensures StrictlyDecreasing(Held(c.mem.core.spks))
  {}
}
