/** Two full clients in one session: their stores fail, they crash and reload, they
    talk to others, rotate and replenish keys; the network drops, reorders, repeats and
    forges. Seen through the session they share, that is a run of the ratchet. */
module SessionRuns {
  import opened Wire
  import opened KeyAlgebra
  import opened X3dh
  import opened Outbox
  import opened PrekeyStores
  import opened ClientSpec
  import opened ClientInvariant
  import opened ClientSessions
  import opened Introductions
  import opened RatchetTranscript
  import ClientPrekeys
  import RotationRefinement
  import SignedPrekeys
  import FirstExchange
  import Ratchet
  import Party = RatchetParty
  import Protocol = RatchetProtocol
  import Sessions = RatchetRuns
  import Runs = ClientRuns
  import Rotation = RotationProtocol

  /** The two users, and what each brings to the session. */
  datatype Meeting = Meeting(alice: UserId, bob: UserId, x: Sessions.Setup)

  /** Both clients, each with all it ever committed to its outbox, and the ratchet
      steps they have taken with each other. */
  datatype Pair = Pair(a: Runs.History, b: Runs.History, steps: seq<Protocol.Event>)

  datatype Event = At(p: Protocol.Party, ev: Runs.Event)

  function Side(s: Pair, p: Protocol.Party): (h: Runs.History) { if p.Alice? then s.a else s.b }

  function Peer(m: Meeting, p: Protocol.Party): (u: UserId) { if p.Alice? then m.bob else m.alice }

  /** Alice has just started a session from Bob's bundle; Bob has none with her, and
      whatever he holds under the bundle's IDs is the bundle's. */
  ghost predicate Begins(m: Meeting, s: Pair)
  {
    && m.x.Honest() && s.steps == [] && Inv(s.a.c) && Inv(s.b.c)
    && s.a.c.identity == m.x.aliceIdentity && s.b.c.identity == m.x.bobIdentity
    && m.bob in s.a.c.mem.core.sessions
    && FirstExchange.JustStarted(s.a.c.mem.core.sessions[m.bob], m.x.aliceIdentity, m.x.bundle, m.x.ephemeral,
                                 m.x.aliceRatchet)
    && m.alice !in s.b.c.mem.core.sessions && NoOther(s.b.c.mem.core, m.x.bundle)
  }

  /** So it is when Alice's client has started the session and Bob's holds the keys. */
  lemma MeetingBegins(m: Meeting, a: Runs.History, b: Runs.History, now: nat)
    requires m.x.Honest() && Inv(a.c) && Inv(b.c) && a.c.identity == m.x.aliceIdentity
             && b.c.identity == m.x.bobIdentity
    requires FirstExchange.Answers(b.c.mem.core, m.x.bobIdentity, m.alice, m.x.bundle)
    requires var ev := Runs.DoInitSession(m.bob, m.x.bundle, m.x.ephemeral, m.x.aliceRatchet, now, true);
             Runs.Permitted(a.c, a.log, ev)
    ensures var ev := Runs.DoInitSession(m.bob, m.x.bundle, m.x.ephemeral, m.x.aliceRatchet, now, true);
            Begins(m, Pair(Runs.History(Runs.Step(a.c, a.log, ev).0, a.log), b, []))
  {
    hide Inv, AliceInitiate, BobRespond, NoOther, FindSpk, Held;
    var ev := Runs.DoInitSession(m.bob, m.x.bundle, m.x.ephemeral, m.x.aliceRatchet, now, true);
    Runs.StepKeepsInv(a.c, a.log, ev);
    AgreementExactly(m.x.aliceIdentity, m.x.bundle, m.x.ephemeral, m.x.bobIdentity, m.x.bobPrekey, m.x.bobOneTime,
                     m.x.aliceIdentity, m.x.ephemeral);
    OnlyThose(b.c, m.x.bundle);
  }

  lemma OnlyThose(c: Client, bundle: Bundle)
    requires Inv(c) && FindSpk(Held(c.mem.core.spks), bundle.signedPrekeyId)
                       == Some(SignedPrekey(bundle.signedPrekeyId, bundle.signedPrekey))
    requires bundle.oneTimePrekey.Some? ==>
               bundle.oneTimePrekey.value.0 in c.mem.core.opks.keys
               && c.mem.core.opks.keys[bundle.oneTimePrekey.value.0] == bundle.oneTimePrekey.value.1
    ensures NoOther(c.mem.core, bundle)
  {
    var keys := Held(c.mem.core.spks);
    FoundIsHeld(keys, bundle.signedPrekeyId);
    assert forall h, k :: h in keys && k in keys && h.keyId == k.keyId ==> h == k;
    hide FindSpk, SameOutbox, CoreSaved;
  }

  // -- The private halves a bundle names ---------------------------------------------------

  /** Under the bundle's IDs the client holds the bundle's keys or none; and the IDs are taken. */
  ghost predicate NoOther(core: Core, bundle: Bundle)
  {
    && SpkOnly(core.spks, SignedPrekey(bundle.signedPrekeyId, bundle.signedPrekey))
    && (bundle.oneTimePrekey.Some? ==> OpkOnly(core.opks, bundle.oneTimePrekey.value.0, bundle.oneTimePrekey.value.1))
  }

  ghost predicate SpkOnly(r: SpkRing, k: SignedPrekey)
  {
    k.keyId < r.nextId && forall h :: h in Held(r) && h.keyId == k.keyId ==> h == k
  }

  ghost predicate OpkOnly(s: OpkStore, id: U32, pair: Key32)
  {
    SaturatingIncrement(id) <= s.nextId && (id in s.keys ==> s.keys[id] == pair)
  }

  lemma SpkStep(r: SpkRing, p: Option<Rotation.Request>, r': SpkRing, p': Option<Rotation.Request>, ev: Runs.Event,
                k: SignedPrekey)
    requires SpkOnly(r, k) && RotationRefinement.RotationStep(r, p, r', p', ev)
    ensures SpkOnly(r', k)
  {
    forall h | h in Held(r') && h.keyId == k.keyId
      ensures h == k
    {
      assert h in Held(r) || (r'.current == Some(h) && r.nextId <= h.keyId);
    }
  }

  lemma OpkStep(out: seq<PendingOutbound>, s: OpkStore, s': OpkStore, ev: Runs.Event, id: U32, pair: Key32)
    requires OpkOnly(s, id, pair) && ClientPrekeys.OpksStep(out, s, s', ev)
    ensures OpkOnly(s', id, pair)
  {
    hide UploadIds;
    assert BatchFits(s) ==> !InBatch(s, id);
  }

  lemma NoOtherKept(c: Client, log: set<PendingOutbound>, ev: Runs.Event, bundle: Bundle)
    requires Inv(c) && Runs.Permitted(c, log, ev) && !ev.DoRegister? && NoOther(c.mem.core, bundle)
    ensures NoOther(Runs.Step(c, log, ev).0.mem.core, bundle)
  {
    var p := SignedPrekeys.HasPending(c);
    RotationRefinement.ClientTakesRotationSteps(c, p, log, ev);
    ClientPrekeys.OpksFlow(c, log, ev);
    hide Inv, Runs.Permitted, Runs.Step, RotationRefinement.RotationStep, RotationRefinement.RotationPending,
         ClientPrekeys.OpksStep, ClientPrekeys.NewHeld, SpkOnly, OpkOnly;
    var core, core' := c.mem.core, Runs.Step(c, log, ev).0.mem.core;
    var p' :| RotationRefinement.RotationStep(core.spks, p, core'.spks, p', ev);
    SpkStep(core.spks, p, core'.spks, p', ev, SignedPrekey(bundle.signedPrekeyId, bundle.signedPrekey));
    if bundle.oneTimePrekey.Some? {
      OpkStep(c.mem.outbox, core.opks, core'.opks, ev, bundle.oneTimePrekey.value.0, bundle.oneTimePrekey.value.1);
    }
  }

  // -- The joint machine ---------------------------------------------------------------------

  /** What the step is to the ratchet: a send, a delivery, or nothing. */
  ghost function Shadow(m: Meeting, p: Protocol.Party, h: Runs.History, ev: Runs.Event): (steps: seq<Protocol.Event>)
    requires Runs.Permitted(h.c, h.log, ev)
  {
    var peer, sessions := Peer(m, p), h.c.mem.core.sessions;
    if Seals(ev) && ev.peer == peer && peer in sessions && !Runs.Step(h.c, h.log, ev).1 then
      [Protocol.Send(p, Sent(ev.plaintext, ContextBytes(SessionContext(h.c.identity, sessions[peer]))))]
    else if NewlyOpens(h.c, ev) && ev.peer == peer then [Protocol.Receive(p, Framed(ev.e), ev.newPair)]
    else []
  }

  function World(m: Meeting, s: Pair): (w: Protocol.World)
    requires m.x.AliceSecret().Success?
  {
    Sessions.Run(Sessions.Start(m.x), s.steps)
  }

  /** A first-message header under Alice's name carries her identity key, because the
      relay names the true sender; she and Bob alone have their private halves. */
  ghost predicate MayIntroduce(x: Sessions.Setup, adversary: set<Key32>, core: Core, h: MessageHeader)
  {
    h.PrekeyHeader? ==> h.identityKey == x.aliceIdentity && x.aliceIdentity !in adversary && RingSecret(core, adversary)
  }

  /** The network can have the envelope, and the key drawn for it is new. */
  ghost predicate MayArrive(m: Meeting, adversary: set<Key32>, s: Pair, p: Protocol.Party, e: Envelope, newPair: Key32)
    requires m.x.AliceSecret().Success?
  {
    var core := Side(s, p).c.mem.core;
    && World(m, s).t.Valid() && newPair !in World(m, s).t.keys && Deliverable(World(m, s).t, adversary, e.ciphertext)
    && (Peer(m, p) !in core.sessions ==> MayIntroduce(m.x, adversary, core, e.header))
  }

  /** Any event that neither restarts nor gives up the session. */
  ghost predicate Permitted(m: Meeting, adversary: set<Key32>, s: Pair, e: Event)
    requires m.x.AliceSecret().Success?
  {
    var h, peer := Side(s, e.p), Peer(m, e.p);
    && Runs.Permitted(h.c, h.log, e.ev) && !e.ev.DoRegister? && !(e.ev.DoInitSession? && e.ev.peer == peer)
    && (Resets(e.ev) && peer in h.c.mem.core.sessions ==> peer in Runs.Step(h.c, h.log, e.ev).0.mem.core.sessions)
    && (e.ev.DoDecrypt? && e.ev.peer == peer ==> MayArrive(m, adversary, s, e.p, e.ev.e, e.ev.newPair))
  }

  ghost function Next(m: Meeting, s: Pair, e: Event): (s': Pair)
    requires Runs.Permitted(Side(s, e.p).c, Side(s, e.p).log, e.ev)
  {
    var h := Side(s, e.p);
    var c' := Runs.Step(h.c, h.log, e.ev).0;
    var h' := Runs.History(c', h.log + Runs.Items(c'.disk.outbox));
    var steps := s.steps + Shadow(m, e.p, h, e.ev);
    if e.p.Alice? then Pair(h', s.b, steps) else Pair(s.a, h', steps)
  }

  ghost predicate PermittedRun(m: Meeting, adversary: set<Key32>, start: Pair, evs: seq<Event>)
    requires m.x.AliceSecret().Success?
    decreases |evs|, 0
  {
    evs == [] || (PermittedRun(m, adversary, start, evs[..|evs| - 1])
                  && Permitted(m, adversary, Run(m, adversary, start, evs[..|evs| - 1]), evs[|evs| - 1]))
  }

  ghost function Run(m: Meeting, adversary: set<Key32>, start: Pair, evs: seq<Event>): (s: Pair)
    requires m.x.AliceSecret().Success? && PermittedRun(m, adversary, start, evs)
    decreases |evs|, 1
  {
    if evs == [] then start else Next(m, Run(m, adversary, start, evs[..|evs| - 1]), evs[|evs| - 1])
  }

  // -- Each side's session is the ratchet's ------------------------------------------------------

  /** Only Alice's next envelope can still have to introduce her, and then with this session's keys. */
  predicate FirstOwn(x: Sessions.Setup, p: Protocol.Party, session: PeerSession)
  {
    session.first.Some? ==>
      p.Alice? && session.first.value == FirstHeader(x.ephemeral, x.bundle.signedPrekeyId, BundledId(x.bundle))
  }

  /** One side: its session is the ratchet state; Bob's may still be to come. */
  ghost predicate SideLinked(m: Meeting, p: Protocol.Party, c: Client, ratchet: Ratchet.SessionState)
  {
    && Inv(c) && c.identity == (if p.Alice? then m.x.aliceIdentity else m.x.bobIdentity)
    && (p.Bob? ==> NoOther(c.mem.core, m.x.bundle))
    && (if Peer(m, p) in c.mem.core.sessions then
          c.mem.core.sessions[Peer(m, p)].ratchet == ratchet && FirstOwn(m.x, p, c.mem.core.sessions[Peer(m, p)])
        else p.Bob? && ratchet == Ratchet.InitializeBob(m.x.BobSecret(), m.x.bobPrekey))
  }

  ghost predicate Linked(m: Meeting, adversary: set<Key32>, s: Pair)
    requires m.x.AliceSecret().Success?
  {
    && Sessions.PermittedRun(Sessions.Start(m.x), s.steps, adversary)
    && SideLinked(m, Protocol.Alice, s.a.c, World(m, s).alice)
    && SideLinked(m, Protocol.Bob, s.b.c, World(m, s).bob)
    && OwnContexts(m.x, World(m, s).t)
  }

  lemma BeginsLinked(m: Meeting, adversary: set<Key32>, s: Pair)
    requires Begins(m, s) && m.x.AliceSecret().Success?
    ensures Linked(m, adversary, s)
  {
    hide Inv, AliceInitiate, BobRespond, NoOther;
  }

  /** The session Bob makes of Alice's header is the one the ratchet started him with. */
  lemma BobStarts(m: Meeting, core: Core, h: MessageHeader)
    requires m.x.Honest() && NoOther(core, m.x.bundle) && h.PrekeyHeader? && Introduces(m.x, h)
    requires CreateBobSession(core, m.x.bobIdentity, h).Success?
    ensures CreateBobSession(core, m.x.bobIdentity, h).value == Ratchet.InitializeBob(m.x.BobSecret(), m.x.bobPrekey)
  {
    FoundIsHeld(Held(core.spks), h.signedPrekeyId);
    hide BobRespond, Ratchet.InitializeBob, Held, FindSpk;
  }

  lemma SealStep(m: Meeting, p: Protocol.Party, h: Runs.History, ev: Runs.Event, ratchet: Ratchet.SessionState)
    requires SideLinked(m, p, h.c, ratchet) && Runs.Permitted(h.c, h.log, ev)
    requires Seals(ev) && ev.peer == Peer(m, p) && !Runs.Step(h.c, h.log, ev).1
    ensures ev.peer in h.c.mem.core.sessions
    ensures var aad := ContextBytes(SessionContext(h.c.identity, h.c.mem.core.sessions[ev.peer]));
            var r := Ratchet.Encrypt(ratchet, ev.plaintext, aad);
            var c' := Runs.Step(h.c, h.log, ev).0;
            && r.Success? && c'.identity == h.c.identity && ev.peer in c'.mem.core.sessions
            && c'.mem.core.sessions[ev.peer].ratchet == r.value.0 && FirstOwn(m.x, p, c'.mem.core.sessions[ev.peer])
            && OwnContext(m.x, aad)
  {
    SealingSessions(h.c, h.log, ev, ev.peer);
    hide Inv, Runs.Step, Runs.Permitted, NoOther, Ratchet.Encrypt, ContextBytes, Ratchet.InitializeBob;
  }

  lemma OpenStep(m: Meeting, adversary: set<Key32>, t: Transcript, p: Protocol.Party, h: Runs.History, ev: Runs.Event,
                 ratchet: Ratchet.SessionState)
    requires m.x.Honest() && SideLinked(m, p, h.c, ratchet) && Runs.Permitted(h.c, h.log, ev)
    requires NewlyOpens(h.c, ev) && ev.peer == Peer(m, p)
    requires t.Valid() && OwnContexts(m.x, t) && Deliverable(t, adversary, ev.e.ciphertext)
    requires ev.peer !in h.c.mem.core.sessions ==> MayIntroduce(m.x, adversary, h.c.mem.core, ev.e.header)
    ensures var r := Party.Deliver(ratchet, Framed(ev.e), ev.newPair);
            var c' := Runs.Step(h.c, h.log, ev).0;
            && r.1.Success? && c'.identity == h.c.identity && ev.peer in c'.mem.core.sessions
            && c'.mem.core.sessions[ev.peer].ratchet == r.0
            && FirstOwn(m.x, p, c'.mem.core.sessions[ev.peer])
  {
    DecryptingSessions(h.c, h.log, ev, ev.peer);
    hide Runs.Step, Runs.Permitted, NewlyOpens, Ratchet.Decrypt, EnvelopeAad, CreateBobSession, Without, Introduces,
         Deliverable, OwnContexts;
    if ev.peer !in h.c.mem.core.sessions {
      assert ev.e.header.PrekeyHeader? && CreateBobSession(h.c.mem.core, h.c.identity, ev.e.header).Success?;
      ForeignHeaderOpensNothing(m.x, adversary, t, h.c.mem.core, h.c.identity, ev.e, ev.newPair);
      BobStarts(m, h.c.mem.core, ev.e.header);
    }
    hide Inv, NoOther;
  }

  lemma QuietStep(m: Meeting, adversary: set<Key32>, s: Pair, e: Event)
    requires m.x.AliceSecret().Success? && Permitted(m, adversary, s, e)
    requires Inv(Side(s, e.p).c) && Shadow(m, e.p, Side(s, e.p), e.ev) == []
    ensures SameSession(Side(s, e.p).c, Side(Next(m, s, e), e.p).c, Peer(m, e.p))
  {
    var h, ev, peer := Side(s, e.p), e.ev, Peer(m, e.p);
    if Resets(ev) {
      ResettingSessions(h.c, h.log, ev, peer);
    } else if Seals(ev) && ev.peer == peer {
      SealingSessions(h.c, h.log, ev, peer);
    } else {
      SessionsFlow(h.c, h.log, ev, peer);
    }
    hide Inv, Runs.Step, Runs.Permitted, NewlyOpens;
  }

  /** The side that moves stays linked to its new ratchet state. */
  lemma SideStep(m: Meeting, adversary: set<Key32>, s: Pair, e: Event, w: Protocol.World)
    requires m.x.Honest() && m.x.AliceSecret().Success? && Permitted(m, adversary, s, e)
    requires w == World(m, s) && w.t.Valid() && OwnContexts(m.x, w.t)
    requires SideLinked(m, e.p, Side(s, e.p).c, Protocol.StateOf(w, e.p))
    ensures var steps := Shadow(m, e.p, Side(s, e.p), e.ev);
            var w' := if steps == [] then w else Protocol.Apply(w, steps[0]);
            && SideLinked(m, e.p, Side(Next(m, s, e), e.p).c, Protocol.StateOf(w', e.p))
            && Protocol.StateOf(w', Protocol.Other(e.p)) == Protocol.StateOf(w, Protocol.Other(e.p))
            && OwnContexts(m.x, w'.t)
  {
    hide Inv, NoOther, Runs.Step, Runs.Permitted, NewlyOpens, Ratchet.Encrypt, Ratchet.Decrypt, ContextBytes,
         EnvelopeAad, Ratchet.InitializeBob, Protocol.EpochOf, Protocol.IndexOf, OwnContext, OwnContexts, Sessions.Run,
         Deliverable, MayIntroduce, FirstOwn, BobRespond, AliceInitiate;
    var h, ev := Side(s, e.p), e.ev;
    var ratchet := Protocol.StateOf(w, e.p);
    SideKept(m, e.p, h, ev, ratchet);
    var steps := Shadow(m, e.p, h, ev);
    if steps == [] {
      QuietStep(m, adversary, s, e);
    } else if steps[0].Send? {
      SealStep(m, e.p, h, ev, ratchet);
      ContextsKept(m.x, w, steps[0]);
    } else {
      OnlyDecrypts(h.c, ev);
      OpenStep(m, adversary, w.t, e.p, h, ev, ratchet);
      ContextsKept(m.x, w, steps[0]);
    }
  }

  lemma OnlyDecrypts(c: Client, ev: Runs.Event)
    requires NewlyOpens(c, ev)
    ensures ev.DoDecrypt?
  {}

  lemma SideKept(m: Meeting, p: Protocol.Party, h: Runs.History, ev: Runs.Event, ratchet: Ratchet.SessionState)
    requires SideLinked(m, p, h.c, ratchet) && Runs.Permitted(h.c, h.log, ev) && !ev.DoRegister?
    ensures Inv(Runs.Step(h.c, h.log, ev).0)
    ensures p.Bob? ==> NoOther(Runs.Step(h.c, h.log, ev).0.mem.core, m.x.bundle)
  {
    hide Inv, NoOther, Runs.Step, Runs.Permitted;
    Runs.StepKeepsInv(h.c, h.log, ev);
    if p.Bob? {
      NoOtherKept(h.c, h.log, ev, m.x.bundle);
    }
  }

  lemma StepsAppended(m: Meeting, adversary: set<Key32>, steps: seq<Protocol.Event>, ev: Protocol.Event)
    requires m.x.AliceSecret().Success? && Sessions.PermittedRun(Sessions.Start(m.x), steps, adversary)
    requires Sessions.Run(Sessions.Start(m.x), steps).t.Valid()
    requires Protocol.Permitted(Sessions.Run(Sessions.Start(m.x), steps), ev, adversary)
    ensures Sessions.PermittedRun(Sessions.Start(m.x), steps + [ev], adversary)
    ensures Sessions.Run(Sessions.Start(m.x), steps + [ev])
            == Protocol.Apply(Sessions.Run(Sessions.Start(m.x), steps), ev)
  {
    hide Protocol.Apply, Protocol.Permitted, Sessions.Start;
    assert (steps + [ev])[..|steps|] == steps;
  }

  lemma StepLinked(m: Meeting, adversary: set<Key32>, s: Pair, e: Event)
    requires m.x.Honest() && Sessions.Outsider(m.x, adversary) && m.x.AliceSecret().Success?
    requires Linked(m, adversary, s) && Permitted(m, adversary, s, e)
    ensures Linked(m, adversary, Next(m, s, e))
  {
    hide SideLinked, Runs.Permitted, Runs.Step, Sessions.Run, Sessions.PermittedRun, Protocol.Apply, Deliverable,
         Sessions.Start, AliceInitiate, OwnContexts, Shadow, MayIntroduce, NewlyOpens;
    var w := World(m, s);
    TranscriptValid(m, adversary, s);
    SideStep(m, adversary, s, e, w);
    var steps := Shadow(m, e.p, Side(s, e.p), e.ev);
    OneStep(m, adversary, s, e);
    if steps == [] {
      assert s.steps + steps == s.steps;
    } else {
      StepsAppended(m, adversary, s.steps, steps[0]);
      assert s.steps + steps == s.steps + [steps[0]];
    }
  }

  lemma OneStep(m: Meeting, adversary: set<Key32>, s: Pair, e: Event)
    requires m.x.AliceSecret().Success? && Permitted(m, adversary, s, e) && World(m, s).t.Valid()
    ensures var steps := Shadow(m, e.p, Side(s, e.p), e.ev);
            |steps| <= 1 && (steps != [] ==> Protocol.Permitted(World(m, s), steps[0], adversary))
  {
    hide Runs.Permitted, Runs.Step, Sessions.Run, Deliverable, Sessions.Start, AliceInitiate, MayIntroduce,
         DecryptToText, ContextBytes, EnvelopeAad;
  }

  lemma TranscriptValid(m: Meeting, adversary: set<Key32>, s: Pair)
    requires m.x.Honest() && Sessions.Outsider(m.x, adversary) && m.x.AliceSecret().Success?
    requires Sessions.PermittedRun(Sessions.Start(m.x), s.steps, adversary)
    ensures World(m, s).t.Valid()
  {
    Sessions.DeliveredExactlyOnce(m.x, adversary, s.steps);
  }

  /** However the two clients and the network behave, short of restarting the session:
      the session each holds is the state of one permitted run of the ratchet. */
  lemma {:induction false} PairRunsRatchet(m: Meeting, adversary: set<Key32>, start: Pair, evs: seq<Event>)
    requires Begins(m, start) && Sessions.Outsider(m.x, adversary) && m.x.AliceSecret().Success?
    requires PermittedRun(m, adversary, start, evs)
    ensures Linked(m, adversary, Run(m, adversary, start, evs))
  {
    if evs == [] {
      BeginsLinked(m, adversary, start);
    } else {
      PairRunsRatchet(m, adversary, start, evs[..|evs| - 1]);
      StepLinked(m, adversary, Run(m, adversary, start, evs[..|evs| - 1]), evs[|evs| - 1]);
      hide Linked, Next, Permitted, Begins;
    }
  }

  // -- End to end -------------------------------------------------------------------------------

  /** There is a session to open the envelope with, or it starts one from keys still held. */
  predicate Ready(c: Client, peer: UserId, e: Envelope)
  {
    || peer in c.mem.core.sessions
    || (e.header.PrekeyHeader? && FindSpk(Held(c.mem.core.spks), e.header.signedPrekeyId).Some?
        && (e.header.oneTimePrekeyId.Some? ==> e.header.oneTimePrekeyId.value in c.mem.core.opks.keys))
  }

  /** The client's own conditions: the version, its store, and room in its ledger. */
  predicate Receptive(c: Client, ev: Runs.Event)
    requires ev.DoDecrypt?
  {
    && ev.e.version == PROTOCOL_VERSION && ev.okPrune && ev.ok
    && |Pruned(c.mem.processed, ev.now)| < MAX_PROCESSED_MESSAGES
  }

  lemma OpensWhen(m: Meeting, adversary: set<Key32>, t: Transcript, p: Protocol.Party, c: Client, ev: Runs.Event,
                  ratchet: Ratchet.SessionState)
    requires m.x.Honest() && SideLinked(m, p, c, ratchet) && ev.DoDecrypt? && ev.peer == Peer(m, p)
    requires t.Valid() && OwnContexts(m.x, t) && Deliverable(t, adversary, ev.e.ciphertext)
    requires !RootKnown(adversary, m.x.BobSecret())
    requires ev.peer !in c.mem.core.sessions ==> MayIntroduce(m.x, adversary, c.mem.core, ev.e.header)
    ensures var o := Opened(c.mem.core, c.identity, ev.peer, ev.e, ev.newPair);
            var r := Party.Deliver(ratchet, Framed(ev.e), ev.newPair).1;
            && (o.Success? <==> Ready(c, ev.peer, ev.e) && r.Success?)
            && (o.Success? ==> o.value.1 == r.value)
  {
    hide Inv, NoOther, Ratchet.Decrypt, EnvelopeAad, Without, BobRespond, Held, FindSpk, Deliverable, OwnContexts,
         OwnContext, Introduces, Ratchet.InitializeBob, FirstOwn;
    var core, e := c.mem.core, ev.e;
    if ev.peer !in core.sessions && e.header.PrekeyHeader? && CreateBobSession(core, c.identity, e.header).Success? {
      if Party.Deliver(ratchet, Framed(e), ev.newPair).1.Success? {
        OpensInContext(m.x, adversary, t, m.x.BobSecret(), m.x.bobPrekey, e, ev.newPair);
        ContextTells(m.x, e);
        BobStarts(m, core, e.header);
      } else if Party.Deliver(CreateBobSession(core, c.identity, e.header).value, Framed(e), ev.newPair).1.Success? {
        ForeignHeaderOpensNothing(m.x, adversary, t, core, c.identity, e, ev.newPair);
        BobStarts(m, core, e.header);
      }
    }
  }

  lemma SecretUnknown(m: Meeting, adversary: set<Key32>)
    requires m.x.Honest() && Sessions.Outsider(m.x, adversary)
    ensures !RootKnown(adversary, m.x.BobSecret())
  {
    Sessions.OutsiderCannotCompute(m.x, adversary);
  }

  lemma TextWhen(c: Client, ev: Runs.Event)
    requires Inv(c) && ev.DoDecrypt? && (ev.peer, ev.id) !in c.mem.processed
    ensures var r := DecryptToText(c, ev.peer, ev.id, ev.e, ev.newPair, ev.now, ev.okPrune, ev.ok).1;
            var o := Opened(c.mem.core, c.identity, ev.peer, ev.e, ev.newPair);
            && (r.Pending? <==> Receptive(c, ev) && o.Success?)
            && (r.Pending? ==> r.text == o.value.1)
  {
    hide Opened;
    assert c.mem.processed == c.disk.processed;
    hide Inv;
  }

  /** In every run of two clients, for every envelope that may arrive next under an ID
      that is not known: the client hands on a text exactly when its store works and has
      room, it has a session or the envelope starts one, and the envelope is an unopened
      message of the other's that fits the skipped-key limit; the text is the one sealed. */
  lemma OpensEndToEnd(m: Meeting, adversary: set<Key32>, start: Pair, evs: seq<Event>, e: Event)
    requires Begins(m, start) && Sessions.Outsider(m.x, adversary) && m.x.AliceSecret().Success?
    requires PermittedRun(m, adversary, start, evs) && Permitted(m, adversary, Run(m, adversary, start, evs), e)
    requires e.ev.DoDecrypt? && e.ev.peer == Peer(m, e.p)
    requires (e.ev.peer, e.ev.id) !in Side(Run(m, adversary, start, evs), e.p).c.mem.processed
    ensures
      var s := Run(m, adversary, start, evs);
      var c, ev, f := Side(s, e.p).c, e.ev, Framed(e.ev.e);
      var w, log := World(m, s), Sessions.Log(Sessions.Start(m.x), s.steps);
      var r := DecryptToText(c, ev.peer, ev.id, ev.e, ev.newPair, ev.now, ev.okPrune, ev.ok).1;
      && (r.Pending? <==> Receptive(c, ev) && Ready(c, ev.peer, ev.e)
                          && exists j: nat, i: nat :: Sessions.OpensAs(w, log, e.p, f, j, i))
      && (forall j: nat, i: nat :: r.Pending? && Sessions.OpensAs(w, log, e.p, f, j, i) ==>
            r.text == w.t.chains[j][i].plaintext)
  {
    PairRunsRatchet(m, adversary, start, evs);
    var s := Run(m, adversary, start, evs);
    var c, ev, w := Side(s, e.p).c, e.ev, World(m, s);
    var step := Protocol.Receive(e.p, Framed(ev.e), ev.newPair);
    hide Run, PermittedRun, Begins, DecryptToText, Opened, Runs.Permitted, Runs.Step, Sessions.PermittedRun,
         Sessions.Run, Deliverable, Sessions.OpensAs, Party.Deliver, Protocol.Apply, AliceInitiate, Ready, Receptive,
         OwnContexts;
    assert m.x.Honest() && SideLinked(m, e.p, c, Protocol.StateOf(w, e.p));
    StepsAppended(m, adversary, s.steps, step);
    Sessions.NextDeliveryExactly(m.x, adversary, s.steps, e.p, Framed(ev.e), ev.newPair);
    SecretUnknown(m, adversary);
    OpensWhen(m, adversary, w.t, e.p, c, ev, Protocol.StateOf(w, e.p));
    TextWhen(c, ev);
  }
}
