/** Whole runs of the two-party machine: authenticity, delivery exactly once, and
    the exact condition under which a first delivery opens. */
module RatchetRuns {
  import opened Wire
  import opened KeyAlgebra
  import opened X3dh
  import opened Ratchet
  import opened RatchetTranscript
  import opened RatchetParty
  import opened RatchetProtocol

  /** What the two sides bring to a session: Alice's keys, the bundle she was
      given, her ephemeral and first ratchet key; Bob's private counterparts and
      the identity and ephemeral keys he read off her first envelope. */
  datatype Setup = Setup(aliceIdentity: Key32, bundle: Bundle, ephemeral: Key32, aliceRatchet: Key32,
                         bobIdentity: Key32, bobPrekey: Key32, bobOneTime: Option<Key32>)
  {
    ghost predicate Honest()
    {
      && bundle.signature == Signature(bundle.identityKey, bundle.signedPrekey)
      && bundle.identityKey == bobIdentity && bundle.signedPrekey == bobPrekey
      && BundledPrekey(bundle) == bobOneTime
      && ephemeral != bobIdentity && ephemeral != bobPrekey && aliceRatchet != bobPrekey
    }

    function AliceSecret(): (r: Result<RootKey, X3dhError>) { AliceInitiate(aliceIdentity, bundle, ephemeral) }

    function BobSecret(): (r: RootKey) { BobRespond(bobIdentity, bobPrekey, bobOneTime, aliceIdentity, ephemeral) }
  }

  /** Each side initialises from the secret it computed itself. */
  function Start(x: Setup): (w: World)
    requires x.AliceSecret().Success?
  {
    World(Transcript(x.BobSecret(), [x.bobPrekey, x.aliceRatchet], [[], []]),
          InitializeAlice(x.AliceSecret().value, x.bundle.signedPrekey, x.aliceRatchet),
          InitializeBob(x.BobSecret(), x.bobPrekey), {}, {})
  }

  lemma StartInSync(x: Setup)
    requires x.Honest()
    ensures x.AliceSecret().Success? && Inv(Start(x))
  {
    AgreementExactly(x.aliceIdentity, x.bundle, x.ephemeral, x.bobIdentity, x.bobPrekey, x.bobOneTime,
                     x.aliceIdentity, x.ephemeral);
    var w := Start(x);
    assert RootAt(w.t, 1) == NextRoot(w.t.secret, DiffieHellman(x.aliceRatchet, x.bobPrekey));
    assert ChainsInSync(w.t, w.alice, 1) && ChainsInSync(w.t, w.bob, 0);
    forall j: int
      ensures !PeerChain(0, j) && !PeerChain(1, j)
    {}
    assert SkippedInSync(w.t, w.alice, 1, {}) && SkippedInSync(w.t, w.bob, 0, {});
  }

  /** An adversary without the ephemeral key and Bob's signed prekey. */
  ghost predicate Outsider(x: Setup, adversary: set<Key32>)
  {
    x.ephemeral !in adversary && x.bobPrekey !in adversary
  }

  lemma OutsiderCannotCompute(x: Setup, adversary: set<Key32>)
    requires x.Honest() && Outsider(x, adversary)
    ensures x.AliceSecret().Success? && !RootKnown(adversary, Start(x).t.secret)
  {
    SecretUnknownToOthers(adversary, x.aliceIdentity, x.bundle, x.ephemeral);
    AgreementExactly(x.aliceIdentity, x.bundle, x.ephemeral, x.bobIdentity, x.bobPrekey, x.bobOneTime,
                     x.aliceIdentity, x.ephemeral);
  }

  function Run(w: World, evs: seq<Event>): (r: World)
    requires |w.t.keys| == |w.t.chains| >= 2
    ensures |r.t.keys| == |r.t.chains| >= 2
  {
    if evs == [] then w else Apply(Run(w, evs[..|evs| - 1]), evs[|evs| - 1])
  }

  ghost predicate PermittedRun(w: World, evs: seq<Event>, adversary: set<Key32>)
    requires |w.t.keys| == |w.t.chains| >= 2
  {
    evs == [] ||
    var before := Run(w, evs[..|evs| - 1]);
    && PermittedRun(w, evs[..|evs| - 1], adversary)
    && before.t.Valid()
    && Permitted(before, evs[|evs| - 1], adversary)
  }

  /** A delivery that opened. */
  datatype Delivery = Delivery(p: Party, f: Frame, text: Bytes)

  function Opened(w: World, ev: Event): (ds: seq<Delivery>)
  {
    if ev.Receive? && Deliver(StateOf(w, ev.p), ev.f, ev.newPair).1.Success?
    then [Delivery(ev.p, ev.f, Deliver(StateOf(w, ev.p), ev.f, ev.newPair).1.value)] else []
  }

  function Log(w: World, evs: seq<Event>): (ds: seq<Delivery>)
    requires |w.t.keys| == |w.t.chains| >= 2
  {
    if evs == [] then [] else Log(w, evs[..|evs| - 1]) + Opened(Run(w, evs[..|evs| - 1]), evs[|evs| - 1])
  }

  /** (j, i) is a message the other party sent to `p`. */
  ghost predicate SentTo(t: Transcript, p: Party, j: int, i: int)
  {
    t.HasMessage(j, i) && j % 2 == (if p.Alice? then 0 else 1)
  }

  /** A delivery is genuine: some message sent to this party, opened as sent. */
  ghost predicate Genuine(w: World, d: Delivery)
    requires w.t.Valid()
  {
    exists j: nat, i: nat :: SentTo(w.t, d.p, j, i) && Id(j, i) in SeenBy(w, d.p)
      && d.f == FrameOf(w.t, j, i) && d.text == w.t.chains[j][i].plaintext
  }

  ghost predicate AllGenuine(w: World, log: seq<Delivery>)
    requires w.t.Valid()
  {
    forall a :: 0 <= a < |log| ==> Genuine(w, log[a])
  }

  /** No party opens the same frame twice. */
  ghost predicate NoRepeats(log: seq<Delivery>)
  {
    forall a, b :: 0 <= a < b < |log| && log[a].p == log[b].p ==> log[a].f != log[b].f
  }

  ghost predicate SeenLogged(w: World, log: seq<Delivery>)
    requires w.t.Valid()
  {
    forall p: Party, m :: m in SeenBy(w, p) ==> Logged(w, log, p, m)
  }

  ghost predicate LogMatches(w: World, log: seq<Delivery>)
  {
    Inv(w) && AllGenuine(w, log) && NoRepeats(log) && SeenLogged(w, log)
  }

  ghost predicate Logged(w: World, log: seq<Delivery>, p: Party, m: Id)
    requires w.t.Valid()
  {
    w.t.HasMessage(m.epoch, m.number) &&
    exists a :: 0 <= a < |log| && log[a].p == p && log[a].f == FrameOf(w.t, m.epoch, m.number)
  }

  lemma FrameOfInjective(t: Transcript, j: nat, i: nat, j': nat, i': nat)
    requires t.Valid() && t.HasMessage(j, i) && t.HasMessage(j', i')
    requires FrameOf(t, j, i) == FrameOf(t, j', i')
    ensures j == j' && i == i'
  {}

  lemma AddressedIsSentTo(t: Transcript, p: Party, j: nat, i: nat)
    requires t.Valid()
    ensures Addressed(t, EpochOf(t, p), j, i) <==> SentTo(t, p, j, i)
  {
    PeerChainParity(EpochOf(t, p) + 2, j);
  }

  /** `u` continues `t`: every message already sent is still there, unchanged. */
  ghost predicate Continues(t: Transcript, u: Transcript)
  {
    && t.Valid() && u.Valid() && u.secret == t.secret
    && forall j: nat, i: nat :: t.HasMessage(j, i) ==>
         u.HasMessage(j, i) && FrameOf(u, j, i) == FrameOf(t, j, i) && u.chains[j][i] == t.chains[j][i]
  }

  lemma StepContinues(w: World, ev: Event, adversary: set<Key32>)
    requires Inv(w) && Permitted(w, ev, adversary)
    ensures Continues(w.t, Apply(w, ev).t)
  {
    hide InSync;
    InvParty(w, ev.p);
    var s, e := StateOf(w, ev.p), EpochOf(w.t, ev.p);
    match ev
    case Send(p, m) =>
      SendKeepsSender(w.t, s, e, SeenBy(w, p), m);
      if Encrypt(s, m.plaintext, m.envelopeAad).Success? {
        AppendKeepsTranscript(w.t, e, m);
      }
    case Receive(p, f, newPair) =>
      hide Deliver;
      hide Deliverable;
      ExtendKeepsTranscript(w.t, newPair);
  }

  lemma SeenGrows(w: World, ev: Event, q: Party)
    requires |w.t.keys| == |w.t.chains| >= 2
    ensures SeenBy(w, q) <= SeenBy(Apply(w, ev), q)
    ensures Opened(w, ev) == [] ==> SeenBy(w, q) == SeenBy(Apply(w, ev), q)
  {}

  lemma GenuineKept(w: World, w': World, d: Delivery)
    requires Continues(w.t, w'.t) && SeenBy(w, d.p) <= SeenBy(w', d.p)
    requires Genuine(w, d)
    ensures Genuine(w', d)
  {
    var j: nat, i: nat :| SentTo(w.t, d.p, j, i) && Id(j, i) in SeenBy(w, d.p)
      && d.f == FrameOf(w.t, j, i) && d.text == w.t.chains[j][i].plaintext;
    assert SentTo(w'.t, d.p, j, i);
  }

  lemma LoggedKept(w: World, w': World, log: seq<Delivery>, more: seq<Delivery>, p: Party, m: Id)
    requires Continues(w.t, w'.t) && Logged(w, log, p, m)
    ensures Logged(w', log + more, p, m)
  {
    var a :| 0 <= a < |log| && log[a].p == p && log[a].f == FrameOf(w.t, m.epoch, m.number);
    assert (log + more)[a] == log[a];
  }

  /** The newest delivery: genuine, logged, and not a frame this party had opened. */
  lemma NewDelivery(w: World, log: seq<Delivery>, ev: Event, adversary: set<Key32>)
    returns (j: nat, i: nat)
    requires LogMatches(w, log) && !RootKnown(adversary, w.t.secret) && Permitted(w, ev, adversary)
    requires Opened(w, ev) != []
    ensures Inv(Apply(w, ev)) && SentTo(w.t, ev.p, j, i) && ev.f == FrameOf(w.t, j, i)
    ensures Opened(w, ev) == [Delivery(ev.p, ev.f, w.t.chains[j][i].plaintext)]
    ensures SeenBy(Apply(w, ev), ev.p) == SeenBy(w, ev.p) + {Id(j, i)}
    ensures SeenBy(Apply(w, ev), Other(ev.p)) == SeenBy(w, Other(ev.p))
    ensures Id(j, i) !in SeenBy(w, ev.p)
  {
    var p := ev.p;
    InvParty(w, p);
    j, i := OpenedIsAccepted(w.t, StateOf(w, p), EpochOf(w.t, p), SeenBy(w, p), adversary, ev.f, ev.newPair);
    ReceiveEffect(w, p, ev.f, ev.newPair, adversary, j, i);
    AddressedIsSentTo(w.t, p, j, i);
  }

  lemma NoSecondOpening(w: World, log: seq<Delivery>, ev: Event, j: nat, i: nat, a: nat)
    requires LogMatches(w, log) && ev.Receive? && w.t.HasMessage(j, i) && ev.f == FrameOf(w.t, j, i)
    requires Id(j, i) !in SeenBy(w, ev.p) && a < |log| && log[a].p == ev.p
    ensures log[a].f != ev.f
  {
    assert Genuine(w, log[a]);
    var j': nat, i': nat :| SentTo(w.t, ev.p, j', i') && Id(j', i') in SeenBy(w, ev.p)
      && log[a].f == FrameOf(w.t, j', i');
    hide LogMatches;
    if log[a].f == ev.f {
      FrameOfInjective(w.t, j, i, j', i');
    }
  }

  /** Carrying the log over to a later world in which nothing more was opened
      than the one delivery `d`, if any. */
  lemma LogCarries(w: World, w': World, log: seq<Delivery>, more: seq<Delivery>)
    requires LogMatches(w, log) && Inv(w') && Continues(w.t, w'.t)
    requires forall q: Party :: SeenBy(w, q) <= SeenBy(w', q)
    requires forall a :: 0 <= a < |more| ==> Genuine(w', more[a])
    requires forall q: Party, m :: m in SeenBy(w', q) && m !in SeenBy(w, q) ==> Logged(w', log + more, q, m)
    ensures AllGenuine(w', log + more) && SeenLogged(w', log + more)
  {
    hide Inv;
    hide Genuine;
    hide Logged;
    forall a | 0 <= a < |log + more|
      ensures Genuine(w', (log + more)[a])
    {
      if a < |log| { GenuineKept(w, w', log[a]); }
    }
    forall q: Party, m | m in SeenBy(w', q)
      ensures Logged(w', log + more, q, m)
    {
      if m in SeenBy(w, q) { LoggedKept(w, w', log, more, q, m); }
    }
  }

  lemma StepMatches(w: World, log: seq<Delivery>, ev: Event, adversary: set<Key32>)
    requires LogMatches(w, log) && !RootKnown(adversary, w.t.secret) && Permitted(w, ev, adversary)
    ensures LogMatches(Apply(w, ev), log + Opened(w, ev))
    ensures Apply(w, ev).t.secret == w.t.secret
  {
    hide InSync, AllGenuine, NoRepeats, SeenLogged;
    StepContinues(w, ev, adversary);
    if Opened(w, ev) == [] {
      QuietStepMatches(w, log, ev);
    } else {
      OpeningStepMatches(w, log, ev, adversary);
    }
  }

  lemma QuietStepMatches(w: World, log: seq<Delivery>, ev: Event)
    requires LogMatches(w, log) && Opened(w, ev) == [] && Continues(w.t, Apply(w, ev).t)
    ensures LogMatches(Apply(w, ev), log + Opened(w, ev))
  {
    hide InSync, AllGenuine, NoRepeats, SeenLogged;
    var w' := Apply(w, ev);
    forall q: Party
      ensures SeenBy(w, q) == SeenBy(w', q)
    {
      SeenGrows(w, ev, q);
    }
    StepWithoutOpening(w, ev);
    hide Apply, Inv, Continues;
    LogCarries(w, w', log, []);
    assert log + [] == log;
  }

  lemma OpeningStepMatches(w: World, log: seq<Delivery>, ev: Event, adversary: set<Key32>)
    requires LogMatches(w, log) && !RootKnown(adversary, w.t.secret) && Permitted(w, ev, adversary)
    requires Opened(w, ev) != [] && Continues(w.t, Apply(w, ev).t)
    ensures LogMatches(Apply(w, ev), log + Opened(w, ev))
  {
    hide InSync, AllGenuine, NoRepeats, SeenLogged, Apply, Inv;
    var w', d := Apply(w, ev), Opened(w, ev);
    forall q: Party
      ensures SeenBy(w, q) <= SeenBy(w', q)
    {
      SeenGrows(w, ev, q);
    }
    var j, i := NewDelivery(w, log, ev, adversary);
    assert d == [Delivery(ev.p, ev.f, w.t.chains[j][i].plaintext)];
    NewIsGenuine(w', d[0], j, i);
    NewIsLogged(w', log + d, ev.p, Id(j, i), |log|);
    NoSecondOpenings(w, log, ev, j, i, d[0]);
    LogCarries(w, w', log, d);
  }

  lemma StepWithoutOpening(w: World, ev: Event)
    requires Inv(w) && Opened(w, ev) == []
    ensures Inv(Apply(w, ev))
  {
    if ev.Send? { SendStep(w, ev.p, ev.m); }
  }

  lemma NewIsGenuine(w: World, d: Delivery, j: nat, i: nat)
    requires w.t.Valid() && SentTo(w.t, d.p, j, i) && Id(j, i) in SeenBy(w, d.p)
    requires d.f == FrameOf(w.t, j, i) && d.text == w.t.chains[j][i].plaintext
    ensures Genuine(w, d)
  {}

  lemma NewIsLogged(w: World, log: seq<Delivery>, p: Party, m: Id, a: nat)
    requires w.t.Valid() && w.t.HasMessage(m.epoch, m.number)
    requires a < |log| && log[a].p == p && log[a].f == FrameOf(w.t, m.epoch, m.number)
    ensures Logged(w, log, p, m)
  {}

  lemma NoSecondOpenings(w: World, log: seq<Delivery>, ev: Event, j: nat, i: nat, d: Delivery)
    requires LogMatches(w, log) && ev.Receive? && w.t.HasMessage(j, i) && ev.f == FrameOf(w.t, j, i)
    requires Id(j, i) !in SeenBy(w, ev.p) && d.p == ev.p && d.f == ev.f
    ensures NoRepeats(log + [d])
  {
    hide Inv;
    forall a: nat | a < |log| && log[a].p == ev.p
      ensures log[a].f != ev.f
    {
      NoSecondOpening(w, log, ev, j, i, a);
    }
  }

  /** After every permitted run: every delivery that opened was a message the
      other side sent, with exactly its plaintext, and no party opened any frame
      twice. */
  lemma {:induction false} DeliveredExactlyOnce(x: Setup, adversary: set<Key32>, evs: seq<Event>)
    requires x.Honest() && Outsider(x, adversary) && x.AliceSecret().Success?
    requires PermittedRun(Start(x), evs, adversary)
    ensures LogMatches(Run(Start(x), evs), Log(Start(x), evs))
    ensures Run(Start(x), evs).t.secret == Start(x).t.secret
  {
    if evs == [] {
      StartInSync(x);
    } else {
      var front := evs[..|evs| - 1];
      DeliveredExactlyOnce(x, adversary, front);
      OutsiderCannotCompute(x, adversary);
      hide LogMatches;
      hide Apply;
      StepMatches(Run(Start(x), front), Log(Start(x), front), evs[|evs| - 1], adversary);
    }
  }

  /** Has party `p` already opened frame `f`? */
  predicate AlreadyOpened(log: seq<Delivery>, p: Party, f: Frame)
  {
    exists a :: 0 <= a < |log| && log[a].p == p && log[a].f == f
  }

  lemma SeenIsOpened(w: World, log: seq<Delivery>, p: Party, j: nat, i: nat)
    requires LogMatches(w, log) && w.t.HasMessage(j, i)
    ensures Id(j, i) in SeenBy(w, p) <==> AlreadyOpened(log, p, FrameOf(w.t, j, i))
  {
    hide InSync;
    if Id(j, i) in SeenBy(w, p) {
      assert Logged(w, log, p, Id(j, i));
    }
    if AlreadyOpened(log, p, FrameOf(w.t, j, i)) {
      var a :| 0 <= a < |log| && log[a].p == p && log[a].f == FrameOf(w.t, j, i);
      assert Genuine(w, log[a]);
      var j': nat, i': nat :| SentTo(w.t, p, j', i') && Id(j', i') in SeenBy(w, p) && log[a].f == FrameOf(w.t, j', i');
      FrameOfInjective(w.t, j, i, j', i');
    }
  }

  /** The message a frame is, when the next delivery of it opens: one the other
      side sent, not opened before, whose arrival stores no more than 1000 keys. */
  ghost predicate OpensAs(w: World, log: seq<Delivery>, p: Party, f: Frame, j: nat, i: nat)
  {
    && w.t.Valid() && SentTo(w.t, p, j, i)
    && f == FrameOf(w.t, j, i)
    && !AlreadyOpened(log, p, f)
    && |StateOf(w, p).skipped| + Needed(w.t, StateOf(w, p), EpochOf(w.t, p), j, i) <= 1000
  }

  /** After every permitted run, for every delivery the network can make next:
      it opens exactly when it is an unopened honest message that fits the
      skipped-key limit, and then yields its plaintext; otherwise, whatever it
      is (a replay on the current chain, on a superseded key or from the skipped
      map, a reflection, a forgery), it fails and the world stays as it was. */
  lemma NextDeliveryExactly(x: Setup, adversary: set<Key32>, evs: seq<Event>, p: Party, f: Frame, newPair: Key32)
    requires x.Honest() && Outsider(x, adversary) && x.AliceSecret().Success?
    requires PermittedRun(Start(x), evs + [Receive(p, f, newPair)], adversary)
    ensures
      var w, log := Run(Start(x), evs), Log(Start(x), evs);
      var r := Deliver(StateOf(w, p), f, newPair).1;
      && (r.Success? <==> exists j: nat, i: nat :: OpensAs(w, log, p, f, j, i))
      && (forall j: nat, i: nat :: OpensAs(w, log, p, f, j, i) ==> r == Success(w.t.chains[j][i].plaintext))
      && (r.Failure? ==> Apply(w, Receive(p, f, newPair)) == w)
  {
    var w, log := Run(Start(x), evs), Log(Start(x), evs);
    assert (evs + [Receive(p, f, newPair)])[..|evs|] == evs;
    var s, e, seen := StateOf(w, p), EpochOf(w.t, p), SeenBy(w, p);
    DeliveredExactlyOnce(x, adversary, evs);
    OutsiderCannotCompute(x, adversary);
    InvParty(w, p);
    if Deliver(s, f, newPair).1.Success? {
      var j, i := OpenedIsAccepted(w.t, s, e, seen, adversary, f, newPair);
      AcceptsIsOpensAs(w, log, p, f, j, i);
    }
    forall j: nat, i: nat | OpensAs(w, log, p, f, j, i)
      ensures Deliver(s, f, newPair).1 == Success(w.t.chains[j][i].plaintext)
    {
      AcceptsIsOpensAs(w, log, p, f, j, i);
      AcceptedOpens(w.t, s, e, seen, adversary, f, newPair, j, i);
    }
  }

  lemma AcceptsIsOpensAs(w: World, log: seq<Delivery>, p: Party, f: Frame, j: nat, i: nat)
    requires LogMatches(w, log)
    ensures Accepts(w.t, StateOf(w, p), EpochOf(w.t, p), SeenBy(w, p), f, j, i) <==> OpensAs(w, log, p, f, j, i)
  {
    AddressedIsSentTo(w.t, p, j, i);
    if w.t.HasMessage(j, i) {
      SeenIsOpened(w, log, p, j, i);
    }
  }

  /** What every reachable session state is made of: the receiving chain key is
      the `recvCount`-fold step from its chain root, every skipped entry (k, i)
      is the i-th message key of the chain whose ratchet key is k, and there are
      never more than MAX_SKIP of them. */
  lemma ReachableSession(x: Setup, adversary: set<Key32>, evs: seq<Event>, p: Party, k: (Key32, U32))
    requires x.Honest() && Outsider(x, adversary) && x.AliceSecret().Success?
    requires PermittedRun(Start(x), evs, adversary)
    ensures
      var w := Run(Start(x), evs);
      var s := StateOf(w, p);
      && w.t.Valid()
      && |s.skipped| <= MAX_SKIP
      && (s.receivingChainKey.Some? ==>
            EpochOf(w.t, p) >= 2
              && s.receivingChainKey.value == Advance(StartAt(w.t, EpochOf(w.t, p) - 1), s.recvCount))
      && (k in s.skipped ==>
            exists j: nat :: 1 <= j < |w.t.keys| && w.t.keys[j] == k.0 && s.skipped[k] == KeyAt(w.t, j, k.1))
  {
    var w := Run(Start(x), evs);
    DeliveredExactlyOnce(x, adversary, evs);
    InvParty(w, p);
    var s, e, seen := StateOf(w, p), EpochOf(w.t, p), SeenBy(w, p);
    if k in s.skipped {
      assert KeyOfPeer(w.t, e, k.0);
      var j: nat :| PeerChain(e, j) && w.t.keys[j] == k.0;
      SlotAt(w.t, s, e, seen, j, k.1);
    }
  }
}
