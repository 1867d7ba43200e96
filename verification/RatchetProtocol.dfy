/** Two parties and a network that drops, reorders, duplicates and forges.
    The theorems hold after every sequence of sends and deliveries. */
module RatchetProtocol {
  import opened Wire
  import opened KeyAlgebra
  import opened Ratchet
  import opened RatchetTranscript
  import opened RatchetParty

  // -- What one party's progress means for the other ---------------------------

  lemma ExtendSlot(t: Transcript, s: SessionState, e: nat, seen: set<Id>, key: Key32, j: nat, i: U32)
    requires t.Valid() && 1 <= j < |t.keys|
    requires SlotInSync(t, s, e, seen, j, i)
    ensures SlotInSync(Extend(t, key), s, e, seen, j, i)
  {
    RootAtSameKeys(t, Extend(t, key), j);
  }

  lemma ExtendChains(t: Transcript, s: SessionState, e: nat, key: Key32)
    requires t.Valid() && e < |t.keys| && key !in t.keys && ChainsInSync(t, s, e)
    ensures Extend(t, key).Valid() && ChainsInSync(Extend(t, key), s, e)
  {
    ExtendKeepsTranscript(t, key);
    RootAtSameKeys(t, Extend(t, key), e);
    if e >= 1 { RootAtSameKeys(t, Extend(t, key), e - 1); }
  }

  /** A new epoch of the peer leaves this party in sync. */
  lemma ExtendKeepsPeer(t: Transcript, s: SessionState, e: nat, seen: set<Id>, key: Key32)
    requires InSync(t, s, e, seen) && key !in t.keys
    ensures InSync(Extend(t, key), s, e, seen)
  {
    var u := Extend(t, key);
    ExtendChains(t, s, e, key);
    hide ChainsInSync;
    assert SeenPassed(u, s, e, seen);
    assert KeysFromPeer(u, s, e) by {
      forall k | k in s.skipped
        ensures KeyOfPeer(u, e, k.0)
      {
        assert KeyOfPeer(t, e, k.0);
        var j: nat :| PeerChain(e, j) && t.keys[j] == k.0;
        assert u.keys[j] == k.0;
      }
    }
    hide SlotInSync;
    hide KeysFromPeer;
    forall j: nat, i: U32 | PeerChain(e, j)
      ensures SlotInSync(u, s, e, seen, j, i)
    {
      SlotAt(t, s, e, seen, j, i);
      ExtendSlot(t, s, e, seen, key, j, i);
    }
  }

  lemma AppendSlot(t: Transcript, s: SessionState, e: nat, seen: set<Id>, a: nat, m: Sent, j: nat, i: U32)
    requires t.Valid() && 1 <= j < |t.keys| && a < |t.chains| && (j == e - 1 || j != a)
    requires SlotInSync(t, s, e, seen, j, i)
    ensures SlotInSync(Append(t, a, m), s, e, seen, j, i)
  {
    RootAtSameKeys(t, Append(t, a, m), j);
  }

  lemma AppendSkipped(t: Transcript, s: SessionState, e: nat, seen: set<Id>, a: nat, m: Sent)
    requires InSync(t, s, e, seen) && e - 1 <= a < |t.chains| && Append(t, a, m).Valid()
    ensures SkippedInSync(Append(t, a, m), s, e, seen)
  {
    var u := Append(t, a, m);
    assert SeenPassed(u, s, e, seen);
    assert KeysFromPeer(u, s, e) by {
      forall k | k in s.skipped
        ensures KeyOfPeer(u, e, k.0)
      {
        assert KeyOfPeer(t, e, k.0);
        var j: nat :| PeerChain(e, j) && t.keys[j] == k.0;
        assert u.keys[j] == k.0;
      }
    }
    hide SlotInSync;
    hide KeysFromPeer;
    forall j: nat, i: U32 | PeerChain(e, j)
      ensures SlotInSync(u, s, e, seen, j, i)
    {
      SlotAt(t, s, e, seen, j, i);
      AppendSlot(t, s, e, seen, a, m, j, i);
    }
  }

  /** A message the peer sends leaves this party in sync. */
  lemma AppendKeepsPeer(t: Transcript, s: SessionState, e: nat, seen: set<Id>, a: nat, m: Sent)
    requires InSync(t, s, e, seen) && 1 <= a <= t.Latest() <= a + 1 && |t.chains[a]| + 1 < U32_LIMIT
    requires a == e - 1 || a == e + 1
    ensures InSync(Append(t, a, m), s, e, seen)
  {
    var u := Append(t, a, m);
    AppendKeepsTranscript(t, a, m);
    AppendSkipped(t, s, e, seen, a, m);
    hide SkippedInSync;
    RootAtSameKeys(t, u, e);
    if e >= 1 { RootAtSameKeys(t, u, e - 1); }
  }

  /** Encryption puts exactly the next frame of the sender's epoch on the wire. */
  lemma SendKeepsSender(t: Transcript, s: SessionState, e: nat, seen: set<Id>, m: Sent)
    requires InSync(t, s, e, seen) && t.Latest() <= e + 1
    ensures Encrypt(s, m.plaintext, m.envelopeAad).Success? <==> e >= 1 && |t.chains[e]| + 1 < U32_LIMIT
    ensures Encrypt(s, m.plaintext, m.envelopeAad).Success? ==>
              var (s', out) := Encrypt(s, m.plaintext, m.envelopeAad).value;
              var u := Append(t, e, m);
              && InSync(u, s', e, seen)
              && u.HasMessage(e, |t.chains[e]|)
              && FrameOf(u, e, |t.chains[e]|) == Frame(out.header, out.ciphertext, m.envelopeAad)
  {
    if e >= 1 && |t.chains[e]| + 1 < U32_LIMIT {
      var u := Append(t, e, m);
      AppendKeepsTranscript(t, e, m);
      AppendSkipped(t, s, e, seen, e, m);
      SenderSkippedSame(u, s, Encrypt(s, m.plaintext, m.envelopeAad).value.0, e, seen);
      hide SkippedInSync;
      RootAtSameKeys(t, u, e);
      RootAtSameKeys(t, u, e - 1);
    }
  }

  lemma SenderSkippedSame(t: Transcript, s: SessionState, s': SessionState, e: nat, seen: set<Id>)
    requires t.Valid() && e < |t.keys| && SkippedInSync(t, s, e, seen)
    requires s'.skipped == s.skipped && s'.recvCount == s.recvCount
    ensures SkippedInSync(t, s', e, seen)
  {
    forall j: nat, i: U32 | PeerChain(e, j)
      ensures SlotInSync(t, s', e, seen, j, i)
    {
      assert SlotInSync(t, s, e, seen, j, i);
    }
  }

  // -- The joint machine -------------------------------------------------------

  datatype Party = Alice | Bob

  datatype World = World(t: Transcript, alice: SessionState, bob: SessionState, aliceSeen: set<Id>, bobSeen: set<Id>)

  function StateOf(w: World, p: Party): (s: SessionState) { if p.Alice? then w.alice else w.bob }

  function SeenBy(w: World, p: Party): (m: set<Id>) { if p.Alice? then w.aliceSeen else w.bobSeen }

  /** Alice sends in the newest odd epoch, Bob in the newest even one. */
  function EpochOf(t: Transcript, p: Party): (e: nat)
    requires |t.keys| >= 2
    ensures t.Latest() - 1 <= e <= t.Latest()
  {
    if t.Latest() % 2 == (if p.Alice? then 1 else 0) then t.Latest() else t.Latest() - 1
  }

  function Other(p: Party): (q: Party) { if p.Alice? then Bob else Alice }

  lemma EpochsAdjoin(t: Transcript, p: Party)
    requires |t.keys| >= 2
    ensures EpochOf(t, p) + EpochOf(t, Other(p)) == 2 * t.Latest() - 1
  {}

  lemma EpochsAfterAppend(t: Transcript, p: Party, a: nat, m: Sent)
    requires |t.keys| >= 2 && a < |t.chains|
    ensures EpochOf(Append(t, a, m), p) == EpochOf(t, p)
  {}

  lemma EpochsAfterExtend(t: Transcript, p: Party, key: Key32)
    requires |t.keys| >= 2 && EpochOf(t, p) + 1 == t.Latest()
    ensures EpochOf(Extend(t, key), p) == EpochOf(t, p) + 2
    ensures EpochOf(Extend(t, key), Other(p)) == EpochOf(t, Other(p))
  {}

  ghost predicate Inv(w: World)
  {
    && w.t.Valid()
    && InSync(w.t, w.alice, EpochOf(w.t, Alice), w.aliceSeen)
    && InSync(w.t, w.bob, EpochOf(w.t, Bob), w.bobSeen)
  }

  function Update(w: World, p: Party, t: Transcript, s: SessionState, seen: set<Id>): (w': World)
  {
    if p.Alice? then World(t, s, w.bob, seen, w.bobSeen) else World(t, w.alice, s, w.aliceSeen, seen)
  }

  datatype Event =
    | Send(p: Party, m: Sent)
    | Receive(p: Party, f: Frame, newPair: Key32)

  /** Nothing is asked of sends. A delivery carries a ciphertext the network can
      have, and key generation never repeats an honest ratchet key. */
  ghost predicate Permitted(w: World, ev: Event, adversary: set<Key32>)
    requires w.t.Valid()
  {
    ev.Receive? ==> ev.newPair !in w.t.keys && Deliverable(w.t, adversary, ev.f.ciphertext)
  }

  function IndexOf(keys: seq<Key32>, k: Key32): (j: nat)
    ensures j <= |keys|
  {
    if keys == [] || keys[0] == k then 0 else 1 + IndexOf(keys[1..], k)
  }

  lemma {:induction false} IndexOfKey(keys: seq<Key32>, j: nat)
    requires j < |keys| && forall a, b :: 0 <= a < b < |keys| ==> keys[a] != keys[b]
    ensures IndexOf(keys, keys[j]) == j
  {
    if j > 0 { IndexOfKey(keys[1..], j - 1); }
  }

  /** One step: the party runs `Encrypt` or `Decrypt` on its own state; the
      transcript and the set of opened messages only record what happened. */
  function Apply(w: World, ev: Event): (w': World)
    requires |w.t.keys| == |w.t.chains| >= 2
    ensures |w'.t.keys| == |w'.t.chains| >= 2
  {
    match ev
    case Send(p, m) =>
      var r := Encrypt(StateOf(w, p), m.plaintext, m.envelopeAad);
      if r.Failure? then w
      else Update(w, p, Append(w.t, EpochOf(w.t, p), m), r.value.0, SeenBy(w, p))
    case Receive(p, f, newPair) =>
      var (s', r) := Deliver(StateOf(w, p), f, newPair);
      if r.Failure? then w
      else
        var t' := if s'.ourRatchet == StateOf(w, p).ourRatchet then w.t else Extend(w.t, newPair);
        Update(w, p, t', s', SeenBy(w, p) + {Id(IndexOf(w.t.keys, f.header.ratchetKey), f.header.messageNumber)})
  }

  lemma InvParty(w: World, p: Party)
    ensures Inv(w) <==>
            && w.t.Valid()
            && InSync(w.t, StateOf(w, p), EpochOf(w.t, p), SeenBy(w, p))
            && InSync(w.t, StateOf(w, Other(p)), EpochOf(w.t, Other(p)), SeenBy(w, Other(p)))
  {}

  lemma SendStep(w: World, p: Party, m: Sent)
    requires Inv(w)
    ensures Inv(Apply(w, Send(p, m)))
  {
    hide InSync;
    var s, e, a := StateOf(w, p), EpochOf(w.t, p), EpochOf(w.t, Other(p));
    InvParty(w, p);
    EpochsAdjoin(w.t, p);
    var w' := Apply(w, Send(p, m));
    InvParty(w', p);
    hide Inv;
    hide EpochOf;
    SendKeepsSender(w.t, s, e, SeenBy(w, p), m);
    if Encrypt(s, m.plaintext, m.envelopeAad).Success? {
      EpochsAfterAppend(w.t, p, e, m);
      EpochsAfterAppend(w.t, Other(p), e, m);
      AppendKeepsTranscript(w.t, e, m);
      hide Encrypt;
      AppendKeepsPeer(w.t, StateOf(w, Other(p)), a, SeenBy(w, Other(p)), e, m);
    }
  }

  lemma EpochMoveKeepsInv(w: World, p: Party, s': SessionState, seen': set<Id>, newPair: Key32)
    requires Inv(w) && newPair !in w.t.keys && EpochOf(w.t, p) + 1 == w.t.Latest()
    requires InSync(Extend(w.t, newPair), s', EpochOf(w.t, p) + 2, seen')
    ensures Inv(Update(w, p, Extend(w.t, newPair), s', seen'))
  {
    hide InSync;
    InvParty(w, p);
    var w' := Update(w, p, Extend(w.t, newPair), s', seen');
    InvParty(w', p);
    hide Inv;
    EpochsAfterExtend(w.t, p, newPair);
    ExtendKeepsTranscript(w.t, newPair);
    ExtendKeepsPeer(w.t, StateOf(w, Other(p)), EpochOf(w.t, Other(p)), SeenBy(w, Other(p)), newPair);
  }

  /** The transition of a delivery that opens as message (j, i). */
  lemma ReceiveEffect(w: World, p: Party, f: Frame, newPair: Key32, adversary: set<Key32>, j: nat, i: nat)
    requires Inv(w) && !RootKnown(adversary, w.t.secret)
    requires Permitted(w, Receive(p, f, newPair), adversary)
    requires Accepts(w.t, StateOf(w, p), EpochOf(w.t, p), SeenBy(w, p), f, j, i)
    ensures Deliver(StateOf(w, p), f, newPair).1 == Success(w.t.chains[j][i].plaintext)
    ensures Inv(Apply(w, Receive(p, f, newPair)))
    ensures Apply(w, Receive(p, f, newPair)) ==
            Update(w, p, TranscriptAfter(w.t, EpochOf(w.t, p), j, newPair), Deliver(StateOf(w, p), f, newPair).0,
                   SeenBy(w, p) + {Id(j, i)})
  {
    hide InSync, Deliver, Deliverable, EpochOf;
    var s, e, seen := StateOf(w, p), EpochOf(w.t, p), SeenBy(w, p);
    InvParty(w, p);
    AcceptedOpens(w.t, s, e, seen, adversary, f, newPair, j, i);
    IndexOfKey(w.t.keys, j);
    RatchetMovesWithEpoch(w.t, s, e, seen, j, newPair, Deliver(s, f, newPair).0, i);
    if j == e + 1 {
      EpochMoveKeepsInv(w, p, Deliver(s, f, newPair).0, seen + {Id(j, i)}, newPair);
    } else {
      InvParty(Apply(w, Receive(p, f, newPair)), p);
    }
  }

  lemma RatchetMovesWithEpoch(t: Transcript, s: SessionState, e: nat, seen: set<Id>, j: nat, newPair: Key32,
                              s': SessionState, i: nat)
    requires InSync(t, s, e, seen) && newPair !in t.keys
    requires InSync(TranscriptAfter(t, e, j, newPair), s', EpochAfter(e, j), seen + {Id(j, i)})
    requires j == e + 1 ==> e + 1 == t.Latest()
    ensures s'.ourRatchet == s.ourRatchet <==> j != e + 1
  {}
}
