/** What one party's session state says about the transcript, and exactly which
    deliveries it accepts. */
module RatchetParty {
  import opened Wire
  import opened KeyAlgebra
  import opened Ratchet
  import opened RatchetTranscript

  /** Message `number` of epoch `epoch`. */
  datatype Id = Id(epoch: nat, number: nat)

  /** Epoch `j` is one the party sending in epoch `e` has started to receive. */
  predicate PeerChain(e: int, j: int)
    ensures PeerChain(e, j) ==> 1 <= j <= e - 1
    decreases e
  {
    e >= 2 && (j == e - 1 || PeerChain(e - 2, j))
  }

  lemma {:induction false} PeerChainParity(e: int, j: int)
    ensures PeerChain(e, j) <==> 1 <= j < e && (e - j) % 2 == 1
    decreases e
  {
    if e >= 2 { PeerChainParity(e - 2, j); }
  }

  /** How many messages of peer chain `j` the party has passed. */
  function Passed(t: Transcript, s: SessionState, e: nat, j: nat): (n: nat)
    requires j < |t.chains|
  {
    if j == e - 1 then s.recvCount else |t.chains[j]|
  }

  predicate Stored(t: Transcript, s: SessionState, j: nat, i: U32)
    requires j < |t.keys|
  {
    (t.keys[j], i) in s.skipped
  }

  /** The ratchet fields of a party sending in epoch `e`. */
  ghost predicate ChainsInSync(t: Transcript, s: SessionState, e: nat)
    requires t.Valid() && e < |t.keys|
  {
    && s.ourRatchet == t.keys[e]
    && s.rootKey == RootAt(t, e)
    && s.theirRatchetKey == (if e == 0 then None else Some(t.keys[e - 1]))
    && s.sendCount == |t.chains[e]|
    && s.sendingChainKey == (if e == 0 then None else Some(Advance(StartAt(t, e), s.sendCount)))
    && s.previousSendCount == PreviousLength(t, e)
    && (e <= 1 ==> s.receivingChainKey == None && s.recvCount == 0)
    && (e >= 2 ==> s.receivingChainKey == Some(Advance(StartAt(t, e - 1), s.recvCount)))
    && (e >= 1 ==> s.recvCount <= |t.chains[e - 1]|)
  }

  /** The entry of the skipped map for message (j, i): present just when the
      message was passed and not opened, and then the right key. */
  ghost predicate SlotInSync(t: Transcript, s: SessionState, e: nat, seen: set<Id>, j: nat, i: U32)
    requires 1 <= j < |t.keys| == |t.chains|
  {
    && (Stored(t, s, j, i) <==> i < Passed(t, s, e, j) && Id(j, i) !in seen)
    && (Stored(t, s, j, i) ==> s.skipped[(t.keys[j], i)] == KeyAt(t, j, i))
  }

  ghost predicate KeyOfPeer(t: Transcript, e: nat, key: Key32)
    requires e < |t.keys|
  {
    exists j: nat :: PeerChain(e, j) && t.keys[j] == key
  }

  ghost predicate SlotsInSync(t: Transcript, s: SessionState, e: nat, seen: set<Id>)
    requires t.Valid() && e < |t.keys|
  {
    forall j: nat, i: U32 :: PeerChain(e, j) ==> SlotInSync(t, s, e, seen, j, i)
  }

  ghost predicate KeysFromPeer(t: Transcript, s: SessionState, e: nat)
    requires e < |t.keys|
  {
    forall k :: k in s.skipped ==> KeyOfPeer(t, e, k.0)
  }

  ghost predicate SeenPassed(t: Transcript, s: SessionState, e: nat, seen: set<Id>)
    requires t.Valid() && e < |t.keys|
  {
    forall m :: m in seen ==> PeerChain(e, m.epoch) && m.number < Passed(t, s, e, m.epoch)
  }

  ghost predicate SkippedInSync(t: Transcript, s: SessionState, e: nat, seen: set<Id>)
    requires t.Valid() && e < |t.keys|
  {
    && SlotsInSync(t, s, e, seen)
    && KeysFromPeer(t, s, e)
    && SeenPassed(t, s, e, seen)
    && |s.skipped| <= MAX_SKIP
  }

  ghost predicate InSync(t: Transcript, s: SessionState, e: nat, seen: set<Id>)
  {
    && t.Valid() && e < |t.keys|
    && ChainsInSync(t, s, e)
    && SkippedInSync(t, s, e, seen)
  }

  /** Message (j, i) is one the party may still receive: it comes from an earlier,
      the current or the next chain of the peer. */
  ghost predicate Addressed(t: Transcript, e: nat, j: nat, i: nat)
  {
    t.HasMessage(j, i) && PeerChain(e + 2, j)
  }

  /** How many message keys accepting (j, i) makes the party store. */
  function Needed(t: Transcript, s: SessionState, e: nat, j: nat, i: nat): (n: int)
    requires j < |t.chains| && e < |t.chains|
  {
    if j == e - 1 then (if i < s.recvCount then 0 else i - s.recvCount)
    else if j == e + 1 then i + (if e >= 2 then |t.chains[e - 1]| - s.recvCount else 0)
    else 0
  }

  /** The exact condition under which a delivery is accepted as message (j, i). */
  ghost predicate Accepts(t: Transcript, s: SessionState, e: nat, seen: set<Id>, f: Frame, j: nat, i: nat)
    requires t.Valid() && e < |t.keys|
  {
    && Addressed(t, e, j, i)
    && f == FrameOf(t, j, i)
    && Id(j, i) !in seen
    && |s.skipped| + Needed(t, s, e, j, i) <= MAX_SKIP
  }

  function Deliver(s: SessionState, f: Frame, newPair: Key32): (r: (SessionState, Result<Bytes, RatchetError>))
  {
    Decrypt(s, f.header, f.ciphertext, f.envelopeAad, newPair)
  }

  // -- Deliveries answered from the skipped map --------------------------------

  lemma FromSkipped(t: Transcript, s: SessionState, e: nat, seen: set<Id>, adversary: set<Key32>,
                    f: Frame, newPair: Key32, j: nat)
    requires InSync(t, s, e, seen) && !RootKnown(adversary, t.secret)
    requires Deliverable(t, adversary, f.ciphertext)
    requires PeerChain(e, j) && t.keys[j] == f.header.ratchetKey && Stored(t, s, j, f.header.messageNumber)
    ensures
      var i := f.header.messageNumber;
      var (s', r) := Deliver(s, f, newPair);
      if t.HasMessage(j, i) && f == FrameOf(t, j, i)
      then r == Success(t.chains[j][i].plaintext) && s' == s.(skipped := s.skipped - {(t.keys[j], i)})
      else r.Failure? && s' == s
  {
    var i := f.header.messageNumber;
    assert SlotInSync(t, s, e, seen, j, i);
    OpensExactlyItsFrame(t, adversary, f, j, i);
  }

  lemma FromSkippedSlot(t: Transcript, s: SessionState, e: nat, seen: set<Id>, j: nat, i: U32, j': nat, i': U32)
    requires t.Valid() && PeerChain(e, j) && PeerChain(e, j') && e < |t.keys|
    requires SlotInSync(t, s, e, seen, j', i')
    ensures SlotInSync(t, s.(skipped := s.skipped - {(t.keys[j], i)}), e, seen + {Id(j, i)}, j', i')
  {
    assert t.keys[j'] == t.keys[j] ==> j' == j;
  }

  lemma FromSkippedKeeps(t: Transcript, s: SessionState, e: nat, seen: set<Id>, j: nat, i: U32)
    requires InSync(t, s, e, seen) && PeerChain(e, j) && Stored(t, s, j, i)
    ensures InSync(t, s.(skipped := s.skipped - {(t.keys[j], i)}), e, seen + {Id(j, i)})
  {
    var s' := s.(skipped := s.skipped - {(t.keys[j], i)});
    var seen' := seen + {Id(j, i)};
    SlotAt(t, s, e, seen, j, i);
    assert SeenPassed(t, s', e, seen');
    hide SlotInSync;
    forall j': nat, i': U32 | PeerChain(e, j')
      ensures SlotInSync(t, s', e, seen', j', i')
    {
      SlotAt(t, s, e, seen, j', i');
      FromSkippedSlot(t, s, e, seen, j, i, j', i');
    }
    assert |s'.skipped| <= |s.skipped| by { assert s'.skipped.Keys == s.skipped.Keys - {(t.keys[j], i)}; }
  }

  // -- Moving along one chain --------------------------------------------------

  /** Storing the keys from `recvCount` up to `until` of the current receiving
      chain keeps the map exact. */
  lemma SkipAhead(t: Transcript, s: SessionState, e: nat, seen: set<Id>, until: U32)
    requires InSync(t, s, e, seen) && e >= 2
    requires s.recvCount <= until <= |t.chains[e - 1]|
    requires |s.skipped| + until - s.recvCount <= MAX_SKIP
    ensures SkipMessageKeys(s, s.recvCount, until).Success?
    ensures
      var s' := SkipMessageKeys(s, s.recvCount, until).value.(recvCount := until);
      && InSync(t, s', e, seen)
      && |s'.skipped| == |s.skipped| + until - s.recvCount
      && s' == s.(recvCount := until, skipped := s'.skipped,
                  receivingChainKey := Some(Advance(StartAt(t, e - 1), until)))
  {
    var their, ck := t.keys[e - 1], Advance(StartAt(t, e - 1), s.recvCount);
    var m := StoreWindow(s.skipped, their, ck, s.recvCount, until);
    var s' := s.(recvCount := until, skipped := m, receivingChainKey := Some(Advance(ck, until - s.recvCount)));
    AdvanceAdds(StartAt(t, e - 1), s.recvCount, until - s.recvCount);
    forall i: U32 | s.recvCount <= i < until
      ensures (their, i) !in s.skipped
    {
      assert SlotInSync(t, s, e, seen, e - 1, i);
    }
    StoreWindowSize(s.skipped, their, ck, s.recvCount, until);
    SkipAheadLookup(t, s, e, seen, until, s');
  }

  lemma SkipAheadLookup(t: Transcript, s: SessionState, e: nat, seen: set<Id>, until: U32, s': SessionState)
    requires InSync(t, s, e, seen) && e >= 2
    requires s.recvCount <= until <= |t.chains[e - 1]|
    requires s'.recvCount == until && |s'.skipped| <= MAX_SKIP
    requires s'.skipped == StoreWindow(s.skipped, t.keys[e - 1], Advance(StartAt(t, e - 1), s.recvCount), s.recvCount,
                                       until)
    ensures SkippedInSync(t, s', e, seen)
  {
    var their, ck := t.keys[e - 1], Advance(StartAt(t, e - 1), s.recvCount);
    forall j: nat, i: U32 | PeerChain(e, j)
      ensures SlotInSync(t, s', e, seen, j, i)
    {
      assert SlotInSync(t, s, e, seen, j, i);
      StoreWindowLookup(s.skipped, their, ck, s.recvCount, until, (t.keys[j], i));
      assert t.keys[j] == their <==> j == e - 1;
      if s.recvCount <= i {
        AdvanceAdds(StartAt(t, e - 1), s.recvCount, i - s.recvCount);
      }
    }
    forall k | k in s'.skipped
      ensures KeyOfPeer(t, e, k.0)
    {
      StoreWindowLookup(s.skipped, their, ck, s.recvCount, until, k);
    }
  }

  /** Opening the next message of the current receiving chain. */
  function AfterNext(s: SessionState): (r: SessionState)
    requires s.receivingChainKey.Some? && s.recvCount + 1 < U32_LIMIT
  {
    s.(receivingChainKey := Some(NextChain(s.receivingChainKey.value)), recvCount := s.recvCount + 1)
  }

  lemma OpenNextSlot(t: Transcript, s: SessionState, e: nat, seen: set<Id>, j: nat, i: U32)
    requires s.receivingChainKey.Some? && s.recvCount + 1 < U32_LIMIT && e >= 2
    requires 1 <= j < |t.keys| == |t.chains|
    requires SlotInSync(t, s, e, seen, j, i)
    ensures SlotInSync(t, AfterNext(s), e, seen + {Id(e - 1, s.recvCount)}, j, i)
  {}

  lemma OpenNext(t: Transcript, s: SessionState, e: nat, seen: set<Id>)
    requires InSync(t, s, e, seen) && e >= 2 && s.recvCount < |t.chains[e - 1]|
    ensures Id(e - 1, s.recvCount) !in seen
    ensures InSync(t, AfterNext(s), e, seen + {Id(e - 1, s.recvCount)})
  {
    var s', seen' := AfterNext(s), seen + {Id(e - 1, s.recvCount)};
    assert ChainsInSync(t, s', e) && SeenPassed(t, s', e, seen');
    hide SlotInSync;
    hide ChainsInSync;
    forall j: nat, i: U32 | PeerChain(e, j)
      ensures SlotInSync(t, s', e, seen', j, i)
    {
      SlotAt(t, s, e, seen, j, i);
      OpenNextSlot(t, s, e, seen, j, i);
    }
  }

  /** The state in which message (e - 1, i) of the current chain leaves the party. */
  function AfterCurrent(s: SessionState, i: U32): (r: SessionState)
    requires s.receivingChainKey.Some? && i + 1 < U32_LIMIT
  {
    var k := SkipMessageKeys(s, s.recvCount, i);
    if k.Failure? || k.value.receivingChainKey.None? then s
    else k.value.(receivingChainKey := Some(NextChain(k.value.receivingChainKey.value)), recvCount := i + 1)
  }

  lemma CurrentChainKey(t: Transcript, s: SessionState, e: nat, seen: set<Id>, i: U32)
    requires InSync(t, s, e, seen) && e >= 2
    ensures
      var k := SkipMessageKeys(s, s.recvCount, i);
      && (k.Success? <==> i <= s.recvCount || |s.skipped| + i - s.recvCount <= MAX_SKIP)
      && (k.Success? ==> k.value.receivingChainKey == Some(Advance(StartAt(t, e - 1),
                                                                   if i <= s.recvCount then s.recvCount else i)))
  {
    if s.recvCount < i {
      AdvanceAdds(StartAt(t, e - 1), s.recvCount, i - s.recvCount);
    }
  }

  /** A delivery on the current receiving chain, not stored as skipped. */
  lemma FromCurrent(t: Transcript, s: SessionState, e: nat, seen: set<Id>, adversary: set<Key32>,
                    f: Frame, newPair: Key32)
    requires InSync(t, s, e, seen) && e >= 2 && !RootKnown(adversary, t.secret)
    requires Deliverable(t, adversary, f.ciphertext)
    requires f.header.ratchetKey == t.keys[e - 1] && !Stored(t, s, e - 1, f.header.messageNumber)
    ensures
      var i := f.header.messageNumber;
      var (s', r) := Deliver(s, f, newPair);
      if t.HasMessage(e - 1, i) && f == FrameOf(t, e - 1, i) && s.recvCount <= i
         && |s.skipped| + i - s.recvCount <= MAX_SKIP
      then r == Success(t.chains[e - 1][i].plaintext) && s' == AfterCurrent(s, i)
      else r.Failure? && s' == s
  {
    var i := f.header.messageNumber;
    CurrentChainKey(t, s, e, seen, i);
    OpensExactlyItsFrame(t, adversary, f, e - 1, if i <= s.recvCount then s.recvCount else i);
  }

  lemma FromCurrentKeeps(t: Transcript, s: SessionState, e: nat, seen: set<Id>, i: U32)
    requires InSync(t, s, e, seen) && e >= 2 && t.HasMessage(e - 1, i) && s.recvCount <= i
    requires |s.skipped| + i - s.recvCount <= MAX_SKIP
    ensures Id(e - 1, i) !in seen
    ensures InSync(t, AfterCurrent(s, i), e, seen + {Id(e - 1, i)})
  {
    hide InSync;
    SkipAhead(t, s, e, seen, i);
    OpenNext(t, SkipMessageKeys(s, s.recvCount, i).value.(recvCount := i), e, seen);
  }

  // -- Entering the peer's next chain ------------------------------------------

  /** The session after closing the old receiving chain at `previous`. */
  function Closed(s: SessionState, previous: U32): (r: Result<SessionState, RatchetError>)
  {
    if s.receivingChainKey.Some? then SkipMessageKeys(s, s.recvCount, previous) else Success(s)
  }

  lemma CloseChain(t: Transcript, s: SessionState, e: nat, seen: set<Id>)
    requires InSync(t, s, e, seen)
    ensures
      var last := if e >= 1 then |t.chains[e - 1]| else 0;
      && (Closed(s, last).Success? <==> |s.skipped| + last - s.recvCount <= MAX_SKIP)
      && (Closed(s, last).Success? ==>
            && InSync(t, Closed(s, last).value.(recvCount := last), e, seen)
            && |Closed(s, last).value.skipped| == |s.skipped| + last - s.recvCount)
  {
    if e >= 2 && |s.skipped| + |t.chains[e - 1]| - s.recvCount <= MAX_SKIP {
      SkipAhead(t, s, e, seen, |t.chains[e - 1]|);
    }
    if e == 1 { assert t.chains[0] == []; }
  }

  lemma StepChains(t: Transcript, s: SessionState, e: nat, seen: set<Id>, newPair: Key32)
    requires InSync(t, s, e, seen) && e + 1 == t.Latest() && newPair !in t.keys
    ensures Extend(t, newPair).Valid()
    ensures ChainsInSync(Extend(t, newPair), DhStep(s, t.keys[e + 1], newPair), e + 2)
  {
    var u, s' := Extend(t, newPair), DhStep(s, t.keys[e + 1], newPair);
    ExtendKeepsTranscript(t, newPair);
    RootAtSameKeys(t, u, e + 1);
    RootAtSameKeys(t, u, e);
    DiffieHellmanCommutes(t.keys[e], t.keys[e + 1]);
    assert u.keys[e] == t.keys[e] && u.keys[e + 1] == t.keys[e + 1] && u.keys[e + 2] == newPair;
    assert s'.receivingChainKey == Some(StartAt(u, e + 1));
    assert RootAt(u, e + 1) == NextRoot(RootAt(t, e), DiffieHellman(t.keys[e + 1], t.keys[e]));
    assert s'.rootKey == RootAt(u, e + 2);
    assert s'.sendingChainKey == Some(StartAt(u, e + 2));
  }

  lemma SlotAt(t: Transcript, s: SessionState, e: nat, seen: set<Id>, j: nat, i: U32)
    requires InSync(t, s, e, seen) && PeerChain(e, j)
    ensures SlotInSync(t, s, e, seen, j, i)
  {}

  lemma StepSlot(t: Transcript, s: SessionState, e: nat, seen: set<Id>, newPair: Key32, j: nat, i: U32)
    requires InSync(t, s, e, seen) && e + 1 == t.Latest()
    requires e >= 1 ==> s.recvCount == |t.chains[e - 1]|
    requires PeerChain(e + 2, j)
    ensures SlotInSync(Extend(t, newPair), DhStep(s, t.keys[e + 1], newPair), e + 2, seen, j, i)
  {
    var u, s' := Extend(t, newPair), DhStep(s, t.keys[e + 1], newPair);
    RootAtSameKeys(t, u, j);
    if j == e + 1 {
      assert !Stored(t, s, j, i);
    } else {
      SlotAt(t, s, e, seen, j, i);
      assert Passed(u, s', e + 2, j) == Passed(t, s, e, j);
    }
  }

  lemma StepSkipped(t: Transcript, s: SessionState, e: nat, seen: set<Id>, newPair: Key32)
    requires InSync(t, s, e, seen) && e + 1 == t.Latest() && newPair !in t.keys
    requires e >= 1 ==> s.recvCount == |t.chains[e - 1]|
    requires Extend(t, newPair).Valid()
    ensures SkippedInSync(Extend(t, newPair), DhStep(s, t.keys[e + 1], newPair), e + 2, seen)
  {
    var u, s', e' := Extend(t, newPair), DhStep(s, t.keys[e + 1], newPair), e + 2;
    assert SlotsInSync(u, s', e', seen) by {
      hide InSync;
      hide SlotInSync;
      forall j: nat, i: U32 | PeerChain(e', j)
        ensures SlotInSync(u, s', e', seen, j, i)
      {
        StepSlot(t, s, e, seen, newPair, j, i);
      }
    }
    hide SlotsInSync;
    assert KeysFromPeer(u, s', e') by {
      forall k | k in s'.skipped
        ensures KeyOfPeer(u, e', k.0)
      {
        assert KeyOfPeer(t, e, k.0);
        var j: nat :| PeerChain(e, j) && t.keys[j] == k.0;
        assert PeerChain(e', j) && u.keys[j] == k.0;
      }
    }
    hide KeysFromPeer;
    forall m | m in seen
      ensures PeerChain(e', m.epoch) && m.number < Passed(u, s', e', m.epoch)
    {
      assert PeerChain(e, m.epoch) && Passed(u, s', e', m.epoch) == Passed(t, s, e, m.epoch);
    }
  }

  /** The state in which message (e + 1, i) of the next chain leaves the party. */
  function AfterNew(s: SessionState, previous: U32, their: Key32, newPair: Key32, i: U32): (r: SessionState)
    requires i + 1 < U32_LIMIT
  {
    var closed := Closed(s, previous);
    if closed.Failure? then s else AfterCurrent(DhStep(closed.value, their, newPair), i)
  }

  lemma OtherKey(t: Transcript, s: SessionState, e: nat, seen: set<Id>, key: Key32)
    requires InSync(t, s, e, seen) && (e >= 1 ==> key != t.keys[e - 1])
    ensures t.Valid() && e < |t.keys| && |s.skipped| <= MAX_SKIP && s.theirRatchetKey != Some(key)
    ensures s.rootKey == RootAt(t, e) && s.ourRatchet == t.keys[e]
  {}

  /** A delivery whose header names a key other than the current receiving one. */
  lemma FromOther(t: Transcript, s: SessionState, e: nat, seen: set<Id>, adversary: set<Key32>,
                  f: Frame, newPair: Key32)
    requires InSync(t, s, e, seen) && !RootKnown(adversary, t.secret)
    requires Deliverable(t, adversary, f.ciphertext)
    requires e >= 1 ==> f.header.ratchetKey != t.keys[e - 1]
    requires (f.header.ratchetKey, f.header.messageNumber) !in s.skipped
    ensures
      var h := f.header;
      var (s', r) := Deliver(s, f, newPair);
      var closed := Closed(s, h.previousChainLength);
      if t.HasMessage(e + 1, h.messageNumber) && f == FrameOf(t, e + 1, h.messageNumber)
         && closed.Success? && |closed.value.skipped| + h.messageNumber <= MAX_SKIP
      then r == Success(t.chains[e + 1][h.messageNumber].plaintext)
           && s' == AfterNew(s, h.previousChainLength, h.ratchetKey, newPair, h.messageNumber)
      else r.Failure? && s' == s
  {
    hide Deliver, InSync, AfterNew, AuthenticatedData, Closed;
    var h := f.header;
    OtherKey(t, s, e, seen, h.ratchetKey);
    SteppedDelivery(s, f, newPair);
    if e + 1 < |t.keys| && h.ratchetKey == t.keys[e + 1] {
      DiffieHellmanCommutes(t.keys[e], t.keys[e + 1]);
      assert ChainStart(s.rootKey, DiffieHellman(s.ourRatchet, h.ratchetKey)) == StartAt(t, e + 1);
      OpensExactlyItsFrame(t, adversary, f, e + 1, h.messageNumber);
    } else {
      SpuriousChainOpensNothing(t, adversary, f, e, h.messageNumber);
    }
  }

  /** Any delivery that forces a Diffie-Hellman step, whatever the transcript. */
  lemma SteppedDelivery(s: SessionState, f: Frame, newPair: Key32)
    requires |s.skipped| <= MAX_SKIP && s.theirRatchetKey != Some(f.header.ratchetKey)
    requires (f.header.ratchetKey, f.header.messageNumber) !in s.skipped
    ensures
      var h := f.header;
      var (s', r) := Deliver(s, f, newPair);
      var closed := Closed(s, h.previousChainLength);
      var chain := ChainStart(s.rootKey, DiffieHellman(s.ourRatchet, h.ratchetKey));
      var text := AeadOpen(MessageKey(Advance(chain, h.messageNumber)), f.ciphertext,
                           AuthenticatedData(f.envelopeAad, h));
      if closed.Success? && |closed.value.skipped| + h.messageNumber <= MAX_SKIP && text.Some?
         && h.messageNumber + 1 < U32_LIMIT
      then r == Success(text.value) && s' == AfterNew(s, h.previousChainLength, h.ratchetKey, newPair, h.messageNumber)
      else r.Failure? && s' == s
  {
    var h := f.header;
    var closed := Closed(s, h.previousChainLength);
    hide AuthenticatedData, StoreWindow;
    if closed.Success? {
      ClosedKeepsRoot(s, h.previousChainLength);
      var stepped := DhStep(closed.value, h.ratchetKey, newPair);
      assert EnterChain(s, h, newPair) == Success(stepped);
      assert stepped.receivingChainKey == Some(ChainStart(s.rootKey, DiffieHellman(s.ourRatchet, h.ratchetKey)));
    } else {
      assert EnterChain(s, h, newPair).Failure?;
    }
  }

  lemma ClosedKeepsRoot(s: SessionState, previous: U32)
    requires Closed(s, previous).Success?
    ensures Closed(s, previous).value == s.(skipped := Closed(s, previous).value.skipped,
                                            receivingChainKey := Closed(s, previous).value.receivingChainKey)
    ensures |s.skipped| <= MAX_SKIP ==> |Closed(s, previous).value.skipped| <= MAX_SKIP
  {
    if s.receivingChainKey.Some? && s.theirRatchetKey.Some? && s.recvCount < previous {
      StoreWindowSizeAtMost(s.skipped, s.theirRatchetKey.value, s.receivingChainKey.value, s.recvCount, previous);
    }
  }

  lemma FromOtherKeeps(t: Transcript, s: SessionState, e: nat, seen: set<Id>, newPair: Key32, i: U32)
    requires InSync(t, s, e, seen) && e + 1 == t.Latest() && newPair !in t.keys && t.HasMessage(e + 1, i)
    requires |s.skipped| + Needed(t, s, e, e + 1, i) <= MAX_SKIP
    ensures Id(e + 1, i) !in seen
    ensures InSync(Extend(t, newPair), AfterNew(s, PreviousLength(t, e + 1), t.keys[e + 1], newPair, i),
                   e + 2, seen + {Id(e + 1, i)})
  {
    hide SkippedInSync;
    var u := Extend(t, newPair);
    var last := PreviousLength(t, e + 1);
    CloseChain(t, s, e, seen);
    if e == 1 { assert t.chains[0] == []; }
    var closed := Closed(s, last).value.(recvCount := last);
    StepChains(t, closed, e, seen, newPair);
    StepSkipped(t, closed, e, seen, newPair);
    var stepped := DhStep(closed, t.keys[e + 1], newPair);
    assert InSync(u, stepped, e + 2, seen);
    ClosedKeepsRoot(s, last);
    assert DhStep(Closed(s, last).value, t.keys[e + 1], newPair) == stepped;
    hide InSync;
    FromCurrentKeeps(u, stepped, e + 2, seen, i);
  }

  // -- Exactly which deliveries are accepted -----------------------------------

  /** The transcript once (j, i) has been accepted: entering a chain opens an epoch. */
  function TranscriptAfter(t: Transcript, e: nat, j: nat, newPair: Key32): (u: Transcript)
  {
    if j == e + 1 then Extend(t, newPair) else t
  }

  function EpochAfter(e: nat, j: nat): (n: nat) { if j == e + 1 then e + 2 else e }

  lemma AcceptedOpens(t: Transcript, s: SessionState, e: nat, seen: set<Id>, adversary: set<Key32>,
                      f: Frame, newPair: Key32, j: nat, i: nat)
    requires InSync(t, s, e, seen) && t.Latest() <= e + 1 && newPair !in t.keys && !RootKnown(adversary, t.secret)
    requires Deliverable(t, adversary, f.ciphertext)
    requires Accepts(t, s, e, seen, f, j, i)
    ensures Deliver(s, f, newPair).1 == Success(t.chains[j][i].plaintext)
    ensures InSync(TranscriptAfter(t, e, j, newPair), Deliver(s, f, newPair).0, EpochAfter(e, j), seen + {Id(j, i)})
  {
    if j == e + 1 {
      NextOpens(t, s, e, seen, adversary, f, newPair, i);
    } else {
      hide Deliver;
      SlotAt(t, s, e, seen, j, i);
      if Stored(t, s, j, i) {
        FromSkipped(t, s, e, seen, adversary, f, newPair, j);
        hide InSync;
        FromSkippedKeeps(t, s, e, seen, j, i);
      } else {
        FromCurrent(t, s, e, seen, adversary, f, newPair);
        hide InSync;
        FromCurrentKeeps(t, s, e, seen, i);
      }
    }
  }

  lemma NextOpens(t: Transcript, s: SessionState, e: nat, seen: set<Id>, adversary: set<Key32>,
                  f: Frame, newPair: Key32, i: nat)
    requires InSync(t, s, e, seen) && t.Latest() <= e + 1 && newPair !in t.keys && !RootKnown(adversary, t.secret)
    requires Deliverable(t, adversary, f.ciphertext)
    requires Accepts(t, s, e, seen, f, e + 1, i)
    ensures Deliver(s, f, newPair).1 == Success(t.chains[e + 1][i].plaintext)
    ensures InSync(Extend(t, newPair), Deliver(s, f, newPair).0, e + 2, seen + {Id(e + 1, i)})
  {
    NextChainUnstored(t, s, e, seen, i);
    CloseChain(t, s, e, seen);
    FromOther(t, s, e, seen, adversary, f, newPair);
    hide InSync, Deliver, Closed;
    FromOtherKeeps(t, s, e, seen, newPair, i);
  }

  lemma NextChainUnstored(t: Transcript, s: SessionState, e: nat, seen: set<Id>, i: U32)
    requires InSync(t, s, e, seen) && e + 1 < |t.keys|
    ensures (t.keys[e + 1], i) !in s.skipped
    ensures forall m :: m in seen ==> m.epoch <= e - 1
  {}

  /** Until its first Diffie-Hellman step the initiator has no receiving chain. */
  lemma NothingBeforeFirstStep(t: Transcript, s: SessionState, e: nat, seen: set<Id>, f: Frame, newPair: Key32)
    requires InSync(t, s, e, seen) && e == 1 && f.header.ratchetKey == t.keys[0]
    ensures Deliver(s, f, newPair).1.Failure?
  {
    assert (f.header.ratchetKey, f.header.messageNumber) !in s.skipped;
  }

  lemma SkippedIsAccepted(t: Transcript, s: SessionState, e: nat, seen: set<Id>, adversary: set<Key32>,
                          f: Frame, newPair: Key32)
    returns (j: nat)
    requires InSync(t, s, e, seen) && !RootKnown(adversary, t.secret)
    requires Deliverable(t, adversary, f.ciphertext)
    requires (f.header.ratchetKey, f.header.messageNumber) in s.skipped
    requires Deliver(s, f, newPair).1.Success?
    ensures Accepts(t, s, e, seen, f, j, f.header.messageNumber)
  {
    assert |s.skipped| <= MAX_SKIP && KeyOfPeer(t, e, f.header.ratchetKey);
    j :| PeerChain(e, j) && t.keys[j] == f.header.ratchetKey;
    SlotAt(t, s, e, seen, j, f.header.messageNumber);
    FromSkipped(t, s, e, seen, adversary, f, newPair, j);
  }

  lemma CurrentIsAccepted(t: Transcript, s: SessionState, e: nat, seen: set<Id>, adversary: set<Key32>,
                          f: Frame, newPair: Key32)
    requires InSync(t, s, e, seen) && e >= 1 && !RootKnown(adversary, t.secret)
    requires Deliverable(t, adversary, f.ciphertext)
    requires f.header.ratchetKey == t.keys[e - 1] && (t.keys[e - 1], f.header.messageNumber) !in s.skipped
    requires Deliver(s, f, newPair).1.Success?
    ensures Accepts(t, s, e, seen, f, e - 1, f.header.messageNumber)
  {
    if e == 1 {
      NothingBeforeFirstStep(t, s, e, seen, f, newPair);
    } else {
      hide Decrypt;
      assert PeerChain(e, e - 1);
      SlotAt(t, s, e, seen, e - 1, f.header.messageNumber);
      FromCurrent(t, s, e, seen, adversary, f, newPair);
    }
  }

  lemma OtherIsAccepted(t: Transcript, s: SessionState, e: nat, seen: set<Id>, adversary: set<Key32>,
                        f: Frame, newPair: Key32)
    requires InSync(t, s, e, seen) && !RootKnown(adversary, t.secret)
    requires Deliverable(t, adversary, f.ciphertext)
    requires e >= 1 ==> f.header.ratchetKey != t.keys[e - 1]
    requires (f.header.ratchetKey, f.header.messageNumber) !in s.skipped
    requires Deliver(s, f, newPair).1.Success?
    ensures Accepts(t, s, e, seen, f, e + 1, f.header.messageNumber)
  {
    hide Decrypt;
    FromOther(t, s, e, seen, adversary, f, newPair);
    CloseChain(t, s, e, seen);
    NextChainUnstored(t, s, e, seen, f.header.messageNumber);
    assert e <= 1 ==> s.recvCount == 0;
    assert e == 1 ==> t.chains[0] == [];
  }

  /** Whatever opens is an acceptable message; everything else fails and, as
      `Decrypt` shows, changes nothing. */
  lemma OpenedIsAccepted(t: Transcript, s: SessionState, e: nat, seen: set<Id>, adversary: set<Key32>,
                         f: Frame, newPair: Key32)
    returns (j: nat, i: nat)
    requires InSync(t, s, e, seen) && !RootKnown(adversary, t.secret)
    requires Deliverable(t, adversary, f.ciphertext)
    requires Deliver(s, f, newPair).1.Success?
    ensures Accepts(t, s, e, seen, f, j, i)
  {
    i := f.header.messageNumber;
    if (f.header.ratchetKey, i) in s.skipped {
      j := SkippedIsAccepted(t, s, e, seen, adversary, f, newPair);
    } else if e >= 1 && f.header.ratchetKey == t.keys[e - 1] {
      j := e - 1;
      CurrentIsAccepted(t, s, e, seen, adversary, f, newPair);
    } else {
      j := e + 1;
      OtherIsAccepted(t, s, e, seen, adversary, f, newPair);
    }
  }
}
