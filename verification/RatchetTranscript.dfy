/** Everything an X3DH-agreed pair has ever generated and sent, as a list of
    epochs. Epoch 0 is Bob's signed prekey and sends nothing; from epoch 1 on,
    Alice owns the odd epochs and Bob the even ones. The keys of every epoch are
    determined by the agreed secret and the ratchet keys up to it. */
module RatchetTranscript {
  import opened Wire
  import opened KeyAlgebra

  datatype Sent = Sent(plaintext: Bytes, envelopeAad: Bytes)

  datatype Frame = Frame(header: RatchetHeader, ciphertext: Ciphertext, envelopeAad: Bytes)

  datatype Transcript = Transcript(secret: RootKey, keys: seq<Key32>, chains: seq<seq<Sent>>)
  {
    ghost predicate Valid()
    {
      && secret.Agreed?
      && |keys| == |chains| >= 2
      && (forall i, j :: 0 <= i < j < |keys| ==> keys[i] != keys[j])
      && chains[0] == []
      && (forall e :: 0 <= e < |chains| ==> |chains[e]| < U32_LIMIT)
    }

    /** The newest epoch. */
    function Latest(): (n: int) { |keys| - 1 }

    ghost predicate HasMessage(j: int, i: int)
    {
      1 <= j < |keys| && |keys| == |chains| && 0 <= i < |chains[j]|
    }
  }

  function RootAt(t: Transcript, e: nat): (r: RootKey)
    requires e < |t.keys|
  {
    if e == 0 then t.secret else NextRoot(RootAt(t, e - 1), DiffieHellman(t.keys[e], t.keys[e - 1]))
  }

  function StartAt(t: Transcript, e: nat): (r: ChainKey)
    requires 1 <= e < |t.keys|
    ensures r.ChainStart?
  {
    ChainStart(RootAt(t, e - 1), DiffieHellman(t.keys[e], t.keys[e - 1]))
  }

  /** The key of message `i` of epoch `j`. */
  function KeyAt(t: Transcript, j: nat, i: nat): (r: MessageKey)
    requires 1 <= j < |t.keys|
  {
    MessageKey(Advance(StartAt(t, j), i))
  }

  function PreviousLength(t: Transcript, j: nat): (n: nat)
    requires j < |t.chains|
  {
    if j >= 2 then |t.chains[j - 2]| else 0
  }

  function HeaderOf(t: Transcript, j: nat, i: nat): (h: RatchetHeader)
    requires t.Valid() && t.HasMessage(j, i)
  {
    RatchetHeader(t.keys[j], PreviousLength(t, j), i)
  }

  /** Message `i` of epoch `j` as it went onto the wire. */
  function FrameOf(t: Transcript, j: nat, i: nat): (f: Frame)
    requires t.Valid() && t.HasMessage(j, i)
  {
    var h, m := HeaderOf(t, j, i), t.chains[j][i];
    Frame(h, Sealed(KeyAt(t, j, i), m.plaintext, AuthenticatedData(m.envelopeAad, h)), m.envelopeAad)
  }

  /** A new epoch opens when its owner generates a ratchet key. */
  function Extend(t: Transcript, key: Key32): (r: Transcript)
  {
    Transcript(t.secret, t.keys + [key], t.chains + [[]])
  }

  function Append(t: Transcript, e: nat, m: Sent): (r: Transcript)
    requires e < |t.chains|
  {
    Transcript(t.secret, t.keys, t.chains[e := t.chains[e] + [m]])
  }

  lemma {:induction false} RootShape(t: Transcript, e: nat)
    requires t.secret.Agreed? && e < |t.keys|
    ensures Depth(RootAt(t, e)) == e && Base(RootAt(t, e)) == t.secret
  {
    if e > 0 { RootShape(t, e - 1); }
  }

  /** Keys of different messages differ, whatever the ratchet keys are. */
  lemma KeyAtInjective(t: Transcript, j: nat, i: nat, j': nat, i': nat)
    requires t.secret.Agreed? && 1 <= j < |t.keys| && 1 <= j' < |t.keys|
    requires KeyAt(t, j, i) == KeyAt(t, j', i')
    ensures j == j' && i == i'
  {
    AdvanceInjective(StartAt(t, j), i, StartAt(t, j'), i');
    RootShape(t, j - 1);
    RootShape(t, j' - 1);
  }

  lemma {:induction false} RootAtSameKeys(t: Transcript, u: Transcript, e: nat)
    requires t.secret == u.secret && e < |t.keys| <= |u.keys| && t.keys == u.keys[..|t.keys|]
    ensures RootAt(t, e) == RootAt(u, e)
    ensures e > 0 ==> StartAt(t, e) == StartAt(u, e)
  {
    if e > 0 { RootAtSameKeys(t, u, e - 1); }
  }

  /** The network may deliver any ciphertext ever sent, by either side, under any
      header, and any ciphertext the adversary can seal itself. */
  ghost predicate Deliverable(t: Transcript, adversary: set<Key32>, c: Ciphertext)
    requires t.Valid()
  {
    || (exists j, i :: t.HasMessage(j, i) && c == FrameOf(t, j, i).ciphertext)
    || MessageKeyKnown(adversary, c.key)
  }

  lemma NotForged(t: Transcript, adversary: set<Key32>, e: nat, dh: DhOutput, i: nat)
    requires t.Valid() && e < |t.keys| && !RootKnown(adversary, t.secret)
    ensures !MessageKeyKnown(adversary, MessageKey(Advance(ChainStart(RootAt(t, e), dh), i)))
  {
    AdvanceShape(ChainStart(RootAt(t, e), dh), i);
    RootShape(t, e);
    if RootKnown(adversary, RootAt(t, e)) {
      UnknownBaseStaysUnknown(adversary, RootAt(t, e));
    }
  }

  /** A deliverable ciphertext under a key grown from the root of epoch `e` is an
      honest message of epoch `e + 1`. */
  lemma OnlyHonestKeys(t: Transcript, adversary: set<Key32>, c: Ciphertext, e: nat, dh: DhOutput, i: nat)
    requires t.Valid() && e < |t.keys| && !RootKnown(adversary, t.secret)
    requires Deliverable(t, adversary, c)
    requires c.key == MessageKey(Advance(ChainStart(RootAt(t, e), dh), i))
    ensures t.HasMessage(e + 1, i) && c == FrameOf(t, e + 1, i).ciphertext
  {
    NotForged(t, adversary, e, dh, i);
    hide MessageKeyKnown;
    var j, i' :| t.HasMessage(j, i') && c == FrameOf(t, j, i').ciphertext;
    AdvanceInjective(StartAt(t, j), i', ChainStart(RootAt(t, e), dh), i);
    RootShape(t, e);
    RootShape(t, j - 1);
  }

  /** Opening with the key of message (j, i) succeeds on that very frame only. */
  lemma OpensExactlyItsFrame(t: Transcript, adversary: set<Key32>, f: Frame, j: nat, i: nat)
    requires t.Valid() && 1 <= j < |t.keys| && !RootKnown(adversary, t.secret)
    requires Deliverable(t, adversary, f.ciphertext)
    ensures AeadOpen(KeyAt(t, j, i), f.ciphertext, AuthenticatedData(f.envelopeAad, f.header)).Some?
       <==> t.HasMessage(j, i) && f == FrameOf(t, j, i)
  {
    if AeadOpen(KeyAt(t, j, i), f.ciphertext, AuthenticatedData(f.envelopeAad, f.header)).Some? {
      OnlyHonestKeys(t, adversary, f.ciphertext, j - 1, DiffieHellman(t.keys[j], t.keys[j - 1]), i);
      AuthenticatedDataInjective(f.envelopeAad, f.header, t.chains[j][i].envelopeAad, HeaderOf(t, j, i));
    }
  }

  /** A header naming a key that is not the next epoch's leads to a chain on
      which nothing was ever sealed. */
  lemma SpuriousChainOpensNothing(t: Transcript, adversary: set<Key32>, f: Frame, e: nat, i: nat)
    requires t.Valid() && e < |t.keys| && !RootKnown(adversary, t.secret)
    requires Deliverable(t, adversary, f.ciphertext)
    requires e + 1 < |t.keys| ==> f.header.ratchetKey != t.keys[e + 1]
    ensures AeadOpen(MessageKey(Advance(ChainStart(RootAt(t, e), DiffieHellman(t.keys[e], f.header.ratchetKey)), i)),
                     f.ciphertext, AuthenticatedData(f.envelopeAad, f.header)).None?
  {
    var dh := DiffieHellman(t.keys[e], f.header.ratchetKey);
    if f.ciphertext.key == MessageKey(Advance(ChainStart(RootAt(t, e), dh), i)) {
      OnlyHonestKeys(t, adversary, f.ciphertext, e, dh, i);
      if f.ciphertext.aad == AuthenticatedData(f.envelopeAad, f.header) {
        AuthenticatedDataInjective(f.envelopeAad, f.header, t.chains[e + 1][i].envelopeAad, HeaderOf(t, e + 1, i));
        assert false;
      }
    }
  }

  lemma ExtendKeepsTranscript(t: Transcript, key: Key32)
    requires t.Valid() && key !in t.keys
    ensures Extend(t, key).Valid()
    ensures forall j, i :: t.HasMessage(j, i) <==> Extend(t, key).HasMessage(j, i)
    ensures forall j, i :: t.HasMessage(j, i) ==> FrameOf(Extend(t, key), j, i) == FrameOf(t, j, i)
  {
    var u := Extend(t, key);
    forall j, i | t.HasMessage(j, i)
      ensures FrameOf(u, j, i) == FrameOf(t, j, i)
    {
      RootAtSameKeys(t, u, j);
    }
  }

  /** Only the two newest epochs are still being written, so appending to one of
      them changes no frame already sent. */
  lemma AppendKeepsTranscript(t: Transcript, e: nat, m: Sent)
    requires t.Valid() && 1 <= e <= t.Latest() <= e + 1 && |t.chains[e]| + 1 < U32_LIMIT
    ensures Append(t, e, m).Valid()
    ensures forall j, i :: t.HasMessage(j, i) ==>
              Append(t, e, m).HasMessage(j, i) && FrameOf(Append(t, e, m), j, i) == FrameOf(t, j, i)
    ensures Append(t, e, m).HasMessage(e, |t.chains[e]|)
  {
    var u := Append(t, e, m);
    forall j, i | t.HasMessage(j, i)
      ensures u.HasMessage(j, i) && FrameOf(u, j, i) == FrameOf(t, j, i)
    {
      RootAtSameKeys(t, u, j);
    }
  }
}
