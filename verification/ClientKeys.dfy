/** No message key is ever used for two envelopes, through store failures,
    crashes and reloads. `log` holds every envelope ever durable in the outbox. */
module ClientKeys {
  import opened Wire
  import opened KeyAlgebra
  import opened Ratchet
  import opened Outbox
  import opened ClientSpec

  /** The chain at `c` has already passed the key of `e`, if `e` is of that chain. */
  ghost predicate Passed(c: ChainKey, e: Envelope)
  {
    Origin(e.ciphertext.key.chain) == Origin(c) ==> Position(e.ciphertext.key.chain) < Position(c)
  }

  ghost predicate KeysUnique(log: set<Envelope>)
  {
    forall e1, e2 :: e1 in log && e2 in log && e1.ciphertext.key == e2.ciphertext.key ==> e1 == e2
  }

  predicate Sending(core: Core, p: UserId)
  {
    p in core.sessions && core.sessions[p].ratchet.sendingChainKey.Some?
  }

  function SendingKey(core: Core, p: UserId): (c: ChainKey)
    requires Sending(core, p)
  {
    core.sessions[p].ratchet.sendingChainKey.value
  }

  ghost predicate KeysOk(core: Core, log: set<Envelope>)
  {
    && KeysUnique(log)
    && (forall p, e :: Sending(core, p) && e in log ==> Passed(SendingKey(core, p), e))
    && (forall p, q :: Sending(core, p) && Sending(core, q) && p != q ==>
          Origin(SendingKey(core, p)) != Origin(SendingKey(core, q)))
  }

  ghost predicate Mentions(start: ChainKey, k: Key32)
    requires start.ChainStart?
  {
    start.dh.lo == k || start.dh.hi == k
  }

  /** A newly generated key pair occurs in no chain so far. */
  ghost predicate NewPair(core: Core, log: set<Envelope>, k: Key32)
  {
    && (forall p :: Sending(core, p) ==> !Mentions(Origin(SendingKey(core, p)), k))
    && (forall e :: e in log ==> !Mentions(Origin(e.ciphertext.key.chain), k))
  }

  lemma SealingKeepsKeys(core: Core, identity: Key32, peer: UserId, plaintext: Bytes, log: set<Envelope>)
    requires KeysOk(core, log) && AdvanceEncryption(core, identity, peer, plaintext).Success?
    ensures var (core', e) := AdvanceEncryption(core, identity, peer, plaintext).value;
            e !in log && KeysOk(core', log + {e})
  {
    var (core', e) := AdvanceEncryption(core, identity, peer, plaintext).value;
    var c := SendingKey(core, peer);
    assert e.ciphertext.key == MessageKey(c) && SendingKey(core', peer) == NextChain(c);
    assert forall p :: p != peer ==> (Sending(core', p) <==> Sending(core, p));
    assert forall p :: p != peer && Sending(core, p) ==> SendingKey(core', p) == SendingKey(core, p);
    forall e2 | e2 in log
      ensures e2.ciphertext.key != e.ciphertext.key && Passed(NextChain(c), e2)
    {
      assert Passed(c, e2);
    }
  }

  /** The session of `peer` set to one whose sending chain is the old one or new. */
  lemma NewChainKeepsKeys(core: Core, core': Core, peer: UserId, log: set<Envelope>, newPair: Key32, their: Key32)
    requires KeysOk(core, log) && NewPair(core, log, newPair)
    requires core'.sessions.Keys == core.sessions.Keys + {peer}
    requires forall p :: p in core.sessions && p != peer ==> core'.sessions[p] == core.sessions[p]
    requires Sending(core', peer) ==>
               || (Sending(core, peer) && SendingKey(core', peer) == SendingKey(core, peer))
               || (SendingKey(core', peer).ChainStart? && SendingKey(core', peer).dh == DiffieHellman(newPair, their))
    ensures KeysOk(core', log)
  {
    assert forall p :: p != peer ==> (Sending(core', p) <==> Sending(core, p));
    assert forall p :: p != peer && Sending(core, p) ==> SendingKey(core', p) == SendingKey(core, p);
    if Sending(core', peer) && !(Sending(core, peer) && SendingKey(core', peer) == SendingKey(core, peer)) {
      assert Mentions(Origin(SendingKey(core', peer)), newPair);
    }
  }

  lemma DroppingKeepsKeys(core: Core, core': Core, log: set<Envelope>)
    requires KeysOk(core, log)
    requires forall p :: p in core'.sessions ==> p in core.sessions && core'.sessions[p] == core.sessions[p]
    ensures KeysOk(core', log)
  {
    assert forall p :: Sending(core', p) ==> Sending(core, p) && SendingKey(core', p) == SendingKey(core, p);
  }

  /** Decryption never moves a sending chain except by starting a new one. */
  lemma DecryptSending(s: SessionState, h: RatchetHeader, c: Ciphertext, aad: Bytes, newPair: Key32)
    ensures var s' := Decrypt(s, h, c, aad, newPair).0;
            s'.sendingChainKey == s.sendingChainKey ||
            (s'.sendingChainKey.Some? && s'.sendingChainKey.value.ChainStart?
             && s'.sendingChainKey.value.dh == DiffieHellman(newPair, h.ratchetKey))
  {}

  lemma OpeningKeepsKeys(core: Core, identity: Key32, peer: UserId, e: Envelope, newPair: Key32, log: set<Envelope>)
    requires KeysOk(core, log) && NewPair(core, log, newPair) && Opened(core, identity, peer, e, newPair).Success?
    ensures KeysOk(Opened(core, identity, peer, e, newPair).value.0, log)
  {
    var core' := Opened(core, identity, peer, e, newPair).value.0;
    if peer in core.sessions {
      DecryptSending(core.sessions[peer].ratchet, e.header.ratchet, e.ciphertext, EnvelopeAad(e), newPair);
    } else {
      DecryptSending(CreateBobSession(core, identity, e.header).value, e.header.ratchet, e.ciphertext, EnvelopeAad(e),
                     newPair);
    }
    hide Decrypt;
    NewChainKeepsKeys(core, core', peer, log, newPair, e.header.ratchet.ratchetKey);
  }
}
