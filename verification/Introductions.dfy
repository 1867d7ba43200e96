/** First-message headers under the initiator's name: one that carries the initiator's
    identity key but was not made by the initiator opens nothing. */
module Introductions {
  import opened Wire
  import opened KeyAlgebra
  import opened X3dh
  import opened Outbox
  import opened PrekeyStores
  import opened ClientSpec
  import opened RatchetTranscript
  import Ratchet
  import Party = RatchetParty
  import Protocol = RatchetProtocol
  import Sessions = RatchetRuns

  function BundledId(bundle: Bundle): (id: Option<U32>)
  {
    match bundle.oneTimePrekey case Some(k) => Some(k.0) case None => None
  }

  /** A header that names a session's keys names those of this one. */
  predicate Introduces(x: Sessions.Setup, h: MessageHeader)
  {
    h.PrekeyHeader? ==>
      && h.identityKey == x.aliceIdentity && h.ephemeralKey == x.ephemeral
      && h.signedPrekeyId == x.bundle.signedPrekeyId && h.oneTimePrekeyId == BundledId(x.bundle)
  }

  /** The contexts the two clients seal under: the first envelope's, and all others'. */
  predicate OwnContext(x: Sessions.Setup, aad: Bytes)
  {
    || aad == ContextBytes(RatchetContext(PROTOCOL_VERSION))
    || aad == ContextBytes(PrekeyContext(PROTOCOL_VERSION, x.aliceIdentity, x.ephemeral, x.bundle.signedPrekeyId,
                                         BundledId(x.bundle)))
  }

  ghost predicate OwnContexts(x: Sessions.Setup, t: Transcript)
  {
    forall j, i :: 0 <= j < |t.chains| && 0 <= i < |t.chains[j]| ==> OwnContext(x, t.chains[j][i].envelopeAad)
  }

  lemma ContextsKept(x: Sessions.Setup, w: Protocol.World, ev: Protocol.Event)
    requires |w.t.keys| == |w.t.chains| >= 2 && OwnContexts(x, w.t)
    requires ev.Send? ==> OwnContext(x, ev.m.envelopeAad)
    ensures OwnContexts(x, Protocol.Apply(w, ev).t)
  {
    hide OwnContext, Ratchet.Encrypt, Party.Deliver, Protocol.IndexOf;
  }

  /** A first-message header in a context of the two clients is the initiator's. */
  lemma ContextTells(x: Sessions.Setup, e: Envelope)
    requires OwnContext(x, EnvelopeAad(e))
    ensures Introduces(x, e.header)
  {
    if e.header.PrekeyHeader? {
      var h := e.header;
      var own := PrekeyContext(e.version, h.identityKey, h.ephemeralKey, h.signedPrekeyId, h.oneTimePrekeyId);
      hide ContextBytes;
      if EnvelopeAad(e) == ContextBytes(RatchetContext(PROTOCOL_VERSION)) {
        ContextBytesInjective(own, RatchetContext(PROTOCOL_VERSION));
      } else {
        ContextBytesInjective(own,
                              PrekeyContext(PROTOCOL_VERSION, x.aliceIdentity, x.ephemeral, x.bundle.signedPrekeyId,
                                                 BundledId(x.bundle)));
      }
    }
  }

  function Framed(e: Envelope): (f: Frame) { Frame(e.header.ratchet, e.ciphertext, EnvelopeAad(e)) }

  /** What opens in a session just answered, under a secret the adversary cannot compute,
      was sealed by one of the two clients, in its own context. */
  lemma OpensInContext(x: Sessions.Setup, adversary: set<Key32>, t: Transcript, secret: RootKey, pair: Key32,
                       e: Envelope, newPair: Key32)
    requires t.Valid() && OwnContexts(x, t) && Deliverable(t, adversary, e.ciphertext) && !RootKnown(adversary, secret)
    requires Party.Deliver(Ratchet.InitializeBob(secret, pair), Framed(e), newPair).1.Success?
    ensures OwnContext(x, EnvelopeAad(e))
  {
    hide OwnContext, EnvelopeAad, AuthenticatedData, Party.Deliver, Party.Closed;
    var h := e.header.ratchet;
    Party.SteppedDelivery(Ratchet.InitializeBob(secret, pair), Framed(e), newPair);
    var chain := ChainStart(secret, DiffieHellman(pair, h.ratchetKey));
    assert e.ciphertext.key == MessageKey(Advance(chain, h.messageNumber));
    assert e.ciphertext.aad == AuthenticatedData(EnvelopeAad(e), h);
    AdvanceShape(chain, h.messageNumber);
    assert !MessageKeyKnown(adversary, e.ciphertext.key);
    var j, i :| t.HasMessage(j, i) && e.ciphertext == FrameOf(t, j, i).ciphertext;
    AuthenticatedDataInjective(EnvelopeAad(e), h, t.chains[j][i].envelopeAad, HeaderOf(t, j, i));
  }

  /** The secret a responder derives for the initiator's identity key stays unknown to
      whoever has neither that key nor the responder's signed prekey. */
  lemma ForeignSecretUnknown(adversary: set<Key32>, identity: Key32, pair: Key32, oneTime: Option<Key32>,
                             aliceIdentity: Key32, ephemeral: Key32)
    requires pair !in adversary && aliceIdentity !in adversary
    ensures !RootKnown(adversary, BobRespond(identity, pair, oneTime, aliceIdentity, ephemeral))
  {
    var ikm := BobRespond(identity, pair, oneTime, aliceIdentity, ephemeral).ikm;
    assert ikm[0] == DiffieHellman(pair, aliceIdentity);
  }

  /** The private halves of the signed prekeys are the client's alone. */
  ghost predicate RingSecret(core: Core, adversary: set<Key32>)
  {
    forall k :: k in Held(core.spks) ==> k.pair !in adversary
  }

  lemma {:induction false} FoundIsHeld(keys: seq<SignedPrekey>, id: U32)
    ensures FindSpk(keys, id).Some? ==> FindSpk(keys, id).value in keys && FindSpk(keys, id).value.keyId == id
  {
    if keys != [] {
      FoundIsHeld(keys[1..], id);
    }
  }

  /** Under the initiator's identity key, only the initiator's own header opens. */
  lemma ForeignHeaderOpensNothing(x: Sessions.Setup, adversary: set<Key32>, t: Transcript, core: Core, identity: Key32,
                                  e: Envelope, newPair: Key32)
    requires t.Valid() && OwnContexts(x, t) && Deliverable(t, adversary, e.ciphertext)
    requires x.aliceIdentity !in adversary && RingSecret(core, adversary)
    requires e.header.PrekeyHeader? && e.header.identityKey == x.aliceIdentity
    requires CreateBobSession(core, identity, e.header).Success?
    requires Party.Deliver(CreateBobSession(core, identity, e.header).value, Framed(e), newPair).1.Success?
    ensures Introduces(x, e.header)
  {
    var h := e.header;
    FoundIsHeld(Held(core.spks), h.signedPrekeyId);
    var pair := FindSpk(Held(core.spks), h.signedPrekeyId).value.pair;
    var oneTime := match h.oneTimePrekeyId case Some(id) => Some(core.opks.keys[id]) case None => None;
    hide BobRespond, Deliverable, Party.Deliver, OwnContext, OwnContexts, Introduces, FindSpk, Held;
    ForeignSecretUnknown(adversary, identity, pair, oneTime, h.identityKey, h.ephemeralKey);
    var secret := BobRespond(identity, pair, oneTime, h.identityKey, h.ephemeralKey);
    OpensInContext(x, adversary, t, secret, pair, e, newPair);
    ContextTells(x, e);
  }
}
