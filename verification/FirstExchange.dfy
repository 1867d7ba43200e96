/** The first envelopes of a session, from one client's calls to the other's: what
    the initiator seals is what the responder opens. */
module FirstExchange {
  import opened Wire
  import opened KeyAlgebra
  import opened X3dh
  import opened Ratchet
  import opened Outbox
  import opened PrekeyStores
  import opened ClientSpec
  import opened ClientInvariant
  import opened ClientKeys
  import Runs = ClientRuns
  import opened ClientWitnesses
  import opened DeliverySpec
  import opened DeliveryNode

  /** The initiator's session as `InitSession` installs it. */
  predicate JustStarted(s: PeerSession, identity: Key32, bundle: Bundle, ephemeral: Key32, newPair: Key32)
  {
    && AliceInitiate(identity, bundle, ephemeral).Success?
    && s.ratchet == InitializeAlice(AliceInitiate(identity, bundle, ephemeral).value, bundle.signedPrekey, newPair)
    && s.first == Some(FirstHeader(ephemeral, bundle.signedPrekeyId,
                                   match bundle.oneTimePrekey case Some(k) => Some(k.0) case None => None))
  }

  /** The responder holds the private halves the bundle names, and has no session yet. */
  predicate Answers(core: Core, identity: Key32, peer: UserId, bundle: Bundle)
  {
    && identity == bundle.identityKey && peer !in core.sessions
    && FindSpk(Held(core.spks), bundle.signedPrekeyId) == Some(SignedPrekey(bundle.signedPrekeyId, bundle.signedPrekey))
    && (bundle.oneTimePrekey.Some? ==>
          bundle.oneTimePrekey.value.0 in core.opks.keys
          && core.opks.keys[bundle.oneTimePrekey.value.0] == bundle.oneTimePrekey.value.1)
  }

  /** Both sides derive one secret, and with it one chain. */
  lemma SameSecret(core: Core, identity: Key32, peer: UserId, bundle: Bundle, aliceIdentity: Key32, ephemeral: Key32,
                   h: MessageHeader)
    requires Answers(core, identity, peer, bundle) && AliceInitiate(aliceIdentity, bundle, ephemeral).Success?
    requires h.PrekeyHeader? && h.identityKey == aliceIdentity && h.ephemeralKey == ephemeral
    requires h.signedPrekeyId == bundle.signedPrekeyId
    requires h.oneTimePrekeyId == match bundle.oneTimePrekey case Some(k) => Some(k.0) case None => None
    ensures CreateBobSession(core, identity, h)
            == Success(InitializeBob(AliceInitiate(aliceIdentity, bundle, ephemeral).value, bundle.signedPrekey))
  {
    DiffieHellmanCommutes(aliceIdentity, bundle.signedPrekey);
    DiffieHellmanCommutes(ephemeral, bundle.identityKey);
    DiffieHellmanCommutes(ephemeral, bundle.signedPrekey);
    if bundle.oneTimePrekey.Some? {
      DiffieHellmanCommutes(ephemeral, bundle.oneTimePrekey.value.1);
    }
    hide FindSpk, Held;
  }

  lemma FirstFrameOpens(secret: RootKey, bobPair: Key32, newPair: Key32, answerPair: Key32, text: Bytes, aad: Bytes)
    ensures
      var m := Encrypt(InitializeAlice(secret, bobPair, newPair), text, aad).value.1;
      Decrypt(InitializeBob(secret, bobPair), m.header, m.ciphertext, aad, answerPair).1 == Success(text)
  {
    DiffieHellmanCommutes(newPair, bobPair);
    hide AuthenticatedData;
  }

  /** For every pair of clients: the first envelope of a session opens to its text. */
  lemma FirstOpens(a: Core, aliceIdentity: Key32, alice: UserId, b: Core, bobIdentity: Key32, bob: UserId,
                   bundle: Bundle, ephemeral: Key32, newPair: Key32, answerPair: Key32, text: Bytes)
    requires bob in a.sessions && JustStarted(a.sessions[bob], aliceIdentity, bundle, ephemeral, newPair)
    requires Answers(b, bobIdentity, alice, bundle)
    ensures
      var sealed := AdvanceEncryption(a, aliceIdentity, bob, text);
      && sealed.Success? && sealed.value.1.version == PROTOCOL_VERSION
      && Opened(b, bobIdentity, alice, sealed.value.1, answerPair).Success?
      && Opened(b, bobIdentity, alice, sealed.value.1, answerPair).value.1 == text
  {
    var s := a.sessions[bob];
    var secret := AliceInitiate(aliceIdentity, bundle, ephemeral).value;
    var aad := ContextBytes(SessionContext(aliceIdentity, s));
    var e := AdvanceEncryption(a, aliceIdentity, bob, text).value.1;
    assert EnvelopeAad(e) == aad;
    SameSecret(b, bobIdentity, alice, bundle, aliceIdentity, ephemeral, e.header);
    FirstFrameOpens(secret, bundle.signedPrekey, newPair, answerPair, text, aad);
    hide AliceInitiate, ContextBytes, CreateBobSession, Decrypt, InitializeBob, Answers;
  }

  // -- Two installations that exchange their first envelopes -----------------------

  /** Bob's bundle: his identity, his signed prekey number 0, no one-time prekey. */
  function BobsBundle(identity: Key32, pair: Key32): (b: Bundle)
  {
    Bundle(identity, pair, 0, Signature(identity, pair), None)
  }

  function BobsRun(pair: Key32): (evs: seq<Runs.Event>)
  {
    [Runs.DoRegister(SignedPrekey(0, pair), map[], 0, true)]
  }

  /** A message ID as text: 36 hexadecimal digits and dashes. */
  predicate IsIdText(id: Bytes)
  {
    |id| == 36 && forall i :: 0 <= i < 36 ==> 48 <= id[i] <= 57 || 97 <= id[i] <= 102 || id[i] == 45
  }

  /** The text of a read receipt for one message: the list of its ID, in JSON. */
  function ReceiptText(id: Bytes): (text: Bytes)
    requires IsIdText(id)
    ensures |text| == 40
  {
    [91, 34] + id + [34, 93]
  }

  /** What the client lets a user send. */
  predicate IsMessageText(text: Bytes) { text != [] && (|text| + 18) / 3 * 4 <= MAX_CIPHERTEXT_BYTES }

  /** Alice starts a session with Bob, sends a receipt, and reuses its ID for a message. */
  function AlicesRun(bundle: Bundle, ephemeral: Key32, newPair: Key32, receipt: Bytes, text: Bytes)
    : (evs: seq<Runs.Event>)
  {
    [Runs.DoInitSession(2, bundle, ephemeral, newPair, 0, true), Runs.DoEncryptReceipt(2, 7, receipt, true),
     Runs.DoConfirmReceiptSent(7, true), Runs.DoEncryptMessage(2, 7, text, true)]
  }

  lemma BobReady(identity: Key32, pair: Key32)
    ensures Runs.PermittedRun(identity, BobsRun(pair))
    ensures var c := Runs.Run(identity, BobsRun(pair)).c;
            && c.identity == identity && Answers(c.mem.core, identity, 1, BobsBundle(identity, pair))
            && c.mem.processed == c.disk.processed == map[] && c.mem.core.sessions == map[]
            && c.disk.outbox == [] && Runs.Run(identity, BobsRun(pair)).log == {}
  {
    var ev := BobsRun(pair)[0];
    assert [] + [ev] == BobsRun(pair);
    Extended(identity, [], ev);
    var c := Runs.Run(identity, BobsRun(pair)).c;
    assert Held(c.mem.core.spks) == [SignedPrekey(0, pair)];
  }

  function AliceStart(identity: Key32, bundle: Bundle, ephemeral: Key32, newPair: Key32): (c: Client)
  {
    InitSession(Fresh(identity), 2, bundle, ephemeral, newPair, 0, true).0
  }

  /** What one call leaves, on an empty outbox. */
  lemma SealsAlone(c: Client, receipt: bool, text: Bytes)
    requires 2 in c.mem.core.sessions && AdvanceEncryption(c.mem.core, c.identity, 2, text).Success?
             && IsMessageText(text)
    requires c.mem.outbox == c.disk.outbox == []
    ensures
      var (core', e) := AdvanceEncryption(c.mem.core, c.identity, 2, text).value;
      var item := if receipt then ReadReceipt(2, 7, e) else Message(2, 7, e);
      var (c', r) := if receipt then EncryptReadReceipt(c, 2, 7, text, true) else EncryptMessage(c, 2, 7, text, true);
      && r == Success(item) && c'.mem.outbox == c'.disk.outbox == [item] && c'.mem.core == core'
         && c'.identity == c.identity
  {
    hide AdvanceEncryption;
    assert TotalLength([]) == 0;
    assert FirstMessageTo([], 2).None?;
  }

  lemma ReceiptRetired(c: Client, e: Envelope)
    requires c.mem.outbox == c.disk.outbox == [ReadReceipt(2, 7, e)]
    ensures var c' := ConfirmReceiptSent(c, 7, true).0;
            c'.mem.outbox == c'.disk.outbox == [] && c'.mem.core == c.mem.core && c'.identity == c.identity
  {
    assert ReceiptIndex(c.mem.outbox, 7) == Some(0);
    assert RemoveAt(c.mem.outbox, 0) == [];
    assert c.disk.outbox[1..] == [] && DeleteId([], 7) == [];
    assert DeleteId(c.disk.outbox, 7) == DeleteId(c.disk.outbox[1..], 7);
  }

  /** Sealing moves the session on and leaves it able to seal again. */
  lemma SealsTwice(core: Core, identity: Key32, bundle: Bundle, ephemeral: Key32, newPair: Key32, one: Bytes,
                   two: Bytes)
    requires 2 in core.sessions && JustStarted(core.sessions[2], identity, bundle, ephemeral, newPair)
    ensures
      var first := AdvanceEncryption(core, identity, 2, one);
      && first.Success? && 2 in first.value.0.sessions
      && AdvanceEncryption(first.value.0, identity, 2, two).Success?
      && AdvanceEncryption(first.value.0, identity, 2, two).value.1.version == PROTOCOL_VERSION
  {
    hide AliceInitiate, ContextBytes, AuthenticatedData;
  }

  /** Alice's two items under one ID, both at some time durable. */
  lemma AliceReuses(identity: Key32, bundle: Bundle, ephemeral: Key32, newPair: Key32, one: Bytes, two: Bytes)
    returns (receipt: Envelope, message: Envelope)
    requires AliceInitiate(identity, bundle, ephemeral).Success? && IsMessageText(one) && IsMessageText(two)
    ensures Runs.PermittedRun(identity, AlicesRun(bundle, ephemeral, newPair, one, two))
    ensures var log := Runs.Run(identity, AlicesRun(bundle, ephemeral, newPair, one, two)).log;
            ReadReceipt(2, 7, receipt) in log && Message(2, 7, message) in log
    ensures message.version == PROTOCOL_VERSION
    ensures var c := AliceStart(identity, bundle, ephemeral, newPair);
            && 2 in c.mem.core.sessions && JustStarted(c.mem.core.sessions[2], identity, bundle, ephemeral, newPair)
            && AdvanceEncryption(c.mem.core, identity, 2, one).Success?
            && receipt == AdvanceEncryption(c.mem.core, identity, 2, one).value.1
  {
    hide Runs.Run, Runs.PermittedRun, JustStarted, AliceInitiate, AliceStart, AdvanceEncryption, EncryptReadReceipt,
         EncryptMessage, ConfirmReceiptSent, IsMessageText;
    var evs, c := AlicesRun(bundle, ephemeral, newPair, one, two), AliceStart(identity, bundle, ephemeral, newPair);
    var e1, e2, e3 := [evs[0]], [evs[0]] + [evs[1]], [evs[0]] + [evs[1]] + [evs[2]];
    assert e3 + [evs[3]] == evs;
    AliceBegins(identity, bundle, ephemeral, newPair);
    Started(identity, bundle, ephemeral, newPair);
    SealsTwice(c.mem.core, identity, bundle, ephemeral, newPair, one, two);
    receipt := AdvanceEncryption(c.mem.core, identity, 2, one).value.1;
    Extended(identity, e1, evs[1]);
    SealsAlone(c, true, one);
    var c1 := Runs.Run(identity, e2).c;
    Extended(identity, e2, evs[2]);
    ReceiptRetired(c1, receipt);
    var c2 := Runs.Run(identity, e3).c;
    message := AdvanceEncryption(c2.mem.core, identity, 2, two).value.1;
    Extended(identity, e3, evs[3]);
    SealsAlone(c2, false, two);
  }

  function AliceBegan(bundle: Bundle, ephemeral: Key32, newPair: Key32): (evs: seq<Runs.Event>)
  {
    [Runs.DoInitSession(2, bundle, ephemeral, newPair, 0, true)]
  }

  lemma AliceBegins(identity: Key32, bundle: Bundle, ephemeral: Key32, newPair: Key32)
    ensures var evs := AliceBegan(bundle, ephemeral, newPair);
            Runs.PermittedRun(identity, evs)
              && Runs.Run(identity, evs).c == AliceStart(identity, bundle, ephemeral, newPair)
  {
    var ev := AliceBegan(bundle, ephemeral, newPair)[0];
    assert [] + [ev] == [ev];
    Extended(identity, [], ev);
    hide InitSession;
  }

  lemma Started(identity: Key32, bundle: Bundle, ephemeral: Key32, newPair: Key32)
    requires AliceInitiate(identity, bundle, ephemeral).Success?
    ensures var c := AliceStart(identity, bundle, ephemeral, newPair);
            && c.identity == identity && c.mem.outbox == c.disk.outbox == [] && 2 in c.mem.core.sessions
            && JustStarted(c.mem.core.sessions[2], identity, bundle, ephemeral, newPair)
  {}

  /** Bob is handed Alice's receipt and then her message under the same ID: he
      acknowledges the message and never stores it. */
  lemma SharedIdLosesMessage(alice: Key32, bob: Key32, bobPair: Key32, ephemeral: Key32, newPair: Key32,
                             answerPair: Key32, id: Bytes, text: Bytes)
    returns (receipt: Envelope, message: Envelope)
    requires IsIdText(id) && IsMessageText(text)
    ensures var evs := AlicesRun(BobsBundle(bob, bobPair), ephemeral, newPair, ReceiptText(id), text);
            Runs.PermittedRun(alice, evs)
            && ReadReceipt(2, 7, receipt) in Runs.Run(alice, evs).log
               && Message(2, 7, message) in Runs.Run(alice, evs).log
    ensures Runs.PermittedRun(bob, BobsRun(bobPair))
    ensures
      var n := Node(Runs.Run(bob, BobsRun(bobPair)).c, {}, [], {}, {});
      var n1 := ProcessReceipt(n, Delivery(2, 1, 7, receipt), true, answerPair, 0, true, true, true);
      var n2 := ProcessInbound(n1, Delivery(2, 1, 7, message), answerPair, 0, true, true, true, true);
      7 in n2.toAck && n2.history == []
  {
    var bundle, list := BobsBundle(bob, bobPair), ReceiptText(id);
    assert AliceInitiate(alice, bundle, ephemeral).Success?;
    receipt, message := AliceReuses(alice, bundle, ephemeral, newPair, list, text);
    BobReady(bob, bobPair);
    var a, b := AliceStart(alice, bundle, ephemeral, newPair), Runs.Run(bob, BobsRun(bobPair)).c;
    hide Runs.Run, Runs.PermittedRun, AliceStart, Answers, JustStarted, ReceiptText, IsIdText, IsMessageText, AlicesRun;
    FirstOpens(a.mem.core, alice, 1, b.mem.core, bob, 2, bundle, ephemeral, newPair, answerPair, list);
    OpensToText(b, Delivery(2, 1, 7, receipt), answerPair, list);
    hide ProcessReceipt, ProcessInbound;
    ReceiptSwallowsMessage(Node(b, {}, [], {}, {}), Delivery(2, 1, 7, receipt), Delivery(2, 1, 7, message), answerPair,
                           0);
  }

  /** Alice's first message to Bob, under ID 7, and a row Bob already has under that ID, from
      someone else or of his own: he acknowledges the message and does not store it. */
  lemma TakenIdLosesMessage(alice: Key32, bob: Key32, bobPair: Key32, ephemeral: Key32, newPair: Key32,
                            answerPair: Key32, text: Bytes, other: Row)
    returns (message: Envelope)
    requires IsMessageText(text) && other.id == 7 && (other.peer != 1 || other.direction.Sent?)
    ensures var evs := AliceBegan(BobsBundle(bob, bobPair), ephemeral, newPair)
                       + [Runs.DoEncryptMessage(2, 7, text, true)];
            Runs.PermittedRun(alice, evs) && Message(2, 7, message) in Runs.Run(alice, evs).log
    ensures Runs.PermittedRun(bob, BobsRun(bobPair))
    ensures
      var n := Node(Runs.Run(bob, BobsRun(bobPair)).c, {}, [other], {}, {});
      var n' := ProcessInbound(n, Delivery(2, 1, 7, message), answerPair, 0, true, true, true, true);
      7 in n'.toAck && !HasRow(n'.history, 1, 7)
  {
    hide Runs.Run, Runs.PermittedRun, AliceStart, AliceBegan, Answers, JustStarted, AdvanceEncryption, IsMessageText,
         Opened, BobsRun, DecryptToText;
    var bundle := BobsBundle(bob, bobPair);
    message := AliceSends(alice, bundle, ephemeral, newPair, text);
    BobReady(bob, bobPair);
    var a, b := AliceStart(alice, bundle, ephemeral, newPair), Runs.Run(bob, BobsRun(bobPair)).c;
    FirstOpens(a.mem.core, alice, 1, b.mem.core, bob, 2, bundle, ephemeral, newPair, answerPair, text);
    OpensToText(b, Delivery(2, 1, 7, message), answerPair, text);
    hide ProcessInbound;
    OtherRowSwallowsMessage(Node(b, {}, [other], {}, {}), Delivery(2, 1, 7, message), answerPair, 0, other);
  }

  lemma AliceSends(identity: Key32, bundle: Bundle, ephemeral: Key32, newPair: Key32, text: Bytes)
    returns (message: Envelope)
    requires bundle.signature == Signature(bundle.identityKey, bundle.signedPrekey) && IsMessageText(text)
    ensures var evs := AliceBegan(bundle, ephemeral, newPair) + [Runs.DoEncryptMessage(2, 7, text, true)];
            Runs.PermittedRun(identity, evs) && Message(2, 7, message) in Runs.Run(identity, evs).log
    ensures var c := AliceStart(identity, bundle, ephemeral, newPair);
            && 2 in c.mem.core.sessions && JustStarted(c.mem.core.sessions[2], identity, bundle, ephemeral, newPair)
            && AdvanceEncryption(c.mem.core, identity, 2, text).Success?
            && message == AdvanceEncryption(c.mem.core, identity, 2, text).value.1
  {
    assert AliceInitiate(identity, bundle, ephemeral).Success?;
    hide Runs.Run, Runs.PermittedRun, AliceStart, AliceBegan, AliceInitiate, JustStarted, AdvanceEncryption,
         EncryptMessage, IsMessageText;
    AliceBegins(identity, bundle, ephemeral, newPair);
    Started(identity, bundle, ephemeral, newPair);
    var c := AliceStart(identity, bundle, ephemeral, newPair);
    SealsTwice(c.mem.core, identity, bundle, ephemeral, newPair, text, text);
    message := AdvanceEncryption(c.mem.core, identity, 2, text).value.1;
    Extended(identity, AliceBegan(bundle, ephemeral, newPair), Runs.DoEncryptMessage(2, 7, text, true));
    SealsAlone(c, false, text);
  }

  /** With an empty ledger and a willing store, an envelope that opens is handed on. */
  lemma OpensToText(c: Client, d: Delivery, newPair: Key32, text: Bytes)
    requires c.mem.processed == c.disk.processed == map[] && d.envelope.version == PROTOCOL_VERSION
    requires Opened(c.mem.core, c.identity, d.sender, d.envelope, newPair).Success?
    requires Opened(c.mem.core, c.identity, d.sender, d.envelope, newPair).value.1 == text
    ensures var (c', r) := DecryptToText(c, d.sender, d.id, d.envelope, newPair, 0, true, true);
            && r == Pending(text)
            && c'.mem.core == Opened(c.mem.core, c.identity, d.sender, d.envelope, newPair).value.0
            && c'.disk.outbox == c.disk.outbox
            && c'.mem.processed == c'.disk.processed == map[(d.sender, d.id) := Processed(Some(text), 0)]
  {
    assert Pruned(map[], 0) == map[];
    hide Opened;
  }

  // -- A failed decryption that leaves the pruning behind ----------------------------

  function Stray(): (e: Envelope)
  {
    Envelope(PROTOCOL_VERSION, PlainHeader(RatchetHeader(0, 0, 0)),
             Sealed(MessageKey(ChainStart(Agreed([]), DhOutput(0, 0))), [], []))
  }

  const LATE := 32 * DAY

  /** What Alice seals first, and what Bob makes of it. */
  lemma FirstSealed(alice: Key32, bob: Key32, bobPair: Key32, ephemeral: Key32, newPair: Key32, answerPair: Key32,
                    core: Core, text: Bytes)
    returns (e: Envelope)
    requires Answers(core, bob, 1, BobsBundle(bob, bobPair)) && core.sessions == map[]
    ensures e.version == PROTOCOL_VERSION && Opened(core, bob, 1, e, answerPair).Success?
    ensures Opened(core, bob, 1, e, answerPair).value.1 == text
    ensures OnlyChain(Opened(core, bob, 1, e, answerPair).value.0, answerPair, newPair)
  {
    var bundle, c := BobsBundle(bob, bobPair), AliceStart(alice, BobsBundle(bob, bobPair), ephemeral, newPair);
    Started(alice, bundle, ephemeral, newPair);
    SealsTwice(c.mem.core, alice, bundle, ephemeral, newPair, text, []);
    e := AdvanceEncryption(c.mem.core, alice, 2, text).value.1;
    assert e.header.PrekeyHeader? && e.header.ratchet.ratchetKey == newPair;
    hide AliceStart, Answers, JustStarted, AdvanceEncryption, Opened;
    FirstOpens(c.mem.core, alice, 1, core, bob, 2, bundle, ephemeral, newPair, answerPair, text);
    AnswersWith(core, bob, e, answerPair);
  }

  /** Bob opened Alice's first envelope at time 0. A stray envelope arrives 32 days
      later: it fails, and the ledger row is gone on both sides. */
  lemma DecryptErrorReached(alice: Key32, bob: Key32, bobPair: Key32, ephemeral: Key32, newPair: Key32,
                            answerPair: Key32, pair: Key32, text: Bytes)
    returns (e: Envelope)
    requires pair != answerPair && pair != newPair && IsMessageText(text)
    ensures
      var evs := BobsRun(bobPair) + [Runs.DoDecrypt(1, 7, e, answerPair, 0, true, true)];
      Runs.PermittedRun(bob, evs)
      && var h := Runs.Run(bob, evs);
         var last := Runs.DoDecrypt(3, 9, Stray(), pair, LATE, true, true);
         && Runs.Permitted(h.c, h.log, last) && Runs.Step(h.c, h.log, last).1 && Runs.Step(h.c, h.log, last).0 != h.c
  {
    hide Runs.Run, Runs.PermittedRun, Answers, DecryptToText, Opened, BobsRun, IsMessageText;
    BobReady(bob, bobPair);
    var h0 := Runs.Run(bob, BobsRun(bobPair));
    e := FirstSealed(alice, bob, bobPair, ephemeral, newPair, answerPair, h0.c.mem.core, text);
    Extended(bob, BobsRun(bobPair), Runs.DoDecrypt(1, 7, e, answerPair, 0, true, true));
    OpensToText(h0.c, Delivery(2, 1, 7, e), answerPair, text);
    var h := Runs.Run(bob, BobsRun(bobPair) + [Runs.DoDecrypt(1, 7, e, answerPair, 0, true, true)]);
    StrayFails(h.c, pair, text);
    StillNew(h.c.mem.core, h.log, answerPair, newPair, pair);
  }

  /** The one session Bob then has can only send on a chain of the two newest keys. */
  predicate OnlyChain(core: Core, mine: Key32, theirs: Key32)
  {
    core.sessions.Keys == {1}
    && var k := core.sessions[1].ratchet.sendingChainKey;
       k.None? || (k.value.ChainStart? && k.value.dh == DiffieHellman(mine, theirs))
  }

  lemma AnswersWith(core: Core, identity: Key32, e: Envelope, answerPair: Key32)
    requires core.sessions == map[] && e.header.PrekeyHeader? && Opened(core, identity, 1, e, answerPair).Success?
    ensures OnlyChain(Opened(core, identity, 1, e, answerPair).value.0, answerPair, e.header.ratchet.ratchetKey)
  {
    hide EnvelopeAad, Decrypt, FindSpk, BobRespond, Without;
    var bob := CreateBobSession(core, identity, e.header);
    DecryptSending(bob.value, e.header.ratchet, e.ciphertext, EnvelopeAad(e), answerPair);
  }

  lemma StillNew(core: Core, log: set<PendingOutbound>, mine: Key32, theirs: Key32, pair: Key32)
    requires OnlyChain(core, mine, theirs) && log == {} && pair != mine && pair != theirs
    ensures NewPair(core, Runs.LogEnvelopes(log), pair)
  {}

  lemma StrayFails(c: Client, pair: Key32, text: Bytes)
    requires 3 !in c.mem.core.sessions && c.mem.processed == c.disk.processed == map[(1, 7) := Processed(Some(text), 0)]
    ensures var (c', r) := DecryptToText(c, 3, 9, Stray(), pair, LATE, true, true);
            r.Failed? && c' != c
  {
    assert Pruned(c.mem.processed, LATE) == map[];
    assert (1, 7) in c.mem.processed;
  }
}
