/** One party's Double Ratchet session, following sections 3.3 to 3.5 of
    Signal's "The Double Ratchet Algorithm". The functions say what each
    operation means on values; class `Session` updates its fields step by step,
    with snapshot and rollback, and is proved to compute the same thing. */
module Ratchet {
  import opened Wire
  import opened KeyAlgebra

  const MAX_SKIP := 1000

  type SkippedKeys = map<(Key32, U32), MessageKey>

  datatype SessionState = SessionState(
    rootKey: RootKey,
    ourRatchet: Key32,
    theirRatchetKey: Option<Key32>,
    sendingChainKey: Option<ChainKey>,
    receivingChainKey: Option<ChainKey>,
    sendCount: U32,
    recvCount: U32,
    previousSendCount: U32,
    skipped: SkippedKeys)

  datatype RatchetMessage = RatchetMessage(header: RatchetHeader, ciphertext: Ciphertext)

  datatype RatchetError =
    | MessageCounterExhausted
    | NoSession
    | SkippedKeyLimitExceeded
    | DecryptionFailed

  /** Initiator: the X3DH secret, the responder's signed prekey and a fresh key pair. */
  function InitializeAlice(secret: RootKey, bobRatchet: Key32, newPair: Key32): (s: SessionState)
  {
    var dh := DiffieHellman(newPair, bobRatchet);
    SessionState(NextRoot(secret, dh), newPair, Some(bobRatchet), Some(ChainStart(secret, dh)), None, 0, 0, 0, map[])
  }

  /** Responder: the signed prekey doubles as the first ratchet key pair. */
  function InitializeBob(secret: RootKey, bobRatchet: Key32): (s: SessionState)
  {
    SessionState(secret, bobRatchet, None, None, None, 0, 0, 0, map[])
  }

  function Encrypt(s: SessionState, plaintext: Bytes, envelopeAad: Bytes)
    : (r: Result<(SessionState, RatchetMessage), RatchetError>)
  {
    if s.sendCount + 1 >= U32_LIMIT then Failure(MessageCounterExhausted)
    else if s.sendingChainKey.None? then Failure(NoSession)
    else
      var ck := s.sendingChainKey.value;
      var header := RatchetHeader(s.ourRatchet, s.previousSendCount, s.sendCount);
      Success((s.(sendingChainKey := Some(NextChain(ck)), sendCount := s.sendCount + 1),
               RatchetMessage(header, Sealed(MessageKey(ck), plaintext, AuthenticatedData(envelopeAad, header)))))
  }

  /** `m` with the message keys numbered `current` up to `until` of a chain now at `current`. */
  function StoreWindow(m: SkippedKeys, their: Key32, ck: ChainKey, current: U32, until: U32): (r: SkippedKeys)
    decreases until
  {
    if until <= current then m
    else
      StoreWindow(m, their, ck, current, until - 1)[(their, until - 1) := MessageKey(Advance(ck, until - 1 - current))]
  }

  lemma {:induction false} StoreWindowLookup(m: SkippedKeys, their: Key32, ck: ChainKey, current: U32, until: U32,
                                             k: (Key32, U32))
    ensures k in StoreWindow(m, their, ck, current, until) <==> k in m || (k.0 == their && current <= k.1 < until)
    ensures k in StoreWindow(m, their, ck, current, until) ==>
              StoreWindow(m, their, ck, current, until)[k] ==
              if k.0 == their && current <= k.1 < until then MessageKey(Advance(ck, k.1 - current)) else m[k]
    decreases until
  {
    if current < until {
      StoreWindowLookup(m, their, ck, current, until - 1, k);
    }
  }

  lemma {:induction false} StoreWindowSize(m: SkippedKeys, their: Key32, ck: ChainKey, current: U32, until: U32)
    requires forall i: U32 :: current <= i < until ==> (their, i) !in m
    ensures |StoreWindow(m, their, ck, current, until)| == |m| + if current < until then until - current else 0
    decreases until
  {
    if current < until {
      StoreWindowSize(m, their, ck, current, until - 1);
      StoreWindowLookup(m, their, ck, current, until - 1, (their, until - 1));
    }
  }

  lemma {:induction false} StoreWindowSizeAtMost(m: SkippedKeys, their: Key32, ck: ChainKey, current: U32, until: U32)
    requires current <= until
    ensures |StoreWindow(m, their, ck, current, until)| <= |m| + until - current
    decreases until
  {
    if current < until {
      StoreWindowSizeAtMost(m, their, ck, current, until - 1);
    }
  }

  function SkipMessageKeys(s: SessionState, current: U32, until: U32): (r: Result<SessionState, RatchetError>)
  {
    if until <= current then Success(s)
    else if until - current + |s.skipped| > MAX_SKIP then Failure(SkippedKeyLimitExceeded)
    else if s.theirRatchetKey.None? || s.receivingChainKey.None? then Success(s)
    else
      var their, ck := s.theirRatchetKey.value, s.receivingChainKey.value;
      Success(s.(skipped := StoreWindow(s.skipped, their, ck, current, until),
                 receivingChainKey := Some(Advance(ck, until - current))))
  }

  /** The Diffie-Hellman step to a new key of the peer; `newPair` is our next key pair. */
  function DhStep(s: SessionState, their: Key32, newPair: Key32): (r: SessionState)
  {
    var dh := DiffieHellman(s.ourRatchet, their);
    var dh2 := DiffieHellman(newPair, their);
    var root := NextRoot(s.rootKey, dh);
    s.(rootKey := NextRoot(root, dh2),
       theirRatchetKey := Some(their),
       receivingChainKey := Some(ChainStart(s.rootKey, dh)),
       recvCount := 0,
       previousSendCount := s.sendCount,
       sendCount := 0,
       ourRatchet := newPair,
       sendingChainKey := Some(ChainStart(root, dh2)))
  }

  /** Close the old receiving chain and step, if the header shows a new key. */
  function EnterChain(s: SessionState, h: RatchetHeader, newPair: Key32): (r: Result<SessionState, RatchetError>)
  {
    if s.theirRatchetKey == Some(h.ratchetKey) then Success(s)
    else
      var closed := if s.receivingChainKey.Some?
                    then SkipMessageKeys(s, s.recvCount, h.previousChainLength) else Success(s);
      if closed.Failure? then closed else Success(DhStep(closed.value, h.ratchetKey, newPair))
  }

  function TryDecrypt(s: SessionState, h: RatchetHeader, c: Ciphertext, envelopeAad: Bytes, newPair: Key32)
    : (r: Result<(SessionState, Bytes), RatchetError>)
  {
    var entered := EnterChain(s, h, newPair);
    if entered.Failure? then Failure(entered.error) else
    var caughtUp := SkipMessageKeys(entered.value, entered.value.recvCount, h.messageNumber);
    if caughtUp.Failure? then Failure(caughtUp.error) else
    var t := caughtUp.value;
    if t.receivingChainKey.None? then Failure(NoSession) else
    var ck := t.receivingChainKey.value;
    var text := AeadOpen(MessageKey(ck), c, AuthenticatedData(envelopeAad, h));
    if text.None? then Failure(DecryptionFailed)
    else if h.messageNumber + 1 >= U32_LIMIT then Failure(MessageCounterExhausted)
    else Success((t.(receivingChainKey := Some(NextChain(ck)), recvCount := h.messageNumber + 1), text.value))
  }

  /** Decryption as a transaction: a failure leaves the session as it was. */
  function Decrypt(s: SessionState, h: RatchetHeader, c: Ciphertext, envelopeAad: Bytes, newPair: Key32)
    : (r: (SessionState, Result<Bytes, RatchetError>))
  {
    var id := (h.ratchetKey, h.messageNumber);
    if id in s.skipped then
      var text := AeadOpen(s.skipped[id], c, AuthenticatedData(envelopeAad, h));
      if text.Some? then (s.(skipped := s.skipped - {id}), Success(text.value))
      else (s, Failure(DecryptionFailed))
    else
      var t := TryDecrypt(s, h, c, envelopeAad, newPair);
      if t.Success? then (t.value.0, Success(t.value.1)) else (s, Failure(t.error))
  }

  class Session {
    var rootKey: RootKey
    var ourRatchet: Key32
    var theirRatchetKey: Option<Key32>
    var sendingChainKey: Option<ChainKey>
    var receivingChainKey: Option<ChainKey>
    var sendCount: U32
    var recvCount: U32
    var previousSendCount: U32
    var skipped: SkippedKeys

    function View(): (s: SessionState)
      reads this
    {
      SessionState(rootKey, ourRatchet, theirRatchetKey, sendingChainKey, receivingChainKey,
                   sendCount, recvCount, previousSendCount, skipped)
    }

    constructor FromState(s: SessionState)
      ensures View() == s
    {
      rootKey, ourRatchet, theirRatchetKey := s.rootKey, s.ourRatchet, s.theirRatchetKey;
      sendingChainKey, receivingChainKey := s.sendingChainKey, s.receivingChainKey;
      sendCount, recvCount, previousSendCount := s.sendCount, s.recvCount, s.previousSendCount;
      skipped := s.skipped;
    }

    method Restore(s: SessionState)
      modifies this
      ensures View() == s
    {
      rootKey, ourRatchet, theirRatchetKey := s.rootKey, s.ourRatchet, s.theirRatchetKey;
      sendingChainKey, receivingChainKey := s.sendingChainKey, s.receivingChainKey;
      sendCount, recvCount, previousSendCount := s.sendCount, s.recvCount, s.previousSendCount;
      skipped := s.skipped;
    }

    method EncryptMessage(plaintext: Bytes, envelopeAad: Bytes) returns (r: Result<RatchetMessage, RatchetError>)
      modifies this
      ensures
        match Encrypt(old(View()), plaintext, envelopeAad)
        case Success(out) => View() == out.0 && r == Success(out.1)
        case Failure(e) => View() == old(View()) && r == Failure(e)
    {
      if sendCount + 1 >= U32_LIMIT {
        return Failure(MessageCounterExhausted);
      }
      if sendingChainKey.None? {
        return Failure(NoSession);
      }
      var ck := sendingChainKey.value;
      var header := RatchetHeader(ourRatchet, previousSendCount, sendCount);
      var ciphertext := Sealed(MessageKey(ck), plaintext, AuthenticatedData(envelopeAad, header));
      sendingChainKey := Some(NextChain(ck));
      sendCount := sendCount + 1;
      return Success(RatchetMessage(header, ciphertext));
    }

    method SkipKeys(current: U32, until: U32) returns (r: Result<(), RatchetError>)
      modifies this
      ensures
        match SkipMessageKeys(old(View()), current, until)
        case Success(s) => View() == s && r.Success?
        case Failure(e) => View() == old(View()) && r == Failure(e)
    {
      if until <= current {
        return Success(());
      }
      if until - current + |skipped| > MAX_SKIP {
        return Failure(SkippedKeyLimitExceeded);
      }
      if theirRatchetKey.None? || receivingChainKey.None? {
        return Success(());
      }
      var their, chainKey := theirRatchetKey.value, receivingChainKey.value;
      ghost var start := chainKey;
      var i := current;
      while i < until
        modifies `skipped
        invariant current <= i <= until
        invariant chainKey == Advance(start, i - current)
        invariant skipped == StoreWindow(old(skipped), their, start, current, i)
      {
        skipped := skipped[(their, i) := MessageKey(chainKey)];
        chainKey := NextChain(chainKey);
        i := i + 1;
      }
      receivingChainKey := Some(chainKey);
      return Success(());
    }

    method StepTo(their: Key32, newPair: Key32)
      modifies this
      ensures View() == DhStep(old(View()), their, newPair)
    {
      var dh := DiffieHellman(ourRatchet, their);
      var chain := ChainStart(rootKey, dh);
      rootKey := NextRoot(rootKey, dh);
      theirRatchetKey := Some(their);
      receivingChainKey := Some(chain);
      recvCount := 0;
      previousSendCount := sendCount;
      sendCount := 0;
      ourRatchet := newPair;
      var dh2 := DiffieHellman(ourRatchet, their);
      sendingChainKey := Some(ChainStart(rootKey, dh2));
      rootKey := NextRoot(rootKey, dh2);
    }

    /** Mutates as it goes; after a failure the fields hold whatever was reached. */
    method TryDecryptInner(h: RatchetHeader, c: Ciphertext, envelopeAad: Bytes, newPair: Key32)
      returns (r: Result<Bytes, RatchetError>)
      modifies this
      ensures
        match TryDecrypt(old(View()), h, c, envelopeAad, newPair)
        case Success(out) => View() == out.0 && r == Success(out.1)
        case Failure(e) => r == Failure(e)
    {
      if theirRatchetKey != Some(h.ratchetKey) {
        if receivingChainKey.Some? {
          var closed := SkipKeys(recvCount, h.previousChainLength);
          if closed.Failure? {
            return Failure(closed.error);
          }
        }
        StepTo(h.ratchetKey, newPair);
      }
      var caughtUp := SkipKeys(recvCount, h.messageNumber);
      if caughtUp.Failure? {
        return Failure(caughtUp.error);
      }
      if receivingChainKey.None? {
        return Failure(NoSession);
      }
      var ck := receivingChainKey.value;
      var text := AeadOpen(MessageKey(ck), c, AuthenticatedData(envelopeAad, h));
      if text.None? {
        return Failure(DecryptionFailed);
      }
      receivingChainKey := Some(NextChain(ck));
      if h.messageNumber + 1 >= U32_LIMIT {
        return Failure(MessageCounterExhausted);
      }
      recvCount := h.messageNumber + 1;
      return Success(text.value);
    }

    /** Snapshot, try, roll back: whatever the header asked for, a message that
        does not authenticate leaves every field as it was. */
    method DecryptMessage(h: RatchetHeader, c: Ciphertext, envelopeAad: Bytes, newPair: Key32)
      returns (r: Result<Bytes, RatchetError>)
      modifies this
      ensures (View(), r) == Decrypt(old(View()), h, c, envelopeAad, newPair)
      ensures r.Failure? ==> View() == old(View())
    {
      var id := (h.ratchetKey, h.messageNumber);
      if id in skipped {
        var key := skipped[id];
        skipped := skipped - {id};
        var text := AeadOpen(key, c, AuthenticatedData(envelopeAad, h));
        if text.None? {
          skipped := skipped[id := key];
          assert skipped == old(skipped);
          return Failure(DecryptionFailed);
        }
        return Success(text.value);
      }
      var snapshot := View();
      r := TryDecryptInner(h, c, envelopeAad, newPair);
      if r.Failure? {
        Restore(snapshot);
      }
    }
  }
}
