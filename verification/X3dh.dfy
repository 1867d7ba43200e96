/** Key agreement for the first message of a session. */
module X3dh {
  import opened Wire
  import opened KeyAlgebra

  /** An Ed25519 signature over a public key. */
  datatype Signature = Signature(signer: Key32, message: Key32)

  datatype Bundle = Bundle(identityKey: Key32, signedPrekey: Key32, signedPrekeyId: U32,
                           signature: Signature, oneTimePrekey: Option<(U32, Key32)>)

  datatype X3dhError = InvalidSignature

  function DeriveSecret(dh1: DhOutput, dh2: DhOutput, dh3: DhOutput, dh4: Option<DhOutput>): (secret: RootKey)
  {
    Agreed([dh1, dh2, dh3] + match dh4 case Some(d) => [d] case None => [])
  }

  function AliceInitiate(identity: Key32, bundle: Bundle, ephemeral: Key32): (r: Result<RootKey, X3dhError>)
  {
    if bundle.signature != Signature(bundle.identityKey, bundle.signedPrekey) then
      Failure(InvalidSignature)
    else
      Success(DeriveSecret(
                DiffieHellman(identity, bundle.signedPrekey),
                DiffieHellman(ephemeral, bundle.identityKey),
                DiffieHellman(ephemeral, bundle.signedPrekey),
                match bundle.oneTimePrekey
                case Some(opk) => Some(DiffieHellman(ephemeral, opk.1))
                case None => None))
  }

  function BobRespond(identity: Key32, signedPrekey: Key32, oneTimePrekey: Option<Key32>,
                      aliceIdentity: Key32, aliceEphemeral: Key32): (secret: RootKey)
  {
    DeriveSecret(
      DiffieHellman(signedPrekey, aliceIdentity),
      DiffieHellman(identity, aliceEphemeral),
      DiffieHellman(signedPrekey, aliceEphemeral),
      match oneTimePrekey
      case Some(opk) => Some(DiffieHellman(opk, aliceEphemeral))
      case None => None)
  }

  function BundledPrekey(bundle: Bundle): (r: Option<Key32>)
  {
    match bundle.oneTimePrekey
    case Some(opk) => Some(opk.1)
    case None => None
  }

  lemma DeriveSecretInjective(a1: DhOutput, a2: DhOutput, a3: DhOutput, a4: Option<DhOutput>,
                              b1: DhOutput, b2: DhOutput, b3: DhOutput, b4: Option<DhOutput>)
    requires DeriveSecret(a1, a2, a3, a4) == DeriveSecret(b1, b2, b3, b4)
    ensures a1 == b1 && a2 == b2 && a3 == b3 && a4 == b4
  {
    var x, y := DeriveSecret(a1, a2, a3, a4).ikm, DeriveSecret(b1, b2, b3, b4).ikm;
    assert x[0] == a1 && x[1] == a2 && x[2] == a3 && |x| == 3 + (if a4.Some? then 1 else 0);
    assert y[0] == b1 && y[1] == b2 && y[2] == b3 && |y| == 3 + (if b4.Some? then 1 else 0);
    assert a4.Some? ==> x[3] == a4.value;
    assert b4.Some? ==> y[3] == b4.value;
  }

  /** With an ephemeral key Bob does not own, both sides hold the same secret
      exactly when they agree on both identities, the ephemeral key, the signed
      prekey and the one-time prekey (including whether there is one). */
  lemma AgreementExactly(identity: Key32, bundle: Bundle, ephemeral: Key32,
                         bobIdentity: Key32, bobPrekey: Key32, bobOneTime: Option<Key32>,
                         seenIdentity: Key32, seenEphemeral: Key32)
    requires ephemeral != bobIdentity && ephemeral != bobPrekey
    ensures
      var r := AliceInitiate(identity, bundle, ephemeral);
      r.Success? && r.value == BobRespond(bobIdentity, bobPrekey, bobOneTime, seenIdentity, seenEphemeral)
      <==>
      && bundle.signature == Signature(bundle.identityKey, bundle.signedPrekey)
      && bundle.identityKey == bobIdentity && bundle.signedPrekey == bobPrekey
      && BundledPrekey(bundle) == bobOneTime
      && seenIdentity == identity && seenEphemeral == ephemeral
  {
    var r := AliceInitiate(identity, bundle, ephemeral);
    if r.Success? && r.value == BobRespond(bobIdentity, bobPrekey, bobOneTime, seenIdentity, seenEphemeral) {
      DeriveSecretInjective(
        DiffieHellman(identity, bundle.signedPrekey), DiffieHellman(ephemeral, bundle.identityKey),
        DiffieHellman(ephemeral, bundle.signedPrekey),
        match bundle.oneTimePrekey case Some(opk) => Some(DiffieHellman(ephemeral, opk.1)) case None => None,
        DiffieHellman(bobPrekey, seenIdentity), DiffieHellman(bobIdentity, seenEphemeral),
        DiffieHellman(bobPrekey, seenEphemeral),
        match bobOneTime case Some(opk) => Some(DiffieHellman(opk, seenEphemeral)) case None => None);
    }
  }

  /** Without the ephemeral key and Bob's signed prekey the secret stays unknown. */
  lemma SecretUnknownToOthers(secrets: set<Key32>, identity: Key32, bundle: Bundle, ephemeral: Key32)
    requires AliceInitiate(identity, bundle, ephemeral).Success?
    requires ephemeral !in secrets && bundle.signedPrekey !in secrets
    ensures !RootKnown(secrets, AliceInitiate(identity, bundle, ephemeral).value)
  {
    var ikm := AliceInitiate(identity, bundle, ephemeral).value.ikm;
    assert ikm[2] == DiffieHellman(ephemeral, bundle.signedPrekey);
  }
}
