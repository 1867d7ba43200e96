/** The cryptographic primitives as a free term algebra. A key pair is named by
    its public half; Diffie-Hellman commutes because its result is an unordered
    pair; the key-derivation functions are injective and acyclic because each
    is a constructor; an AEAD box opens under its own key and data only. */
module KeyAlgebra {
  import opened Wire

  /** A Diffie-Hellman shared secret: the two key pairs, smaller name first. */
  datatype DhOutput = DhOutput(lo: Key32, hi: Key32)

  function DiffieHellman(secret: Key32, public: Key32): (d: DhOutput)
  {
    if secret <= public then DhOutput(secret, public) else DhOutput(public, secret)
  }

  lemma DiffieHellmanCommutes(a: Key32, b: Key32)
    ensures DiffieHellman(a, b) == DiffieHellman(b, a)
  {}

  datatype RootKey =
    | Agreed(ikm: seq<DhOutput>)               // HKDF over the X3DH inputs
    | NextRoot(root: RootKey, dh: DhOutput)    // kdf_rk, root half

  datatype ChainKey =
    | ChainStart(root: RootKey, dh: DhOutput)  // kdf_rk, chain half
    | NextChain(prev: ChainKey)                // kdf_ck, chain half

  datatype MessageKey = MessageKey(chain: ChainKey)  // kdf_ck, message half

  type Bytes = seq<Byte>

  datatype Ciphertext = Sealed(key: MessageKey, plaintext: Bytes, aad: Bytes)

  function AeadOpen(key: MessageKey, c: Ciphertext, aad: Bytes): (r: Option<Bytes>)
  {
    if c.key == key && c.aad == aad then Some(c.plaintext) else None
  }

  /** `n` applications of the chain step. */
  function Advance(ck: ChainKey, n: nat): (r: ChainKey)
    ensures n == 0 ==> r == ck
  {
    if n == 0 then ck else NextChain(Advance(ck, n - 1))
  }

  lemma {:induction false} AdvanceAdds(ck: ChainKey, m: nat, n: nat)
    ensures Advance(Advance(ck, m), n) == Advance(ck, m + n)
  {
    if n > 0 { AdvanceAdds(ck, m, n - 1); }
  }

  function Origin(ck: ChainKey): (start: ChainKey)
    ensures start.ChainStart?
  {
    if ck.ChainStart? then ck else Origin(ck.prev)
  }

  function Position(ck: ChainKey): (n: nat)
  {
    if ck.ChainStart? then 0 else 1 + Position(ck.prev)
  }

  lemma {:induction false} AdvanceShape(ck: ChainKey, n: nat)
    ensures Origin(Advance(ck, n)) == Origin(ck)
    ensures Position(Advance(ck, n)) == Position(ck) + n
  {
    if n > 0 { AdvanceShape(ck, n - 1); }
  }

  /** A chain key is determined by where it started and how far it has gone. */
  lemma {:induction false} AdvanceUnfolds(ck: ChainKey)
    ensures ck == Advance(Origin(ck), Position(ck))
  {
    if ck.NextChain? { AdvanceUnfolds(ck.prev); }
  }

  lemma AdvanceInjective(start: ChainKey, m: nat, start': ChainKey, n: nat)
    requires start.ChainStart? && start'.ChainStart?
    requires Advance(start, m) == Advance(start', n)
    ensures start == start' && m == n
  {
    AdvanceShape(start, m);
    AdvanceShape(start', n);
  }

  function Base(root: RootKey): (r: RootKey)
    ensures r.Agreed?
  {
    if root.Agreed? then root else Base(root.root)
  }

  function Depth(root: RootKey): (n: nat)
  {
    if root.Agreed? then 0 else 1 + Depth(root.root)
  }

  /** What somebody holding the private halves in `secrets` can compute. */
  predicate DhKnown(secrets: set<Key32>, d: DhOutput) { d.lo in secrets || d.hi in secrets }

  predicate RootKnown(secrets: set<Key32>, root: RootKey)
  {
    match root
    case Agreed(ikm) => forall i | 0 <= i < |ikm| :: DhKnown(secrets, ikm[i])
    case NextRoot(r, dh) => RootKnown(secrets, r) && DhKnown(secrets, dh)
  }

  predicate MessageKeyKnown(secrets: set<Key32>, key: MessageKey)
  {
    var start := Origin(key.chain);
    RootKnown(secrets, start.root) && DhKnown(secrets, start.dh)
  }

  /** Nobody reaches a key derived from an agreed secret they cannot compute. */
  lemma {:induction false} UnknownBaseStaysUnknown(secrets: set<Key32>, root: RootKey)
    requires RootKnown(secrets, root)
    ensures RootKnown(secrets, Base(root))
  {
    if root.NextRoot? { UnknownBaseStaysUnknown(secrets, root.root); }
  }
}
