/** Byte-level encodings shared by both clients: big-endian integers, the
    canonical envelope context and the 40-byte ratchet header that together
    form the associated data of every ciphertext. */
module Wire {

  datatype Option<+T> = None | Some(value: T)

  datatype Result<+T, +E> = Success(value: T) | Failure(error: E)

  type Byte = b: int | 0 <= b < 256

  const U32_LIMIT := 0x1_0000_0000

  type U32 = n: int | 0 <= n < 0x1_0000_0000

  function Pow256(n: nat): (p: nat)
    ensures p > 0
  {
    if n == 0 then 1 else 256 * Pow256(n - 1)
  }

  /** A 32-byte string, named by the number it spells in big-endian order. */
  type Key32 = k: nat | k < Pow256(32)

  function BigEndian(v: nat, n: nat): (bytes: seq<Byte>)
    ensures |bytes| == n
  {
    if n == 0 then [] else BigEndian(v / 256, n - 1) + [v % 256]
  }

  lemma {:induction false} BigEndianInjective(v: nat, w: nat, n: nat)
    requires v < Pow256(n) && w < Pow256(n)
    requires BigEndian(v, n) == BigEndian(w, n)
    ensures v == w
  {
    if n > 0 {
      var bv, bw := BigEndian(v, n), BigEndian(w, n);
      assert bv[..n - 1] == BigEndian(v / 256, n - 1) && bv[n - 1] == v % 256;
      assert bw[..n - 1] == BigEndian(w / 256, n - 1) && bw[n - 1] == w % 256;
      BigEndianInjective(v / 256, w / 256, n - 1);
    }
  }

  lemma BigEndianU32Injective(v: U32, w: U32)
    requires BigEndian(v, 4) == BigEndian(w, 4)
    ensures v == w
  {
    assert Pow256(2) == 0x1_0000;
    assert Pow256(4) == U32_LIMIT;
    BigEndianInjective(v, w, 4);
  }

  /** The unencrypted header of one ratchet message. */
  datatype RatchetHeader = RatchetHeader(ratchetKey: Key32, previousChainLength: U32, messageNumber: U32)

  function HeaderBytes(h: RatchetHeader): (bytes: seq<Byte>)
    ensures |bytes| == 40
  {
    BigEndian(h.ratchetKey, 32) + BigEndian(h.previousChainLength, 4) + BigEndian(h.messageNumber, 4)
  }

  lemma ConcatSplits(a: seq<Byte>, b: seq<Byte>, c: seq<Byte>, d: seq<Byte>)
    requires |b| == |d| && a + b == c + d
    ensures a == c && b == d
  {
    assert (a + b)[..|a|] == a && (c + d)[..|c|] == c;
    assert (a + b)[|a|..] == b && (c + d)[|c|..] == d;
  }

  lemma HeaderBytesInjective(g: RatchetHeader, h: RatchetHeader)
    requires HeaderBytes(g) == HeaderBytes(h)
    ensures g == h
  {
    var g1, h1 := BigEndian(g.ratchetKey, 32), BigEndian(h.ratchetKey, 32);
    var g2, h2 := BigEndian(g.previousChainLength, 4), BigEndian(h.previousChainLength, 4);
    ConcatSplits(g1 + g2, BigEndian(g.messageNumber, 4), h1 + h2, BigEndian(h.messageNumber, 4));
    ConcatSplits(g1, g2, h1, h2);
    BigEndianInjective(g.ratchetKey, h.ratchetKey, 32);
    BigEndianU32Injective(g.previousChainLength, h.previousChainLength);
    BigEndianU32Injective(g.messageNumber, h.messageNumber);
  }

  /** The bytes AES-GCM authenticates beside the ciphertext. */
  function AuthenticatedData(envelopeAad: seq<Byte>, header: RatchetHeader): (aad: seq<Byte>)
  {
    envelopeAad + HeaderBytes(header)
  }

  /** Whatever the envelope context is, it and the header can be read back off
      the authenticated bytes, because the header has a fixed width. */
  lemma AuthenticatedDataInjective(env1: seq<Byte>, h1: RatchetHeader, env2: seq<Byte>, h2: RatchetHeader)
    requires AuthenticatedData(env1, h1) == AuthenticatedData(env2, h2)
    ensures env1 == env2 && h1 == h2
  {
    ConcatSplits(env1, HeaderBytes(h1), env2, HeaderBytes(h2));
    HeaderBytesInjective(h1, h2);
  }

  /** What an envelope tells its receiver besides the ratchet header. */
  datatype EnvelopeContext =
    | RatchetContext(version: U32)
    | PrekeyContext(version: U32, identityKey: Key32, ephemeralKey: Key32,
                    signedPrekeyId: U32, oneTimePrekeyId: Option<U32>)

  // "CMP_ENVELOPE_AAD"
  const DOMAIN: seq<Byte> := [67, 77, 80, 95, 69, 78, 86, 69, 76, 79, 80, 69, 95, 65, 65, 68]
  const PREKEY_HEADER: Byte := 1
  const RATCHET_HEADER: Byte := 2

  function Prefix(version: U32, headerType: Byte): (bytes: seq<Byte>)
    ensures |bytes| == 21
  {
    DOMAIN + BigEndian(version, 4) + [headerType]
  }

  function OptionalIdBytes(id: Option<U32>): (bytes: seq<Byte>)
    ensures |bytes| == 5
  {
    match id
    case Some(n) => [1] + BigEndian(n, 4)
    case None => [0] + BigEndian(0, 4)
  }

  function ContextBytes(c: EnvelopeContext): (bytes: seq<Byte>)
    ensures |bytes| == if c.RatchetContext? then 21 else 94
  {
    match c
    case RatchetContext(version) => Prefix(version, RATCHET_HEADER)
    case PrekeyContext(version, identityKey, ephemeralKey, spk, opk) =>
      Prefix(version, PREKEY_HEADER) + BigEndian(identityKey, 32) + BigEndian(ephemeralKey, 32)
      + BigEndian(spk, 4) + OptionalIdBytes(opk)
  }

  lemma PrefixInjective(v: U32, t: Byte, w: U32, u: Byte)
    requires Prefix(v, t) == Prefix(w, u)
    ensures v == w && t == u
  {
    var p, q := Prefix(v, t), Prefix(w, u);
    assert p[16..20] == BigEndian(v, 4) && q[16..20] == BigEndian(w, 4);
    assert p[20] == t && q[20] == u;
    BigEndianU32Injective(v, w);
  }

  lemma OptionalIdInjective(a: Option<U32>, b: Option<U32>)
    requires OptionalIdBytes(a) == OptionalIdBytes(b)
    ensures a == b
  {
    var x, y := OptionalIdBytes(a), OptionalIdBytes(b);
    assert x[0] == (if a.Some? then 1 else 0) && y[0] == (if b.Some? then 1 else 0);
    if a.Some? {
      assert x[1..] == BigEndian(a.value, 4) && y[1..] == BigEndian(b.value, 4);
      BigEndianU32Injective(a.value, b.value);
    }
  }

  lemma ContextBytesInjective(c: EnvelopeContext, d: EnvelopeContext)
    requires ContextBytes(c) == ContextBytes(d)
    ensures c == d
  {
    if c.RatchetContext? {
      PrefixInjective(c.version, RATCHET_HEADER, d.version, RATCHET_HEADER);
    } else {
      var c1 := Prefix(c.version, PREKEY_HEADER);
      var d1 := Prefix(d.version, PREKEY_HEADER);
      var c2, d2 := c1 + BigEndian(c.identityKey, 32), d1 + BigEndian(d.identityKey, 32);
      var c3, d3 := c2 + BigEndian(c.ephemeralKey, 32), d2 + BigEndian(d.ephemeralKey, 32);
      var c4, d4 := c3 + BigEndian(c.signedPrekeyId, 4), d3 + BigEndian(d.signedPrekeyId, 4);
      ConcatSplits(c4, OptionalIdBytes(c.oneTimePrekeyId), d4, OptionalIdBytes(d.oneTimePrekeyId));
      ConcatSplits(c3, BigEndian(c.signedPrekeyId, 4), d3, BigEndian(d.signedPrekeyId, 4));
      ConcatSplits(c2, BigEndian(c.ephemeralKey, 32), d2, BigEndian(d.ephemeralKey, 32));
      ConcatSplits(c1, BigEndian(c.identityKey, 32), d1, BigEndian(d.identityKey, 32));
      PrefixInjective(c.version, PREKEY_HEADER, d.version, PREKEY_HEADER);
      BigEndianInjective(c.identityKey, d.identityKey, 32);
      BigEndianInjective(c.ephemeralKey, d.ephemeralKey, 32);
      BigEndianU32Injective(c.signedPrekeyId, d.signedPrekeyId);
      OptionalIdInjective(c.oneTimePrekeyId, d.oneTimePrekeyId);
    }
  }

  /** No two messages that differ in version, envelope kind, identity or
      ephemeral key, prekey IDs (absent is not zero) or ratchet header are
      authenticated by the same bytes. */
  lemma FullAssociatedDataInjective(c: EnvelopeContext, g: RatchetHeader, d: EnvelopeContext, h: RatchetHeader)
    requires AuthenticatedData(ContextBytes(c), g) == AuthenticatedData(ContextBytes(d), h)
    ensures c == d && g == h
  {
    AuthenticatedDataInjective(ContextBytes(c), g, ContextBytes(d), h);
    ContextBytesInjective(c, d);
  }
}
