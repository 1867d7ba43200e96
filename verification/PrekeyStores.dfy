/** The client's private prekeys: the signed-prekey ring (current key, recent
    predecessors, next ID) and the one-time prekeys with their creation times. */
module PrekeyStores {
  import opened Wire

  const SIGNED_PREKEY_PRIVATE_HISTORY := 3
  const DAY := 24 * 60 * 60
  const SIGNED_PREKEY_ROTATION_SECS := 30 * DAY
  const ONE_TIME_PREKEY_PRIVATE_RETENTION_SECS := 61 * DAY
  const PREKEY_TARGET := 100
  const LEGACY_PREKEY_ID_FLOOR := 0x8000_0000

  function Max(a: int, b: int): (m: int) { if a >= b then a else b }

  function SaturatingSub(a: nat, b: nat): (d: nat) { if a >= b then a - b else 0 }

  function SaturatingIncrement(n: U32): (r: U32) { if n + 1 < U32_LIMIT then n + 1 else n }

  // -- Signed prekeys ----------------------------------------------------------

  /** A signed prekey; the pair stands for the secret, public and signature bytes. */
  datatype SignedPrekey = SignedPrekey(keyId: U32, pair: Key32)

  datatype SpkRing = SpkRing(current: Option<SignedPrekey>, previous: seq<SignedPrekey>, rotatedAt: nat, nextId: U32)

  function Truncated(keys: seq<SignedPrekey>): (r: seq<SignedPrekey>)
  {
    if |keys| > SIGNED_PREKEY_PRIVATE_HISTORY then keys[..SIGNED_PREKEY_PRIVATE_HISTORY] else keys
  }

  /** Is the next rotation due at `now`? */
  predicate RotationDue(r: SpkRing, now: nat)
  {
    r.rotatedAt == 0 || SaturatingSub(now, r.rotatedAt) >= SIGNED_PREKEY_ROTATION_SECS
  }

  /** The ID the next rotation uses; none once the IDs are exhausted. */
  function RotationKeyId(r: SpkRing): (id: Option<U32>)
    requires r.current.Some?
  {
    var k := Max(r.nextId, r.current.value.keyId + 1);
    if r.current.value.keyId + 1 >= U32_LIMIT || k + 1 >= U32_LIMIT then None else Some(k)
  }

  function Rotated(r: SpkRing, pair: Key32, now: nat): (r': SpkRing)
    requires r.current.Some? && RotationKeyId(r).Some?
  {
    var k := RotationKeyId(r).value;
    SpkRing(Some(SignedPrekey(k, pair)), [r.current.value] + r.previous, now, k + 1)
  }

  function RotationConfirmed(r: SpkRing): (r': SpkRing)
  {
    r.(previous := Truncated(r.previous))
  }

  /** The ID that replaces a candidate the server would not make current. */
  function ReplacementKeyId(r: SpkRing, serverCurrent: U32): (id: Option<U32>)
    requires r.previous != []
  {
    var k := Max(Max(r.nextId, SaturatingIncrement(r.previous[0].keyId)), serverCurrent + 1);
    if serverCurrent + 1 >= U32_LIMIT || k + 1 >= U32_LIMIT then None else Some(k)
  }

  /** Swap the candidate for a new key; it stays in the history only if the
      server had once accepted it. */
  function Reconciled(r: SpkRing, serverCurrent: U32, previouslyAccepted: bool, pair: Key32, now: nat): (r': SpkRing)
    requires r.previous != [] && r.current.Some? && ReplacementKeyId(r, serverCurrent).Some?
  {
    var k := ReplacementKeyId(r, serverCurrent).value;
    var history := if previouslyAccepted then [r.current.value] + r.previous else r.previous;
    SpkRing(Some(SignedPrekey(k, pair)), Truncated(history), now, k + 1)
  }

  /** All private halves held, newest first. */
  function Held(r: SpkRing): (keys: seq<SignedPrekey>)
  {
    (match r.current case Some(k) => [k] case None => []) + r.previous
  }

  ghost predicate StrictlyDecreasing(keys: seq<SignedPrekey>)
  {
    forall i, j :: 0 <= i < j < |keys| ==> keys[i].keyId > keys[j].keyId
  }

  /** IDs strictly decrease and lie below the next one; a pending rotation has a
      predecessor to fall back on; the history is short. */
  ghost predicate RingOk(r: SpkRing, pending: bool)
  {
    && StrictlyDecreasing(Held(r))
    && (forall i :: 0 <= i < |Held(r)| ==> Held(r)[i].keyId < r.nextId)
    && (pending ==> r.current.Some? && r.previous != [])
    && (r.current.None? ==> r.previous == [])
    && |r.previous| <= SIGNED_PREKEY_PRIVATE_HISTORY + if pending then 1 else 0
  }

  lemma RotatedKeepsRing(r: SpkRing, pair: Key32, now: nat)
    requires RingOk(r, false) && r.current.Some? && RotationKeyId(r).Some?
    ensures RingOk(Rotated(r, pair, now), true)
    ensures r.nextId <= Rotated(r, pair, now).current.value.keyId < Rotated(r, pair, now).nextId
  {
    assert Held(Rotated(r, pair, now))[1..] == Held(r);
    assert Held(r)[0] == r.current.value;
  }

  lemma ConfirmedKeepsRing(r: SpkRing)
    requires RingOk(r, true)
    ensures RingOk(RotationConfirmed(r), false)
  {
    assert Held(RotationConfirmed(r)) == Held(r)[..|Held(RotationConfirmed(r))|];
  }

  lemma ReconciledKeepsRing(r: SpkRing, serverCurrent: U32, previouslyAccepted: bool, pair: Key32, now: nat)
    requires RingOk(r, true) && ReplacementKeyId(r, serverCurrent).Some?
    ensures RingOk(Reconciled(r, serverCurrent, previouslyAccepted, pair, now), true)
    ensures r.nextId <= Reconciled(r, serverCurrent, previouslyAccepted, pair, now).current.value.keyId
            < Reconciled(r, serverCurrent, previouslyAccepted, pair, now).nextId
  {
    var r' := Reconciled(r, serverCurrent, previouslyAccepted, pair, now);
    var h, h' := Held(r), Held(r');
    var d := if previouslyAccepted then 1 else 0;
    assert h[0] == r.current.value && h'[0] == r'.current.value;
    forall i | 1 <= i < |h'|
      ensures h'[i] == h[i - d]
    {}
  }

  // -- One-time prekeys --------------------------------------------------------

  datatype OpkStore = OpkStore(keys: map<U32, Key32>, createdAt: map<U32, nat>, nextId: U32)

  function StaleIds(s: OpkStore, now: nat): (ids: set<U32>)
  {
    set k | k in s.createdAt && s.createdAt[k] < SaturatingSub(now, ONE_TIME_PREKEY_PRIVATE_RETENTION_SECS)
  }

  predicate InBatch(s: OpkStore, k: U32) { s.nextId <= k < s.nextId + PREKEY_TARGET }

  /** The next batch of IDs, an interval of PREKEY_TARGET numbers. */
  function BatchIds(s: OpkStore): (ids: set<U32>)
  {
    set k: U32 | s.nextId <= k < s.nextId + PREKEY_TARGET && InBatch(s, k)
  }

  predicate BatchFits(s: OpkStore) { s.nextId + PREKEY_TARGET < U32_LIMIT }

  function Replenished(s: OpkStore, pairs: seq<Key32>, now: nat): (s': OpkStore)
    requires |pairs| == PREKEY_TARGET && BatchFits(s)
  {
    var stale := StaleIds(s, now);
    OpkStore((s.keys - stale) + (map k | k in BatchIds(s) :: pairs[k - s.nextId]),
             (s.createdAt - stale) + (map k | k in BatchIds(s) :: now),
             s.nextId + PREKEY_TARGET)
  }

  function Batch(s: OpkStore, pairs: seq<Key32>): (keys: seq<(U32, Key32)>)
    requires |pairs| == PREKEY_TARGET && BatchFits(s)
    ensures |keys| == PREKEY_TARGET
    ensures forall i :: 0 <= i < PREKEY_TARGET ==> keys[i] == (s.nextId + i, pairs[i])
  {
    seq(PREKEY_TARGET, i requires 0 <= i < PREKEY_TARGET => (s.nextId + i, pairs[i]))
  }

  function Without(s: OpkStore, ids: set<U32>): (s': OpkStore)
  {
    s.(keys := s.keys - ids, createdAt := s.createdAt - ids)
  }

  /** The smallest number above every ID in the set, or zero. */
  ghost function DerivedNext(ids: set<U32>): (n: U32)
    ensures forall k :: k in ids ==> SaturatingIncrement(k) <= n
    ensures n != 0 ==> exists k :: k in ids && n == SaturatingIncrement(k)
  {
    if ids == {} then 0
    else
      var k :| k in ids;
      Max(SaturatingIncrement(k), DerivedNext(ids - {k}))
  }

  /** Every key has a creation time and an ID below the next one, which is itself
      above the legacy range. */
  ghost predicate OpksOk(s: OpkStore)
  {
    && s.createdAt.Keys == s.keys.Keys
    && LEGACY_PREKEY_ID_FLOOR <= s.nextId
    && forall k :: k in s.keys ==> SaturatingIncrement(k) <= s.nextId
  }

  /** What start-up makes of the persisted one-time prekeys. */
  ghost function LoadedOpks(s: OpkStore, now: nat): (s': OpkStore)
  {
    OpkStore(s.keys,
             map k | k in s.keys :: if k in s.createdAt then s.createdAt[k] else now,
             Max(Max(s.nextId, DerivedNext(s.keys.Keys)), LEGACY_PREKEY_ID_FLOOR))
  }

  function LoadedRing(r: SpkRing): (r': SpkRing)
  {
    r.(nextId := Max(r.nextId, match r.current case Some(k) => SaturatingIncrement(k.keyId) case None => 0))
  }

  lemma ReplenishedKeepsOpks(s: OpkStore, pairs: seq<Key32>, now: nat)
    requires OpksOk(s) && |pairs| == PREKEY_TARGET && BatchFits(s)
    ensures OpksOk(Replenished(s, pairs, now))
  {}

  lemma LoadedOpksIdentity(s: OpkStore, now: nat)
    requires OpksOk(s)
    ensures LoadedOpks(s, now) == s
  {
    assert LoadedOpks(s, now).createdAt == s.createdAt;
  }

  lemma LoadedRingIdentity(r: SpkRing, pending: bool)
    requires RingOk(r, pending)
    ensures LoadedRing(r) == r
  {
    if r.current.Some? { assert Held(r)[0] == r.current.value; }
  }
}
