/** The skipped-key map on disk: JSON has no tuple keys, so it is written as a
    list of entries in whatever order the hash map yields them. */
module SkippedKeysCodec {
  import opened Wire
  import opened KeyAlgebra
  import opened Ratchet

  datatype Entry = Entry(ratchetKey: Key32, messageNumber: U32, messageKey: MessageKey)

  function KeyOf(e: Entry): (k: (Key32, U32)) { (e.ratchetKey, e.messageNumber) }

  /** `entries` lists map `m`, each pair once, in some order. */
  ghost predicate Lists(entries: seq<Entry>, m: SkippedKeys)
  {
    && |entries| == |m|
    && (forall i, j :: 0 <= i < j < |entries| ==> KeyOf(entries[i]) != KeyOf(entries[j]))
    && (forall i :: 0 <= i < |entries| ==> KeyOf(entries[i]) in m && m[KeyOf(entries[i])] == entries[i].messageKey)
  }

  method Serialize(m: SkippedKeys) returns (entries: seq<Entry>)
    ensures Lists(entries, m)
  {
    entries := [];
    var left := m.Keys;
    while left != {}
      invariant left <= m.Keys && |entries| + |left| == |m|
      invariant forall i :: 0 <= i < |entries| ==>
                  KeyOf(entries[i]) in m && KeyOf(entries[i]) !in left && m[KeyOf(entries[i])] == entries[i].messageKey
      invariant forall i, j :: 0 <= i < j < |entries| ==> KeyOf(entries[i]) != KeyOf(entries[j])
      decreases |left|
    {
      var k :| k in left;
      entries := entries + [Entry(k.0, k.1, m[k])];
      left := left - {k};
    }
  }

  datatype CodecError = TooManyKeys

  /** The map a list of entries spells; a later entry for the same key wins. */
  function Collect(entries: seq<Entry>): (m: SkippedKeys)
  {
    if entries == [] then map[]
    else
      var last := entries[|entries| - 1];
      Collect(entries[..|entries| - 1])[KeyOf(last) := last.messageKey]
  }

  method Deserialize(entries: seq<Entry>) returns (r: Result<SkippedKeys, CodecError>)
    ensures r == if |entries| > MAX_SKIP then Failure(TooManyKeys) else Success(Collect(entries))
  {
    if |entries| > MAX_SKIP {
      return Failure(TooManyKeys);
    }
    var m: SkippedKeys := map[];
    var i := 0;
    while i < |entries|
      invariant 0 <= i <= |entries|
      invariant m == Collect(entries[..i])
    {
      assert entries[..i + 1][..i] == entries[..i];
      m := m[KeyOf(entries[i]) := entries[i].messageKey];
      i := i + 1;
    }
    assert entries[..i] == entries;
    return Success(m);
  }

  lemma {:induction false} CollectLookup(entries: seq<Entry>, k: (Key32, U32))
    requires forall i, j :: 0 <= i < j < |entries| ==> KeyOf(entries[i]) != KeyOf(entries[j])
    ensures k in Collect(entries) <==> exists i :: 0 <= i < |entries| && KeyOf(entries[i]) == k
    ensures forall i :: 0 <= i < |entries| && KeyOf(entries[i]) == k ==> Collect(entries)[k] == entries[i].messageKey
  {
    if entries != [] {
      var front := entries[..|entries| - 1];
      CollectLookup(front, k);
      assert forall i :: 0 <= i < |front| ==> front[i] == entries[i];
    }
  }

  lemma {:induction false} CollectSize(entries: seq<Entry>)
    requires forall i, j :: 0 <= i < j < |entries| ==> KeyOf(entries[i]) != KeyOf(entries[j])
    ensures |Collect(entries)| == |entries|
  {
    if entries != [] {
      CollectSize(entries[..|entries| - 1]);
      CollectLookup(entries[..|entries| - 1], KeyOf(entries[|entries| - 1]));
    }
  }

  /** Reading back any listing of a map yields the map, in whatever order it was
      written; so for the maps sessions hold (at most MAX_SKIP keys) saving and
      loading is the identity, and larger maps are refused. */
  lemma CollectInvertsListing(entries: seq<Entry>, m: SkippedKeys)
    requires Lists(entries, m)
    ensures Collect(entries) == m
  {
    var c := Collect(entries);
    CollectSize(entries);
    forall k | k in c
      ensures k in m && c[k] == m[k]
    {
      CollectLookup(entries, k);
    }
    assert c.Keys <= m.Keys;
    SubsetOfSameSize(c.Keys, m.Keys);
  }

  lemma SubsetOfSameSize<T>(a: set<T>, b: set<T>)
    requires a <= b && |a| == |b|
    ensures a == b
  {
    assert |b - a| == |b| - |a|;
    assert b - a == {};
  }

  /** Save, then load. */
  method RoundTrip(m: SkippedKeys) returns (r: Result<SkippedKeys, CodecError>)
    ensures r == if |m| <= 1000 then Success(m) else Failure(TooManyKeys)
  {
    var entries := Serialize(m);
    CollectInvertsListing(entries, m);
    r := Deserialize(entries);
  }
}
