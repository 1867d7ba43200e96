/** The durable outbox of one client: its items, its capacity rule, and how the
    in-memory list and the table on disk correspond. */
module Outbox {
  import opened Wire
  import opened KeyAlgebra

  type UserId = nat     // validated user names
  type Uuid = nat       // message, receipt, ack, upload and rotation IDs

  datatype MessageHeader =
    | PrekeyHeader(identityKey: Key32, ephemeralKey: Key32, signedPrekeyId: U32, oneTimePrekeyId: Option<U32>,
                   ratchet: RatchetHeader)
    | PlainHeader(ratchet: RatchetHeader)

  datatype Envelope = Envelope(version: U32, header: MessageHeader, ciphertext: Ciphertext)

  datatype PendingOutbound =
    | Message(recipient: UserId, messageId: Uuid, envelope: Envelope)
    | ReadReceipt(recipient: UserId, receiptId: Uuid, envelope: Envelope)
    | Ack(ackId: Uuid, messageIds: seq<Uuid>)
    | ReadReceiptAck(ackId: Uuid, receiptIds: seq<Uuid>)
    | PrekeyUpload(uploadId: Uuid, prekeys: seq<(U32, Key32)>)
    | SignedPrekeyRotation(rotationId: Uuid, keyId: U32, publicKey: Key32)

  const MAX_PENDING_OUTBOUND_ITEMS := 1000
  const MAX_PENDING_OUTBOUND_BYTES := 64 * 1024 * 1024

  function CorrelationId(item: PendingOutbound): (id: Uuid)
  {
    match item
    case Message(_, id, _) => id
    case ReadReceipt(_, id, _) => id
    case Ack(id, _) => id
    case ReadReceiptAck(id, _) => id
    case PrekeyUpload(id, _) => id
    case SignedPrekeyRotation(id, _, _) => id
  }

  predicate BearsCiphertext(item: PendingOutbound) { item.Message? || item.ReadReceipt? }

  /** Padded base64 length of `n` bytes, section 4 of RFC 4648. */
  function Base64Length(n: nat): (len: nat) { (n + 2) / 3 * 4 }

  const AEAD_TAG_BYTES := 16

  function CiphertextLength(item: PendingOutbound): (len: nat)
  {
    match item
    case Message(_, _, e) => Base64Length(|e.ciphertext.plaintext| + AEAD_TAG_BYTES)
    case ReadReceipt(_, _, e) => Base64Length(|e.ciphertext.plaintext| + AEAD_TAG_BYTES)
    case Ack(_, ids) => |ids| * 36
    case ReadReceiptAck(_, ids) => |ids| * 36
    case PrekeyUpload(_, keys) => |keys| * 48
    case SignedPrekeyRotation(_, _, _) => Base64Length(32) + Base64Length(64)
  }

  function TotalLength(items: seq<PendingOutbound>): (len: nat)
  {
    if items == [] then 0 else TotalLength(items[..|items| - 1]) + CiphertextLength(items[|items| - 1])
  }

  predicate HasCapacity(items: seq<PendingOutbound>, plaintextBytes: nat)
  {
    && |items| < MAX_PENDING_OUTBOUND_ITEMS
    && TotalLength(items) + (plaintextBytes + 18) / 3 * 4 <= MAX_PENDING_OUTBOUND_BYTES
  }

  // -- Lists -------------------------------------------------------------------

  function RemoveAt<T>(s: seq<T>, i: nat): (r: seq<T>)
    requires i < |s|
  {
    s[..i] + s[i + 1..]
  }

  function InsertAt<T>(s: seq<T>, i: nat, x: T): (r: seq<T>)
    requires i <= |s|
  {
    s[..i] + [x] + s[i..]
  }

  lemma InsertUndoesRemove<T>(s: seq<T>, i: nat)
    requires i < |s|
    ensures InsertAt(RemoveAt(s, i), i, s[i]) == s
  {}

  /** `DELETE FROM outbox WHERE correlation_id = id`. */
  function DeleteId(s: seq<PendingOutbound>, id: Uuid): (r: seq<PendingOutbound>)
  {
    if s == [] then []
    else if CorrelationId(s[0]) == id then DeleteId(s[1..], id)
    else [s[0]] + DeleteId(s[1..], id)
  }

  function Ciphertexts(s: seq<PendingOutbound>): (r: seq<PendingOutbound>)
  {
    if s == [] then []
    else if BearsCiphertext(s[0]) then [s[0]] + Ciphertexts(s[1..])
    else Ciphertexts(s[1..])
  }

  ghost predicate UniqueIds(s: seq<PendingOutbound>)
  {
    forall i, j :: 0 <= i < j < |s| ==> CorrelationId(s[i]) != CorrelationId(s[j])
  }

  predicate HasId(s: seq<PendingOutbound>, id: Uuid)
  {
    exists i :: 0 <= i < |s| && CorrelationId(s[i]) == id
  }

  /** Memory and disk hold the same items, and messages and read receipts stand in
      the same relative order on both. */
  ghost predicate SameOutbox(mem: seq<PendingOutbound>, disk: seq<PendingOutbound>)
  {
    && multiset(mem) == multiset(disk)
    && Ciphertexts(mem) == Ciphertexts(disk)
    && UniqueIds(mem) && UniqueIds(disk)
  }

  lemma {:induction false} CiphertextsConcat(s: seq<PendingOutbound>, t: seq<PendingOutbound>)
    ensures Ciphertexts(s + t) == Ciphertexts(s) + Ciphertexts(t)
  {
    if s == [] {
      assert s + t == t;
    } else {
      assert (s + t)[1..] == s[1..] + t;
      CiphertextsConcat(s[1..], t);
    }
  }

  lemma {:induction false} DeleteAbsent(s: seq<PendingOutbound>, id: Uuid)
    requires !HasId(s, id)
    ensures DeleteId(s, id) == s
  {
    if s != [] {
      assert CorrelationId(s[0]) != id;
      assert forall i :: 0 <= i < |s[1..]| ==> s[1..][i] == s[i + 1];
      DeleteAbsent(s[1..], id);
    }
  }

  /** With unique IDs, deleting by ID removes the one row that carries it. */
  lemma {:induction false} DeleteIsRemove(s: seq<PendingOutbound>, i: nat)
    requires UniqueIds(s) && i < |s|
    ensures DeleteId(s, CorrelationId(s[i])) == RemoveAt(s, i)
  {
    var id := CorrelationId(s[i]);
    if i == 0 {
      assert forall k :: 0 <= k < |s[1..]| ==> s[1..][k] == s[k + 1];
      DeleteAbsent(s[1..], id);
      assert RemoveAt(s, 0) == s[1..];
    } else {
      assert s[1..][i - 1] == s[i];
      DeleteIsRemove(s[1..], i - 1);
      assert RemoveAt(s, i) == [s[0]] + RemoveAt(s[1..], i - 1);
    }
  }

  lemma {:induction false} DeleteCount(s: seq<PendingOutbound>, id: Uuid, x: PendingOutbound)
    ensures multiset(DeleteId(s, id))[x] == if CorrelationId(x) == id then 0 else multiset(s)[x]
  {
    if s != [] {
      assert s == [s[0]] + s[1..];
      DeleteCount(s[1..], id, x);
    }
  }

  lemma {:induction false} DeleteCommutesWithCiphertexts(s: seq<PendingOutbound>, id: Uuid)
    ensures Ciphertexts(DeleteId(s, id)) == DeleteId(Ciphertexts(s), id)
  {
    if s != [] {
      DeleteCommutesWithCiphertexts(s[1..], id);
      var d := DeleteId(s[1..], id);
      if CorrelationId(s[0]) != id {
        assert ([s[0]] + d)[0] == s[0] && ([s[0]] + d)[1..] == d;
        if BearsCiphertext(s[0]) {
          var c := Ciphertexts(s[1..]);
          assert ([s[0]] + c)[0] == s[0] && ([s[0]] + c)[1..] == c;
        }
      } else if BearsCiphertext(s[0]) {
        var c := Ciphertexts(s[1..]);
        assert ([s[0]] + c)[0] == s[0] && ([s[0]] + c)[1..] == c;
      }
    }
  }

  lemma {:induction false} DeleteFromWhere(s: seq<PendingOutbound>, id: Uuid, k: nat)
    returns (i: nat)
    requires k < |DeleteId(s, id)|
    ensures k <= i < |s| && s[i] == DeleteId(s, id)[k] && CorrelationId(s[i]) != id
  {
    if CorrelationId(s[0]) == id {
      var j := DeleteFromWhere(s[1..], id, k);
      i := j + 1;
    } else if k == 0 {
      i := 0;
    } else {
      var j := DeleteFromWhere(s[1..], id, k - 1);
      i := j + 1;
    }
  }

  lemma {:induction false} DeleteKeepsUnique(s: seq<PendingOutbound>, id: Uuid)
    requires UniqueIds(s)
    ensures UniqueIds(DeleteId(s, id)) && !HasId(DeleteId(s, id), id)
  {
    if s != [] {
      DeleteKeepsUnique(s[1..], id);
      var d := DeleteId(s, id);
      forall k | 0 <= k < |d|
        ensures CorrelationId(d[k]) != id
      {
        var i := DeleteFromWhere(s, id, k);
      }
      if CorrelationId(s[0]) != id {
        forall k | 1 <= k < |d|
          ensures CorrelationId(d[k]) != CorrelationId(s[0])
        {
          var i := DeleteFromWhere(s[1..], id, k - 1);
          assert s[i + 1] == d[k];
        }
      }
    }
  }

  lemma SameIds(a: seq<PendingOutbound>, b: seq<PendingOutbound>, id: Uuid)
    requires multiset(a) == multiset(b)
    ensures HasId(a, id) <==> HasId(b, id)
  {
    if i :| 0 <= i < |a| && CorrelationId(a[i]) == id {
      assert a[i] in multiset(b);
      assert a[i] in b;
    }
    if i :| 0 <= i < |b| && CorrelationId(b[i]) == id {
      assert b[i] in multiset(a);
      assert b[i] in a;
    }
  }

  lemma SameAfterAppend(mem: seq<PendingOutbound>, disk: seq<PendingOutbound>, x: PendingOutbound)
    requires SameOutbox(mem, disk) && !HasId(disk, CorrelationId(x))
    ensures SameOutbox(mem + [x], disk + [x])
  {
    CiphertextsConcat(mem, [x]);
    CiphertextsConcat(disk, [x]);
    SameIds(mem, disk, CorrelationId(x));
  }

  lemma SameAfterDelete(mem: seq<PendingOutbound>, disk: seq<PendingOutbound>, i: nat)
    requires SameOutbox(mem, disk) && i < |mem|
    ensures SameOutbox(RemoveAt(mem, i), DeleteId(disk, CorrelationId(mem[i])))
  {
    var id := CorrelationId(mem[i]);
    DeleteIsRemove(mem, i);
    DeleteKeepsUnique(mem, id);
    DeleteKeepsUnique(disk, id);
    DeleteCommutesWithCiphertexts(mem, id);
    DeleteCommutesWithCiphertexts(disk, id);
    forall x
      ensures multiset(DeleteId(mem, id))[x] == multiset(DeleteId(disk, id))[x]
    {
      DeleteCount(mem, id, x);
      DeleteCount(disk, id, x);
    }
  }

  /** Replacing in place in memory, while the disk deletes the row and inserts
      the new one at the end, for items that carry no ciphertext. */
  lemma SameAfterReplace(mem: seq<PendingOutbound>, disk: seq<PendingOutbound>, i: nat, x: PendingOutbound)
    requires SameOutbox(mem, disk) && i < |mem| && !BearsCiphertext(mem[i]) && !BearsCiphertext(x)
    requires !HasId(DeleteId(disk, CorrelationId(mem[i])), CorrelationId(x))
    ensures SameOutbox(mem[i := x], DeleteId(disk, CorrelationId(mem[i])) + [x])
  {
    var id := CorrelationId(mem[i]);
    var m, d := RemoveAt(mem, i), DeleteId(disk, id);
    SameAfterDelete(mem, disk, i);
    SameAfterAppend(m, d, x);
    assert mem[i := x] == mem[..i] + ([x] + mem[i + 1..]);
    assert multiset(mem[i := x]) == multiset(m + [x]);
    CiphertextsConcat(mem[..i], [x] + mem[i + 1..]);
    CiphertextsConcat([x], mem[i + 1..]);
    CiphertextsConcat(mem[..i], mem[i + 1..]);
    CiphertextsConcat(m, [x]);
    assert Ciphertexts([x]) == [];
    ReplaceKeepsUnique(mem, i, x, m);
  }

  lemma ReplaceKeepsUnique(s: seq<PendingOutbound>, i: nat, x: PendingOutbound, m: seq<PendingOutbound>)
    requires UniqueIds(s) && i < |s| && m == RemoveAt(s, i) && UniqueIds(m + [x])
    ensures UniqueIds(s[i := x])
  {
    var n := |m|;
    forall k | 0 <= k < |s| && k != i
      ensures CorrelationId(s[k]) != CorrelationId(x)
    {
      assert (m + [x])[if k < i then k else k - 1] == s[k];
      assert (m + [x])[n] == x;
    }
  }
}
