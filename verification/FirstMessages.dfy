/** A first message holds its conversation back: until it is out of the outbox no other
    message to the same peer is queued behind it, and sealing one is refused. */
module FirstMessages {
  import opened Wire
  import opened X3dh
  import opened Outbox
  import opened PrekeyStores
  import opened ClientSpec
  import opened ClientInvariant
  import opened ClientRuns
  import ClientKeys

  predicate IsFirst(x: PendingOutbound) { x.Message? && x.envelope.header.PrekeyHeader? }

  /** No message stands behind a first message to the same peer. */
  ghost predicate FirstAlone(out: seq<PendingOutbound>)
  {
    forall i, j :: 0 <= i < j < |out| && IsFirst(out[i]) && out[j].Message? ==> out[j].recipient != out[i].recipient
  }

  ghost predicate FirstWaits(out: seq<PendingOutbound>, peer: UserId)
  {
    exists x :: x in out && IsFirst(x) && x.recipient == peer
  }

  lemma WaitsIsFound(out: seq<PendingOutbound>, peer: UserId)
    ensures FirstWaits(out, peer) <==> FirstMessageTo(out, peer).Some?
  {
    var i := FirstMessageTo(out, peer);
    if i.Some? {
      assert out[i.value] in out;
    }
  }

  // -- What the changes of a list keep ---------------------------------------------------

  lemma AloneAppend(s: seq<PendingOutbound>, x: PendingOutbound)
    requires FirstAlone(s) && (x.Message? ==> !FirstWaits(s, x.recipient))
    ensures FirstAlone(s + [x])
  {
    var t := s + [x];
    forall i, j | 0 <= i < j < |t| && IsFirst(t[i]) && t[j].Message?
      ensures t[j].recipient != t[i].recipient
    {
      assert t[i] == s[i] && s[i] in s;
    }
  }

  lemma AloneRemove(s: seq<PendingOutbound>, i: nat)
    requires FirstAlone(s) && i < |s|
    ensures FirstAlone(RemoveAt(s, i))
  {
    var t := RemoveAt(s, i);
    assert forall k :: 0 <= k < |t| ==> t[k] == s[if k < i then k else k + 1];
  }

  lemma AloneReplace(s: seq<PendingOutbound>, i: nat, x: PendingOutbound)
    requires FirstAlone(s) && i < |s| && !x.Message?
    ensures FirstAlone(s[i := x])
  {}

  lemma {:induction false} MessagesOfCiphertexts(s: seq<PendingOutbound>, x: PendingOutbound)
    requires x.Message?
    ensures x in s <==> x in Ciphertexts(s)
  {
    if s != [] {
      MessagesOfCiphertexts(s[1..], x);
      assert s == [s[0]] + s[1..];
    }
  }

  lemma AloneFront(x: PendingOutbound, s: seq<PendingOutbound>)
    ensures FirstAlone([x] + s) <==>
              FirstAlone(s) && (IsFirst(x) ==> forall y :: y in s && y.Message? ==> y.recipient != x.recipient)
  {
    var t := [x] + s;
    assert forall k :: 0 <= k < |s| ==> t[k + 1] == s[k];
    if FirstAlone(t) {
      assert FirstAlone(s) by {
        forall i, j | 0 <= i < j < |s| && IsFirst(s[i]) && s[j].Message?
          ensures s[j].recipient != s[i].recipient
        {
          assert t[i + 1] == s[i] && t[j + 1] == s[j];
        }
      }
      if IsFirst(x) {
        forall y | y in s && y.Message?
          ensures y.recipient != x.recipient
        {
          var k :| 0 <= k < |s| && s[k] == y;
          assert t[0] == x && t[k + 1] == y;
        }
      }
    }
    if FirstAlone(s) && (IsFirst(x) ==> forall y :: y in s && y.Message? ==> y.recipient != x.recipient) {
      forall i, j | 0 <= i < j < |t| && IsFirst(t[i]) && t[j].Message?
        ensures t[j].recipient != t[i].recipient
      {
        assert t[j] == s[j - 1] && s[j - 1] in s;
        if i > 0 {
          assert t[i] == s[i - 1];
        }
      }
    }
  }

  /** It is a matter of the messages and read receipts alone, in their order. */
  lemma {:induction false} AloneOfCiphertexts(s: seq<PendingOutbound>)
    ensures FirstAlone(s) <==> FirstAlone(Ciphertexts(s))
  {
    hide FirstAlone;
    if s != [] {
      var x, rest := s[0], s[1..];
      assert s == [x] + rest;
      AloneOfCiphertexts(rest);
      AloneFront(x, rest);
      AloneFront(x, Ciphertexts(rest));
      forall y: PendingOutbound | y.Message?
        ensures y in rest <==> y in Ciphertexts(rest)
      {
        MessagesOfCiphertexts(rest, y);
      }
    }
  }

  lemma AloneOnDisk(c: Client)
    requires Inv(c) && FirstAlone(c.mem.outbox)
    ensures FirstAlone(c.disk.outbox)
  {
    AloneOfCiphertexts(c.mem.outbox);
    AloneOfCiphertexts(c.disk.outbox);
    assert Ciphertexts(c.mem.outbox) == Ciphertexts(c.disk.outbox);
    hide Inv, FirstAlone;
  }

  // -- Every event -----------------------------------------------------------------------

  lemma QueueingAlone(c: Client, log: set<PendingOutbound>, ev: Event)
    requires FirstAlone(c.mem.outbox) && Permitted(c, log, ev) && Queues(ev)
    ensures FirstAlone(Step(c, log, ev).0.mem.outbox)
  {
    var out := c.mem.outbox;
    hide FirstAlone, FirstWaits, AdvanceEncryption, HasCapacity, Replenished, Rotated, FirstIndex, HasId;
    if ev.DoEncryptMessage? {
      WaitsIsFound(out, ev.peer);
    }
    forall x: PendingOutbound | x.Message? ==> !FirstWaits(out, x.recipient)
      ensures FirstAlone(out + [x])
    {
      AloneAppend(out, x);
    }
  }

  lemma RetiringAlone(c: Client, log: set<PendingOutbound>, ev: Event)
    requires FirstAlone(c.mem.outbox) && Permitted(c, log, ev)
    requires ev.DoConfirmSent? || ev.DoConfirmReceiptSent? || ev.DoReject? || ev.DoConfirmAcked? || ev.DoConfirmRotated?
    ensures FirstAlone(Step(c, log, ev).0.mem.outbox)
  {
    var out := c.mem.outbox;
    hide FirstAlone, RemoveAt, DeleteId, Reconciled, WithoutIds, FirstIndex, RotationConfirmed, ReplacementKeyId, HasId;
    forall i: nat | i < |out|
      ensures FirstAlone(RemoveAt(out, i))
    {
      AloneRemove(out, i);
    }
    if ev.DoConfirmRotated? {
      var a, ring := RotationIndex(out, ev.id), c.mem.core.spks;
      if a.Some? && ring.previous != [] && ReplacementKeyId(ring, ev.serverCurrent).Some? {
        AloneReplace(out, a.value,
                     SignedPrekeyRotation(ev.newId, ReplacementKeyId(ring, ev.serverCurrent).value, ev.pair));
      }
    }
  }

  lemma UploadingAlone(c: Client, log: set<PendingOutbound>, ev: Event)
    requires FirstAlone(c.mem.outbox) && Permitted(c, log, ev) && ev.DoConfirmUploaded?
    ensures FirstAlone(Step(c, log, ev).0.mem.outbox)
  {
    var out := c.mem.outbox;
    hide FirstAlone, RemoveAt, InsertAt, DeleteId, Replenished, Without, UploadIds, HasId, HasCapacity, FirstIndex;
    var a := UploadIndex(out, ev.id);
    if a.Some? {
      AloneRemove(out, a.value);
      InsertUndoesRemove(out, a.value);
      if BatchFits(c.mem.core.opks) {
        var x := PrekeyUpload(ev.newId, Batch(c.mem.core.opks, ev.pairs));
        UploadKept(out, a.value, x);
        AloneAppend(out, x);
        AloneAppend(RemoveAt(out, a.value), x);
      }
    }
  }

  lemma OthersAlone(c: Client, log: set<PendingOutbound>, ev: Event)
    requires FirstAlone(c.mem.outbox) && Permitted(c, log, ev)
    requires ev.DoInitSession? || ev.DoExpireStale? || ev.DoConfirmStored? || ev.DoRegister? || ev.DoDecrypt?
    ensures FirstAlone(Step(c, log, ev).0.mem.outbox)
  {
    hide FirstAlone, Receive, RegisteredCore, Pruned, CommittedRow, ClientKeys.NewPair, LogEnvelopes, AliceInitiate;
    if ev.DoDecrypt? {
      DecryptKeepsOutbox(ev.peer, ev.id, ev.e, ev.newPair, ev.now, ev.ok);
    }
  }

  lemma StepAlone(c: Client, log: set<PendingOutbound>, ev: Event)
    requires Inv(c) && FirstAlone(c.mem.outbox) && Permitted(c, log, ev)
    ensures FirstAlone(Step(c, log, ev).0.mem.outbox)
  {
    AloneOnDisk(c);
    assert ev.Crash? ==> Step(c, log, ev).0.mem.outbox == c.disk.outbox;
    hide Inv, FirstAlone, Step, Permitted;
    if Queues(ev) {
      QueueingAlone(c, log, ev);
    } else if ev.DoConfirmUploaded? {
      UploadingAlone(c, log, ev);
    } else if ev.DoInitSession? || ev.DoExpireStale? || ev.DoConfirmStored? || ev.DoRegister? || ev.DoDecrypt? {
      OthersAlone(c, log, ev);
    } else if !ev.Crash? {
      RetiringAlone(c, log, ev);
    }
  }

  /** Over every run, with failures, refusals and crashes anywhere: no message stands behind
      a first message to the same peer, in memory or on disk. */
  lemma {:induction false} FirstMessageHoldsBack(identity: Key32, evs: seq<Event>)
    requires PermittedRun(identity, evs)
    ensures FirstAlone(Run(identity, evs).c.mem.outbox) && FirstAlone(Run(identity, evs).c.disk.outbox)
  {
    hide Inv, LogOk, Step, Permitted, Items;
    if evs != [] {
      var h, ev := Run(identity, evs[..|evs| - 1]), evs[|evs| - 1];
      FirstMessageHoldsBack(identity, evs[..|evs| - 1]);
      RunKeepsAll(identity, evs[..|evs| - 1]);
      hide FirstAlone;
      StepAlone(h.c, h.log, ev);
    }
    RunKeepsAll(identity, evs);
    AloneOnDisk(Run(identity, evs).c);
  }
}
