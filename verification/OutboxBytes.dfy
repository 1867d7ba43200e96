/** The outbox's byte cap over every run. */
module OutboxBytes {
  import opened Wire
  import opened KeyAlgebra
  import opened X3dh
  import opened Outbox
  import opened PrekeyStores
  import opened ClientSpec
  import opened ClientInvariant
  import ClientKeys
  import opened ClientRuns

  // -- Bytes of a list -----------------------------------------------------------------------

  lemma {:induction false} TotalConcat(a: seq<PendingOutbound>, b: seq<PendingOutbound>)
    ensures TotalLength(a + b) == TotalLength(a) + TotalLength(b)
  {
    if b == [] {
      assert a + b == a;
    } else {
      var front := b[..|b| - 1];
      assert (a + b)[..|a + b| - 1] == a + front;
      TotalConcat(a, front);
    }
  }

  lemma TotalOfOne(x: PendingOutbound)
    ensures TotalLength([x]) == CiphertextLength(x)
  {
    assert [x][..0] == [];
  }

  lemma TotalOfRemoved(s: seq<PendingOutbound>, i: nat)
    requires i < |s|
    ensures TotalLength(s) == TotalLength(RemoveAt(s, i)) + CiphertextLength(s[i])
  {
    hide TotalLength, CiphertextLength;
    var front, back := s[..i], s[i + 1..];
    assert s == front + ([s[i]] + back);
    TotalConcat(front, [s[i]] + back);
    TotalConcat([s[i]], back);
    TotalConcat(front, back);
    TotalOfOne(s[i]);
  }

  lemma {:induction false} TotalOfSame(a: seq<PendingOutbound>, b: seq<PendingOutbound>)
    requires multiset(a) == multiset(b)
    ensures TotalLength(a) == TotalLength(b)
    decreases |a|
  {
    if a != [] {
      var x, front := a[|a| - 1], a[..|a| - 1];
      assert a == front + [x];
      assert x in multiset(b);
      var j :| 0 <= j < |b| && b[j] == x;
      assert b == b[..j] + [x] + b[j + 1..];
      assert multiset(RemoveAt(b, j)) == multiset(b) - multiset{x};
      assert multiset(front) == multiset(a) - multiset{x};
      TotalOfSame(front, RemoveAt(b, j));
      TotalOfRemoved(b, j);
    } else {
      assert |multiset(b)| == 0;
    }
  }

  // -- Every event ---------------------------------------------------------------------------

  const UPLOAD_BYTES := PREKEY_TARGET * 48

  /** Uploads have their fixed size. */
  ghost predicate UploadsSized(out: seq<PendingOutbound>)
  {
    forall x :: x in out && x.PrekeyUpload? ==> |x.prekeys| == PREKEY_TARGET
  }

  /** The bytes grow past their cap in one situation only. */
  ghost predicate OverflowsBytes(c: Client, ev: Event)
  {
    LeavesReplacement(c, ev) && TotalLength(c.mem.outbox) + UPLOAD_BYTES > MAX_PENDING_OUTBOUND_BYTES
  }

  ghost predicate BytesKept(c: Client, ev: Event, after: seq<PendingOutbound>)
  {
    && TotalLength(after) <= MAX_PENDING_OUTBOUND_BYTES + UPLOAD_BYTES
    && (TotalLength(c.mem.outbox) <= MAX_PENDING_OUTBOUND_BYTES ==>
          (TotalLength(after) > MAX_PENDING_OUTBOUND_BYTES <==> OverflowsBytes(c, ev)))
  }

  lemma TotalOfAppended(s: seq<PendingOutbound>, x: PendingOutbound)
    ensures TotalLength(s + [x]) == TotalLength(s) + CiphertextLength(x)
  {
    assert (s + [x])[..|s|] == s;
  }

  lemma SealedText(core: Core, identity: Key32, peer: UserId, plaintext: Bytes)
    ensures var r := AdvanceEncryption(core, identity, peer, plaintext);
            r.Success? ==> r.value.1.ciphertext.plaintext == plaintext
  {
    hide ContextBytes;
  }

  lemma QueuedBytes(c: Client, log: set<PendingOutbound>, ev: Event)
    requires Permitted(c, log, ev) && Queues(ev)
    ensures var after := Step(c, log, ev).0.mem.outbox;
            after == c.mem.outbox || TotalLength(after) <= MAX_PENDING_OUTBOUND_BYTES
  {
    hide AdvanceEncryption, Rotated, RotationKeyId, Replenished, FirstIndex, HasId, RotationDue, TotalLength;
    if ev.DoEncryptMessage? || ev.DoEncryptReceipt? {
      SealedText(c.mem.core, c.identity, ev.peer, ev.plaintext);
    }
    forall x
      ensures TotalLength(c.mem.outbox + [x]) == TotalLength(c.mem.outbox) + CiphertextLength(x)
    {
      TotalOfAppended(c.mem.outbox, x);
    }
  }

  lemma RetiredBytes(c: Client, log: set<PendingOutbound>, ev: Event)
    requires Permitted(c, log, ev)
    requires ev.DoConfirmSent? || ev.DoConfirmReceiptSent? || ev.DoReject? || ev.DoConfirmAcked? || ev.DoConfirmRotated?
    ensures TotalLength(Step(c, log, ev).0.mem.outbox) <= TotalLength(c.mem.outbox)
  {
    hide RemoveAt, DeleteId, Reconciled, WithoutIds, RotationConfirmed, ReplacementKeyId, HasId, TotalLength,
         FirstIndex;
    var out := c.mem.outbox;
    forall i: nat | i < |out|
      ensures TotalLength(RemoveAt(out, i)) <= TotalLength(out)
    {
      TotalOfRemoved(out, i);
    }
    if ev.DoConfirmRotated? {
      var a, ring := RotationIndex(out, ev.id), c.mem.core.spks;
      if a.Some? && ring.previous != [] && ReplacementKeyId(ring, ev.serverCurrent).Some? {
        TotalOfReplaced(out, a.value,
                        SignedPrekeyRotation(ev.newId, ReplacementKeyId(ring, ev.serverCurrent).value, ev.pair));
      }
    }
  }

  lemma TotalOfReplaced(s: seq<PendingOutbound>, i: nat, x: PendingOutbound)
    requires i < |s| && CiphertextLength(x) == CiphertextLength(s[i])
    ensures TotalLength(s[i := x]) == TotalLength(s)
  {
    TotalOfRemoved(s, i);
    TotalOfRemoved(s[i := x], i);
    assert RemoveAt(s, i) == RemoveAt(s[i := x], i);
  }

  lemma UploadedBytes(c: Client, log: set<PendingOutbound>, ev: Event)
    requires Inv(c) && Permitted(c, log, ev) && ev.DoConfirmUploaded? && UploadsSized(c.mem.outbox)
    requires TotalLength(c.mem.outbox) <= MAX_PENDING_OUTBOUND_BYTES + UPLOAD_BYTES
    ensures BytesKept(c, ev, Step(c, log, ev).0.mem.outbox)
  {
    hide Inv, RemoveAt, InsertAt, DeleteId, Replenished, Without, UploadIds, HasId, FirstIndex, TotalLength;
    var out, a := c.mem.outbox, UploadIndex(c.mem.outbox, ev.id);
    if a.Some? {
      assert out[a.value] in out;
      TotalOfRemoved(out, a.value);
      InsertUndoesRemove(out, a.value);
      if BatchFits(c.mem.core.opks) {
        var x := PrekeyUpload(ev.newId, Batch(c.mem.core.opks, ev.pairs));
        UploadKept(out, a.value, x);
        TotalOfAppended(out, x);
        TotalOfAppended(RemoveAt(out, a.value), x);
      }
    }
  }

  lemma StepBytes(c: Client, log: set<PendingOutbound>, ev: Event)
    requires Inv(c) && Permitted(c, log, ev) && UploadsSized(c.mem.outbox)
    requires TotalLength(c.mem.outbox) <= MAX_PENDING_OUTBOUND_BYTES + UPLOAD_BYTES
    ensures BytesKept(c, ev, Step(c, log, ev).0.mem.outbox)
  {
    TotalOfSame(c.mem.outbox, c.disk.outbox);
    assert ev.Crash? ==> Step(c, log, ev).0.mem.outbox == c.disk.outbox;
    hide Inv, Step, Permitted, TotalLength;
    if Queues(ev) {
      QueuedBytes(c, log, ev);
    } else if ev.DoConfirmUploaded? {
      UploadedBytes(c, log, ev);
    } else if ev.DoInitSession? || ev.DoExpireStale? || ev.DoConfirmStored? || ev.DoRegister? || ev.DoDecrypt? {
      SameBytes(c, log, ev);
    } else if !ev.Crash? {
      RetiredBytes(c, log, ev);
    }
  }

  lemma SameBytes(c: Client, log: set<PendingOutbound>, ev: Event)
    requires Permitted(c, log, ev)
    requires ev.DoInitSession? || ev.DoExpireStale? || ev.DoConfirmStored? || ev.DoRegister? || ev.DoDecrypt?
    ensures Step(c, log, ev).0.mem.outbox == c.mem.outbox
  {
    hide Receive, RegisteredCore, Pruned, CommittedRow, ClientKeys.NewPair, LogEnvelopes, AliceInitiate;
    if ev.DoDecrypt? {
      DecryptKeepsOutbox(ev.peer, ev.id, ev.e, ev.newPair, ev.now, ev.ok);
    }
  }

  lemma SizedByLog(c: Client, log: set<PendingOutbound>)
    requires Inv(c) && LogOk(c.mem.core, log) && Items(c.disk.outbox) <= log
    ensures UploadsSized(c.mem.outbox)
  {
    forall x | x in c.mem.outbox && x.PrekeyUpload?
      ensures |x.prekeys| == PREKEY_TARGET
    {
      assert x in multiset(c.disk.outbox);
      assert x in Items(c.disk.outbox);
    }
  }

  /** Over every run: the outbox holds at most one upload's bytes more than its cap, and from
      within the cap an event leaves it exactly when an accepted upload is replaced with no
      room for both and its own deletion then fails. */
  lemma {:induction false} BytesCapped(identity: Key32, evs: seq<Event>, ev: Event)
    requires PermittedRun(identity, evs) && Permitted(Run(identity, evs).c, Run(identity, evs).log, ev)
    ensures TotalLength(Run(identity, evs).c.mem.outbox) <= MAX_PENDING_OUTBOUND_BYTES + UPLOAD_BYTES
    ensures var h := Run(identity, evs); BytesKept(h.c, ev, Step(h.c, h.log, ev).0.mem.outbox)
    decreases |evs|
  {
    hide Inv, LogOk, Step, Permitted, Items, TotalLength;
    if evs == [] {
      assert TotalLength([]) == 0 by { TotalOfNone(); }
    } else {
      BytesCapped(identity, evs[..|evs| - 1], evs[|evs| - 1]);
    }
    var h := Run(identity, evs);
    RunKeepsAll(identity, evs);
    SizedByLog(h.c, h.log);
    StepBytes(h.c, h.log, ev);
  }

  lemma TotalOfNone()
    ensures TotalLength([]) == 0
  {}
}
