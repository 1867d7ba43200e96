/** Runs of the client that reach the situations its exact conditions single out. */
module ClientWitnesses {
  import opened Wire
  import opened Outbox
  import opened PrekeyStores
  import opened ClientSpec
  import opened ClientInvariant
  import opened ClientRuns

  lemma Extended(identity: Key32, evs: seq<Event>, ev: Event)
    requires PermittedRun(identity, evs) && Permitted(Run(identity, evs).c, Run(identity, evs).log, ev)
    ensures PermittedRun(identity, evs + [ev])
    ensures var h := Run(identity, evs);
            var c' := Step(h.c, h.log, ev).0;
            Run(identity, evs + [ev]) == History(c', h.log + Items(c'.disk.outbox))
  {
    assert (evs + [ev])[..|evs|] == evs;
    hide Permitted, Step;
  }

  /** The time of the installation, on the wall clock. */
  const START := 1_700_000_000

  /** Registration with one signed prekey, its one-time prekeys all used up. */
  function Installation(): (ev: Event) { DoRegister(SignedPrekey(0, 0), map[], START, true) }

  // -- A failed confirmation that leaves the replacement behind ------------------

  function Pairs(): (p: seq<Key32>)
    ensures |p| == PREKEY_TARGET
  {
    seq(PREKEY_TARGET, i => 0)
  }

  /** The store of a client that has queued its first batch. */
  function FirstStore(): (s: OpkStore)
  {
    Replenished(OpkStore(map[], map[], LEGACY_PREKEY_ID_FLOOR), Pairs(), START)
  }

  function FirstUpload(): (x: PendingOutbound)
  {
    PrekeyUpload(0, Batch(OpkStore(map[], map[], LEGACY_PREKEY_ID_FLOOR), Pairs()))
  }

  function Acks(n: nat): (s: seq<PendingOutbound>)
    ensures |s| == n && forall k :: 0 <= k < n ==> s[k] == Ack(k + 1, [k + 1])
  {
    if n == 0 then [] else Acks(n - 1) + [Ack(n, [n])]
  }

  /** The first upload and `n` acknowledgements behind it. */
  function Queue(n: nat): (s: seq<PendingOutbound>)
    ensures |s| == n + 1 && s[0] == FirstUpload() && forall k :: 0 <= k <= n ==> CorrelationId(s[k]) == k
  {
    [FirstUpload()] + Acks(n)
  }

  function Filling(n: nat): (evs: seq<Event>)
  {
    if n == 0 then [Installation(), DoReplenish(0, Pairs(), START, true)]
    else Filling(n - 1) + [DoQueueAck(n, [n], true)]
  }

  /** After the first batch and `n` acknowledgements. */
  ghost predicate Filled(identity: Key32, n: nat)
  {
    PermittedRun(identity, Filling(n))
    && var c := Run(identity, Filling(n)).c;
       c.mem.core.opks == FirstStore() && c.mem.outbox == c.disk.outbox == Queue(n)
  }

  lemma FirstBatch(identity: Key32)
    ensures Filled(identity, 0)
  {
    hide Step;
    var ev := DoReplenish(0, Pairs(), START, true);
    assert [Installation()] + [ev] == Filling(0);
    Installed(identity);
    Extended(identity, [Installation()], ev);
    Batching(Run(identity, [Installation()]).c, Run(identity, [Installation()]).log);
  }

  lemma Installed(identity: Key32)
    ensures PermittedRun(identity, [Installation()])
    ensures var c := Run(identity, [Installation()]).c;
            && c.mem.outbox == c.disk.outbox == []
            && c.mem.core.opks == OpkStore(map[], map[], LEGACY_PREKEY_ID_FLOOR)
            && c.mem.core.spks == SpkRing(Some(SignedPrekey(0, 0)), [], START, 1)
  {
    assert [] + [Installation()] == [Installation()];
    Extended(identity, [], Installation());
  }

  lemma Batching(c: Client, log: set<PendingOutbound>)
    requires c.mem.outbox == c.disk.outbox == [] && c.mem.core.opks == OpkStore(map[], map[], LEGACY_PREKEY_ID_FLOOR)
    ensures var ev := DoReplenish(0, Pairs(), START, true);
            Permitted(c, log, ev)
            && var c' := Step(c, log, ev).0;
               c'.mem.core.opks == FirstStore() && c'.mem.outbox == c'.disk.outbox == Queue(0)
  {
    assert AnyUpload([]).None? && TotalLength([]) == 0;
    assert Queue(0) == [] + [FirstUpload()];
    hide Replenished;
  }

  lemma {:induction false} AckWeights(n: nat)
    ensures TotalLength(Acks(n)) == n * 36
  {
    if n > 0 {
      AckWeights(n - 1);
      assert Acks(n)[..n - 1] == Acks(n - 1);
    }
  }

  lemma {:induction false} QueueWeights(n: nat)
    ensures TotalLength(Queue(n)) == 4800 + n * 36
  {
    if n == 0 {
      assert Queue(0) == [FirstUpload()] && [FirstUpload()][..0] == [];
      assert CiphertextLength(FirstUpload()) == 4800;
    } else {
      QueueWeights(n - 1);
      assert Queue(n)[..n] == Queue(n - 1) && Queue(n)[n] == Ack(n, [n]);
      hide Queue;
    }
  }

  lemma OneMoreAck(c: Client, log: set<PendingOutbound>, n: nat)
    requires 0 < n < MAX_PENDING_OUTBOUND_ITEMS && c.mem.outbox == c.disk.outbox == Queue(n - 1)
    ensures Step(c, log, DoQueueAck(n, [n], true)).0
            == c.(mem := c.mem.(outbox := Queue(n)), disk := c.disk.(core := Some(c.mem.core), outbox := Queue(n)))
  {
    hide TotalLength, FirstUpload;
    QueueWeights(n - 1);
    assert Queue(n - 1) + [Ack(n, [n])] == Queue(n);
    hide Queue;
    assert !HasId(Queue(n - 1), n);
    hide HasId;
  }

  lemma {:induction false} Fills(identity: Key32, n: nat)
    requires n < MAX_PENDING_OUTBOUND_ITEMS
    ensures Filled(identity, n)
  {
    if n == 0 {
      FirstBatch(identity);
    } else {
      Fills(identity, n - 1);
      hide Run, PermittedRun, Queue, FirstStore, Step;
      var h := Run(identity, Filling(n - 1));
      Extended(identity, Filling(n - 1), DoQueueAck(n, [n], true));
      OneMoreAck(h.c, h.log, n);
    }
  }

  /** The failing confirmation of the first upload. */
  function Confirmation(): (ev: Event) 
  {
    DoConfirmUploaded(0, true, 0, MAX_PENDING_OUTBOUND_ITEMS, Pairs(), START, true, false)
  }

  lemma ConfirmationLeavesReplacement(identity: Key32, n: nat)
    requires n < MAX_PENDING_OUTBOUND_ITEMS
    ensures Filled(identity, n) && LeavesReplacement(Run(identity, Filling(n)).c, Confirmation())
  {
    Fills(identity, n);
    hide Run, PermittedRun, Filling;
    FirstInQueue(n);
    assert BatchFits(FirstStore());
    hide Queue, UploadIndex, AnyUpload, RemoveAt, HasCapacity, HasId, FirstStore;
  }

  lemma FirstInQueue(n: nat)
    requires n < MAX_PENDING_OUTBOUND_ITEMS
    ensures UploadIndex(Queue(n), 0) == Some(0) && AnyUpload(RemoveAt(Queue(n), 0)).None?
    ensures HasCapacity(RemoveAt(Queue(n), 0), PREKEY_TARGET * 48)
    ensures !HasId(Queue(n), MAX_PENDING_OUTBOUND_ITEMS)
  {
    hide TotalLength;
    assert FirstUpload().PrekeyUpload? && FirstUpload().uploadId == 0;
    hide FirstUpload;
    AckWeights(n);
    assert RemoveAt(Queue(n), 0) == Acks(n);
    hide Queue, Acks;
  }

  /** From a fresh installation: one batch queued, and its confirmation reports an
      error although the replacement upload was committed. */
  lemma UploadErrorReached(identity: Key32)
    ensures Filled(identity, 0)
    ensures var h := Run(identity, Filling(0));
            var (c', failed) := Step(h.c, h.log, Confirmation());
            failed && c' != h.c && |c'.disk.outbox| == 2
  {
    hide Run, PermittedRun, Step, Inv, Replenished;
    ConfirmationLeavesReplacement(identity, 0);
    RunKeepsAll(identity, Filling(0));
    var h := Run(identity, Filling(0));
    ErrorsOfUpload(h.c, h.log, Confirmation());
  }

  /** From a fresh installation: the outbox is filled to its cap, and then holds one
      item more. */
  lemma CapExceededOnce(identity: Key32)
    ensures Filled(identity, MAX_PENDING_OUTBOUND_ITEMS - 1)
    ensures var h := Run(identity, Filling(MAX_PENDING_OUTBOUND_ITEMS - 1));
            OverflowsCap(h.c, Confirmation())
            && |Step(h.c, h.log, Confirmation()).0.mem.outbox| == MAX_PENDING_OUTBOUND_ITEMS + 1
  {
    hide Run, PermittedRun, Filling, LeavesReplacement, LogOk, Step, Inv, Queue, FirstStore, HasId, HasCapacity, Items;
    var evs := Filling(MAX_PENDING_OUTBOUND_ITEMS - 1);
    ConfirmationLeavesReplacement(identity, MAX_PENDING_OUTBOUND_ITEMS - 1);
    RunKeepsAll(identity, evs);
    var h := Run(identity, evs);
    CapHolds(h.c, h.log, Confirmation());
  }

  // -- Memory and disk in different order ----------------------------------------

  const DUE := START + SIGNED_PREKEY_ROTATION_SECS

  function Reconciling(): (evs: seq<Event>)
  {
    [Installation(), DoQueueRotation(1, 10, DUE, true), DoQueueAck(2, [9], true),
     DoConfirmRotated(1, false, false, 0, 3, 20, DUE, true)]
  }

  /** From a fresh installation: a rotation is queued when it is due, an acknowledgement
      behind it, and the server refuses the rotation. The replacement stays first in
      memory and is last on disk. */
  lemma OrdersDiffer(identity: Key32)
    ensures PermittedRun(identity, Reconciling())
    ensures var c := Run(identity, Reconciling()).c;
            && c.mem.outbox == [SignedPrekeyRotation(3, 2, 20), Ack(2, [9])]
            && c.disk.outbox == [Ack(2, [9]), SignedPrekeyRotation(3, 2, 20)]
  {
    var evs := Reconciling();
    var e1, e2, e3 := [evs[0]], [evs[0]] + [evs[1]], [evs[0]] + [evs[1]] + [evs[2]];
    assert e3 + [evs[3]] == evs;
    hide Run, PermittedRun, Step;
    Installed(identity);
    Extended(identity, e1, evs[1]);
    Rotating(Run(identity, e1).c, Run(identity, e1).log);
    Extended(identity, e2, evs[2]);
    Acking(Run(identity, e2).c, Run(identity, e2).log);
    Extended(identity, e3, evs[3]);
    Replacing(Run(identity, e3).c, Run(identity, e3).log);
  }

  lemma Rotating(c: Client, log: set<PendingOutbound>)
    requires c.mem.outbox == c.disk.outbox == [] && c.mem.core.spks == SpkRing(Some(SignedPrekey(0, 0)), [], START, 1)
    ensures var c' := Step(c, log, Reconciling()[1]).0;
            && c'.mem.outbox == c'.disk.outbox == [SignedPrekeyRotation(1, 1, 10)]
            && c'.mem.core.spks == SpkRing(Some(SignedPrekey(1, 10)), [SignedPrekey(0, 0)], DUE, 2)
  {
    assert TotalLength([]) == 0;
    assert AnyRotation([]).None?;
  }

  lemma Acking(c: Client, log: set<PendingOutbound>)
    requires c.mem.outbox == c.disk.outbox == [SignedPrekeyRotation(1, 1, 10)]
    ensures var c' := Step(c, log, Reconciling()[2]).0;
            && c'.mem.outbox == c'.disk.outbox == [SignedPrekeyRotation(1, 1, 10), Ack(2, [9])]
            && c'.mem.core == c.mem.core
  {
    assert c.mem.outbox[..0] == [];
    assert TotalLength(c.mem.outbox) == CiphertextLength(c.mem.outbox[0]);
  }

  lemma Replacing(c: Client, log: set<PendingOutbound>)
    requires c.mem.outbox == c.disk.outbox == [SignedPrekeyRotation(1, 1, 10), Ack(2, [9])]
    requires c.mem.core.spks == SpkRing(Some(SignedPrekey(1, 10)), [SignedPrekey(0, 0)], DUE, 2)
    ensures var c' := Step(c, log, Reconciling()[3]).0;
            && c'.mem.outbox == [SignedPrekeyRotation(3, 2, 20), Ack(2, [9])]
            && c'.disk.outbox == [Ack(2, [9]), SignedPrekeyRotation(3, 2, 20)]
  {
    var s := c.mem.outbox;
    assert RotationIndex(s, 1) == Some(0);
    DeletedFirst(s[0], s[1]);
    assert s == [s[0], s[1]];
    hide DeleteId, FirstIndex;
  }

  lemma DeletedFirst(x: PendingOutbound, y: PendingOutbound)
    requires CorrelationId(x) != CorrelationId(y)
    ensures DeleteId([x, y], CorrelationId(x)) == [y]
  {
    assert [x, y][1..] == [y] && [y][1..] == [];
    assert DeleteId([y], CorrelationId(x)) == [y] + DeleteId([], CorrelationId(x));
  }
}
