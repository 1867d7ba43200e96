/** How long the client remembers what it opened: which rows of the replay ledger go and
    when, and what a redelivery is answered until then. */
module LedgerLifetime {
  import opened Wire
  import opened KeyAlgebra
  import opened X3dh
  import opened Outbox
  import opened PrekeyStores
  import opened ClientSpec
  import opened ClientInvariant
  import ClientKeys
  import opened ClientRuns
  import opened ClientItems

  type Key = (UserId, Uuid)

  /** An acknowledgement in the outbox that names the ID is confirmed, with the IDs it was sent with. */
  ghost predicate AckTakes(c: Client, ev: Event, id: Uuid)
  {
    ev.DoConfirmAcked? && ev.ok && id in ev.ids
    && exists x :: x in c.mem.outbox && IsAck(x, ev.id, ev.ids)
  }

  predicate IsAck(x: PendingOutbound, id: Uuid, ids: seq<Uuid>)
  {
    x == Ack(id, ids) || x == ReadReceiptAck(id, ids)
  }

  /** The event drops rows written at `at`: a restart, or an attempt to open an envelope
      under an ID that is not known, more than 31 days later. */
  predicate TooOldFor(c: Client, ev: Event, at: nat)
  {
    || (ev.Crash? && at + 31 * DAY < ev.now)
    || (ev.DoDecrypt? && ev.e.version == PROTOCOL_VERSION && ev.okPrune && (ev.peer, ev.id) !in c.mem.processed
        && at + 31 * DAY < ev.now)
  }

  /** The event notes that the text is in the history. */
  predicate Settles(ev: Event, k: Key)
  {
    ev.DoConfirmStored? && ev.ok && ev.peer == k.0 && ev.id == k.1
  }

  /** What an event may do to a row. */
  ghost predicate RowKept(c: Client, after: Ledger, ev: Event, k: Key)
    requires k in c.mem.processed
  {
    var row := c.mem.processed[k];
    && (k !in after <==> AckTakes(c, ev, k.1) || TooOldFor(c, ev, row.processedAt))
    && (k in after ==> after[k] == if Settles(ev, k) then row.(pendingPlaintext := None) else row)
  }

  lemma AckFound(c: Client, id: Uuid, ids: seq<Uuid>)
    requires Inv(c)
    ensures (exists x :: x in c.mem.outbox && IsAck(x, id, ids)) <==>
              var i := AckIndex(c.mem.outbox, id);
              i.Some? && AckedIds(c.mem.outbox[i.value]) == ids
  {
    var out, i := c.mem.outbox, AckIndex(c.mem.outbox, id);
    if i.Some? {
      assert out[i.value] in out;
    }
    if x :| x in out && IsAck(x, id, ids) {
      var j :| 0 <= j < |out| && out[j] == x;
      assert i.Some? && CorrelationId(out[i.value]) == CorrelationId(out[j]);
      assert i.value == j by { Outboxed(c); }
    }
    hide Inv;
  }

  lemma Outboxed(c: Client)
    requires Inv(c)
    ensures UniqueIds(c.mem.outbox)
  {}

  lemma AckedRow(c: Client, log: set<PendingOutbound>, ev: Event, k: Key)
    requires Inv(c) && Permitted(c, log, ev) && ev.DoConfirmAcked? && k in c.mem.processed
    ensures RowKept(c, Step(c, log, ev).0.mem.processed, ev, k)
  {
    AckFound(c, ev.id, ev.ids);
    hide Inv, RemoveAt, DeleteId, AckIndex, AckedIds;
  }

  lemma StoredRow(c: Client, log: set<PendingOutbound>, ev: Event, k: Key)
    requires Permitted(c, log, ev) && ev.DoConfirmStored? && k in c.mem.processed
    ensures RowKept(c, Step(c, log, ev).0.mem.processed, ev, k)
  {}

  lemma CrashedRow(c: Client, log: set<PendingOutbound>, ev: Event, k: Key)
    requires Inv(c) && Permitted(c, log, ev) && ev.Crash? && k in c.mem.processed
    ensures RowKept(c, Step(c, log, ev).0.mem.processed, ev, k)
  {
    assert c.mem.processed == c.disk.processed;
    hide Inv, LoadedCore;
  }

  lemma ReceivedRows(c: Client, peer: UserId, id: Uuid, e: Envelope, newPair: Key32, now: nat, ok: bool, k: Key)
    requires k != (peer, id)
    ensures var after := Receive(c, peer, id, e, newPair, now, ok).0.mem.processed;
            (k in after <==> k in c.mem.processed) && (k in after ==> after[k] == c.mem.processed[k])
  {
    hide Opened;
  }

  lemma DecryptedRow(c: Client, log: set<PendingOutbound>, ev: Event, k: Key)
    requires Permitted(c, log, ev) && ev.DoDecrypt? && k in c.mem.processed
    ensures RowKept(c, Step(c, log, ev).0.mem.processed, ev, k)
  {
    hide Receive, ClientKeys.NewPair, LogEnvelopes;
    if k != (ev.peer, ev.id) {
      ReceivedRows(LedgersPruned(c, ev.now), ev.peer, ev.id, ev.e, ev.newPair, ev.now, ev.ok, k);
    }
  }

  lemma RetiredRow(c: Client, log: set<PendingOutbound>, ev: Event)
    requires Permitted(c, log, ev) && (ev.DoConfirmSent? || ev.DoConfirmReceiptSent? || ev.DoReject?)
    ensures Step(c, log, ev).0.mem.processed == c.mem.processed
  {
    hide HasId, DeleteId, RemoveAt, FirstIndex;
  }

  /** For every event and every row: it goes exactly when an acknowledgement of its ID is
      confirmed or rows that old are pruned, and is changed exactly when it is settled. */
  lemma RowLeavesExactly(c: Client, log: set<PendingOutbound>, ev: Event, k: Key)
    requires Inv(c) && Permitted(c, log, ev) && k in c.mem.processed
    ensures RowKept(c, Step(c, log, ev).0.mem.processed, ev, k)
  {
    hide Inv, Step, Permitted, AckTakes;
    if ev.Crash? {
      CrashedRow(c, log, ev, k);
    } else if ev.DoDecrypt? {
      DecryptedRow(c, log, ev, k);
    } else if ev.DoConfirmStored? {
      StoredRow(c, log, ev, k);
    } else if ev.DoConfirmAcked? {
      AckedRow(c, log, ev, k);
    } else {
      OtherRows(c, log, ev);
      NoAck(c, ev, k.1);
    }
  }

  lemma NoAck(c: Client, ev: Event, id: Uuid)
    requires !ev.DoConfirmAcked?
    ensures !AckTakes(c, ev, id)
  {}

  lemma OtherRows(c: Client, log: set<PendingOutbound>, ev: Event)
    requires Permitted(c, log, ev) && !ev.Crash? && !ev.DoDecrypt? && !ev.DoConfirmStored? && !ev.DoConfirmAcked?
    ensures Step(c, log, ev).0.mem.processed == c.mem.processed
  {
    hide Step, Permitted;
    if Queues(ev) {
      QueueingKeepsLedger(c, log, ev);
    } else if ev.DoInitSession? || ev.DoExpireStale? || ev.DoRegister? || ev.DoConfirmRotated? {
      SessionsKeepLedger(c, log, ev);
    } else if ev.DoConfirmUploaded? {
      UploadKeepsLedger(c, log, ev);
    } else {
      RetiredRow(c, log, ev);
    }
  }

  // -- What a redelivery is answered -------------------------------------------------------

  /** The row written when the text was opened at `at`, settled or not. */
  predicate Remembers(c: Client, k: Key, text: Bytes, at: nat)
  {
    k in c.mem.processed && c.mem.processed[k].processedAt == at
    && (c.mem.processed[k].pendingPlaintext == Some(text) || c.mem.processed[k].pendingPlaintext.None?)
  }

  /** The envelope was not known and is opened: its text is handed on. */
  predicate Opens(c: Client, ev: Event, text: Bytes)
  {
    ev.DoDecrypt? && (ev.peer, ev.id) !in c.mem.processed
    && DecryptToText(c, ev.peer, ev.id, ev.e, ev.newPair, ev.now, ev.okPrune, ev.ok).1 == Pending(text)
  }

  lemma OpeningRemembered(c: Client, log: set<PendingOutbound>, ev: Event, text: Bytes)
    requires Permitted(c, log, ev) && Opens(c, ev, text)
    ensures Remembers(Step(c, log, ev).0, (ev.peer, ev.id), text, ev.now)
  {
    hide Opened, ClientKeys.NewPair, LogEnvelopes, Pruned;
  }

  /** Whatever comes under the key again, whenever: the text once more, or that it is known. */
  lemma RememberedIsAnswered(c: Client, k: Key, text: Bytes, at: nat, e: Envelope, newPair: Key32, now: nat,
                             okPrune: bool, ok: bool)
    requires Remembers(c, k, text, at) && e.version == PROTOCOL_VERSION
    ensures var r := DecryptToText(c, k.0, k.1, e, newPair, now, okPrune, ok);
            r.0 == c && r.1 == if c.mem.processed[k].pendingPlaintext.Some? then Pending(text) else Inbound.Duplicate
  {
    hide DecryptWithMarker;
  }

  /** The latest clock an event reads, if it reads one. */
  function Clock(ev: Event): (t: nat)
  {
    match ev
    case DoInitSession(_, _, _, _, now, _) => now
    case DoExpireStale(_, now, _) => now
    case DoRegister(_, _, now, _) => now
    case DoQueueRotation(_, _, now, _) => now
    case DoConfirmRotated(_, _, _, _, _, _, now, _) => now
    case DoReplenish(_, _, now, _) => now
    case DoConfirmUploaded(_, _, _, _, _, now, _, _) => now
    case DoDecrypt(_, _, _, _, now, _, _) => now
    case Crash(now) => now
    case _ => 0
  }

  lemma StillRemembered(c: Client, log: set<PendingOutbound>, ev: Event, k: Key, text: Bytes, at: nat)
    requires Inv(c) && Permitted(c, log, ev) && Remembers(c, k, text, at)
    requires Clock(ev) <= at + 31 * DAY && !AckTakes(c, ev, k.1)
    ensures Remembers(Step(c, log, ev).0, k, text, at)
  {
    hide Inv, Permitted, Step, AckTakes, TooOldFor, Clock;
    RowLeavesExactly(c, log, ev, k);
    NotTooOld(c, ev, at);
  }

  lemma NotTooOld(c: Client, ev: Event, at: nat)
    requires Clock(ev) <= at + 31 * DAY
    ensures !TooOldFor(c, ev, at)
  {}

  /** From the `n`-th event on, no clock is past `until` and no acknowledgement of the ID is confirmed. */
  ghost predicate Undisturbed(identity: Key32, evs: seq<Event>, n: nat, id: Uuid, until: nat)
    requires PermittedRun(identity, evs)
  {
    |evs| <= n
    || (Undisturbed(identity, evs[..|evs| - 1], n, id, until)
        && Clock(evs[|evs| - 1]) <= until && !AckTakes(Run(identity, evs[..|evs| - 1]).c, evs[|evs| - 1], id))
  }

  lemma {:induction false} PrefixPermitted(identity: Key32, evs: seq<Event>, n: nat)
    requires PermittedRun(identity, evs) && n <= |evs|
    ensures PermittedRun(identity, evs[..n])
  {
    if n < |evs| {
      PrefixPermitted(identity, evs[..|evs| - 1], n);
      assert evs[..|evs| - 1][..n] == evs[..n];
    } else {
      assert evs[..n] == evs;
    }
  }

  lemma {:induction false} OpenedStays(identity: Key32, evs: seq<Event>, n: nat, text: Bytes)
    requires PermittedRun(identity, evs) && n < |evs| && PermittedRun(identity, evs[..n])
    requires Opens(Run(identity, evs[..n]).c, evs[n], text)
    requires Undisturbed(identity, evs, n + 1, evs[n].id, evs[n].now + 31 * DAY)
    ensures Remembers(Run(identity, evs).c, (evs[n].peer, evs[n].id), text, evs[n].now)
    decreases |evs|
  {
    hide Inv, LogOk, Step, Permitted, Opens, AckTakes, Remembers, Clock, Items;
    var front, ev := evs[..|evs| - 1], evs[|evs| - 1];
    var h := Run(identity, front);
    RunKeepsAll(identity, front);
    if n == |evs| - 1 {
      assert front == evs[..n];
      OpeningRemembered(h.c, h.log, ev, text);
    } else {
      assert front[..n] == evs[..n] && front[n] == evs[n];
      IsDecrypt(Run(identity, evs[..n]).c, evs[n], text);
      OpenedStays(identity, front, n, text);
      StillRemembered(h.c, h.log, ev, (evs[n].peer, evs[n].id), text, evs[n].now);
    }
  }

  lemma IsDecrypt(c: Client, ev: Event, text: Bytes)
    requires Opens(c, ev, text)
    ensures ev.DoDecrypt?
  {}

  /** Over every run: once an envelope was opened, and for 31 days from then by every clock
      read since, as long as no acknowledgement of it was confirmed, its redelivery is
      answered with the text or as known, whatever failed, crashed or was opened in between. */
  lemma RedeliveryAnswered(identity: Key32, evs: seq<Event>, n: nat, text: Bytes, e: Envelope, newPair: Key32, now: nat,
                           okPrune: bool, ok: bool)
    requires PermittedRun(identity, evs) && n < |evs| && PermittedRun(identity, evs[..n])
    requires Opens(Run(identity, evs[..n]).c, evs[n], text)
    requires Undisturbed(identity, evs, n + 1, evs[n].id, evs[n].now + 31 * DAY)
    requires e.version == PROTOCOL_VERSION
    ensures var r := DecryptToText(Run(identity, evs).c, evs[n].peer, evs[n].id, e, newPair, now, okPrune, ok).1;
            r == Pending(text) || r == Inbound.Duplicate
  {
    OpenedStays(identity, evs, n, text);
    var c := Run(identity, evs).c;
    hide Run, PermittedRun, DecryptToText, Opens;
    RememberedIsAnswered(c, (evs[n].peer, evs[n].id), text, evs[n].now, e, newPair, now, okPrune, ok);
  }

  /** A confirmed acknowledgement takes exactly the rows it names, on both sides; every other
      delivery that was known is answered as before. */
  lemma AckedAnswers(c: Client, log: set<PendingOutbound>, ev: Event)
    requires Inv(c) && Permitted(c, log, ev) && ev.DoConfirmAcked? && ev.ok
    requires exists x :: x in c.mem.outbox && IsAck(x, ev.id, ev.ids)
    ensures
      var c' := Step(c, log, ev).0;
      && (forall k: Key :: k.1 in ev.ids ==> k !in c'.mem.processed && k !in c'.disk.processed)
      && (forall k: Key :: k.1 !in ev.ids ==> (k in c'.mem.processed <==> k in c.mem.processed))
      && (forall k: Key, e, newPair, now, okPrune, ok :: k in c.mem.processed && k.1 !in ev.ids ==>
            DecryptToText(c', k.0, k.1, e, newPair, now, okPrune, ok).1
            == DecryptToText(c, k.0, k.1, e, newPair, now, okPrune, ok).1)
  {
    AckFound(c, ev.id, ev.ids);
    assert c.mem.processed == c.disk.processed;
    hide Inv, RemoveAt, DeleteId, AckIndex, AckedIds;
    var c' := Step(c, log, ev).0;
    assert c'.mem.processed == c'.disk.processed == WithoutIds(c.mem.processed, ev.ids);
    hide Step, Permitted, DecryptWithMarker;
  }

  /** One that is not confirmed with its own IDs, or not saved, changes nothing. */
  lemma OtherAcksIgnored(c: Client, log: set<PendingOutbound>, ev: Event)
    requires Inv(c) && Permitted(c, log, ev) && ev.DoConfirmAcked?
    requires !ev.ok || !(exists x :: x in c.mem.outbox && IsAck(x, ev.id, ev.ids))
    ensures Step(c, log, ev).0 == c
  {
    AckFound(c, ev.id, ev.ids);
    hide Inv, RemoveAt, DeleteId, AckIndex, AckedIds;
  }
}
