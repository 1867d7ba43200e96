/** The client's 31 days against the relay's 30: as long as a message that was opened is
    still queued, its redelivery is answered, over every run on one clock. */
module Redelivery {
  import opened Wire
  import opened KeyAlgebra
  import opened Outbox
  import opened PrekeyStores
  import opened ClientSpec
  import opened ServerSpec
  import opened DeliverySpec
  import opened DeliveryNode
  import opened DeliveryRuns
  import opened DeliveryCauses
  import opened LedgerLifetime
  import ClientInvariant
  import ClientKeys
  import Runs = ClientRuns

  const GC_MAX_AGE_SECS := 30 * DAY
  const GC_INTERVAL_SECS := 3600

  // -- One client inside the system -----------------------------------------------------------

  lemma DecryptingRemembers(c: Client, log: set<PendingOutbound>, d: Delivery, newPair: Key32, now: nat, okPrune: bool,
                            ok: bool, okStored: bool, k: Key, text: Bytes, at: nat)
    requires ClientInvariant.Inv(c) && Remembers(c, k, text, at) && now <= at + 31 * DAY
    requires ClientKeys.NewPair(c.mem.core, Runs.LogEnvelopes(log), newPair)
    ensures var c1 := DecryptToText(c, d.sender, d.id, d.envelope, newPair, now, okPrune, ok).0;
            Remembers(c1, k, text, at) && Remembers(ConfirmInboundStored(c1, d.sender, d.id, okStored).0, k, text, at)
  {
    var ev := Runs.DoDecrypt(d.sender, d.id, d.envelope, newPair, now, okPrune, ok);
    var c1 := DecryptToText(c, d.sender, d.id, d.envelope, newPair, now, okPrune, ok).0;
    assert Runs.Permitted(c, log, ev) && Runs.Step(c, log, ev).0 == c1;
    NoAck(c, ev, k.1);
    var stored := Runs.DoConfirmStored(d.sender, d.id, okStored);
    assert Runs.Permitted(c1, log, stored)
           && Runs.Step(c1, log, stored).0 == ConfirmInboundStored(c1, d.sender, d.id, okStored).0;
    NoAck(c1, stored, k.1);
    hide Runs.Permitted, Runs.Step, ClientInvariant.Inv, DecryptToText, ConfirmInboundStored, AckTakes, Remembers;
    StillRemembered(c, log, ev, k, text, at);
    Runs.StepKeepsInv(c, log, ev);
    StillRemembered(c1, log, stored, k, text, at);
  }

  /** The latest clock the event reads. */
  function EventClock(ev: DeliverySpec.Event): (t: nat)
  {
    match ev
    case Local(_, e) => Clock(e)
    case Receive(_, _, _, now, _, _, _, _) => now
    case ReceiveReceipt(_, _, _, _, now, _, _, _) => now
    case Submit(_, _, now) => now
    case _ => 0
  }

  /** A confirmed acknowledgement of this user's takes the row. */
  ghost predicate AckTakesAt(s: System, ev: DeliverySpec.Event, u: UserId, id: Uuid)
  {
    ev.Local? && ev.user == u && u in s.nodes && AckTakes(s.nodes[u].client, ev.ev, id)
  }

  lemma LocalRemembers(s: System, ev: DeliverySpec.Event, u: UserId, k: Key, text: Bytes, at: nat)
    requires DeliverySpec.Permitted(s, ev) && ev.Local? && ev.user == u && ClientInvariant.Inv(s.nodes[u].client)
    requires Remembers(s.nodes[u].client, k, text, at) && Clock(ev.ev) <= at + 31 * DAY && !AckTakesAt(s, ev, u, k.1)
    ensures u in DeliverySpec.Step(s, ev).nodes && Remembers(DeliverySpec.Step(s, ev).nodes[u].client, k, text, at)
  {
    hide ClientInvariant.Inv, Remembers, Runs.Permitted, Runs.Step, AckTakes, Clock, DrawnNew, Rejects;
    var n := s.nodes[u];
    StillRemembered(n.client, n.log, ev.ev, k, text, at);
  }

  lemma ReceivingRemembers(s: System, ev: DeliverySpec.Event, u: UserId, k: Key, text: Bytes, at: nat)
    requires DeliverySpec.Permitted(s, ev) && (ev.Receive? || ev.ReceiveReceipt?) && ev.user == u
    requires ClientInvariant.Inv(s.nodes[u].client) && Remembers(s.nodes[u].client, k, text, at)
    requires ev.now <= at + 31 * DAY
    ensures u in DeliverySpec.Step(s, ev).nodes && Remembers(DeliverySpec.Step(s, ev).nodes[u].client, k, text, at)
  {
    hide ClientInvariant.Inv, Remembers, ClientKeys.NewPair, DecryptToText, ConfirmInboundStored;
    var n := s.nodes[u];
    DecryptingRemembers(n.client, n.log, ev.d, ev.newPair, ev.now, ev.okPrune, ev.ok, ev.okStored, k, text, at);
  }

  predicate Concerns(ev: DeliverySpec.Event, u: UserId)
  {
    (ev.Local? || ev.Receive? || ev.ReceiveReceipt?) && ev.user == u
  }

  lemma OtherClientsStay(s: System, ev: DeliverySpec.Event, u: UserId)
    requires DeliverySpec.Permitted(s, ev) && u in s.nodes && !Concerns(ev, u)
    ensures u in DeliverySpec.Step(s, ev).nodes && DeliverySpec.Step(s, ev).nodes[u].client == s.nodes[u].client
  {
    hide Runs.Permitted, Runs.Step, PermittedLocal, ProcessInbound, ProcessReceipt, ClientKeys.NewPair,
         ServerSpec.Enqueue, CollectOld, DeleteInvalidRow, DeleteMessages, ConfirmAcceptances, Rejects;
  }

  lemma SystemRemembers(s: System, ev: DeliverySpec.Event, u: UserId, k: Key, text: Bytes, at: nat)
    requires DeliverySpec.Permitted(s, ev) && u in s.nodes && ClientInvariant.Inv(s.nodes[u].client)
    requires Remembers(s.nodes[u].client, k, text, at) && EventClock(ev) <= at + 31 * DAY && !AckTakesAt(s, ev, u, k.1)
    ensures u in DeliverySpec.Step(s, ev).nodes && Remembers(DeliverySpec.Step(s, ev).nodes[u].client, k, text, at)
  {
    hide ClientInvariant.Inv, Remembers, DeliverySpec.Permitted, DeliverySpec.Step, AckTakesAt, Clock;
    if ev.Local? && ev.user == u {
      LocalRemembers(s, ev, u, k, text, at);
    } else if Concerns(ev, u) {
      ReceivingRemembers(s, ev, u, k, text, at);
    } else {
      OtherClientsStay(s, ev, u);
    }
  }

  // -- A run on one clock ---------------------------------------------------------------------

  /** The event happens at `t`: no client's clock is ahead of it, and the collector drops what
      is older than 30 days by it. */
  predicate OnClock(ev: DeliverySpec.Event, t: nat)
  {
    EventClock(ev) <= t
    && (ev.Receive? || ev.Submit? ==> ev.now == t)
    && (ev.Expire? ==> ev.cutoff == t - GC_MAX_AGE_SECS)
  }

  ghost predicate Timed(evs: seq<DeliverySpec.Event>, times: seq<nat>)
  {
    |evs| <= |times| && (forall i, j :: 0 <= i <= j < |times| ==> times[i] <= times[j])
    && (forall i :: 0 <= i < |evs| ==> OnClock(evs[i], times[i]))
  }

  /** The collector ran, no longer ago than its interval. */
  ghost predicate Collected(evs: seq<DeliverySpec.Event>, times: seq<nat>, now: nat)
    requires |evs| <= |times|
  {
    exists i :: 0 <= i < |evs| && evs[i].Expire? && now <= times[i] + GC_INTERVAL_SECS
  }

  /** The row is queued after the first `n` events and after each one since. */
  ghost predicate QueuedSince(start: System, evs: seq<DeliverySpec.Event>, n: nat, row: QueuedRow)
    requires DeliverySpec.PermittedRun(start, evs)
  {
    row in DeliverySpec.Run(start, evs).relay.queue && (|evs| <= n || QueuedSince(start, evs[..|evs| - 1], n, row))
  }

  /** From the `n`-th event on, an acknowledgement of the ID is confirmed only after the relay carried it out. */
  ghost predicate AcksCarriedOut(start: System, evs: seq<DeliverySpec.Event>, n: nat, u: UserId, id: Uuid)
    requires DeliverySpec.PermittedRun(start, evs)
  {
    |evs| <= n
    || (var front, ev := evs[..|evs| - 1], evs[|evs| - 1];
        AcksCarriedOut(start, front, n, u, id)
        && (AckTakesAt(DeliverySpec.Run(start, front), ev, u, id) ==>
              Acknowledge(u, Ack(ev.ev.id, ev.ev.ids)) in front))
  }

  lemma {:induction false} NotTaken(start: System, evs: seq<DeliverySpec.Event>, n: nat, row: QueuedRow, i: nat)
    requires DeliverySpec.PermittedRun(start, evs) && QueuedSince(start, evs, n, row) && n <= i < |evs|
    ensures !Takes(evs[i], row)
    decreases |evs|
  {
    hide DeliverySpec.Step, DeliverySpec.Permitted, Takes;
    var front := evs[..|evs| - 1];
    if i == |evs| - 1 {
      QueueExactly(DeliverySpec.Run(start, front), evs[i], row);
    } else {
      NotTaken(start, front, n, row, i);
      assert front[i] == evs[i];
    }
  }

  lemma LogGrows(s: System, ev: DeliverySpec.Event, u: UserId)
    requires DeliverySpec.Permitted(s, ev) && u in s.nodes
    ensures u in DeliverySpec.Step(s, ev).nodes && s.nodes[u].log <= DeliverySpec.Step(s, ev).nodes[u].log
  {
    hide Runs.Permitted, Runs.Step, DecryptToText, ConfirmInboundStored, ClientKeys.NewPair, ServerSpec.Enqueue,
         CollectOld, DeleteInvalidRow, DeleteMessages, ConfirmAcceptances, DrawnNew;
  }

  /** What was acknowledged once is in the log for good. */
  lemma {:induction false} AcknowledgedLogged(start: System, evs: seq<DeliverySpec.Event>, u: UserId,
                                              x: PendingOutbound)
    requires DeliverySpec.PermittedRun(start, evs) && Acknowledge(u, x) in evs
    ensures var s := DeliverySpec.Run(start, evs); u in s.nodes && x in s.nodes[u].log
  {
    var front, ev := evs[..|evs| - 1], evs[|evs| - 1];
    assert front + [ev] == evs;
    var s := DeliverySpec.Run(start, front);
    if ev == Acknowledge(u, x) {
      LogGrows(s, ev, u);
    } else {
      hide DeliverySpec.Step, DeliverySpec.Permitted;
      AcknowledgedLogged(start, front, u, x);
      LogGrows(s, ev, u);
    }
  }

  /** The acknowledgement of a row that is still queued was carried out before the row's first
      `n` events were over. */
  lemma {:induction false} AcknowledgedBefore(start: System, evs: seq<DeliverySpec.Event>, n: nat, row: QueuedRow,
                                              x: PendingOutbound)
    requires DeliverySpec.PermittedRun(start, evs) && QueuedSince(start, evs, n, row) && n <= |evs|
    requires x.Ack? && row.messageId in x.messageIds && Acknowledge(row.recipient, x) in evs
    ensures Acknowledge(row.recipient, x) in evs[..n]
  {
    if i :| n <= i < |evs| && evs[i] == Acknowledge(row.recipient, x) {
      NotTaken(start, evs, n, row, i);
    }
  }

  /** The envelope was not known and is opened. */
  ghost predicate OpensAt(s: System, ev: DeliverySpec.Event, text: Bytes)
  {
    ev.Receive? && ev.user in s.nodes && (ev.d.sender, ev.d.id) !in s.nodes[ev.user].client.mem.processed
    && DecryptToText(s.nodes[ev.user].client, ev.d.sender, ev.d.id, ev.d.envelope, ev.newPair, ev.now, ev.okPrune,
                     ev.ok).1
       == Pending(text)
  }

  lemma OpenedRemembers(c: Client, log: set<PendingOutbound>, d: Delivery, newPair: Key32, now: nat, okPrune: bool,
                        ok: bool, okStored: bool, text: Bytes)
    requires ClientInvariant.Inv(c) && ClientKeys.NewPair(c.mem.core, Runs.LogEnvelopes(log), newPair)
    requires (d.sender, d.id) !in c.mem.processed
    requires DecryptToText(c, d.sender, d.id, d.envelope, newPair, now, okPrune, ok).1 == Pending(text)
    ensures var c1 := DecryptToText(c, d.sender, d.id, d.envelope, newPair, now, okPrune, ok).0;
            Remembers(c1, (d.sender, d.id), text, now)
            && Remembers(ConfirmInboundStored(c1, d.sender, d.id, okStored).0, (d.sender, d.id), text, now)
  {
    hide ClientInvariant.Inv, Remembers, ClientKeys.NewPair, AckTakes, DecryptToText, ConfirmInboundStored;
    var opening := Runs.DoDecrypt(d.sender, d.id, d.envelope, newPair, now, okPrune, ok);
    var c1 := DecryptToText(c, d.sender, d.id, d.envelope, newPair, now, okPrune, ok).0;
    OpeningRemembered(c, log, opening, text);
    Runs.StepKeepsInv(c, log, opening);
    var stored := Runs.DoConfirmStored(d.sender, d.id, okStored);
    NoAck(c1, stored, d.id);
    StillRemembered(c1, log, stored, (d.sender, d.id), text, now);
  }

  lemma OpeningAt(s: System, ev: DeliverySpec.Event, text: Bytes)
    requires DeliverySpec.Permitted(s, ev) && OpensAt(s, ev, text) && ClientInvariant.Inv(s.nodes[ev.user].client)
    ensures ev.user in DeliverySpec.Step(s, ev).nodes
            && Remembers(DeliverySpec.Step(s, ev).nodes[ev.user].client, (ev.d.sender, ev.d.id), text, ev.now)
  {
    hide ClientInvariant.Inv, Remembers, ClientKeys.NewPair, DecryptToText, ConfirmInboundStored;
    var n := s.nodes[ev.user];
    OpenedRemembers(n.client, n.log, ev.d, ev.newPair, ev.now, ev.okPrune, ev.ok, ev.okStored, text);
  }

  lemma InvOf(start: System, evs: seq<DeliverySpec.Event>, u: UserId)
    requires Initial(start) && DeliverySpec.PermittedRun(start, evs) && u in DeliverySpec.Run(start, evs).nodes
    ensures ClientInvariant.Inv(DeliverySpec.Run(start, evs).nodes[u].client)
  {
    hide DeliverySpec.Run, DeliverySpec.PermittedRun, Initial, ClientInvariant.Inv;
    RunKeeps(start, evs);
    NodeIsOk(DeliverySpec.Run(start, evs), u);
  }

  /** No acknowledgement that names the ID was ever queued. */
  ghost predicate Unacknowledged(s: System, u: UserId, id: Uuid)
  {
    u in s.nodes && forall x :: x in s.nodes[u].log && x.Ack? ==> id !in x.messageIds
  }

  lemma NotAcked(start: System, evs: seq<DeliverySpec.Event>, n: nat, row: QueuedRow)
    requires DeliverySpec.PermittedRun(start, evs) && n < |evs| && DeliverySpec.PermittedRun(start, evs[..n])
    requires QueuedSince(start, evs, n, row) && AcksCarriedOut(start, evs, n, row.recipient, row.messageId)
    requires Unacknowledged(DeliverySpec.Run(start, evs[..n]), row.recipient, row.messageId)
    ensures !AckTakesAt(DeliverySpec.Run(start, evs[..|evs| - 1]), evs[|evs| - 1], row.recipient, row.messageId)
  {
    var front, ev := evs[..|evs| - 1], evs[|evs| - 1];
    var u := row.recipient;
    if AckTakesAt(DeliverySpec.Run(start, front), ev, u, row.messageId) {
      var x := Ack(ev.ev.id, ev.ev.ids);
      AcknowledgedBefore(start, front, n, row, x);
      assert front[..n] == evs[..n];
      AcknowledgedLogged(start, evs[..n], u, x);
    }
  }

  lemma {:induction false} StaysRemembered(start: System, evs: seq<DeliverySpec.Event>, times: seq<nat>, n: nat,
                                           row: QueuedRow, text: Bytes)
    requires Initial(start) && DeliverySpec.PermittedRun(start, evs) && n < |evs|
             && DeliverySpec.PermittedRun(start, evs[..n])
    requires Timed(evs, times) && times[|evs| - 1] <= times[n] + 31 * DAY
    requires OpensAt(DeliverySpec.Run(start, evs[..n]), evs[n], text)
    requires Opening(evs[n], row) && QueuedSince(start, evs, n, row)
    requires AcksCarriedOut(start, evs, n, row.recipient, row.messageId)
    requires Unacknowledged(DeliverySpec.Run(start, evs[..n]), row.recipient, row.messageId)
    ensures var s := DeliverySpec.Run(start, evs);
            row.recipient in s.nodes
            && Remembers(s.nodes[row.recipient].client, (row.sender, row.messageId), text, times[n])
    decreases |evs|
  {
    hide DeliverySpec.Step, DeliverySpec.Permitted, Initial, ClientInvariant.Inv, Remembers, OpensAt, AckTakesAt,
         EventClock, Unacknowledged;
    var front, ev := evs[..|evs| - 1], evs[|evs| - 1];
    var u, k := row.recipient, (row.sender, row.messageId);
    var s := DeliverySpec.Run(start, front);
    if n == |evs| - 1 {
      assert front == evs[..n];
      Present(s, ev, text);
      InvOf(start, front, u);
      OpeningAt(s, ev, text);
    } else {
      assert front[..n] == evs[..n] && front[n] == evs[n];
      StaysRemembered(start, front, times, n, row, text);
      InvOf(start, front, u);
      NotAcked(start, evs, n, row);
      SystemRemembers(s, ev, u, k, text, times[n]);
    }
  }

  lemma Present(s: System, ev: DeliverySpec.Event, text: Bytes)
    requires OpensAt(s, ev, text)
    ensures ev.Receive? && ev.user in s.nodes
  {}

  /** The event receives the message of this row. */
  predicate Opening(ev: DeliverySpec.Event, row: QueuedRow)
  {
    ev.Receive? && row.recipient == ev.user && row.sender == ev.d.sender && row.messageId == ev.d.id
  }

  /** A row still queued an interval after a collection is not older than 30 days and that interval. */
  lemma StillYoung(start: System, evs: seq<DeliverySpec.Event>, times: seq<nat>, n: nat, row: QueuedRow, now: nat)
    requires Initial(start) && DeliverySpec.PermittedRun(start, evs) && n < |evs|
             && DeliverySpec.PermittedRun(start, evs[..n])
    requires Timed(evs, times) && Collected(evs, times, now) && QueuedSince(start, evs, n, row)
    ensures now <= times[n] + GC_MAX_AGE_SECS + GC_INTERVAL_SECS
  {
    hide DeliverySpec.Run, DeliverySpec.PermittedRun, QueuedSince;
    var i :| 0 <= i < |evs| && evs[i].Expire? && now <= times[i] + GC_INTERVAL_SECS;
    if n <= i {
      NotTaken(start, evs, n, row, i);
      QueuedThen(start, evs, n, row);
      QueueSubmitted(start, evs[..n], row);
      var j :| 0 <= j < |evs[..n]| && RowOf(row, evs[..n][j]);
      assert evs[j] == evs[..n][j];
    }
  }

  lemma {:induction false} QueuedThen(start: System, evs: seq<DeliverySpec.Event>, n: nat, row: QueuedRow)
    requires DeliverySpec.PermittedRun(start, evs) && QueuedSince(start, evs, n, row) && n <= |evs|
    requires DeliverySpec.PermittedRun(start, evs[..n])
    ensures row in DeliverySpec.Run(start, evs[..n]).relay.queue
    decreases |evs|
  {
    if n < |evs| {
      assert evs[..|evs| - 1][..n] == evs[..n];
      QueuedThen(start, evs[..|evs| - 1], n, row);
    } else {
      assert evs[..n] == evs;
    }
  }

  /** Over every run of all clients and the relay on one clock: a message that was opened
      while its row was queued, and whose row has stayed queued, is answered when it is
      delivered again with the text or as known, never as a failure. */
  lemma QueuedIsAnswered(start: System, evs: seq<DeliverySpec.Event>, times: seq<nat>, n: nat, row: QueuedRow,
                         text: Bytes, e: Envelope, newPair: Key32, now: nat, okPrune: bool, ok: bool)
    requires Initial(start) && DeliverySpec.PermittedRun(start, evs) && n < |evs|
             && DeliverySpec.PermittedRun(start, evs[..n])
    requires Timed(evs, times) && times[|evs| - 1] <= now && Collected(evs, times, now)
    requires OpensAt(DeliverySpec.Run(start, evs[..n]), evs[n], text)
    requires Opening(evs[n], row) && QueuedSince(start, evs, n, row)
    requires AcksCarriedOut(start, evs, n, row.recipient, row.messageId)
    requires Unacknowledged(DeliverySpec.Run(start, evs[..n]), row.recipient, row.messageId)
    requires e.version == PROTOCOL_VERSION
    ensures var s := DeliverySpec.Run(start, evs);
            row.recipient in s.nodes
            && var r := DecryptToText(s.nodes[row.recipient].client, row.sender, row.messageId, e, newPair, now,
                                      okPrune, ok).1;
               r == Pending(text) || r == Inbound.Duplicate
  {
    hide DeliverySpec.Run, DeliverySpec.PermittedRun, QueuedSince, AcksCarriedOut, OpensAt, Collected, DecryptToText,
         Unacknowledged, Initial;
    StillYoung(start, evs, times, n, row, now);
    StaysRemembered(start, evs, times, n, row, text);
    var c := DeliverySpec.Run(start, evs).nodes[row.recipient].client;
    RememberedIsAnswered(c, (row.sender, row.messageId), text, times[n], e, newPair, now, okPrune, ok);
  }
}
