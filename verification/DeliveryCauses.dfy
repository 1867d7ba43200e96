/** No accepted message is lost: why a message was given up is read off the events of
    the run, not off the table it left. */
module DeliveryCauses {
  import opened Wire
  import opened KeyAlgebra
  import opened Outbox
  import opened ClientSpec
  import opened ServerSpec
  import opened DeliverySpec
  import opened DeliveryRuns
  import Relay = ServerRuns
  import Runs = ClientRuns

  // -- What each event does to the queue -------------------------------------------------

  /** The row a submitted message becomes. */
  predicate RowOf(row: QueuedRow, ev: Event)
  {
    ev.Submit? && ev.item.Message? && row.messageId == ev.item.messageId && row.recipient == ev.item.recipient
    && row.sender == ev.user && row.envelope == ev.item.envelope && row.createdAt == ev.now
  }

  /** The event takes the row out of the queue. */
  predicate Takes(ev: Event, row: QueuedRow)
  {
    match ev
    case Expire(cutoff) => row.createdAt < cutoff
    case Discard(recipient, rowId) => row.recipient == recipient && row.rowId == rowId
    case Acknowledge(u, item) => item.Ack? && row.recipient == u && row.messageId in item.messageIds
    case _ => false
  }

  lemma ExpireRows(d: Db, cutoff: int, row: QueuedRow)
    ensures row in CollectOld(d, cutoff).queue <==> row in d.queue && row.createdAt >= cutoff
  {
    RemainingExactly(d.queue, (row: QueuedRow) => row.createdAt >= cutoff, row);
  }

  lemma DiscardRows(d: Db, recipient: UserId, rowId: nat, row: QueuedRow)
    ensures row in DeleteInvalidRow(d, recipient, rowId).queue
            <==> row in d.queue && !(row.recipient == recipient && row.rowId == rowId)
  {
    RemainingExactly(d.queue, (row: QueuedRow) => row.recipient != recipient || row.rowId != rowId, row);
  }

  lemma AckRows(d: Db, recipient: UserId, ids: seq<Uuid>, row: QueuedRow)
    ensures row in DeleteMessages(d, recipient, ids).queue
            <==> row in d.queue && !(row.recipient == recipient && row.messageId in ids)
  {
    RemainingExactly(d.queue, (row: QueuedRow) => row.recipient != recipient || row.messageId !in ids, row);
  }

  /** For every event and every row: it stays exactly unless the event takes it, and a row
      that is new is that of the message submitted. */
  lemma QueueExactly(s: System, ev: Event, row: QueuedRow)
    requires Permitted(s, ev)
    ensures row in s.relay.queue ==> (row in Step(s, ev).relay.queue <==> !Takes(ev, row))
    ensures row in Step(s, ev).relay.queue && row !in s.relay.queue ==> RowOf(row, ev)
  {
    hide Remaining, Runs.Permitted, Runs.Step, PermittedLocal, ProcessInbound, ProcessReceipt, KeptCopy;
    match ev
    case Expire(cutoff) => ExpireRows(s.relay, cutoff, row);
    case Discard(recipient, rowId) => DiscardRows(s.relay, recipient, rowId, row);
    case Acknowledge(u, item) => AckRows(s.relay, u, item.messageIds, row);
    case Submit(u, item, now) =>
      var q := EnqueueRequest(item.messageId, item.recipient, u, item.envelope, now);
      SubmittedRows(s.relay, q, row);
      hide ServerSpec.Enqueue;
    case _ =>
  }

  /** The relay takes the message: it is new and admitted, or one it knows already. */
  predicate Taken(s: System, ev: Event)
  {
    ev.Submit? && ev.item.Message?
    && Relay.Admits(ServerSpec.Enqueue(s.relay, EnqueueRequest(ev.item.messageId, ev.item.recipient, ev.user,
                                                               ev.item.envelope, ev.now)).1)
  }

  /** For every event, what the relay sends: a notice to the sender of each message it takes,
      and to the recipient that message or a row pushed from the queue. */
  lemma SentExactly(s: System, ev: Event, n: Notice, d: Delivery)
    requires Permitted(s, ev)
    ensures n in Step(s, ev).notices <==>
              n in s.notices || (Taken(s, ev) && n == Notice(ev.user, ev.item.recipient, ev.item.messageId))
    ensures d in Step(s, ev).inbound <==>
              || d in s.inbound
              || (Taken(s, ev) && d == Delivery(ev.item.recipient, ev.user, ev.item.messageId, ev.item.envelope))
              || (ev.Push? && d == Delivery(ev.row.recipient, ev.row.sender, ev.row.messageId, ev.row.envelope))
  {
    hide Runs.Permitted, Runs.Step, PermittedLocal, ProcessInbound, ProcessReceipt, KeptCopy, ServerSpec.Enqueue,
         CollectOld, DeleteInvalidRow, DeleteMessages, ConfirmAcceptances, Relay.Admits;
  }

  lemma SubmittedRows(d: Db, q: EnqueueRequest, row: QueuedRow)
    ensures var d' := ServerSpec.Enqueue(d, q).0;
            && (row in d.queue ==> row in d'.queue)
            && (row in d'.queue && row !in d.queue ==>
                  row.messageId == q.messageId && row.recipient == q.recipient && row.sender == q.sender
                  && row.envelope == q.envelope && row.createdAt == q.now)
  {
    hide Claim, QueuedFor, InQueue;
    ClaimKeepsQueue(d, q);
  }

  lemma ClaimKeepsQueue(d: Db, q: EnqueueRequest)
    ensures Claim(d, q).Success? ==> Claim(d, q).value.queue == d.queue
  {
    hide AcceptedFrom, FindKey, LiveReservations;
  }

  // -- Why a message was given up ----------------------------------------------------------

  /** The message waits in the outbox of a client that hears it was rejected. */
  ghost predicate Rejecting(s: System, ev: Event, id: Uuid)
  {
    ev.Local? && ev.ev.DoReject? && ev.ev.ok && ev.ev.id == id && ev.user in s.nodes
    && exists x :: x in s.nodes[ev.user].client.mem.outbox && x.Message? && x.messageId == id
  }

  /** The row of the message is deleted as invalid. */
  ghost predicate Invalidating(s: System, ev: Event, id: Uuid)
  {
    ev.Discard? && exists row :: row in s.relay.queue && row.messageId == id && Takes(ev, row)
  }

  ghost predicate Rejected(start: System, evs: seq<Event>, id: Uuid)
  {
    exists i :: 0 <= i < |evs| && PermittedRun(start, evs[..i]) && Rejecting(Run(start, evs[..i]), evs[i], id)
  }

  ghost predicate Invalid(start: System, evs: seq<Event>, id: Uuid)
  {
    exists i :: 0 <= i < |evs| && PermittedRun(start, evs[..i]) && Invalidating(Run(start, evs[..i]), evs[i], id)
  }

  /** It was submitted before the cutoff of a later collection. */
  ghost predicate AgedOut(evs: seq<Event>, id: Uuid)
  {
    exists i, j :: 0 <= i < j < |evs| && Ages(evs[i], evs[j], id)
  }

  predicate Ages(submit: Event, expire: Event, id: Uuid)
  {
    submit.Submit? && submit.item.Message? && submit.item.messageId == id && expire.Expire?
      && submit.now < expire.cutoff
  }

  ghost predicate Caused(start: System, evs: seq<Event>, id: Uuid)
  {
    Rejected(start, evs, id) || AgedOut(evs, id) || Invalid(start, evs, id)
  }

  /** Every row in the queue was submitted, at the time it notes. */
  ghost predicate Submitted(evs: seq<Event>, row: QueuedRow)
  {
    exists i :: 0 <= i < |evs| && RowOf(row, evs[i])
  }

  lemma SubmittedGrows(evs: seq<Event>, ev: Event, row: QueuedRow)
    requires Submitted(evs, row)
    ensures Submitted(evs + [ev], row)
  {
    var i :| 0 <= i < |evs| && RowOf(row, evs[i]);
    assert (evs + [ev])[i] == evs[i];
  }

  lemma CausedGrows(start: System, evs: seq<Event>, ev: Event, id: Uuid)
    requires Caused(start, evs, id)
    ensures Caused(start, evs + [ev], id)
  {
    hide PermittedRun, Run, Rejecting, Invalidating, Ages;
    var more := evs + [ev];
    assert forall i :: 0 <= i < |evs| ==> more[..i] == evs[..i] && more[i] == evs[i];
    if Rejected(start, evs, id) {
      var i :| 0 <= i < |evs| && PermittedRun(start, evs[..i]) && Rejecting(Run(start, evs[..i]), evs[i], id);
      assert PermittedRun(start, more[..i]) && Rejecting(Run(start, more[..i]), more[i], id);
    } else if Invalid(start, evs, id) {
      var i :| 0 <= i < |evs| && PermittedRun(start, evs[..i]) && Invalidating(Run(start, evs[..i]), evs[i], id);
      assert PermittedRun(start, more[..i]) && Invalidating(Run(start, more[..i]), more[i], id);
    } else {
      var i, j :| 0 <= i < j < |evs| && Ages(evs[i], evs[j], id);
      assert Ages(more[i], more[j], id);
    }
  }

  lemma {:induction false} QueueSubmitted(start: System, evs: seq<Event>, row: QueuedRow)
    requires Initial(start) && PermittedRun(start, evs) && row in Run(start, evs).relay.queue
    ensures Submitted(evs, row)
  {
    if evs != [] {
      var front, ev := evs[..|evs| - 1], evs[|evs| - 1];
      assert front + [ev] == evs;
      hide Step, Permitted, RowOf;
      QueueExactly(Run(start, front), ev, row);
      if row in Run(start, front).relay.queue {
        QueueSubmitted(start, front, row);
        SubmittedGrows(front, ev, row);
      } else {
        assert evs[|evs| - 1] == ev;
      }
    }
  }

  /** What one event adds to the messages given up. */
  lemma DroppedBy(s: System, ev: Event, id: Uuid)
    requires Permitted(s, ev) && id in Step(s, ev).dropped && id !in s.dropped
    ensures Rejecting(s, ev, id)
            || ((ev.Expire? || ev.Discard?)
                && exists row :: row in s.relay.queue && row.messageId == id && Takes(ev, row))
  {
    hide Runs.Permitted, Runs.Step, Remaining, ProcessInbound, ProcessReceipt, KeptCopy;
    if ev.Local? {
      var out := s.nodes[ev.user].client.mem.outbox;
      hide DrawnNew;
      var i := MessageIndex(out, id).value;
      assert out[i] in out;
    } else if ev.Expire? || ev.Discard? {
      LeftQueue(s, ev, id);
    }
  }

  lemma LeftQueue(s: System, ev: Event, id: Uuid)
    requires Permitted(s, ev) && (ev.Expire? || ev.Discard?) && id in Step(s, ev).dropped && id !in s.dropped
    ensures exists row :: row in s.relay.queue && row.messageId == id && Takes(ev, row)
  {
    DropStep(s, ev);
    QueueStill(s, ev);
    hide Step, CollectOld, DeleteInvalidRow, Takes;
    var queue, queue' := s.relay.queue, Step(s, ev).relay.queue;
    assert id in MessageIds(queue) && id !in MessageIds(queue');
    var i :| 0 <= i < |queue| && queue[i].messageId == id;
    var row := queue[i];
  }

  lemma QueueStill(s: System, ev: Event)
    requires Permitted(s, ev)
    ensures forall row :: row in s.relay.queue ==> (row in Step(s, ev).relay.queue <==> !Takes(ev, row))
  {
    hide Step, Permitted, Takes;
    forall row | row in s.relay.queue
      ensures row in Step(s, ev).relay.queue <==> !Takes(ev, row)
    {
      QueueExactly(s, ev, row);
    }
  }

  lemma {:induction false} DroppedCaused(start: System, evs: seq<Event>, id: Uuid)
    requires Initial(start) && PermittedRun(start, evs) && id in Run(start, evs).dropped
    ensures Caused(start, evs, id)
  {
    if evs != [] {
      var front, ev := evs[..|evs| - 1], evs[|evs| - 1];
      assert front + [ev] == evs;
      var s := Run(start, front);
      if id in s.dropped {
        DroppedCaused(start, front, id);
        CausedGrows(start, front, ev, id);
      } else {
        hide Step, Permitted, Takes;
        DroppedBy(s, ev, id);
        NewlyCaused(start, front, ev, id);
      }
    }
  }

  lemma NewlyCaused(start: System, front: seq<Event>, ev: Event, id: Uuid)
    requires Initial(start) && PermittedRun(start, front)
    requires var s := Run(start, front);
             Rejecting(s, ev, id)
             || ((ev.Expire? || ev.Discard?)
                 && exists row :: row in s.relay.queue && row.messageId == id && Takes(ev, row))
    ensures Caused(start, front + [ev], id)
  {
    var s, evs, n := Run(start, front), front + [ev], |front|;
    assert evs[..n] == front && evs[n] == ev;
    hide Run, PermittedRun;
    if !Rejecting(s, ev, id) {
      var row :| row in s.relay.queue && row.messageId == id && Takes(ev, row);
      if ev.Discard? {
        assert Invalidating(s, ev, id);
      } else {
        QueueSubmitted(start, front, row);
        var i :| 0 <= i < |front| && RowOf(row, front[i]);
        assert evs[i] == front[i] && Ages(evs[i], evs[n], id);
      }
    }
  }

  /** Over every run, with crashes and store failures anywhere: a message that was
      ever committed to an outbox is still there, or queued at the relay, or in its
      recipient's history, from its sender and with its text; or a rejection of it took
      effect while it waited, or it was submitted before the cutoff of a later collection,
      or its row was deleted as invalid. */
  lemma NoMessageLost(start: System, evs: seq<Event>, u: UserId, x: PendingOutbound)
    requires Initial(start) && PermittedRun(start, evs)
    requires u in Run(start, evs).nodes && x in Run(start, evs).nodes[u].log && x.Message?
    ensures
      var s := Run(start, evs);
      || x in s.nodes[u].client.mem.outbox
      || InQueue(s.relay.queue, x.messageId)
      || (x.recipient in s.nodes
          && Row(u, Received, x.messageId, x.envelope.ciphertext.plaintext) in s.nodes[x.recipient].history)
      || Rejected(start, evs, x.messageId) || AgedOut(evs, x.messageId) || Invalid(start, evs, x.messageId)
  {
    hide Run, PermittedRun, Initial;
    MessagesConserved(start, evs, u, x);
    if x.messageId in Run(start, evs).dropped {
      DroppedCaused(start, evs, x.messageId);
    }
  }

  /** A collection keeps exactly the rows that are not older than its cutoff. */
  lemma YoungRowsStay(s: System, cutoff: int, row: QueuedRow)
    ensures row in Step(s, Expire(cutoff)).relay.queue <==> row in s.relay.queue && row.createdAt >= cutoff
  {
    ExpireRows(s.relay, cutoff, row);
  }
}
