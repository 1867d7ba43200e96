/** Over every run of the whole system, each message ever encrypted is in its sender's
    outbox, in the relay's queue, or in its recipient's history, unless it is recorded
    as given up. */
module DeliveryRuns {
  import opened Wire
  import opened Outbox
  import opened ServerSpec
  import opened DeliverySpec
  import opened DeliveryNode
  import ClientInvariant
  import ClientKeys
  import Relay = ServerRuns
  import Runs = ClientRuns

  ghost predicate Known(nodes: map<UserId, Node>, sender: UserId, recipient: UserId, id: Uuid, e: Envelope)
  {
    sender in nodes && Message(recipient, id, e) in nodes[sender].log
  }

  ghost predicate Unique(nodes: map<UserId, Node>)
  {
    forall u, v, x, y ::
      (u in nodes && v in nodes && x in nodes[u].log && y in nodes[v].log && x.Message? && y.Message?
       && x.messageId == y.messageId) ==> u == v && x == y
  }

  /** The message has reached the queue or the history, or was given up. */
  ghost predicate Settled(nodes: map<UserId, Node>, queue: seq<QueuedRow>, dropped: set<Uuid>, id: Uuid,
                          recipient: UserId)
  {
    || InQueue(queue, id)
    || (recipient in nodes && id in ReceivedIds(nodes[recipient].history))
    || id in dropped
  }

  ghost predicate QueueKnown(nodes: map<UserId, Node>, queue: seq<QueuedRow>)
  {
    forall row :: row in queue ==> Known(nodes, row.sender, row.recipient, row.messageId, row.envelope)
  }

  ghost predicate AcceptancesOk(nodes: map<UserId, Node>, relay: Db, dropped: set<Uuid>)
  {
    forall id :: id in relay.acceptances ==>
      var a := relay.acceptances[id];
      Known(nodes, a.sender, a.recipient, id, a.digest) && Settled(nodes, relay.queue, dropped, id, a.recipient)
  }

  ghost predicate Noticed(nodes: map<UserId, Node>, n: Notice)
  {
    exists e :: Known(nodes, n.user, n.recipient, n.id, e)
  }

  ghost predicate NoticesOk(nodes: map<UserId, Node>, queue: seq<QueuedRow>, dropped: set<Uuid>, notices: set<Notice>)
  {
    forall n :: n in notices ==> Noticed(nodes, n) && Settled(nodes, queue, dropped, n.id, n.recipient)
  }

  ghost predicate InboundKnown(nodes: map<UserId, Node>, inbound: set<Delivery>)
  {
    forall d :: d in inbound ==> Known(nodes, d.sender, d.recipient, d.id, d.envelope)
  }

  /** A message its peer sent to `u`, with the text the peer sealed. */
  ghost predicate SentTo(nodes: map<UserId, Node>, u: UserId, row: Row)
  {
    row.direction.Received? && exists e :: Known(nodes, row.peer, u, row.id, e) && row.text == e.ciphertext.plaintext
  }

  /** A copy of a message `u` sent, with the text `u` sealed. */
  ghost predicate CopyOf(nodes: map<UserId, Node>, u: UserId, row: Row)
  {
    row.direction.Sent? && exists e :: Known(nodes, u, row.peer, row.id, e) && row.text == e.ciphertext.plaintext
  }

  /** A note of `u`'s to themselves, whose ID no message has. */
  ghost predicate NoteOf(nodes: map<UserId, Node>, u: UserId, row: Row)
  {
    row.direction.Sent? && row.peer == u
    && forall v, x :: v in nodes && x in nodes[v].log && x.Message? ==> x.messageId != row.id
  }

  ghost predicate RowKnown(nodes: map<UserId, Node>, u: UserId, row: Row)
  {
    SentTo(nodes, u, row) || CopyOf(nodes, u, row) || NoteOf(nodes, u, row)
  }

  ghost predicate HistoryKnown(nodes: map<UserId, Node>)
  {
    forall u, row :: u in nodes && row in nodes[u].history ==> RowKnown(nodes, u, row)
  }

  /** No client seals messages to its own user. */
  ghost predicate NoSelf(nodes: map<UserId, Node>)
  {
    forall u, x :: u in nodes && x in nodes[u].log && x.Message? ==> x.recipient != u
  }

  /** A pending text is one that was sent to the client, or that of a receipt. */
  ghost predicate PendingKnown(nodes: map<UserId, Node>)
  {
    forall u, k ::
      u in nodes && k in nodes[u].client.mem.processed && nodes[u].client.mem.processed[k].pendingPlaintext.Some?
      ==> k in nodes[u].receipts
          || SentTo(nodes, u, Row(k.0, Received, k.1, nodes[u].client.mem.processed[k].pendingPlaintext.value))
  }

  ghost predicate ReceiptSent(nodes: map<UserId, Node>, k: (UserId, Uuid))
  {
    k.0 in nodes && exists x :: x in nodes[k.0].log && x.ReadReceipt? && x.receiptId == k.1
  }

  /** What a client takes for a receipt, its sender sent as one. */
  ghost predicate ReceiptsKnown(nodes: map<UserId, Node>)
  {
    forall u, k :: u in nodes && k in nodes[u].receipts ==> ReceiptSent(nodes, k)
  }

  ghost predicate Conserved(nodes: map<UserId, Node>, queue: seq<QueuedRow>, dropped: set<Uuid>)
  {
    forall u, x :: u in nodes && x in nodes[u].log && x.Message? ==>
      x in nodes[u].client.mem.outbox || Settled(nodes, queue, dropped, x.messageId, x.recipient)
  }

  ghost predicate NodesOk(nodes: map<UserId, Node>) { forall u :: u in nodes ==> NodeOk(nodes[u]) }

  ghost predicate SystemOk(s: System)
  {
    && NodesOk(s.nodes) && Unique(s.nodes) && NoSelf(s.nodes)
    && QueueKnown(s.nodes, s.relay.queue)
    && AcceptancesOk(s.nodes, s.relay, s.dropped)
    && NoticesOk(s.nodes, s.relay.queue, s.dropped, s.notices)
    && InboundKnown(s.nodes, s.inbound)
    && HistoryKnown(s.nodes) && PendingKnown(s.nodes) && ReceiptsKnown(s.nodes)
    && Conserved(s.nodes, s.relay.queue, s.dropped)
  }

  lemma InitialOk(s: System)
    requires Initial(s)
    ensures SystemOk(s)
  {
    forall u | u in s.nodes
      ensures NodeOk(s.nodes[u])
    {
      ClientInvariant.FreshOk(s.nodes[u].client.identity);
    }
  }

  // -- A step of one client ------------------------------------------------------

  /** What the other parts of the system may still rely on. */
  ghost predicate Grows(nodes: map<UserId, Node>, nodes': map<UserId, Node>)
  {
    forall u :: u in nodes ==>
      u in nodes' && nodes[u].log <= nodes'[u].log && ReceivedIds(nodes[u].history) <= ReceivedIds(nodes'[u].history)
  }

  lemma StillKnown(s: System, nodes': map<UserId, Node>, dropped': set<Uuid>)
    requires SystemOk(s) && Grows(s.nodes, nodes') && s.dropped <= dropped'
    ensures QueueKnown(nodes', s.relay.queue)
    ensures AcceptancesOk(nodes', s.relay, dropped')
    ensures InboundKnown(nodes', s.inbound)
  {
    hide NodeOk, Ids, Unique, Conserved, HistoryKnown, NoticesOk;
  }

  lemma StillNoticed(s: System, nodes': map<UserId, Node>, dropped': set<Uuid>)
    requires SystemOk(s) && Grows(s.nodes, nodes') && s.dropped <= dropped'
    ensures NoticesOk(nodes', s.relay.queue, dropped', s.notices)
  {
    hide NodeOk, Ids, Unique, Conserved, AcceptancesOk, QueueKnown, InboundKnown, HistoryKnown, PendingKnown,
         ReceiptsKnown;
    forall n | n in s.notices
      ensures Noticed(nodes', n)
    {
      assert Noticed(s.nodes, n);
      var e :| Known(s.nodes, n.user, n.recipient, n.id, e);
      assert Known(nodes', n.user, n.recipient, n.id, e);
    }
  }

  lemma StillSent(nodes: map<UserId, Node>, nodes': map<UserId, Node>, u: UserId, row: Row)
    requires Grows(nodes, nodes') && SentTo(nodes, u, row)
    ensures SentTo(nodes', u, row)
  {
    var e :| Known(nodes, row.peer, u, row.id, e) && row.text == e.ciphertext.plaintext;
    assert Known(nodes', row.peer, u, row.id, e);
  }

  /** No message made by this step has the ID of a row there is. */
  ghost predicate RowsSpared(nodes: map<UserId, Node>, made: set<Uuid>)
  {
    forall v, row :: v in nodes && row in nodes[v].history ==> row.id !in made
  }

  lemma StillRow(nodes: map<UserId, Node>, u: UserId, n': Node, made: set<Uuid>, v: UserId, row: Row)
    requires u in nodes && Grows(nodes, nodes[u := n']) && RowKnown(nodes, v, row) && row.id !in made
    requires forall x :: x in n'.log && x !in nodes[u].log && x.Message? ==> x.messageId in made
    ensures RowKnown(nodes[u := n'], v, row)
  {
    var nodes' := nodes[u := n'];
    if SentTo(nodes, v, row) {
      StillSent(nodes, nodes', v, row);
    } else if CopyOf(nodes, v, row) {
      var e :| Known(nodes, v, row.peer, row.id, e) && row.text == e.ciphertext.plaintext;
      assert Known(nodes', v, row.peer, row.id, e);
    }
  }

  /** Everything the client has stored or holds pending afterwards was sent to it, or by
      it, or is a note of its own. */
  ghost predicate Genuine(nodes: map<UserId, Node>, u: UserId, n: Node, n': Node)
  {
    && (forall row :: row in n'.history && row !in n.history ==> RowKnown(nodes, u, row))
    && (forall k :: k in n'.client.mem.processed && n'.client.mem.processed[k].pendingPlaintext.Some? ==>
          || (k in n.client.mem.processed && n.client.mem.processed[k] == n'.client.mem.processed[k])
          || k in n'.receipts
          || SentTo(nodes, u, Row(k.0, Received, k.1, n'.client.mem.processed[k].pendingPlaintext.value)))
  }

  lemma StillGenuine(nodes: map<UserId, Node>, u: UserId, n': Node, made: set<Uuid>)
    requires HistoryKnown(nodes) && PendingKnown(nodes) && u in nodes && Grows(nodes, nodes[u := n'])
    requires nodes[u].receipts <= n'.receipts && RowsSpared(nodes, made)
    requires forall row :: row in n'.history && row !in nodes[u].history ==> row.id !in made
    requires forall x :: x in n'.log && x !in nodes[u].log && x.Message? ==> x.messageId in made
    requires Genuine(nodes, u, nodes[u], n')
    ensures HistoryKnown(nodes[u := n']) && PendingKnown(nodes[u := n'])
  {
    hide Grows, RowKnown;
    var nodes' := nodes[u := n'];
    forall v, row | v in nodes' && row in nodes'[v].history
      ensures RowKnown(nodes', v, row)
    {
      assert RowKnown(nodes, v, row);
      StillRow(nodes, u, n', made, v, row);
    }
    forall v, k | v in nodes' && k in nodes'[v].client.mem.processed
                  && nodes'[v].client.mem.processed[k].pendingPlaintext.Some? && k !in nodes'[v].receipts
      ensures SentTo(nodes', v, Row(k.0, Received, k.1, nodes'[v].client.mem.processed[k].pendingPlaintext.value))
    {
      var row := Row(k.0, Received, k.1, nodes'[v].client.mem.processed[k].pendingPlaintext.value);
      assert SentTo(nodes, v, row);
      StillSent(nodes, nodes', v, row);
    }
  }

  lemma StillReceipts(nodes: map<UserId, Node>, u: UserId, n': Node)
    requires ReceiptsKnown(nodes) && u in nodes && Grows(nodes, nodes[u := n'])
    requires forall k :: k in n'.receipts && k !in nodes[u].receipts ==> ReceiptSent(nodes, k)
    ensures ReceiptsKnown(nodes[u := n'])
  {
    var nodes' := nodes[u := n'];
    forall v, k | v in nodes' && k in nodes'[v].receipts
      ensures ReceiptSent(nodes', k)
    {
      assert ReceiptSent(nodes, k);
      var x :| x in nodes[k.0].log && x.ReadReceipt? && x.receiptId == k.1;
      assert x in nodes'[k.0].log;
    }
  }

  lemma StillUnique(nodes: map<UserId, Node>, u: UserId, n': Node, gone: set<Uuid>, made: set<Uuid>)
    requires Unique(nodes) && u in nodes && Evolves(nodes[u], n', gone, made)
    requires forall v, x :: v in nodes && x in nodes[v].log && x.Message? ==> x.messageId !in made
    ensures Unique(nodes[u := n'])
  {
    hide Ids;
  }

  lemma StillConserved(s: System, u: UserId, n': Node, gone: set<Uuid>, made: set<Uuid>, dropped': set<Uuid>)
    requires SystemOk(s) && u in s.nodes && Evolves(s.nodes[u], n', gone, made) && s.dropped <= dropped'
    requires forall id :: id in gone ==> id in dropped' || exists r :: Notice(u, r, id) in s.notices
    ensures Conserved(s.nodes[u := n'], s.relay.queue, dropped')
  {
    var nodes' := s.nodes[u := n'];
    hide NodeOk, Ids, AcceptancesOk, QueueKnown, InboundKnown, HistoryKnown, PendingKnown, ReceiptsKnown;
    forall v, x | v in nodes' && x in nodes'[v].log && x.Message?
      ensures x in nodes'[v].client.mem.outbox || Settled(nodes', s.relay.queue, dropped', x.messageId, x.recipient)
    {
      if x in s.nodes[v].log && v == u && x in s.nodes[v].client.mem.outbox && x !in n'.client.mem.outbox {
        Retired(s, u, x, dropped');
      }
    }
  }

  /** A message leaves its outbox only once the relay has said it was accepted. */
  lemma Retired(s: System, u: UserId, x: PendingOutbound, dropped': set<Uuid>)
    requires SystemOk(s) && u in s.nodes && x in s.nodes[u].log && x.Message?
    requires x.messageId in dropped' || exists r :: Notice(u, r, x.messageId) in s.notices
    requires s.dropped <= dropped'
    ensures Settled(s.nodes, s.relay.queue, dropped', x.messageId, x.recipient)
  {
    hide NodeOk, Ids, AcceptancesOk, QueueKnown, InboundKnown, HistoryKnown, PendingKnown, ReceiptsKnown, Conserved;
    if x.messageId !in dropped' {
      var r :| Notice(u, r, x.messageId) in s.notices;
      assert Noticed(s.nodes, Notice(u, r, x.messageId));
      var e :| Known(s.nodes, u, r, x.messageId, e);
      assert x == Message(r, x.messageId, e);
    }
  }

  lemma NodeStep(s: System, u: UserId, n': Node, gone: set<Uuid>, made: set<Uuid>, dropped': set<Uuid>)
    requires SystemOk(s) && u in s.nodes && NodeOk(n') && Evolves(s.nodes[u], n', gone, made) && s.dropped <= dropped'
    requires forall v, x :: v in s.nodes && x in s.nodes[v].log && x.Message? ==> x.messageId !in made
    requires forall id :: id in gone ==> id in dropped' || exists r :: Notice(u, r, id) in s.notices
    requires Genuine(s.nodes, u, s.nodes[u], n') && RowsSpared(s.nodes, made)
    requires forall row :: row in n'.history && row !in s.nodes[u].history ==> row.id !in made
    requires forall x :: x in n'.log && x !in s.nodes[u].log && x.Message? ==> x.recipient != u
    requires forall k :: k in n'.receipts && k !in s.nodes[u].receipts ==> ReceiptSent(s.nodes, k)
    ensures SystemOk(s.(nodes := s.nodes[u := n'], dropped := dropped'))
  {
    hide NodeOk, Unique, NoSelf, RowsSpared, Conserved, AcceptancesOk, QueueKnown, InboundKnown, NoticesOk, Evolves,
         Grows, Genuine, HistoryKnown, PendingKnown, ReceiptsKnown, ReceiptSent;
    var nodes' := s.nodes[u := n'];
    Evolved(s.nodes, u, n', gone, made);
    StillReceipts(s.nodes, u, n');
    StillKnown(s, nodes', dropped');
    StillGenuine(s.nodes, u, n', made);
    StillNoticed(s, nodes', dropped');
    StillUnique(s.nodes, u, n', gone, made);
    StillConserved(s, u, n', gone, made, dropped');
  }

  lemma Evolved(nodes: map<UserId, Node>, u: UserId, n': Node, gone: set<Uuid>, made: set<Uuid>)
    requires u in nodes && Evolves(nodes[u], n', gone, made) && NoSelf(nodes)
    requires forall x :: x in n'.log && x !in nodes[u].log && x.Message? ==> x.recipient != u
    ensures Grows(nodes, nodes[u := n']) && nodes[u].receipts <= n'.receipts && NoSelf(nodes[u := n'])
    ensures forall x :: x in n'.log && x !in nodes[u].log && x.Message? ==> x.messageId in made
  {
    hide ReceivedIds;
  }

  lemma LocalKeeps(s: System, u: UserId, ev: Runs.Event)
    requires SystemOk(s) && PermittedLocal(s, u, ev)
    ensures SystemOk(Step(s, Local(u, ev)))
  {
    hide Runs.Step, Runs.Permitted, NodeOk, Evolves, Unique, QueueKnown, AcceptancesOk, NoticesOk, InboundKnown,
         HistoryKnown, PendingKnown, ReceiptsKnown, Conserved;
    var n := s.nodes[u];
    assert ev.DoQueueAck? ==> forall id :: id in ev.ids ==> id in n.toAck;
    LocalKeepsNode(n, ev);
    var n' := WithClient(n, Runs.Step(n.client, n.log, ev).0);
    assert Genuine(s.nodes, u, n, n');
    NodeStep(s, u, n', GoneBy(n.client, ev), MadeBy(ev),
             if Rejects(n.client, ev) then s.dropped + {ev.id} else s.dropped);
  }

  lemma ReceiveKeeps(s: System, ev: Event)
    requires SystemOk(s) && ev.Receive? && Permitted(s, ev)
    ensures SystemOk(Step(s, ev))
  {
    hide NodeOk, Evolves, Unique, QueueKnown, AcceptancesOk, NoticesOk, HistoryKnown, PendingKnown, ReceiptsKnown,
         Conserved, ClientKeys.NewPair, SentTo, NotesOnly, TextFrom, ProcessInbound;
    var u, d, n := ev.user, ev.d, s.nodes[ev.user];
    IdOwned(s, u, d);
    ReceiveKeepsNode(n, d, ev.newPair, ev.now, ev.okPrune, ev.ok, ev.okHistory, ev.okStored);
    var n' := ProcessInbound(n, d, ev.newPair, ev.now, ev.okPrune, ev.ok, ev.okHistory, ev.okStored);
    OpenedGenuine(s, u, n', d);
    NodeStep(s, u, n', {}, {}, s.dropped);
    assert s.(nodes := s.nodes[u := n'], dropped := s.dropped) == Step(s, ev);
  }

  /** A client's messages never meet its receipts in a ledger. */
  lemma NotAReceipt(s: System, u: UserId, d: Delivery)
    requires SystemOk(s) && u in s.nodes && d in s.inbound && d.recipient == u
    ensures (d.sender, d.id) !in s.nodes[u].receipts
  {
    assert Known(s.nodes, d.sender, d.recipient, d.id, d.envelope);
    assert NodeOk(s.nodes[d.sender]);
    assert (d.sender, d.id) in s.nodes[u].receipts ==> ReceiptSent(s.nodes, (d.sender, d.id));
    hide Unique, NoSelf, QueueKnown, AcceptancesOk, NoticesOk, HistoryKnown, PendingKnown, Conserved;
  }

  /** A history row that has the ID of a message to `u` is that message. */
  lemma RowIsThatMessage(nodes: map<UserId, Node>, u: UserId, sender: UserId, id: Uuid, e: Envelope, row: Row)
    requires Unique(nodes) && NoSelf(nodes) && HistoryKnown(nodes) && u in nodes
    requires Known(nodes, sender, u, id, e) && row in nodes[u].history && row.id == id
    ensures row == Row(sender, Received, id, e.ciphertext.plaintext)
  {
    var x := Message(u, id, e);
    assert RowKnown(nodes, u, row);
    if SentTo(nodes, u, row) {
      var e' :| Known(nodes, row.peer, u, row.id, e') && row.text == e'.ciphertext.plaintext;
      assert Message(u, id, e') == x;
    }
  }

  lemma IdOwned(s: System, u: UserId, d: Delivery)
    requires SystemOk(s) && u in s.nodes && d in s.inbound && d.recipient == u
    ensures IdIsOwn(s.nodes[u], d)
  {
    NotAReceipt(s, u, d);
    hide NodesOk, QueueKnown, AcceptancesOk, NoticesOk, PendingKnown, ReceiptsKnown, Conserved;
    assert Known(s.nodes, d.sender, u, d.id, d.envelope);
    hide Known, Unique, NoSelf, HistoryKnown;
    var history := s.nodes[u].history;
    if d.id in Ids(history) {
      var i :| 0 <= i < |history| && history[i].id == d.id;
      RowIsThatMessage(s.nodes, u, d.sender, d.id, d.envelope, history[i]);
      assert history[i] in history;
    }
  }

  lemma NodeIsOk(s: System, u: UserId)
    requires SystemOk(s) && u in s.nodes
    ensures NodeOk(s.nodes[u])
  {
    hide NodeOk, Unique, NoSelf, QueueKnown, AcceptancesOk, NoticesOk, InboundKnown, HistoryKnown, PendingKnown,
         ReceiptsKnown, Conserved;
  }

  lemma ReceiptStep(s: System, ev: Event)
    requires ev.ReceiveReceipt? && Permitted(s, ev)
    ensures ReceiptSent(s.nodes, (ev.d.sender, ev.d.id)) && ev.user in s.nodes
    ensures Step(s, ev).nodes == s.nodes[ev.user := ProcessReceipt(s.nodes[ev.user], ev.d, ev.parses, ev.newPair,
                                                                   ev.now, ev.okPrune, ev.ok, ev.okStored)]
    ensures Step(s, ev) == s.(nodes := Step(s, ev).nodes, dropped := s.dropped)
  {
    hide ProcessReceipt, ClientKeys.NewPair;
  }

  lemma ReceiptKeeps(s: System, ev: Event)
    requires SystemOk(s) && ev.ReceiveReceipt? && Permitted(s, ev)
    ensures SystemOk(Step(s, ev))
  {
    hide Step, Permitted, SystemOk, NodeOk, Evolves, ReceiptSent, NotesOnly, Genuine, ProcessReceipt;
    ReceiptStep(s, ev);
    NodeIsOk(s, ev.user);
    var u, d, n := ev.user, ev.d, s.nodes[ev.user];
    ReceiptKeepsNode(n, d, ev.parses, ev.newPair, ev.now, ev.okPrune, ev.ok, ev.okStored);
    var n' := ProcessReceipt(n, d, ev.parses, ev.newPair, ev.now, ev.okPrune, ev.ok, ev.okStored);
    ReceiptGenuine(s.nodes, u, n, n', d);
    NodeStep(s, u, n', {}, {}, s.dropped);
  }

  /** The row a client puts into its own history. */
  function OwnRow(ev: Event): (row: Row)
    requires ev.Note? || (ev.KeepCopy? && ev.item.Message?)
  {
    if ev.Note? then Row(ev.user, Sent, ev.id, ev.text)
    else Row(ev.item.recipient, Sent, ev.item.messageId, ev.item.envelope.ciphertext.plaintext)
  }

  lemma KeepingStep(s: System, ev: Event)
    requires (ev.KeepCopy? || ev.Note?) && Permitted(s, ev)
    ensures ev.user in s.nodes && (ev.Note? || ev.item.Message?) && RowKnown(s.nodes, ev.user, OwnRow(ev))
    ensures var n := s.nodes[ev.user];
            Step(s, ev) == s.(nodes := s.nodes[ev.user := n.(history := Stored(n.history, OwnRow(ev)))],
                              dropped := s.dropped)
  {
    hide Stored;
    if ev.KeepCopy? {
      assert Known(s.nodes, ev.user, ev.item.recipient, ev.item.messageId, ev.item.envelope);
    }
  }

  lemma KeepingKeeps(s: System, ev: Event)
    requires SystemOk(s) && (ev.KeepCopy? || ev.Note?) && Permitted(s, ev)
    ensures SystemOk(Step(s, ev))
  {
    hide Step, Permitted, SystemOk, NodeOk, Evolves, RowKnown, Covers, OwnRow;
    KeepingStep(s, ev);
    NodeIsOk(s, ev.user);
    var u, n := ev.user, s.nodes[ev.user];
    HistoryKeepsNode(n, OwnRow(ev));
    NodeStep(s, u, n.(history := Stored(n.history, OwnRow(ev))), {}, {}, s.dropped);
  }

  lemma ReceiptGenuine(nodes: map<UserId, Node>, u: UserId, n: Node, n': Node, d: Delivery)
    requires n'.history == n.history && (d.sender, d.id) in n'.receipts
    requires NotesOnly(n.client.mem.processed, n'.client.mem.processed, d)
    ensures Genuine(nodes, u, n, n')
  {
    hide SentTo;
  }

  lemma OpenedGenuine(s: System, u: UserId, n': Node, d: Delivery)
    requires PendingKnown(s.nodes) && u in s.nodes && Known(s.nodes, d.sender, u, d.id, d.envelope)
    requires (d.sender, d.id) !in s.nodes[u].receipts
    requires forall row :: row in n'.history && row !in s.nodes[u].history ==>
               row == Row(d.sender, Received, d.id, row.text) && TextFrom(s.nodes[u].client.mem.processed, d, row.text)
    requires NotesOnly(s.nodes[u].client.mem.processed, n'.client.mem.processed, d)
    ensures Genuine(s.nodes, u, s.nodes[u], n')
  {
    assert SentTo(s.nodes, u, Row(d.sender, Received, d.id, d.envelope.ciphertext.plaintext));
    hide Known, SentTo;
    var ledger := s.nodes[u].client.mem.processed;
    forall row | row in n'.history && row !in s.nodes[u].history
      ensures RowKnown(s.nodes, u, row)
    {
      if row.text != d.envelope.ciphertext.plaintext {
        assert ledger[(d.sender, d.id)].pendingPlaintext == Some(row.text);
      }
    }
  }

  // -- A step of the relay -------------------------------------------------------

  /** Every row that left the queue is in its recipient's history or was given up. */
  ghost predicate Accounted(nodes: map<UserId, Node>, queue: seq<QueuedRow>, queue': seq<QueuedRow>,
                            dropped': set<Uuid>)
  {
    forall row :: row in queue ==> Settled(nodes, queue', dropped', row.messageId, row.recipient)
  }

  lemma StaysSettled(s: System, queue': seq<QueuedRow>, dropped': set<Uuid>, sender: UserId, r: UserId, id: Uuid,
                     e: Envelope)
    requires SystemOk(s) && s.dropped <= dropped' && Accounted(s.nodes, s.relay.queue, queue', dropped')
    requires Known(s.nodes, sender, r, id, e) && Settled(s.nodes, s.relay.queue, s.dropped, id, r)
    ensures Settled(s.nodes, queue', dropped', id, r)
  {
    hide NodeOk, Ids, AcceptancesOk, InboundKnown, HistoryKnown, PendingKnown, ReceiptsKnown, Conserved, NoticesOk;
    if InQueue(s.relay.queue, id) {
      var i :| 0 <= i < |s.relay.queue| && s.relay.queue[i].messageId == id;
      var row := s.relay.queue[i];
      assert row in s.relay.queue;
      assert Known(s.nodes, row.sender, row.recipient, row.messageId, row.envelope);
      assert row.recipient == r;
    }
  }

  lemma StaysNoticed(s: System, queue': seq<QueuedRow>, dropped': set<Uuid>)
    requires SystemOk(s) && s.dropped <= dropped' && Accounted(s.nodes, s.relay.queue, queue', dropped')
    ensures NoticesOk(s.nodes, queue', dropped', s.notices)
  {
    forall n | n in s.notices
      ensures Noticed(s.nodes, n) && Settled(s.nodes, queue', dropped', n.id, n.recipient)
    {
      var e :| Known(s.nodes, n.user, n.recipient, n.id, e);
      StaysSettled(s, queue', dropped', n.user, n.recipient, n.id, e);
    }
  }

  lemma StaysConserved(s: System, queue': seq<QueuedRow>, dropped': set<Uuid>)
    requires SystemOk(s) && s.dropped <= dropped' && Accounted(s.nodes, s.relay.queue, queue', dropped')
    ensures Conserved(s.nodes, queue', dropped')
  {
    forall u, x | u in s.nodes && x in s.nodes[u].log && x.Message? && x !in s.nodes[u].client.mem.outbox
      ensures Settled(s.nodes, queue', dropped', x.messageId, x.recipient)
    {
      assert Known(s.nodes, u, x.recipient, x.messageId, x.envelope);
      StaysSettled(s, queue', dropped', u, x.recipient, x.messageId, x.envelope);
    }
  }

  lemma StaysAccepted(s: System, relay': Db, dropped': set<Uuid>)
    requires SystemOk(s) && s.dropped <= dropped' && Accounted(s.nodes, s.relay.queue, relay'.queue, dropped')
    requires forall id :: id in relay'.acceptances ==>
               id in s.relay.acceptances && relay'.acceptances[id] == s.relay.acceptances[id]
    ensures AcceptancesOk(s.nodes, relay', dropped')
  {
    forall id | id in relay'.acceptances
      ensures var a := relay'.acceptances[id];
              Known(s.nodes, a.sender, a.recipient, id, a.digest)
                && Settled(s.nodes, relay'.queue, dropped', id, a.recipient)
    {
      var a := relay'.acceptances[id];
      StaysSettled(s, relay'.queue, dropped', a.sender, a.recipient, id, a.digest);
    }
  }

  lemma RelayStep(s: System, relay': Db, dropped': set<Uuid>)
    requires SystemOk(s) && s.dropped <= dropped' && Accounted(s.nodes, s.relay.queue, relay'.queue, dropped')
    requires forall id :: id in relay'.acceptances ==>
               id in s.relay.acceptances && relay'.acceptances[id] == s.relay.acceptances[id]
    requires forall row :: row in relay'.queue ==> row in s.relay.queue
    ensures SystemOk(s.(relay := relay', dropped := dropped'))
  {
    StaysNoticed(s, relay'.queue, dropped');
    StaysConserved(s, relay'.queue, dropped');
    StaysAccepted(s, relay', dropped');
    hide NodeOk, AcceptancesOk, NoticesOk, Conserved, Unique, HistoryKnown, PendingKnown, ReceiptsKnown, Accounted;
  }

  lemma AcknowledgeStep(s: System, ev: Event)
    requires SystemOk(s) && ev.Acknowledge? && Permitted(s, ev)
    ensures ev.user in s.nodes && ev.item.Ack?
    ensures Step(s, ev) == s.(relay := DeleteMessages(s.relay, ev.user, ev.item.messageIds), dropped := s.dropped)
    ensures forall id :: id in ev.item.messageIds ==> id in ReceivedIds(s.nodes[ev.user].history)
  {
    hide SystemOk, DeleteMessages;
    NodeIsOk(s, ev.user);
    hide ClientInvariant.Inv, LedgerStored, ReceivedIds;
  }

  lemma AcknowledgeKeeps(s: System, ev: Event)
    requires SystemOk(s) && ev.Acknowledge? && Permitted(s, ev)
    ensures SystemOk(Step(s, ev))
  {
    hide SystemOk, Step, Permitted, ReceivedIds;
    AcknowledgeStep(s, ev);
    var u, ids := ev.user, ev.item.messageIds;
    var d' := DeleteMessages(s.relay, u, ids);
    forall row
      ensures row in d'.queue <==> row in s.relay.queue && (row.recipient != u || row.messageId !in ids)
    {
      RemainingExactly(s.relay.queue, (row: QueuedRow) => row.recipient != u || row.messageId !in ids, row);
    }
    hide Remaining;
    RelayStep(s, d', s.dropped);
  }

  lemma DropStep(s: System, ev: Event)
    requires (ev.Expire? || ev.Discard?) && Permitted(s, ev)
    ensures var d' := if ev.Expire? then CollectOld(s.relay, ev.cutoff)
                      else DeleteInvalidRow(s.relay, ev.recipient, ev.rowId);
            Step(s, ev) == Dropping(s, d')
  {
    hide CollectOld, DeleteInvalidRow, Dropping;
  }

  /** Rows leave the queue, and each that does is recorded. */
  lemma DroppingKeeps(s: System, d': Db)
    requires SystemOk(s) && d' == s.relay.(queue := d'.queue) && forall row :: row in d'.queue ==> row in s.relay.queue
    ensures SystemOk(Dropping(s, d'))
  {
    hide SystemOk;
    var s' := Dropping(s, d');
    forall row | row in s.relay.queue
      ensures Settled(s.nodes, s'.relay.queue, s'.dropped, row.messageId, row.recipient)
    {
      assert row.messageId in MessageIds(s.relay.queue);
    }
    RelayStep(s, s'.relay, s'.dropped);
  }

  lemma DropKeeps(s: System, ev: Event)
    requires SystemOk(s) && (ev.Expire? || ev.Discard?) && Permitted(s, ev)
    ensures SystemOk(Step(s, ev))
  {
    hide SystemOk, Step, Dropping;
    DropStep(s, ev);
    var d' := if ev.Expire? then CollectOld(s.relay, ev.cutoff) else DeleteInvalidRow(s.relay, ev.recipient, ev.rowId);
    forall row | row in d'.queue
      ensures row in s.relay.queue
    {
      if ev.Expire? {
        RemainingExactly(s.relay.queue, (row: QueuedRow) => row.createdAt >= ev.cutoff, row);
      } else {
        RemainingExactly(s.relay.queue,
                         (row: QueuedRow) => row.recipient != ev.recipient || row.rowId != ev.rowId, row);
      }
    }
    hide Remaining;
    DroppingKeeps(s, d');
  }

  /** What an admitted request leaves behind. */
  ghost predicate TakesEffect(d: Db, d': Db, q: EnqueueRequest)
  {
    if q.messageId in d.acceptances then
      d' == d && var a := d.acceptances[q.messageId];
                 a.recipient == q.recipient && a.sender == q.sender && a.digest == q.envelope
    else
      && d'.acceptances == d.acceptances[q.messageId := Acceptance(q.recipient, q.sender, q.envelope, q.now)]
      && InQueue(d'.queue, q.messageId)
      && (d'.queue == d.queue ||
          d'.queue == d.queue + [QueuedRow(NextRowId(d.queue), q.messageId, q.recipient, q.sender, q.envelope, q.now)])
  }

  lemma EnqueueEffect(d: Db, q: EnqueueRequest)
    requires Relay.Admits(Enqueue(d, q).1)
    ensures TakesEffect(d, Enqueue(d, q).0, q)
  {
    hide AcceptedFrom, QueuedFor, FindKey, LiveReservations, NextRowId;
    var row := QueuedRow(NextRowId(d.queue), q.messageId, q.recipient, q.sender, q.envelope, q.now);
    assert (d.queue + [row])[|d.queue|].messageId == q.messageId;
  }

  lemma SubmitKeeps(s: System, ev: Event)
    requires SystemOk(s) && ev.Submit? && Permitted(s, ev)
    ensures SystemOk(Step(s, ev))
  {
    var u, x := ev.user, ev.item;
    var q := EnqueueRequest(x.messageId, x.recipient, u, x.envelope, ev.now);
    var (d', r) := Enqueue(s.relay, q);
    Relay.RefusalChangesNothing(s.relay, q);
    assert Known(s.nodes, u, x.recipient, x.messageId, x.envelope);
    if Relay.Admits(r) {
      EnqueueEffect(s.relay, q);
      hide Enqueue;
      Admitted(s, d', q);
    }
    hide Enqueue, SystemOk;
  }

  lemma AdmittedQueue(s: System, d': Db, q: EnqueueRequest)
    requires SystemOk(s) && Known(s.nodes, q.sender, q.recipient, q.messageId, q.envelope)
    requires TakesEffect(s.relay, d', q)
    ensures Accounted(s.nodes, s.relay.queue, d'.queue, s.dropped)
    ensures QueueKnown(s.nodes, d'.queue)
    ensures Settled(s.nodes, d'.queue, s.dropped, q.messageId, q.recipient)
  {
    hide NodesOk, Unique, NoSelf, NoticesOk, InboundKnown, HistoryKnown, PendingKnown, ReceiptsKnown, Conserved,
         NextRowId, Known, Ids;
    var queue := s.relay.queue;
    forall row | row in queue
      ensures InQueue(d'.queue, row.messageId)
    {
      var i :| 0 <= i < |queue| && queue[i] == row;
      assert d'.queue[i].messageId == row.messageId;
    }
  }

  lemma AdmittedLedger(s: System, d': Db, q: EnqueueRequest)
    requires SystemOk(s) && Known(s.nodes, q.sender, q.recipient, q.messageId, q.envelope)
    requires TakesEffect(s.relay, d', q) && Accounted(s.nodes, s.relay.queue, d'.queue, s.dropped)
    requires Settled(s.nodes, d'.queue, s.dropped, q.messageId, q.recipient)
    ensures AcceptancesOk(s.nodes, d', s.dropped)
  {
    hide SystemOk, Known, Settled, Accounted, NextRowId, InQueue;
    StaysAccepted(s, d'.(acceptances := s.relay.acceptances), s.dropped);
  }

  lemma Admitted(s: System, d': Db, q: EnqueueRequest)
    requires SystemOk(s) && Known(s.nodes, q.sender, q.recipient, q.messageId, q.envelope)
    requires TakesEffect(s.relay, d', q)
    ensures SystemOk(s.(relay := d', notices := s.notices + {Notice(q.sender, q.recipient, q.messageId)},
                        inbound := s.inbound + {Delivery(q.recipient, q.sender, q.messageId, q.envelope)}))
  {
    hide NodesOk, Unique, NoSelf, QueueKnown, AcceptancesOk, NoticesOk, InboundKnown, HistoryKnown, PendingKnown,
         ReceiptsKnown, Conserved, Accounted, TakesEffect, Settled, Known;
    AdmittedQueue(s, d', q);
    AdmittedLedger(s, d', q);
    StaysNoticed(s, d'.queue, s.dropped);
    StaysConserved(s, d'.queue, s.dropped);
    NoticeAdded(s, d'.queue, q);
  }

  lemma NoticeAdded(s: System, queue: seq<QueuedRow>, q: EnqueueRequest)
    requires NoticesOk(s.nodes, queue, s.dropped, s.notices) && InboundKnown(s.nodes, s.inbound)
    requires Known(s.nodes, q.sender, q.recipient, q.messageId, q.envelope)
    requires Settled(s.nodes, queue, s.dropped, q.messageId, q.recipient)
    ensures NoticesOk(s.nodes, queue, s.dropped, s.notices + {Notice(q.sender, q.recipient, q.messageId)})
    ensures InboundKnown(s.nodes, s.inbound + {Delivery(q.recipient, q.sender, q.messageId, q.envelope)})
  {
    assert Noticed(s.nodes, Notice(q.sender, q.recipient, q.messageId));
    hide Settled, Known, Noticed;
  }

  lemma StepKeeps(s: System, ev: Event)
    requires SystemOk(s) && Permitted(s, ev)
    ensures SystemOk(Step(s, ev))
  {
    hide SystemOk, Step, PermittedLocal;
    match ev
    case Local(u, e) => LocalKeeps(s, u, e);
    case Receive(_, _, _, _, _, _, _, _) => ReceiveKeeps(s, ev);
    case ReceiveReceipt(_, _, _, _, _, _, _, _) => ReceiptKeeps(s, ev);
    case KeepCopy(_, _) => KeepingKeeps(s, ev);
    case Note(_, _, _) => KeepingKeeps(s, ev);
    case Submit(_, _, _) => SubmitKeeps(s, ev);
    case Acknowledge(_, _) => AcknowledgeKeeps(s, ev);
    case Push(row) => PushKeeps(s, ev);
    case Expire(_) => DropKeeps(s, ev);
    case Discard(_, _) => DropKeeps(s, ev);
    case Confirm(_, _) => ConfirmKeeps(s, ev);
    case Prekeys(_) => ConfirmKeeps(s, ev);
  }

  lemma PushKeeps(s: System, ev: Event)
    requires SystemOk(s) && ev.Push? && Permitted(s, ev)
    ensures SystemOk(Step(s, ev))
  {
    hide NodesOk, Unique, NoSelf, AcceptancesOk, NoticesOk, HistoryKnown, PendingKnown, ReceiptsKnown, Conserved;
  }

  lemma ConfirmKeeps(s: System, ev: Event)
    requires SystemOk(s) && (ev.Confirm? || ev.Prekeys?) && Permitted(s, ev)
    ensures SystemOk(Step(s, ev))
  {
    hide NodesOk, Unique, NoSelf, NoticesOk, InboundKnown, HistoryKnown, PendingKnown, ReceiptsKnown, Conserved, Known,
         Settled, QueueKnown;
  }

  lemma {:induction false} RunKeeps(start: System, evs: seq<Event>)
    requires Initial(start) && PermittedRun(start, evs)
    ensures SystemOk(Run(start, evs))
  {
    if evs == [] {
      InitialOk(start);
    } else {
      RunKeeps(start, evs[..|evs| - 1]);
      hide SystemOk;
      StepKeeps(Run(start, evs[..|evs| - 1]), evs[|evs| - 1]);
      hide Step;
    }
  }

  /** After every run a message is in its outbox, in the queue, in its recipient's history,
      or recorded as given up. */
  lemma MessagesConserved(start: System, evs: seq<Event>, u: UserId, x: PendingOutbound)
    requires Initial(start) && PermittedRun(start, evs)
    requires u in Run(start, evs).nodes && x in Run(start, evs).nodes[u].log && x.Message?
    ensures
      var s := Run(start, evs);
      || x in s.nodes[u].client.mem.outbox
      || InQueue(s.relay.queue, x.messageId)
      || (x.recipient in s.nodes
          && Row(u, Received, x.messageId, x.envelope.ciphertext.plaintext) in s.nodes[x.recipient].history)
      || x.messageId in s.dropped
  {
    RunKeeps(start, evs);
    var s := Run(start, evs);
    hide Run, PermittedRun, NodesOk, QueueKnown, AcceptancesOk, NoticesOk, InboundKnown, PendingKnown, ReceiptsKnown;
    var r := x.recipient;
    if r in s.nodes && x.messageId in ReceivedIds(s.nodes[r].history) {
      var history := s.nodes[r].history;
      var i :| 0 <= i < |history| && history[i].id == x.messageId;
      assert Known(s.nodes, u, r, x.messageId, x.envelope);
      RowIsThatMessage(s.nodes, r, u, x.messageId, x.envelope, history[i]);
      assert history[i] in history;
    }
    hide Unique, NoSelf, HistoryKnown;
  }

  /** Over every run: a client acknowledges only messages its history holds; its history
      holds each ID once, and only messages that were sent to it or by it, each with the
      text its sender sealed, and its own notes. */
  lemma HistoriesSound(start: System, evs: seq<Event>, u: UserId)
    requires Initial(start) && PermittedRun(start, evs) && u in Run(start, evs).nodes
    ensures
      var s := Run(start, evs);
      var n := s.nodes[u];
      && (forall x, id :: x in n.log && x.Ack? && id in x.messageIds ==> exists sender :: HasRow(n.history, sender, id))
      && (forall i, j :: 0 <= i < j < |n.history| ==> n.history[i].id != n.history[j].id)
      && (forall row :: row in n.history ==> RowKnown(s.nodes, u, row))
  {
    RunKeeps(start, evs);
    var s := Run(start, evs);
    hide Run, PermittedRun, NodeOk, Unique, NoSelf, QueueKnown, AcceptancesOk, NoticesOk, InboundKnown, Conserved,
         RowKnown;
    assert NodeOk(s.nodes[u]);
    HistoryOfNode(s.nodes[u]);
    hide OnceEach, HasRow;
  }
}
