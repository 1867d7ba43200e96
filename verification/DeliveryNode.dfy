/** What every step keeps of one client and its two databases. */
module DeliveryNode {
  import opened Wire
  import opened KeyAlgebra
  import Ratchet
  import opened Outbox
  import opened PrekeyStores
  import opened ClientSpec
  import opened ClientInvariant
  import opened ClientItems
  import opened DeliverySpec
  import Runs = ClientRuns

  /** Settled in the ledger means stored in the history, or a read receipt. */
  ghost predicate LedgerStored(ledger: Ledger, history: seq<Row>, receipts: set<(UserId, Uuid)>)
  {
    forall k :: k in ledger && ledger[k].pendingPlaintext.None? ==> HasRow(history, k.0, k.1) || k in receipts
  }

  /** One client's messages and receipts have different IDs. */
  ghost predicate KindsApart(log: set<PendingOutbound>)
  {
    forall x, y :: x in log && y in log && x.Message? && y.ReadReceipt? ==> x.messageId != y.receiptId
  }

  ghost predicate AcksStored(log: set<PendingOutbound>, history: seq<Row>)
  {
    forall x, id :: x in log && x.Ack? && id in x.messageIds ==> id in ReceivedIds(history)
  }

  ghost predicate OnceEach(history: seq<Row>)
  {
    forall i, j :: 0 <= i < j < |history| ==> history[i].id != history[j].id
  }

  ghost predicate NodeOk(n: Node)
  {
    && Inv(n.client)
    && (forall x :: x in n.client.mem.outbox ==> x in n.log)
    && AcksStored(n.log, n.history)
    && LedgerStored(n.client.mem.processed, n.history, n.receipts)
    && KindsApart(n.log)
    && n.toAck <= ReceivedIds(n.history)
    && OnceEach(n.history)
  }

  /** The log gains at most one message; the outbox loses only messages in `gone`. */
  ghost predicate Evolves(n: Node, n': Node, gone: set<Uuid>, made: set<Uuid>)
  {
    && n.log <= n'.log && n.receipts <= n'.receipts
    && ReceivedIds(n.history) <= ReceivedIds(n'.history)
    && (forall x :: x in n'.log && x !in n.log && x.Message? ==> x.messageId in made && x in n'.client.mem.outbox)
    && (forall x, y :: x in n'.log && x !in n.log && y in n'.log && y !in n.log && x.Message? && y.Message? ==> x == y)
    && (forall x :: x in n.client.mem.outbox && x.Message? && x.messageId !in gone ==> x in n'.client.mem.outbox)
  }

  lemma StoredOnce(history: seq<Row>, row: Row)
    requires OnceEach(history)
    ensures OnceEach(Stored(history, row))
  {
    if row.id !in Ids(history) {
      assert forall i :: 0 <= i < |history| ==> history[i].id in Ids(history);
    }
  }

  /** Every row of the shorter history is in the longer one. */
  ghost predicate Covers(more: seq<Row>, history: seq<Row>) { forall row :: row in history ==> row in more }

  lemma StoredCovers(history: seq<Row>, row: Row)
    ensures Covers(Stored(history, row), history)
    ensures row.id !in Ids(history) ==> row in Stored(history, row)
  {}

  lemma CoversReceived(more: seq<Row>, history: seq<Row>)
    requires Covers(more, history)
    ensures ReceivedIds(history) <= ReceivedIds(more)
    ensures forall p, id :: HasRow(history, p, id) ==> HasRow(more, p, id)
  {
    forall id | id in ReceivedIds(history)
      ensures id in ReceivedIds(more)
    {
      var i :| 0 <= i < |history| && history[i].direction.Received? && history[i].id == id;
      assert history[i] in more;
    }
  }

  lemma RowReceived(history: seq<Row>, p: UserId, id: Uuid)
    requires HasRow(history, p, id)
    ensures id in ReceivedIds(history) && id in Ids(history)
  {}

  /** Whatever goes into the history leaves the rest of the client's invariant alone. */
  lemma HistoryKeepsNode(n: Node, row: Row)
    requires NodeOk(n)
    ensures var n' := n.(history := Stored(n.history, row));
            NodeOk(n') && Evolves(n, n', {}, {}) && Covers(n'.history, n.history)
  {
    hide Inv, KindsApart, HasRow, ReceivedIds, Ids;
    StoredOnce(n.history, row);
    hide OnceEach;
    StoredCovers(n.history, row);
    CoversReceived(Stored(n.history, row), n.history);
  }

  function MadeBy(ev: Runs.Event): (ids: set<Uuid>) { if ev.DoEncryptMessage? then {ev.id} else {} }

  /** Messages the event may take from the outbox: a confirmed one, or one whose rejection takes effect. */
  function GoneBy(c: Client, ev: Runs.Event): (ids: set<Uuid>)
  {
    if (ev.DoConfirmSent? && ev.ok) || Rejects(c, ev) then {ev.id} else {}
  }

  lemma RetiredIsGone(c: Client, ev: Runs.Event, x: PendingOutbound)
    requires x in c.mem.outbox && x.Message? && Retires(ev, x)
    ensures x.messageId in GoneBy(c, ev)
  {
    var i :| 0 <= i < |c.mem.outbox| && c.mem.outbox[i] == x;
  }

  /** The log after a step of the client: what the outbox held, plus what the event adds. */
  lemma LogAfter(n: Node, ev: Runs.Event, c': Client)
    requires NodeOk(n) && Inv(c') && Flow(ev, n.client.mem.outbox, c'.mem.outbox)
    ensures forall x :: x in WithClient(n, c').log && x !in n.log ==> Adds(ev, x) && x in c'.mem.outbox
    ensures forall x :: x in c'.mem.outbox ==> x in WithClient(n, c').log
  {
    OnDisk(c');
    hide Inv, Adds, Retires;
  }

  lemma OneMessage(n: Node, n': Node, ev: Runs.Event)
    requires Inv(n'.client)
    requires forall x :: x in n'.log && x !in n.log ==> Adds(ev, x) && x in n'.client.mem.outbox
    ensures forall x, y :: x in n'.log && x !in n.log && y in n'.log && y !in n.log && x.Message? && y.Message? ==>
              x == y
  {
    forall x, y | x in n'.log && x !in n.log && y in n'.log && y !in n.log && x.Message? && y.Message?
      ensures x == y
    {
      var out := n'.client.mem.outbox;
      var i :| 0 <= i < |out| && out[i] == x;
      var j :| 0 <= j < |out| && out[j] == y;
      assert CorrelationId(x) == CorrelationId(y);
    }
  }

  lemma LocalKeepsNode(n: Node, ev: Runs.Event)
    requires NodeOk(n) && Runs.Permitted(n.client, n.log, ev) && !ev.DoDecrypt? && !ev.DoConfirmStored?
    requires ev.DoQueueAck? ==> forall id :: id in ev.ids ==> id in n.toAck
    requires ev.DoEncryptMessage? ==> forall x :: x in n.log && x.ReadReceipt? ==> x.receiptId != ev.id
    requires ev.DoEncryptReceipt? ==> forall x :: x in n.log && x.Message? ==> x.messageId != ev.id
    ensures var n' := WithClient(n, Runs.Step(n.client, n.log, ev).0);
            NodeOk(n') && Evolves(n, n', GoneBy(n.client, ev), MadeBy(ev)) && n'.history == n.history
              && n'.receipts == n.receipts
            && Fewer(n'.client.mem.processed, n.client.mem.processed)
            && (forall x :: x in n'.log && x !in n.log && x.Message? ==> ev.DoEncryptMessage? && x.recipient == ev.peer)
  {
    hide Inv, Runs.Step, Runs.Permitted;
    var c' := Runs.Step(n.client, n.log, ev).0;
    var n' := WithClient(n, c');
    Runs.StepKeepsInv(n.client, n.log, ev);
    StepFlow(n.client, n.log, ev);
    OthersShortenLedger(n.client, n.log, ev);
    LogAfter(n, ev, c');
    OneMessage(n, n', ev);
    forall x | x in n.client.mem.outbox && x.Message? && Retires(ev, x)
      ensures x.messageId in GoneBy(n.client, ev)
    {
      RetiredIsGone(n.client, ev, x);
    }
    hide GoneBy;
    assert LedgerStored(c'.mem.processed, n.history, n.receipts);
    hide Fewer, LedgerStored;
    assert KindsApart(n'.log);
    hide KindsApart;
    assert AcksStored(n'.log, n.history) by {
      forall x, id | x in n'.log && x.Ack? && id in x.messageIds
        ensures id in ReceivedIds(n.history)
      {}
    }
    hide AcksStored;
  }

  lemma HistoryOfNode(n: Node)
    requires NodeOk(n)
    ensures forall x, id :: x in n.log && x.Ack? && id in x.messageIds ==>
              exists sender :: HasRow(n.history, sender, id)
    ensures forall i, j :: 0 <= i < j < |n.history| ==> n.history[i].id != n.history[j].id
  {
    hide Inv, LedgerStored;
    forall x, id | x in n.log && x.Ack? && id in x.messageIds
      ensures exists sender :: HasRow(n.history, sender, id)
    {
      assert id in ReceivedIds(n.history);
      var i :| 0 <= i < |n.history| && n.history[i].direction.Received? && n.history[i].id == id;
      assert HasRow(n.history, n.history[i].peer, id);
    }
  }

  // -- Receiving ---------------------------------------------------------------

  /** Rows that a step leaves settled were settled before it. */
  ghost predicate SettlesNothing(before: Ledger, after: Ledger)
  {
    forall k :: k in after && after[k].pendingPlaintext.None? ==> k in before && before[k] == after[k]
  }

  /** What opens is what was sealed. */
  lemma OpensPlaintext(core: Core, identity: Key32, d: Delivery, newPair: Key32)
    ensures var o := Opened(core, identity, d.sender, d.envelope, newPair);
            o.Success? ==> o.value.1 == d.envelope.ciphertext.plaintext
  {
    hide CreateBobSession, ContextBytes, AuthenticatedData, Ratchet.EnterChain, Ratchet.SkipMessageKeys, Without;
  }

  /** Rows a step leaves pending were pending before it, or hold the plaintext just opened. */
  ghost predicate NotesOnly(before: Ledger, after: Ledger, d: Delivery)
  {
    forall k :: k in after && after[k].pendingPlaintext.Some? ==>
      || (k in before && before[k] == after[k])
      || (k == (d.sender, d.id) && after[k].pendingPlaintext.value == d.envelope.ciphertext.plaintext)
  }

  lemma Noting(c: Client, d: Delivery, newPair: Key32, now: nat, ok: bool)
    ensures
      var (c', r) := ClientSpec.Receive(c, d.sender, d.id, d.envelope, newPair, now, ok);
      && c'.mem.outbox == c.mem.outbox
      && SettlesNothing(c.mem.processed, c'.mem.processed)
      && NotesOnly(c.mem.processed, c'.mem.processed, d)
      && (r.Success? ==> r.value == d.envelope.ciphertext.plaintext)
  {
    OpensPlaintext(c.mem.core, c.identity, d, newPair);
    hide Opened;
  }

  /** The text handed on is the ledger's pending one, or the plaintext just opened. */
  ghost predicate TextFrom(ledger: Ledger, d: Delivery, text: Bytes)
  {
    || text == d.envelope.ciphertext.plaintext
    || ((d.sender, d.id) in ledger && ledger[(d.sender, d.id)].pendingPlaintext == Some(text))
  }

  lemma Opening(c: Client, d: Delivery, newPair: Key32, now: nat, okPrune: bool, ok: bool)
    requires Inv(c)
    ensures
      var (c', r) := DecryptToText(c, d.sender, d.id, d.envelope, newPair, now, okPrune, ok);
      && Inv(c')
      && c'.mem.outbox == c.mem.outbox
      && (r.Duplicate? ==> c' == c && (d.sender, d.id) in c.mem.processed
                           && c.mem.processed[(d.sender, d.id)].pendingPlaintext.None?)
      && (r.Pending? ==> TextFrom(c.mem.processed, d, r.text))
      && SettlesNothing(c.mem.processed, c'.mem.processed)
      && NotesOnly(c.mem.processed, c'.mem.processed, d)
  {
    hide Inv, ClientSpec.Receive;
    DecryptingKeeps(c, d.sender, d.id, d.envelope, newPair, now, okPrune, ok);
    var c1 := c.(mem := c.mem.(processed := Pruned(c.mem.processed, now)),
                 disk := c.disk.(processed := Pruned(c.disk.processed, now)));
    Noting(c1, d, newPair, now, ok);
    var c2 := ClientSpec.Receive(c1, d.sender, d.id, d.envelope, newPair, now, ok).0;
    ThroughPruning(c.mem.processed, now, c2.mem.processed, d);
    hide SettlesNothing, NotesOnly, Pruned;
    NothingNew(c.mem.processed, d);
  }

  lemma ThroughPruning(before: Ledger, now: nat, after: Ledger, d: Delivery)
    requires SettlesNothing(Pruned(before, now), after) && NotesOnly(Pruned(before, now), after, d)
    ensures SettlesNothing(before, after) && NotesOnly(before, after, d)
    ensures SettlesNothing(before, Pruned(before, now)) && NotesOnly(before, Pruned(before, now), d)
  {}

  lemma NothingNew(l: Ledger, d: Delivery)
    ensures SettlesNothing(l, l) && NotesOnly(l, l, d)
  {}

  lemma Settling(c: Client, peer: UserId, id: Uuid, ok: bool, history: seq<Row>, receipts: set<(UserId, Uuid)>)
    requires Inv(c) && LedgerStored(c.mem.processed, history, receipts)
             && (HasRow(history, peer, id) || (peer, id) in receipts)
    ensures
      var c' := ConfirmInboundStored(c, peer, id, ok).0;
      && Inv(c') && c'.mem.outbox == c.mem.outbox && LedgerStored(c'.mem.processed, history, receipts)
      && (forall k :: k in c'.mem.processed && c'.mem.processed[k].pendingPlaintext.Some? ==>
            k in c.mem.processed && c.mem.processed[k] == c'.mem.processed[k])
  {
    StoredKeeps(c, peer, id, ok);
    hide Inv, HasRow;
  }

  lemma MoreStored(log: set<PendingOutbound>, ledger: Ledger, history: seq<Row>, more: seq<Row>,
                   receipts: set<(UserId, Uuid)>, others: set<(UserId, Uuid)>)
    requires AcksStored(log, history) && LedgerStored(ledger, history, receipts)
    requires Covers(more, history) && receipts <= others
    ensures AcksStored(log, more) && LedgerStored(ledger, more, others)
  {
    CoversReceived(more, history);
    hide ReceivedIds, HasRow, Covers;
  }

  lemma SameOutboxSameLog(n: Node, c': Client)
    requires NodeOk(n) && Inv(c') && c'.mem.outbox == n.client.mem.outbox
    ensures WithClient(n, c').log == n.log
  {
    OnDisk(c');
    hide Inv;
  }

  /** A row under this ID could only be this message's. */
  predicate IdIsOwn(n: Node, d: Delivery)
  {
    (d.sender, d.id) !in n.receipts && (d.id in Ids(n.history) ==> HasRow(n.history, d.sender, d.id))
  }

  lemma OwnRowStored(n: Node, d: Delivery, text: Bytes)
    requires IdIsOwn(n, d) && OnceEach(n.history)
    ensures var h := Stored(n.history, Row(d.sender, Received, d.id, text));
            && HasRow(h, d.sender, d.id) && d.id in ReceivedIds(h) && OnceEach(h)
            && Covers(h, n.history) && ReceivedIds(n.history) <= ReceivedIds(h)
  {
    var row := Row(d.sender, Received, d.id, text);
    var h := Stored(n.history, row);
    StoredOnce(n.history, row);
    hide OnceEach;
    StoredCovers(n.history, row);
    CoversReceived(h, n.history);
    RowReceived(h, d.sender, d.id);
  }

  lemma StillStored(before: Ledger, after: Ledger, history: seq<Row>, receipts: set<(UserId, Uuid)>)
    requires LedgerStored(before, history, receipts) && SettlesNothing(before, after)
    ensures LedgerStored(after, history, receipts)
  {
    hide HasRow;
  }

  lemma SettledIsStored(n: Node, d: Delivery)
    requires LedgerStored(n.client.mem.processed, n.history, n.receipts) && IdIsOwn(n, d)
    requires (d.sender, d.id) in n.client.mem.processed
    requires n.client.mem.processed[(d.sender, d.id)].pendingPlaintext.None?
    ensures d.id in ReceivedIds(n.history)
  {
    RowReceived(n.history, d.sender, d.id);
  }

  /** A message, under an ID that no receipt and no other row has. */
  lemma ReceiveKeepsNode(n: Node, d: Delivery, newPair: Key32, now: nat, okPrune: bool, ok: bool, okHistory: bool,
                         okStored: bool)
    requires NodeOk(n) && IdIsOwn(n, d)
    ensures
      var n' := ProcessInbound(n, d, newPair, now, okPrune, ok, okHistory, okStored);
      && NodeOk(n') && Evolves(n, n', {}, {}) && Covers(n'.history, n.history)
      && n'.client.mem.outbox == n.client.mem.outbox && n'.log == n.log && n'.receipts == n.receipts
      && (forall row :: row in n'.history && row !in n.history ==>
            row == Row(d.sender, Received, d.id, row.text) && TextFrom(n.client.mem.processed, d, row.text))
      && NotesOnly(n.client.mem.processed, n'.client.mem.processed, d)
  {
    hide Inv, DecryptToText, ConfirmInboundStored, Ids, ReceivedIds, HasRow, OnceEach, KindsApart, SettlesNothing,
         LedgerStored, AcksStored, TextFrom;
    var (c, inbound) := DecryptToText(n.client, d.sender, d.id, d.envelope, newPair, now, okPrune, ok);
    Opening(n.client, d, newPair, now, okPrune, ok);
    SameOutboxSameLog(n, c);
    StillStored(n.client.mem.processed, c.mem.processed, n.history, n.receipts);
    if inbound.Duplicate? {
      SettledIsStored(n, d);
    }
    if inbound.Pending? {
      var row := Row(d.sender, Received, d.id, inbound.text);
      var h := Stored(n.history, row);
      OwnRowStored(n, d, inbound.text);
      hide IdIsOwn;
      MoreStored(n.log, c.mem.processed, n.history, h, n.receipts, n.receipts);
      Settling(c, d.sender, d.id, okStored, h, n.receipts);
      SameOutboxSameLog(n, ConfirmInboundStored(c, d.sender, d.id, okStored).0);
    }
  }

  lemma ReceiptKeepsNode(n: Node, d: Delivery, parses: bool, newPair: Key32, now: nat, okPrune: bool, ok: bool,
                         okStored: bool)
    requires NodeOk(n)
    ensures
      var n' := ProcessReceipt(n, d, parses, newPair, now, okPrune, ok, okStored);
      && NodeOk(n') && Evolves(n, n', {}, {})
      && n'.log == n.log && n'.history == n.history && n'.receipts == n.receipts + {(d.sender, d.id)}
      && NotesOnly(n.client.mem.processed, n'.client.mem.processed, d)
  {
    hide Inv, DecryptToText, ConfirmInboundStored, Ids, OnceEach, KindsApart;
    var (c, inbound) := DecryptToText(n.client, d.sender, d.id, d.envelope, newPair, now, okPrune, ok);
    Opening(n.client, d, newPair, now, okPrune, ok);
    SameOutboxSameLog(n, c);
    StillStored(n.client.mem.processed, c.mem.processed, n.history, n.receipts);
    var receipts := n.receipts + {(d.sender, d.id)};
    MoreStored(n.log, c.mem.processed, n.history, n.history, n.receipts, receipts);
    Settling(c, d.sender, d.id, okStored, n.history, receipts);
    SameOutboxSameLog(n, ConfirmInboundStored(c, d.sender, d.id, okStored).0);
    hide LedgerStored, AcksStored, TextFrom;
  }

  // -- What storing depends on -----------------------------------------------------

  /** The ledger has settled this key. */
  predicate SettledKey(c: Client, d: Delivery)
  {
    (d.sender, d.id) in c.mem.processed && c.mem.processed[(d.sender, d.id)].pendingPlaintext.None?
  }

  /** What opening leaves of the key: a text handed on is pending. */
  lemma OpeningSettles(c: Client, d: Delivery, newPair: Key32, now: nat, okPrune: bool, ok: bool)
    ensures
      var (c', inbound) := DecryptToText(c, d.sender, d.id, d.envelope, newPair, now, okPrune, ok);
      && (SettledKey(c', d) <==> SettledKey(c, d))
      && (inbound.Pending? ==> (d.sender, d.id) in c'.mem.processed && !SettledKey(c', d))
  {
    hide Opened;
  }

  /** A key is settled exactly when it was, or its text is handed on and then written: to the
      history for a message, as a list of IDs for a receipt, and to the ledger for both. */
  lemma SettledExactly(n: Node, d: Delivery, parses: bool, newPair: Key32, now: nat, okPrune: bool, ok: bool,
                       okHistory: bool, okStored: bool)
    ensures
      var inbound := DecryptToText(n.client, d.sender, d.id, d.envelope, newPair, now, okPrune, ok).1;
      && (SettledKey(ProcessInbound(n, d, newPair, now, okPrune, ok, okHistory, okStored).client, d)
          <==> SettledKey(n.client, d) || (inbound.Pending? && okHistory && okStored))
      && (SettledKey(ProcessReceipt(n, d, parses, newPair, now, okPrune, ok, okStored).client, d)
          <==> SettledKey(n.client, d) || (inbound.Pending? && parses && okStored))
  {
    hide DecryptToText;
    OpeningSettles(n.client, d, newPair, now, okPrune, ok);
  }

  /** When a message is acknowledged although the history has no row of it: exactly when
      its ledger key is already settled, or its text is handed on, both databases are
      written, and a row of another peer or direction has the ID. */
  lemma AcknowledgedUnstoredExactly(n: Node, d: Delivery, newPair: Key32, now: nat, okPrune: bool, ok: bool,
                                    okHistory: bool, okStored: bool)
    requires d.id !in n.toAck
    ensures
      var n' := ProcessInbound(n, d, newPair, now, okPrune, ok, okHistory, okStored);
      var text := DecryptToText(n.client, d.sender, d.id, d.envelope, newPair, now, okPrune, ok).1;
      d.id in n'.toAck && !HasRow(n'.history, d.sender, d.id) <==>
      && !HasRow(n.history, d.sender, d.id)
      && (|| (d.envelope.version == PROTOCOL_VERSION && SettledKey(n.client, d))
          || (text.Pending? && okHistory && okStored && d.id in Ids(n.history)))
  {
    var (c, text) := DecryptToText(n.client, d.sender, d.id, d.envelope, newPair, now, okPrune, ok);
    assert text.Duplicate? <==> d.envelope.version == PROTOCOL_VERSION && SettledKey(n.client, d);
    Noted(n.client, d, newPair, now, okPrune, ok);
    assert text.Pending? ==> (ConfirmInboundStored(c, d.sender, d.id, okStored).1.Success? <==> okStored);
    hide DecryptToText, ConfirmInboundStored, SettledKey;
    if text.Pending? {
      var row := Row(d.sender, Received, d.id, text.text);
      StoredCovers(n.history, row);
      CoversReceived(Stored(n.history, row), n.history);
    }
  }

  /** A message whose ID another peer's message, a sent message or a note already has: it
      is acknowledged, and the history stays as it was. */
  lemma OtherRowSwallowsMessage(n: Node, d: Delivery, newPair: Key32, now: nat, other: Row)
    requires DecryptToText(n.client, d.sender, d.id, d.envelope, newPair, now, true, true).1.Pending?
    requires other in n.history && other.id == d.id
    ensures
      var n' := ProcessInbound(n, d, newPair, now, true, true, true, true);
      d.id in n'.toAck && n'.history == n.history
  {
    Noted(n.client, d, newPair, now, true, true);
    assert other.id in Ids(n.history);
    hide DecryptToText;
  }

  /** A receipt that opens and settles, then a message of the same sender under the same
      ID: the message is acknowledged, and the history stays as it was. */
  lemma ReceiptSwallowsMessage(n: Node, r: Delivery, d: Delivery, newPair: Key32, now: nat)
    requires DecryptToText(n.client, r.sender, r.id, r.envelope, newPair, now, true, true).1.Pending?
    requires d.sender == r.sender && d.id == r.id && d.envelope.version == PROTOCOL_VERSION
    ensures
      var n1 := ProcessReceipt(n, r, true, newPair, now, true, true, true);
      var n2 := ProcessInbound(n1, d, newPair, now, true, true, true, true);
      d.id in n2.toAck && n2.history == n.history
  {
    Noted(n.client, r, newPair, now, true, true);
    hide DecryptWithMarker;
  }

  /** What is handed on as pending stands in the ledger. */
  lemma Noted(c: Client, d: Delivery, newPair: Key32, now: nat, okPrune: bool, ok: bool)
    ensures var (c', r) := DecryptToText(c, d.sender, d.id, d.envelope, newPair, now, okPrune, ok);
            r.Pending? ==> (d.sender, d.id) in c'.mem.processed
  {
    hide Opened, Pruned;
  }
}
