/** Clients, their message histories and the relay together, over a network that
    loses, delays, reorders and repeats everything it carries. */
module DeliverySpec {
  import opened Wire
  import opened KeyAlgebra
  import opened Outbox
  import opened ClientSpec
  import opened ServerSpec
  import ClientKeys
  import ClientInvariant
  import Relay = ServerRuns
  import Runs = ClientRuns

  datatype MessageDirection = Sent | Received

  /** A row of the history database: a message from or to a peer, or a note to oneself.
      One unique index covers the IDs of all of them. */
  datatype Row = Row(peer: UserId, direction: MessageDirection, id: Uuid, text: Bytes)

  function Ids(history: seq<Row>): (ids: set<Uuid>)
  {
    set i | 0 <= i < |history| :: history[i].id
  }

  function ReceivedIds(history: seq<Row>): (ids: set<Uuid>)
  {
    set i | 0 <= i < |history| && history[i].direction.Received? :: history[i].id
  }

  /** A message received from `peer` under this ID is in the history. */
  predicate HasRow(history: seq<Row>, peer: UserId, id: Uuid)
  {
    exists row :: row in history && row.peer == peer && row.direction.Received? && row.id == id
  }

  /** A row whose ID is already present, of whatever peer and direction, is ignored. */
  function Stored(history: seq<Row>, row: Row): (r: seq<Row>)
  {
    if row.id in Ids(history) then history else history + [row]
  }

  /** One client: its crypto state, everything that was ever durable in its outbox,
      its history database, the messages it has decided to acknowledge, and under
      which ledger keys it was ever handed a read receipt. */
  datatype Node = Node(client: Client, log: set<PendingOutbound>, history: seq<Row>, toAck: set<Uuid>,
                       receipts: set<(UserId, Uuid)>)

  function WithClient(n: Node, c: Client): (n': Node)
  {
    n.(client := c, log := n.log + Runs.Items(c.disk.outbox))
  }

  /** A message or a read receipt on its way to a recipient. */
  datatype Delivery = Delivery(recipient: UserId, sender: UserId, id: Uuid, envelope: Envelope)

  /** Two databases are written, one after the other: the history, then the
      ledger. Only when both are is the message acknowledged. */
  function ProcessInbound(n: Node, d: Delivery, newPair: Key32, now: nat, okPrune: bool, ok: bool, okHistory: bool,
                          okStored: bool)
    : (n': Node)
  {
    var (c, inbound) := DecryptToText(n.client, d.sender, d.id, d.envelope, newPair, now, okPrune, ok);
    match inbound
    case Failed => WithClient(n, c)
    case Duplicate => WithClient(n, c).(toAck := n.toAck + {d.id})
    case Pending(text) =>
      if !okHistory then WithClient(n, c)
      else
        var (c', r) := ConfirmInboundStored(c, d.sender, d.id, okStored);
        WithClient(n, c').(history := Stored(n.history, Row(d.sender, Received, d.id, text)),
                           toAck := if r.Success? then n.toAck + {d.id} else n.toAck)
  }

  /** A read receipt goes through the same ledger, which is settled if the text
      `parses` as a list of IDs; the history is not written. Its acknowledgement is
      an ordinary event of the client. */
  function ProcessReceipt(n: Node, d: Delivery, parses: bool, newPair: Key32, now: nat, okPrune: bool, ok: bool,
                          okStored: bool)
    : (n': Node)
  {
    var (c, inbound) := DecryptToText(n.client, d.sender, d.id, d.envelope, newPair, now, okPrune, ok);
    var c' := if inbound.Pending? && parses then ConfirmInboundStored(c, d.sender, d.id, okStored).0 else c;
    WithClient(n, c').(receipts := n.receipts + {(d.sender, d.id)})
  }

  /** A message goes into the sender's own history after it was queued. */
  function KeptCopy(n: Node, x: PendingOutbound): (n': Node)
    requires x.Message?
  {
    n.(history := Stored(n.history, Row(x.recipient, Sent, x.messageId, x.envelope.ciphertext.plaintext)))
  }

  /** The relay told `user` that this message of theirs was accepted. */
  datatype Notice = Notice(user: UserId, recipient: UserId, id: Uuid)

  /** `notices` and `inbound` hold every message the relay ever sent; `dropped`
      the IDs of messages that were rejected, aged out or deleted as invalid. */
  datatype System = System(nodes: map<UserId, Node>, relay: Db, notices: set<Notice>, inbound: set<Delivery>,
                           dropped: set<Uuid>)

  datatype Event =
    | Local(user: UserId, ev: Runs.Event)
    | Receive(user: UserId, d: Delivery, newPair: Key32, now: nat, okPrune: bool, ok: bool, okHistory: bool,
              okStored: bool)
    | ReceiveReceipt(user: UserId, d: Delivery, parses: bool, newPair: Key32, now: nat, okPrune: bool, ok: bool,
                     okStored: bool)
    | KeepCopy(user: UserId, item: PendingOutbound)
    | Note(user: UserId, id: Uuid, text: Bytes)
    | Submit(user: UserId, item: PendingOutbound, now: nat)
    | Acknowledge(user: UserId, item: PendingOutbound)
    | Push(row: QueuedRow)
    | Expire(cutoff: int)
    | Discard(recipient: UserId, rowId: nat)
    | Confirm(user: UserId, ids: seq<Uuid>)
    | Prekeys(after: Db)

  /** No message has the ID. */
  ghost predicate NoMessageHas(s: System, id: Uuid)
  {
    forall v, x :: v in s.nodes && x in s.nodes[v].log && x.Message? ==> x.messageId != id
  }

  /** A client draws message IDs that no message, no history row and none of its own
      receipts has, and receipt IDs that none of its own messages has. A message to
      oneself is a note and is not sealed. */
  ghost predicate DrawnNew(s: System, u: UserId, ev: Runs.Event)
    requires u in s.nodes
  {
    && (ev.DoEncryptMessage? ==>
          && ev.peer != u && NoMessageHas(s, ev.id)
          && (forall v :: v in s.nodes ==> ev.id !in Ids(s.nodes[v].history))
          && (forall x :: x in s.nodes[u].log && x.ReadReceipt? ==> x.receiptId != ev.id))
    && (ev.DoEncryptReceipt? ==> forall x :: x in s.nodes[u].log && x.Message? ==> x.messageId != ev.id)
  }

  /** An acceptance is confirmed only on the relay's word; only decided messages are
      acknowledged; envelopes are opened through `Receive` and `ReceiveReceipt`.
      Other events of the client are unconstrained. */
  ghost predicate PermittedLocal(s: System, u: UserId, ev: Runs.Event)
  {
    && u in s.nodes && Runs.Permitted(s.nodes[u].client, s.nodes[u].log, ev)
    && !ev.DoDecrypt? && !ev.DoConfirmStored?
    && DrawnNew(s, u, ev)
    && (ev.DoConfirmSent? ==> exists r :: Notice(u, r, ev.id) in s.notices)
    && (ev.DoQueueAck? ==> forall id :: id in ev.ids ==> id in s.nodes[u].toAck)
  }

  ghost predicate Permitted(s: System, ev: Event)
  {
    match ev
    case Local(u, e) => PermittedLocal(s, u, e)
    case Receive(u, d, newPair, _, _, _, _, _) =>
      u in s.nodes && d in s.inbound && d.recipient == u
      && ClientKeys.NewPair(s.nodes[u].client.mem.core, Runs.LogEnvelopes(s.nodes[u].log), newPair)
    case ReceiveReceipt(u, d, _, newPair, _, _, _, _) =>
      u in s.nodes && d.sender in s.nodes && ReadReceipt(d.recipient, d.id, d.envelope) in s.nodes[d.sender].log
      && ClientKeys.NewPair(s.nodes[u].client.mem.core, Runs.LogEnvelopes(s.nodes[u].log), newPair)
    case KeepCopy(u, item) => u in s.nodes && item in s.nodes[u].log && item.Message?
    case Note(u, id, _) => u in s.nodes && NoMessageHas(s, id)
    case Submit(u, item, _) => u in s.nodes && item in s.nodes[u].log && item.Message?
    case Acknowledge(u, item) => u in s.nodes && item in s.nodes[u].log && item.Ack?
    case Push(row) => row in s.relay.queue
    case Expire(_) => true
    case Discard(_, _) => true
    case Confirm(_, _) => true
    case Prekeys(after) => Relay.SameStore(s.relay, after)
  }

  function MessageIds(queue: seq<QueuedRow>): (ids: set<Uuid>)
  {
    set i | 0 <= i < |queue| :: queue[i].messageId
  }

  /** Every row deleted without an acknowledgement is recorded. */
  function Dropping(s: System, after: Db): (s': System)
  {
    s.(relay := after, dropped := s.dropped + (MessageIds(s.relay.queue) - MessageIds(after.queue)))
  }

  /** A rejection takes effect while the message waits in the outbox; otherwise it is ignored. */
  predicate Rejects(c: Client, ev: Runs.Event)
  {
    ev.DoReject? && ev.ok && MessageIndex(c.mem.outbox, ev.id).Some?
  }

  ghost function Step(s: System, ev: Event): (s': System)
    requires Permitted(s, ev)
  {
    match ev
    case Local(u, e) =>
      var n := s.nodes[u];
      s.(nodes := s.nodes[u := WithClient(n, Runs.Step(n.client, n.log, e).0)],
         dropped := if Rejects(n.client, e) then s.dropped + {e.id} else s.dropped)
    case Receive(u, d, newPair, now, okPrune, ok, okHistory, okStored) =>
      s.(nodes := s.nodes[u := ProcessInbound(s.nodes[u], d, newPair, now, okPrune, ok, okHistory, okStored)])
    case ReceiveReceipt(u, d, parses, newPair, now, okPrune, ok, okStored) =>
      s.(nodes := s.nodes[u := ProcessReceipt(s.nodes[u], d, parses, newPair, now, okPrune, ok, okStored)])
    case KeepCopy(u, item) => s.(nodes := s.nodes[u := KeptCopy(s.nodes[u], item)])
    case Note(u, id, text) =>
      var n := s.nodes[u];
      s.(nodes := s.nodes[u := n.(history := Stored(n.history, Row(u, Sent, id, text)))])
    case Submit(u, item, now) =>
      var (relay, r) := ServerSpec.Enqueue(s.relay,
                                           EnqueueRequest(item.messageId, item.recipient, u, item.envelope, now));
      if Relay.Admits(r)
      then s.(relay := relay, notices := s.notices + {Notice(u, item.recipient, item.messageId)},
              inbound := s.inbound + {Delivery(item.recipient, u, item.messageId, item.envelope)})
      else s.(relay := relay)
    case Acknowledge(u, item) => s.(relay := DeleteMessages(s.relay, u, item.messageIds))
    case Push(row) => s.(inbound := s.inbound + {Delivery(row.recipient, row.sender, row.messageId, row.envelope)})
    case Expire(cutoff) => Dropping(s, CollectOld(s.relay, cutoff))
    case Discard(recipient, rowId) => Dropping(s, DeleteInvalidRow(s.relay, recipient, rowId))
    case Confirm(u, ids) => s.(relay := ConfirmAcceptances(s.relay, u, ids))
    case Prekeys(after) => s.(relay := after)
  }

  /** Freshly installed clients and an empty relay. */
  ghost predicate Initial(s: System)
  {
    && (forall u :: u in s.nodes ==>
          s.nodes[u] == Node(ClientInvariant.Fresh(s.nodes[u].client.identity), {}, [], {}, {}))
    && s.relay.queue == [] && s.relay.acceptances == map[]
    && s.notices == {} && s.inbound == {} && s.dropped == {}
  }

  ghost predicate PermittedRun(start: System, evs: seq<Event>)
    decreases |evs|, 0
  {
    evs == [] || (PermittedRun(start, evs[..|evs| - 1]) && Permitted(Run(start, evs[..|evs| - 1]), evs[|evs| - 1]))
  }

  ghost function Run(start: System, evs: seq<Event>): (s: System)
    requires PermittedRun(start, evs)
    decreases |evs|, 1
  {
    if evs == [] then start else Step(Run(start, evs[..|evs| - 1]), evs[|evs| - 1])
  }
}
