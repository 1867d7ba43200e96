/** Handling one inbound message as the client does it: decrypt, write the history
    database, then settle the ledger in the other database. */
module ClientInbox {
  import opened Wire
  import opened ClientSpec
  import opened ClientManager
  import opened DeliverySpec
  import opened DeliveryNode

  class Inbox {
    const crypto: CryptoManager
    var history: seq<Row>

    constructor (crypto: CryptoManager)
      ensures this.crypto == crypto && history == []
    {
      this.crypto, history := crypto, [];
    }

    /** INSERT OR IGNORE under the unique index on the message ID. */
    method InsertMessage(row: Row) returns (inserted: bool)
      modifies this
      ensures history == Stored(old(history), row)
      ensures inserted <==> row.id !in Ids(old(history))
    {
      inserted := true;
      var i := 0;
      while i < |history|
        invariant 0 <= i <= |history|
        invariant inserted <==> forall j :: 0 <= j < i ==> history[j].id != row.id
      {
        if history[i].id == row.id {
          inserted := false;
        }
        i := i + 1;
      }
      if inserted {
        history := history + [row];
      }
    }

    /** `n` is this client as a node of the whole system. */
    method ProcessInbound(d: Delivery, newPair: Key32, now: nat, okPrune: bool, ok: bool, okHistory: bool,
                          okStored: bool, ghost n: Node)
      returns (shouldAck: bool, isNew: bool)
      requires crypto.Valid() && n.client == crypto.Value() && n.history == history
      modifies this, crypto, crypto.store
      ensures crypto.Valid()
      ensures
        var n' := DeliverySpec.ProcessInbound(n, d, newPair, now, okPrune, ok, okHistory, okStored);
        && crypto.Value() == n'.client && history == n'.history
        && n'.toAck == n.toAck + (if shouldAck then {d.id} else {})
        && (isNew ==> shouldAck && d.id in Ids(history) && d.id !in Ids(n.history))
    {
      shouldAck, isNew := false, false;
      var inbound := crypto.DecryptMessageToText(d.sender, d.id, d.envelope, newPair, now, okPrune, ok);
      hide DecryptToText;
      match inbound
      case Failed =>
        return;
      case Duplicate =>
        return true, false;
      case Pending(text) =>
        if !okHistory {
          return;
        }
        var row := Row(d.sender, Received, d.id, text);
        var inserted := InsertMessage(row);
        assert inserted ==> history[|n.history|] == row;
        var settled := crypto.ConfirmInboundStored(d.sender, d.id, okStored);
        if settled.Success? {
          return true, inserted;
        }
    }

    /** A read receipt: `parses` says whether its text is a list of message IDs. The
        history is not touched; whether the ledger could be settled is ignored. */
    method ProcessReceipt(d: Delivery, parses: bool, newPair: Key32, now: nat, okPrune: bool, ok: bool, okStored: bool,
                          ghost n: Node)
      returns (shouldAck: bool)
      requires crypto.Valid() && n.client == crypto.Value() && n.history == history
      modifies crypto, crypto.store
      ensures crypto.Valid()
      ensures
        var n' := DeliverySpec.ProcessReceipt(n, d, parses, newPair, now, okPrune, ok, okStored);
        crypto.Value() == n'.client && history == n'.history
      ensures shouldAck ==> (d.sender, d.id) in crypto.processedMessages
    {
      var inbound := crypto.DecryptMessageToText(d.sender, d.id, d.envelope, newPair, now, okPrune, ok);
      match inbound
      case Failed =>
        return false;
      case Duplicate =>
        return true;
      case Pending(text) =>
        if !parses {
          return false;
        }
        Noted(n.client, d, newPair, now, okPrune, ok);
        hide DecryptToText;
        var settled := crypto.ConfirmInboundStored(d.sender, d.id, okStored);
        return true;
    }
  }
}
