/** Delivering the queued messages of a user who has just connected, in pages
    bounded by count and by encoded size. */
module Paging {
  import opened Wire
  import opened Outbox
  import opened ServerSpec
  import opened ServerDb
  import Relay = ServerRuns

  const MAX_QUEUED_MESSAGES := 1000
  const MAX_QUEUED_MESSAGES_PER_PAGE := 64
  const MAX_QUEUED_PAGE_BYTES := 512 * 1024 + 16 * 1024

  /** What becomes of a queued row: a message with its encoding, an envelope of
      another protocol version, or one that cannot be delivered at all. */
  datatype RowKind = Deliverable(encoded: seq<Byte>) | UnsupportedVersion | InvalidRow

  /** How rows decode, and what stands before and after the messages of a page. */
  datatype Codec = Codec(kind: QueuedRow -> RowKind, opening: seq<Byte>, closing: seq<Byte>)

  const COMMA: Byte := 44

  /** The bytes of one message. */
  function Encoded(c: Codec, row: QueuedRow): (b: seq<Byte>)
  {
    if c.kind(row).Deliverable? then c.kind(row).encoded else []
  }

  /** Items with one comma between neighbours. */
  function Listed(c: Codec, rows: seq<QueuedRow>): (b: seq<Byte>)
  {
    if rows == [] then []
    else if |rows| == 1 then Encoded(c, rows[0])
    else Encoded(c, rows[0]) + [COMMA] + Listed(c, rows[1..])
  }

  /** The encoding of a whole page. */
  function Page(c: Codec, rows: seq<QueuedRow>): (b: seq<Byte>)
  {
    c.opening + Listed(c, rows) + c.closing
  }

  predicate Fits(c: Codec, row: QueuedRow)
  {
    c.kind(row).Deliverable? && |Page(c, [])| + |c.kind(row).encoded| <= MAX_QUEUED_PAGE_BYTES
  }

  /** Rows that are deleted on sight: invalid, or too large for any page. */
  predicate Discarded(c: Codec, row: QueuedRow) { !Fits(c, row) && !c.kind(row).UnsupportedVersion? }

  function Mine(user: UserId): (p: QueuedRow -> bool) { (row: QueuedRow) => row.recipient == user }

  function After(user: UserId, cursor: nat): (p: QueuedRow -> bool)
  {
    (row: QueuedRow) => row.recipient == user && row.rowId > cursor
  }

  function Sparing(user: UserId, removed: set<nat>): (p: QueuedRow -> bool)
  {
    (row: QueuedRow) => row.recipient != user || row.rowId !in removed
  }

  function Fitting(c: Codec): (p: QueuedRow -> bool) { (row: QueuedRow) => Fits(c, row) }

  /** The rows of which a delivery rids the queue: the discarded ones whose deletion succeeds. */
  function DiscardedIds(c: Codec, deletes: nat -> bool, rows: seq<QueuedRow>): (ids: set<nat>)
  {
    set i | 0 <= i < |rows| && Discarded(c, rows[i]) && deletes(rows[i].rowId) :: rows[i].rowId
  }

  function Flat(pages: seq<seq<QueuedRow>>): (rows: seq<QueuedRow>)
  {
    if pages == [] then [] else Flat(pages[..|pages| - 1]) + pages[|pages| - 1]
  }

  ghost predicate PageOk(c: Codec, page: seq<QueuedRow>)
  {
    && 1 <= |page| <= MAX_QUEUED_MESSAGES_PER_PAGE
    && (forall row :: row in page ==> Fits(c, row))
    && |Page(c, page)| <= MAX_QUEUED_PAGE_BYTES
  }

  ghost predicate InOrder(rows: seq<QueuedRow>)
  {
    forall i, j :: 0 <= i < j < |rows| ==> rows[i].rowId < rows[j].rowId
  }

  /** Every queue the relay can reach is one that `Deliver` accepts. */
  lemma ReachableInOrder(limits: FetchLimits, evs: seq<Relay.Event>)
    requires Relay.PermittedRun(limits, evs)
    ensures InOrder(Relay.Run(limits, evs).db.queue)
    ensures forall row :: row in Relay.Run(limits, evs).db.queue ==> row.rowId >= 1
  {
    Relay.LedgerHolds(limits, evs);
    hide Relay.Run, Relay.PermittedRun;
  }

  lemma {:induction false} StaysInOrder(queue: seq<QueuedRow>, keep: QueuedRow -> bool)
    requires InOrder(queue)
    ensures InOrder(Remaining(queue, keep))
  {
    if queue != [] {
      var front, last := queue[..|queue| - 1], queue[|queue| - 1];
      StaysInOrder(front, keep);
      forall row | row in Remaining(front, keep)
        ensures row.rowId < last.rowId
      {
        RemainingExactly(front, keep, row);
      }
    }
  }

  lemma {:induction false} LaterRows(rows: seq<QueuedRow>, user: UserId, i: nat, cursor: nat)
    requires InOrder(rows) && i <= |rows| && (forall k :: 0 <= k < |rows| ==> rows[k].recipient == user)
    requires forall k :: 0 <= k < |rows| ==> (rows[k].rowId > cursor <==> k >= i)
    ensures Remaining(rows, After(user, cursor)) == rows[i..]
  {
    if rows != [] {
      var front := rows[..|rows| - 1];
      if i == |rows| {
        LaterRows(front, user, i - 1, cursor);
        assert front[i - 1..] == [];
      } else {
        LaterRows(front, user, i, cursor);
        assert front[i..] + [rows[|rows| - 1]] == rows[i..];
      }
    }
  }

  /** The query `rowid > cursor ORDER BY rowid LIMIT 1`, on a queue from which
      only rows at or before the cursor were deleted, finds the next original row. */
  lemma NextRow(queue: seq<QueuedRow>, user: UserId, removed: set<nat>, i: nat, cursor: nat)
    requires InOrder(queue) && (forall id :: id in removed ==> id <= cursor)
    requires var rows := Remaining(queue, Mine(user));
             i <= |rows| && (forall k :: 0 <= k < |rows| ==> (rows[k].rowId > cursor <==> k >= i))
    ensures Remaining(Remaining(queue, Sparing(user, removed)), After(user, cursor))
            == Remaining(queue, Mine(user))[i..]
  {
    var rows := Remaining(queue, Mine(user));
    StaysInOrder(queue, Mine(user));
    forall k | 0 <= k < |rows|
      ensures rows[k].recipient == user
    {
      RemainingExactly(queue, Mine(user), rows[k]);
    }
    LaterRows(rows, user, i, cursor);
    RemainingTwice(queue, Mine(user), After(user, cursor), After(user, cursor));
    RemainingTwice(queue, Sparing(user, removed), After(user, cursor), After(user, cursor));
  }

  lemma EmptyPage(c: Codec)
    ensures Page(c, []) == c.opening + c.closing
  {
    assert c.opening + [] == c.opening;
  }

  // -- One row at a time ---------------------------------------------------------

  /** The first `i` of the user's rows were looked at; the discarded ones are gone. */
  ghost predicate Progress(queue: seq<QueuedRow>, user: UserId, c: Codec, deletes: nat -> bool, i: nat, cursor: nat,
                           current: seq<QueuedRow>)
  {
    var rows := Remaining(queue, Mine(user));
    && i <= |rows| && cursor == (if i == 0 then 0 else rows[i - 1].rowId)
    && current == Remaining(queue, Sparing(user, DiscardedIds(c, deletes, rows[..i])))
  }

  /** Pages sent and the page being filled hold exactly the fitting rows so far. */
  ghost predicate Paged(c: Codec, done: seq<QueuedRow>, sent: seq<seq<QueuedRow>>, page: seq<QueuedRow>, pageBytes: nat)
  {
    && (forall p :: p in sent ==> PageOk(c, p))
    && (page == [] || PageOk(c, page))
    && pageBytes == |Page(c, page)|
    && Flat(sent) + page == Remaining(done, Fitting(c))
  }

  lemma Started(queue: seq<QueuedRow>, user: UserId, c: Codec, deletes: nat -> bool)
    ensures Progress(queue, user, c, deletes, 0, 0, queue)
    ensures Paged(c, [], [], [], |Page(c, [])|)
  {
    var rows := Remaining(queue, Mine(user));
    assert DiscardedIds(c, deletes, rows[..0]) == {};
    EverythingRemains(queue, Sparing(user, {}));
  }

  lemma NextFound(queue: seq<QueuedRow>, user: UserId, c: Codec, deletes: nat -> bool, i: nat, cursor: nat,
                  current: seq<QueuedRow>)
    requires InOrder(queue) && (forall row :: row in queue ==> row.rowId >= 1)
    requires Progress(queue, user, c, deletes, i, cursor, current)
    ensures Remaining(current, After(user, cursor))
            == Remaining(queue, Mine(user))[i..]
  {
    var rows := Remaining(queue, Mine(user));
    StaysInOrder(queue, Mine(user));
    forall k | 0 <= k < |rows|
      ensures rows[k].rowId > cursor <==> k >= i
    {
      RemainingExactly(queue, Mine(user), rows[k]);
    }
    NextRow(queue, user, DiscardedIds(c, deletes, rows[..i]), i, cursor);
  }

  lemma DiscardedNext(c: Codec, deletes: nat -> bool, rows: seq<QueuedRow>, i: nat)
    requires i < |rows|
    ensures DiscardedIds(c, deletes, rows[..i + 1])
            == DiscardedIds(c, deletes, rows[..i])
               + if Discarded(c, rows[i]) && deletes(rows[i].rowId) then {rows[i].rowId} else {}
  {
    var a, b := rows[..i], rows[..i + 1];
    assert b[i] == rows[i];
    assert forall k :: 0 <= k < i ==> a[k] == b[k];
    hide Discarded;
    forall id | id in DiscardedIds(c, deletes, a)
      ensures id in DiscardedIds(c, deletes, b)
    {
      var k :| 0 <= k < |a| && Discarded(c, a[k]) && deletes(a[k].rowId) && a[k].rowId == id;
      assert Discarded(c, b[k]) && b[k].rowId == id;
    }
  }

  /** One more row looked at: kept, or deleted if it is one of the discarded. */
  lemma Visited(queue: seq<QueuedRow>, user: UserId, c: Codec, deletes: nat -> bool, i: nat, cursor: nat,
                current: seq<QueuedRow>)
    requires Progress(queue, user, c, deletes, i, cursor, current) && i < |Remaining(queue, Mine(user))|
    ensures var row := Remaining(queue, Mine(user))[i];
            Progress(queue, user, c, deletes, i + 1, row.rowId,
                     if Discarded(c, row) && deletes(row.rowId) then Remaining(current, Sparing(user, {row.rowId}))
                     else current)
  {
    var rows := Remaining(queue, Mine(user));
    DiscardedNext(c, deletes, rows, i);
    if Discarded(c, rows[i]) && deletes(rows[i].rowId) {
      RemainingTwice(queue, Sparing(user, DiscardedIds(c, deletes, rows[..i])), Sparing(user, {rows[i].rowId}),
                     Sparing(user, DiscardedIds(c, deletes, rows[..i + 1])));
    } else {
      assert DiscardedIds(c, deletes, rows[..i + 1]) == DiscardedIds(c, deletes, rows[..i]);
    }
  }

  lemma Skipping(c: Codec, rows: seq<QueuedRow>, i: nat, sent: seq<seq<QueuedRow>>, page: seq<QueuedRow>,
                 pageBytes: nat)
    requires i < |rows| && Paged(c, rows[..i], sent, page, pageBytes) && !Fits(c, rows[i])
    ensures Paged(c, rows[..i + 1], sent, page, pageBytes)
  {
    assert rows[..i + 1][..i] == rows[..i];
  }

  lemma Flushing(c: Codec, done: seq<QueuedRow>, sent: seq<seq<QueuedRow>>, page: seq<QueuedRow>, pageBytes: nat)
    requires Paged(c, done, sent, page, pageBytes) && page != []
    ensures Paged(c, done, sent + [page], [], |Page(c, [])|)
  {
    assert (sent + [page])[..|sent|] == sent;
    assert Flat(sent + [page]) + [] == Flat(sent) + page;
  }

  /** One more message lengthens the encoded page by its own bytes and, unless it is
      the first, one comma. */
  lemma {:induction false} ListedLength(c: Codec, rows: seq<QueuedRow>, row: QueuedRow)
    ensures |Listed(c, rows + [row])| == |Listed(c, rows)| + (if rows == [] then 0 else 1) + |Encoded(c, row)|
  {
    if rows == [] {
      assert rows + [row] == [row];
    } else {
      assert (rows + [row])[1..] == rows[1..] + [row];
      ListedLength(c, rows[1..], row);
    }
  }

  lemma Adding(c: Codec, rows: seq<QueuedRow>, i: nat, sent: seq<seq<QueuedRow>>, page: seq<QueuedRow>, pageBytes: nat)
    requires i < |rows| && Paged(c, rows[..i], sent, page, pageBytes) && Fits(c, rows[i])
    requires |page| < MAX_QUEUED_MESSAGES_PER_PAGE
    requires pageBytes + (if page == [] then 0 else 1) + |Encoded(c, rows[i])| <= MAX_QUEUED_PAGE_BYTES
    ensures Paged(c, rows[..i + 1], sent, page + [rows[i]],
                  pageBytes + (if page == [] then 0 else 1) + |Encoded(c, rows[i])|)
  {
    ListedLength(c, page, rows[i]);
    assert rows[..i + 1][..i] == rows[..i];
    assert Flat(sent) + (page + [rows[i]]) == Flat(sent) + page + [rows[i]];
    hide Listed;
  }

  /** What was sent before a stop is a prefix of what a longer visit would send. */
  lemma Delayed(c: Codec, rows: seq<QueuedRow>, i: nat, flat: seq<QueuedRow>, page: seq<QueuedRow>)
    requires i < |rows| && flat + page == Remaining(rows[..i], Fitting(c))
    ensures flat <= Remaining(rows[..i + 1], Fitting(c))
  {
    assert rows[..i + 1][..i] == rows[..i];
  }

  // -- Pages are filled up -------------------------------------------------------------

  /** The page has no room for the row, by count or by the bytes of its encoding. */
  predicate NoRoomFor(c: Codec, page: seq<QueuedRow>, row: QueuedRow)
  {
    |page| >= 64 || |Page(c, page + [row])| > MAX_QUEUED_PAGE_BYTES
  }

  /** A page is only followed by another when it cannot take that one's first message. */
  ghost predicate Packed(c: Codec, pages: seq<seq<QueuedRow>>)
  {
    forall k :: 1 <= k < |pages| ==> pages[k] != [] && NoRoomFor(c, pages[k - 1], pages[k][0])
  }

  function Begun(sent: seq<seq<QueuedRow>>, page: seq<QueuedRow>): (pages: seq<seq<QueuedRow>>)
  {
    if page == [] then sent else sent + [page]
  }

  lemma SentPacked(c: Codec, sent: seq<seq<QueuedRow>>, page: seq<QueuedRow>)
    requires Packed(c, Begun(sent, page))
    ensures Packed(c, sent)
    ensures page != [] ==> Packed(c, sent + [page])
  {
    hide NoRoomFor;
    var pages := Begun(sent, page);
    assert forall k :: 0 <= k < |sent| ==> sent[k] == pages[k];
  }

  lemma GrowingPacked(c: Codec, sent: seq<seq<QueuedRow>>, page: seq<QueuedRow>, row: QueuedRow)
    requires Packed(c, Begun(sent, page)) && (page == [] ==> sent == [])
    ensures Packed(c, Begun(sent, page + [row]))
  {
    hide NoRoomFor;
    var pages, more := Begun(sent, page), Begun(sent, page + [row]);
    forall k | 1 <= k < |more|
      ensures more[k] != [] && NoRoomFor(c, more[k - 1], more[k][0])
    {
      assert pages[k] != [] && NoRoomFor(c, pages[k - 1], pages[k][0]);
      assert more[k - 1] == sent[k - 1] == pages[k - 1];
      assert more[k][0] == pages[k][0];
    }
  }

  lemma TurningPacked(c: Codec, sent: seq<seq<QueuedRow>>, page: seq<QueuedRow>, row: QueuedRow)
    requires Packed(c, Begun(sent, page)) && page != [] && NoRoomFor(c, page, row)
    ensures Packed(c, Begun(sent + [page], [row]))
  {
    hide NoRoomFor;
    var pages, more := Begun(sent, page), Begun(sent + [page], [row]);
    assert forall k :: 0 <= k < |pages| ==> more[k] == pages[k];
    assert more[|pages|] == [row];
  }

  /** The pages begun are those sent and the one being filled. */
  lemma BeginsWith(sent: seq<seq<QueuedRow>>, page: seq<QueuedRow>)
    ensures Begun(sent, page) == (if page == [] then sent else sent + [page])
    ensures forall p :: p in sent ==> p in Begun(sent, page)
  {}

  /** What the running byte count says of the page. */
  lemma RoomByBytes(c: Codec, page: seq<QueuedRow>, row: QueuedRow, pageBytes: nat)
    requires pageBytes == |Page(c, page)|
    ensures NoRoomFor(c, page, row) <==>
              |page| >= 64
              || pageBytes + (if page == [] then 0 else 1) + |Encoded(c, row)| > MAX_QUEUED_PAGE_BYTES
  {
    ListedLength(c, page, row);
    hide Listed;
  }

  // -- The state of the loop ---------------------------------------------------------------

  /** After the first `i` rows: what was sent, and the page being filled. */
  ghost predicate Loaded(c: Codec, rows: seq<QueuedRow>, i: nat, sent: seq<seq<QueuedRow>>, page: seq<QueuedRow>,
                         pageBytes: nat)
  {
    i <= |rows| && Paged(c, rows[..i], sent, page, pageBytes) && Packed(c, Begun(sent, page))
      && (page == [] ==> sent == [])
  }

  predicate Full(c: Codec, page: seq<QueuedRow>, pageBytes: nat, row: QueuedRow)
  {
    |page| >= MAX_QUEUED_MESSAGES_PER_PAGE
    || pageBytes + (if page == [] then 0 else 1) + |Encoded(c, row)| > MAX_QUEUED_PAGE_BYTES
  }

  /** What the pages sent so far amount to. */
  lemma SentSoFar(c: Codec, rows: seq<QueuedRow>, i: nat, sent: seq<seq<QueuedRow>>, page: seq<QueuedRow>,
                  pageBytes: nat)
    requires Loaded(c, rows, i, sent, page, pageBytes)
    ensures forall p :: p in Begun(sent, page) ==> PageOk(c, p)
    ensures Packed(c, sent) && Packed(c, Begun(sent, page))
    ensures Flat(sent) <= Remaining(rows[..i], Fitting(c)) == Flat(Begun(sent, page))
  {
    hide Remaining, Fitting, PageOk, Packed;
    SentPacked(c, sent, page);
    assert page == [] ==> Flat(sent) + page == Flat(sent);
    assert (sent + [page])[..|sent|] == sent;
  }

  lemma StartsLoaded(c: Codec, rows: seq<QueuedRow>)
    ensures Loaded(c, rows, 0, [], [], |Page(c, [])|)
  {
    assert rows[..0] == [];
  }

  lemma Skips(c: Codec, rows: seq<QueuedRow>, i: nat, sent: seq<seq<QueuedRow>>, page: seq<QueuedRow>, pageBytes: nat)
    requires Loaded(c, rows, i, sent, page, pageBytes) && i < |rows| && !Fits(c, rows[i])
    ensures Loaded(c, rows, i + 1, sent, page, pageBytes)
  {
    hide Paged, Packed, Fits;
    Skipping(c, rows, i, sent, page, pageBytes);
  }

  lemma Adds(c: Codec, rows: seq<QueuedRow>, i: nat, sent: seq<seq<QueuedRow>>, page: seq<QueuedRow>, pageBytes: nat)
    requires Loaded(c, rows, i, sent, page, pageBytes) && i < |rows| && Fits(c, rows[i])
    requires !Full(c, page, pageBytes, rows[i])
    ensures Loaded(c, rows, i + 1, sent, page + [rows[i]],
                   pageBytes + (if page == [] then 0 else 1) + |Encoded(c, rows[i])|)
  {
    hide Paged, Packed, Fits, Encoded;
    GrowingPacked(c, sent, page, rows[i]);
    Adding(c, rows, i, sent, page, pageBytes);
  }

  lemma Turns(c: Codec, rows: seq<QueuedRow>, i: nat, sent: seq<seq<QueuedRow>>, page: seq<QueuedRow>, pageBytes: nat)
    requires Loaded(c, rows, i, sent, page, pageBytes) && i < |rows| && Fits(c, rows[i])
    requires Full(c, page, pageBytes, rows[i])
    ensures Loaded(c, rows, i + 1, sent + [page], [rows[i]], |Page(c, [])| + |Encoded(c, rows[i])|)
    ensures (forall p :: p in sent ==> PageOk(c, p)) && Packed(c, sent)
    ensures Flat(sent) <= Remaining(rows[..i + 1], Fitting(c))
  {
    hide Packed, NoRoomFor, Flat, Remaining, Listed;
    assert pageBytes == |Page(c, page)|;
    RoomByBytes(c, page, rows[i], pageBytes);
    SentPacked(c, sent, page);
    TurningPacked(c, sent, page, rows[i]);
    Delayed(c, rows, i, Flat(sent), page);
    Flushing(c, rows[..i], sent, page, pageBytes);
    Adding(c, rows, i, sent + [page], [], |Page(c, [])|);
    assert [] + [rows[i]] == [rows[i]];
  }

  class QueueDelivery {
    const db: RelayDb
    const codec: Codec
    var sent: seq<seq<QueuedRow>>

    constructor (db: RelayDb, codec: Codec)
      ensures this.db == db && this.codec == codec && sent == []
    {
      this.db, this.codec, sent := db, codec, [];
    }

    method GetNextPending(user: UserId, cursor: nat) returns (row: Option<QueuedRow>)
      ensures var later := Remaining(db.queue, After(user, cursor));
              row == if later == [] then None else Some(later[0])
    {
      var later := Remaining(db.queue, After(user, cursor));
      return if later == [] then None else Some(later[0]);
    }

    method SendPage(page: seq<QueuedRow>, fails: nat -> bool) returns (ok: bool)
      modifies `sent
      ensures ok == !fails(|old(sent)|)
      ensures sent == if ok then old(sent) + [page] else old(sent)
    {
      ok := !fails(|sent|);
      if ok {
        sent := sent + [page];
      }
    }

    method RemoveInvalid(user: UserId, rowId: nat)
      modifies db`queue
      ensures db.queue == Remaining(old(db.queue), Sparing(user, {rowId}))
    {
      ghost var queue := db.queue;
      db.DeleteInvalidRow(user, rowId);
      RemainingSame(queue, (row: QueuedRow) => row.recipient != user || row.rowId != rowId, Sparing(user, {rowId}));
    }

    /** `fetchFails` and `sendFails` say which fetches and which sends do not succeed,
        `deletes` which deletions do. `visited` rows were looked at; the delivery
        `finished` if nothing stopped it. */
    method Deliver(user: UserId, fetchFails: nat -> bool, sendFails: nat -> bool, deletes: nat -> bool)
      returns (finished: bool, ghost visited: nat)
      requires InOrder(db.queue) && (forall row :: row in db.queue ==> row.rowId >= 1) && sent == []
      modifies this, db`queue
      ensures
        var rows := Remaining(old(db.queue), Mine(user));
        && visited <= |rows| && visited <= MAX_QUEUED_MESSAGES
        && (forall page :: page in sent ==> PageOk(codec, page)) && Packed(codec, sent)
        && Flat(sent) <= Remaining(rows[..visited], Fitting(codec))
        && db.queue == Remaining(old(db.queue), Sparing(user, DiscardedIds(codec, deletes, rows[..visited])))
        && (finished ==> (visited == |rows| || visited == MAX_QUEUED_MESSAGES)
                         && Flat(sent) == Remaining(rows[..visited], Fitting(codec)))
        && (!finished ==> || fetchFails(visited)
                          || (visited > 0 && codec.kind(rows[visited - 1]).UnsupportedVersion?)
                          || sendFails(|sent|))
    {
      hide Remaining, Mine, Flat, Listed, DiscardedIds, Sparing, Fitting, Packed, Begun, Loaded, PageOk, Page;
      ghost var queue, rows := db.queue, Remaining(db.queue, Mine(user));
      var emptyBytes := |codec.opening + codec.closing|;
      EmptyPage(codec);
      var cursor: nat, seen: nat, pageBytes: nat := 0, 0, emptyBytes;
      var page: seq<QueuedRow> := [];
      Started(queue, user, codec, deletes);
      StartsLoaded(codec, rows);
      while seen < MAX_QUEUED_MESSAGES
        invariant Progress(queue, user, codec, deletes, seen, cursor, db.queue)
        invariant Loaded(codec, rows, seen, sent, page, pageBytes)
        invariant seen <= MAX_QUEUED_MESSAGES
      {
        SentSoFar(codec, rows, seen, sent, page, pageBytes);
        BeginsWith(sent, page);
        if fetchFails(seen) {
          return false, seen;
        }
        var next := GetNextPending(user, cursor);
        NextFound(queue, user, codec, deletes, seen, cursor, db.queue);
        if next.None? {
          break;
        }
        var row := next.value;
        Visited(queue, user, codec, deletes, seen, cursor, db.queue);
        ghost var before := seen;
        cursor, seen := row.rowId, seen + 1;
        var kind := codec.kind(row);
        if !Fits(codec, row) {
          Skips(codec, rows, before, sent, page, pageBytes);
        }
        if kind.UnsupportedVersion? {
          SentSoFar(codec, rows, seen, sent, page, pageBytes);
          return false, seen;
        }
        if !kind.Deliverable? || emptyBytes + |kind.encoded| > MAX_QUEUED_PAGE_BYTES {
          if deletes(row.rowId) {
            RemoveInvalid(user, row.rowId);
          }
          continue;
        }
        var itemBytes := |kind.encoded|;
        var separator := if page == [] then 0 else 1;
        var full := |page| >= MAX_QUEUED_MESSAGES_PER_PAGE || pageBytes + separator + itemBytes > MAX_QUEUED_PAGE_BYTES;
        if full {
          Turns(codec, rows, before, sent, page, pageBytes);
          var ok := SendPage(page, sendFails);
          if !ok {
            return false, seen;
          }
          page, pageBytes := [], emptyBytes;
          assert page + [row] == [row];
        } else {
          Adds(codec, rows, before, sent, page, pageBytes);
        }
        pageBytes := pageBytes + (if page == [] then 0 else 1) + itemBytes;
        page := page + [row];
      }
      finished, visited := true, seen;
      SentSoFar(codec, rows, seen, sent, page, pageBytes);
      BeginsWith(sent, page);
      if page != [] {
        finished := SendPage(page, sendFails);
      }
    }
  }
}
