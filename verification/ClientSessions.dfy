/** What each event of the client can do to its session with one peer. */
module ClientSessions {
  import opened Wire
  import opened KeyAlgebra
  import opened X3dh
  import Ratchet
  import opened Outbox
  import opened PrekeyStores
  import opened ClientSpec
  import opened ClientInvariant
  import ClientKeys
  import opened ClientRuns
  import opened ClientItems

  /** The session with `peer`, and the identity, are what they were. */
  ghost predicate SameSession(c: Client, c': Client, peer: UserId)
  {
    && c'.identity == c.identity
    && (peer in c'.mem.core.sessions <==> peer in c.mem.core.sessions)
    && (peer in c.mem.core.sessions ==> c'.mem.core.sessions[peer] == c.mem.core.sessions[peer])
  }

  predicate Seals(ev: Event) { ev.DoEncryptMessage? || ev.DoEncryptReceipt? }

  /** Starts or gives up a session. */
  predicate Resets(ev: Event) { ev.DoInitSession? || ev.DoExpireStale? || ev.DoReject? }

  /** The next envelope to `peer` was sealed and committed to the outbox. */
  ghost predicate SealedTo(c: Client, c': Client, peer: UserId, plaintext: Bytes)
  {
    var sealed := AdvanceEncryption(c.mem.core, c.identity, peer, plaintext);
    sealed.Success? && c'.identity == c.identity && c'.mem.core == sealed.value.0
  }

  /** An envelope from `peer` was opened and its text handed on. */
  ghost predicate OpenedFrom(c: Client, c': Client, ev: Event)
    requires ev.DoDecrypt?
  {
    var o := Opened(c.mem.core, c.identity, ev.peer, ev.e, ev.newPair);
    o.Success? && c'.identity == c.identity && c'.mem.core == o.value.0
  }

  /** The envelope was not known, and was opened. */
  predicate NewlyOpens(c: Client, ev: Event)
  {
    ev.DoDecrypt? && (ev.peer, ev.id) !in c.mem.processed
    && DecryptToText(c, ev.peer, ev.id, ev.e, ev.newPair, ev.now, ev.okPrune, ev.ok).1.Pending?
  }

  lemma QueueingSessions(c: Client, log: set<PendingOutbound>, ev: Event, peer: UserId)
    requires Permitted(c, log, ev) && Queues(ev) && !Seals(ev)
    ensures SameSession(c, Step(c, log, ev).0, peer)
  {
    hide HasCapacity, Replenished, Rotated, RotationKeyId, FirstIndex, HasId, Batch;
  }

  lemma SealingSessions(c: Client, log: set<PendingOutbound>, ev: Event, peer: UserId)
    requires Permitted(c, log, ev) && Seals(ev)
    ensures Step(c, log, ev).1 ==> Step(c, log, ev).0 == c
    ensures !Step(c, log, ev).1 ==> SealedTo(c, Step(c, log, ev).0, ev.peer, ev.plaintext)
    ensures peer != ev.peer ==> SameSession(c, Step(c, log, ev).0, peer)
  {
    SealingOthers(c.mem.core, c.identity, ev.peer, ev.plaintext, peer);
    hide AdvanceEncryption, HasCapacity, FirstIndex, HasId;
  }

  lemma SealingOthers(core: Core, identity: Key32, peer: UserId, plaintext: Bytes, other: UserId)
    ensures var r := AdvanceEncryption(core, identity, peer, plaintext);
            r.Success? && other != peer ==>
              (other in r.value.0.sessions <==> other in core.sessions)
              && (other in core.sessions ==> r.value.0.sessions[other] == core.sessions[other])
  {
    hide Ratchet.Encrypt, ContextBytes;
  }

  lemma RetiringSessions(c: Client, log: set<PendingOutbound>, ev: Event, peer: UserId)
    requires Permitted(c, log, ev)
    requires ev.DoConfirmSent? || ev.DoConfirmReceiptSent? || ev.DoConfirmAcked? || ev.DoConfirmRotated?
             || ev.DoConfirmStored?
    ensures SameSession(c, Step(c, log, ev).0, peer)
  {
    hide HasId, WithoutIds, DeleteId, RemoveAt, FirstIndex, Reconciled, RotationConfirmed, ReplacementKeyId,
         CommittedRow;
  }

  lemma UploadSessions(c: Client, log: set<PendingOutbound>, ev: Event, peer: UserId)
    requires Permitted(c, log, ev) && ev.DoConfirmUploaded?
    ensures SameSession(c, Step(c, log, ev).0, peer)
  {
    hide HasCapacity, Replenished, HasId, DeleteId, UploadIds, Without, Batch, FirstIndex;
  }

  /** Giving up or restarting other sessions; or this one, which is then gone or new. */
  lemma ResettingSessions(c: Client, log: set<PendingOutbound>, ev: Event, peer: UserId)
    requires Permitted(c, log, ev) && Resets(ev) && !(ev.DoInitSession? && ev.peer == peer)
    ensures peer in Step(c, log, ev).0.mem.core.sessions ==> SameSession(c, Step(c, log, ev).0, peer)
    ensures peer !in c.mem.core.sessions ==> SameSession(c, Step(c, log, ev).0, peer)
  {
    hide AliceInitiate, ClientKeys.NewPair, LogEnvelopes, HasId, DeleteId, RemoveAt, FirstIndex;
  }

  lemma OpeningOthers(core: Core, identity: Key32, peer: UserId, e: Envelope, newPair: Key32, other: UserId)
    ensures var o := Opened(core, identity, peer, e, newPair);
            o.Success? && other != peer ==>
              (other in o.value.0.sessions <==> other in core.sessions)
              && (other in core.sessions ==> o.value.0.sessions[other] == core.sessions[other])
  {
    hide ContextBytes, CreateBobSession, Without, Ratchet.Decrypt;
  }

  lemma DecryptingSessions(c: Client, log: set<PendingOutbound>, ev: Event, peer: UserId)
    requires Permitted(c, log, ev) && ev.DoDecrypt?
    ensures NewlyOpens(c, ev) ==> OpenedFrom(c, Step(c, log, ev).0, ev)
    ensures peer != ev.peer || !NewlyOpens(c, ev) ==> SameSession(c, Step(c, log, ev).0, peer)
  {
    hide Opened, Pruned, ClientKeys.NewPair, LogEnvelopes;
    OpeningOthers(c.mem.core, c.identity, ev.peer, ev.e, ev.newPair, peer);
  }

  /** Every event of a registered client, failed or not, leaves the session with a peer
      as it was, unless it seals to, opens from, starts or gives up that session. */
  lemma SessionsFlow(c: Client, log: set<PendingOutbound>, ev: Event, peer: UserId)
    requires Inv(c) && Permitted(c, log, ev) && !ev.DoRegister?
    requires !(Seals(ev) && ev.peer == peer) && !(NewlyOpens(c, ev) && ev.peer == peer) && !Resets(ev)
    ensures SameSession(c, Step(c, log, ev).0, peer)
  {
    hide Inv, Step, Permitted, NewlyOpens, SameSession;
    if ev.Crash? {
      CrashSessions(c, log, ev, peer);
    } else if Seals(ev) {
      SealingSessions(c, log, ev, peer);
    } else if Queues(ev) {
      QueueingSessions(c, log, ev, peer);
    } else if ev.DoDecrypt? {
      DecryptingSessions(c, log, ev, peer);
    } else if ev.DoConfirmUploaded? {
      UploadSessions(c, log, ev, peer);
    } else {
      RetiringSessions(c, log, ev, peer);
    }
  }

  lemma CrashSessions(c: Client, log: set<PendingOutbound>, ev: Event, peer: UserId)
    requires Inv(c) && Permitted(c, log, ev) && ev.Crash?
    ensures SameSession(c, Step(c, log, ev).0, peer)
  {
    CrashFlow(c, log, ev);
    assert Step(c, log, ev).0.identity == c.identity;
    hide Step;
  }
}
