/** One full client and the relay: the client's uploads and rotations reach the relay
    late, repeatedly or never, and so do the answers; everyone else uses the relay as
    they like. Time passes only between steps, and both sides read the same clock. */
module PrekeyWorld {
  import opened Wire
  import opened Outbox
  import opened PrekeyStores
  import opened ServerSpec
  import opened ClientPrekeys
  import ClientSpec
  import ClientInvariant
  import Runs = ClientRuns
  import Relay = ServerRuns
  import Protocol = RotationProtocol

  /** A registration, at time `at`, with a relay that has any past. */
  datatype Setup = Setup(user: UserId, limits: FetchLimits, identity: Key32, spk: SignedPrekey, opks: map<U32, Key32>,
                         batch: seq<(U32, Key32)>, past: seq<Relay.Event>, at: nat)

  /** The user ID is free, and the one-time prekeys sent are among those stored. */
  ghost predicate Registrable(p: Setup)
  {
    && Relay.PermittedRun(p.limits, p.past) && p.user !in Relay.Run(p.limits, p.past).db.highWater
    && p.spk.keyId + 1 < U32_LIMIT && p.at >= 1
    && forall i :: 0 <= i < |p.batch| ==> p.batch[i].0 in p.opks && p.opks[p.batch[i].0] == p.batch[i].1
  }

  datatype Answer =
    | UploadAnswer(id: Uuid, accepted: bool, remaining: nat)
    | RotationAnswer(id: Uuid, accepted: bool, previously: bool, current: U32)

  /** A first message the relay admitted that names this one-time prekey. */
  datatype Admission = Admission(keyId: U32, at: nat)

  /** When each one-time prekey was made and when it became public; which first
      messages were admitted; and why the private half of a key was deleted. */
  datatype Book = Book(made: map<U32, nat>, published: map<Slot, nat>, admitted: set<Admission>,
                       used: set<U32>, refused: set<U32>, stale: set<U32>)

  /** `log` and `answers` hold everything ever put on the network; `signed` the first
      messages admitted, with the signed prekey each was made under. */
  datatype World = World(client: ClientSpec.Client, log: set<PendingOutbound>, relay: Relay.History,
                         answers: set<Answer>, now: nat, book: Book, signed: set<Protocol.Admission>)

  datatype Event =
    | Pass(secs: nat)
    | Local(ev: Runs.Event)
    | Deliver(item: PendingOutbound)
    | Serve(request: Relay.Event)

  ghost function Start(p: Setup): (w: World)
    requires Registrable(p)
  {
    var relay := Relay.After(Relay.Run(p.limits, p.past), p.limits, Relay.Registering(p.user, p.spk, p.batch, p.at));
    World(ClientSpec.PersistRegistration(ClientInvariant.Fresh(p.identity), p.spk, p.opks, p.at, true).0, {}, relay, {},
          p.at, Book(map k | k in p.opks :: p.at, map s | s in Public(relay.db, p.user) :: p.at, {}, {}, {}, {}), {})
  }

  /** The user's one-time prekeys that can be fetched. */
  function Public(d: Db, user: UserId): (r: set<Slot>) { Inventory(d.prekeys, user) }

  // -- What may happen -----------------------------------------------------------

  /** The client reads the clock. */
  predicate OnTime(ev: Runs.Event, now: nat)
  {
    match ev
    case DoInitSession(_, _, _, _, t, _) => t == now
    case DoExpireStale(_, t, _) => t == now
    case DoQueueRotation(_, _, t, _) => t == now
    case DoConfirmRotated(_, _, _, _, _, _, t, _) => t == now
    case DoReplenish(_, _, t, _) => t == now
    case DoConfirmUploaded(_, _, _, _, _, t, _, _) => t == now
    case DoDecrypt(_, _, _, _, t, _, _) => t == now
    case Crash(t) => t == now
    case _ => true
  }

  /** What the client hears about its uploads and rotations, the relay answered. */
  predicate Heard(answers: set<Answer>, ev: Runs.Event)
  {
    match ev
    case DoConfirmUploaded(id, accepted, remaining, _, _, _, _, _) => UploadAnswer(id, accepted, remaining) in answers
    case DoConfirmRotated(id, accepted, previously, current, _, _, _, _) =>
      RotationAnswer(id, accepted, previously, current) in answers
    case _ => true
  }

  ghost predicate UnusedId(log: set<PendingOutbound>, id: Uuid)
  {
    forall x :: x in log && x.SignedPrekeyRotation? ==> x.rotationId != id
  }

  ghost predicate UnusedUploadId(log: set<PendingOutbound>, id: Uuid)
  {
    forall x :: x in log && x.PrekeyUpload? ==> x.uploadId != id
  }

  /** The correlation IDs of rotations and uploads are drawn new. */
  ghost predicate DrawnNew(log: set<PendingOutbound>, ev: Runs.Event)
  {
    match ev
    case DoQueueRotation(id, _, _, _) => UnusedId(log, id)
    case DoConfirmRotated(_, _, _, _, newId, _, _, _) => UnusedId(log, newId)
    case DoReplenish(id, _, _, _) => UnusedUploadId(log, id)
    case DoConfirmUploaded(_, _, _, newId, _, _, _, _) => UnusedUploadId(log, newId)
    case _ => true
  }

  /** The relay reads the clock, and only the user's client uploads and rotates for the user. */
  predicate OthersRequest(user: UserId, ev: Relay.Event, now: nat)
  {
    match ev
    case Uploading(u, _, _) => u != user
    case Rotating(u, _) => u != user
    case Fetching(_, _, _, t) => t == now
    case Sending(q) => q.now == now
    case _ => true
  }

  ghost predicate Permitted(p: Setup, w: World, ev: Event)
  {
    match ev
    case Pass(_) => true
    case Local(e) =>
      Runs.Permitted(w.client, w.log, e) && !e.DoRegister? && OnTime(e, w.now) && Heard(w.answers, e)
        && DrawnNew(w.log, e)
    case Deliver(x) => x in w.log && (x.PrekeyUpload? || x.SignedPrekeyRotation?)
    case Serve(e) => Relay.Permitted(w.relay, e) && OthersRequest(p.user, e, w.now)
  }

  // -- What then happens ---------------------------------------------------------

  function Recorded(b: Book, held: set<U32>, held': set<U32>, ev: Runs.Event, now: nat): (b': Book)
  {
    var gone := held - held';
    b.(made := b.made + (map k | k in held' - held :: now),
       used := if ev.DoDecrypt? then b.used + gone * NamedIds(ev.e) else b.used,
       refused := if Refuses(ev) then b.refused + gone else b.refused,
       stale := if Renews(ev) then b.stale + gone else b.stale)
  }

  ghost function AfterLocal(w: World, ev: Runs.Event): (w': World)
    requires Runs.Permitted(w.client, w.log, ev)
  {
    var c' := Runs.Step(w.client, w.log, ev).0;
    w.(client := c', log := w.log + Runs.Items(c'.disk.outbox),
       book := Recorded(w.book, w.client.mem.core.opks.keys.Keys, c'.mem.core.opks.keys.Keys, ev, w.now))
  }

  function UploadAnswers(id: Uuid, r: UploadResult): (s: set<Answer>)
  {
    match r
    case Accepted(n) => {UploadAnswer(id, true, n)}
    case InventoryFull(n) => {UploadAnswer(id, false, n)}
    case _ => {}
  }

  function RotationAnswers(id: Uuid, r: RotationResult): (s: set<Answer>)
  {
    if r.RotationFailed? then {} else {RotationAnswer(id, r.RotationAccepted?, r.PreviouslyAccepted?, r.current)}
  }

  function AfterUpload(p: Setup, w: World, x: PendingOutbound): (w': World)
    requires x.PrekeyUpload?
  {
    var (d, r) := Upload(w.relay.db, p.user, x.prekeys, w.now);
    var added := Public(d, p.user) - Public(w.relay.db, p.user);
    w.(relay := w.relay.(db := d), answers := w.answers + UploadAnswers(x.uploadId, r),
       book := w.book.(published := w.book.published + (map s | s in added :: w.now)))
  }

  function AfterRotation(p: Setup, w: World, x: PendingOutbound): (w': World)
    requires x.SignedPrekeyRotation?
  {
    var (d, r) := Rotate(w.relay.db, p.user, SignedPrekey(x.keyId, x.publicKey));
    w.(relay := w.relay.(db := d), answers := w.answers + RotationAnswers(x.rotationId, r))
  }

  /** The request is a message for the user that the relay takes for the first time. */
  predicate NewlyAdmitted(d: Db, user: UserId, ev: Relay.Event)
  {
    ev.Sending? && ev.q.recipient == user && ev.q.messageId !in d.acceptances && Relay.Admits(Enqueue(d, ev.q).1)
  }

  function OneTimeAdmitted(d: Db, user: UserId, ev: Relay.Event, now: nat): (s: set<Admission>)
  {
    if NewlyAdmitted(d, user, ev) && OneTimePrekeyIdOf(ev.q.envelope).Some?
    then {Admission(OneTimePrekeyIdOf(ev.q.envelope).value, now)} else {}
  }

  function SignedAdmitted(d: Db, user: UserId, ev: Relay.Event, now: nat): (s: set<Protocol.Admission>)
  {
    if NewlyAdmitted(d, user, ev) && SignedPrekeyIdOf(ev.q.envelope).Some? && user in d.signed
    then
      match FindKey(d.signed[user], SignedPrekeyIdOf(ev.q.envelope).value)
      case Some(k) => {Protocol.Admission(k, now)}
      case None => {}
    else {}
  }

  function AfterServe(p: Setup, w: World, ev: Relay.Event): (w': World)
    requires Relay.Permitted(w.relay, ev)
  {
    w.(relay := Relay.After(w.relay, p.limits, ev),
       book := w.book.(admitted := w.book.admitted + OneTimeAdmitted(w.relay.db, p.user, ev, w.now)),
       signed := w.signed + SignedAdmitted(w.relay.db, p.user, ev, w.now))
  }

  ghost function Step(p: Setup, w: World, ev: Event): (w': World)
    requires Permitted(p, w, ev)
  {
    match ev
    case Pass(secs) => w.(now := w.now + secs)
    case Local(e) => AfterLocal(w, e)
    case Deliver(x) => if x.PrekeyUpload? then AfterUpload(p, w, x) else AfterRotation(p, w, x)
    case Serve(e) => AfterServe(p, w, e)
  }

  ghost predicate PermittedRun(p: Setup, evs: seq<Event>)
    requires Registrable(p)
    decreases |evs|, 0
  {
    evs == [] || (PermittedRun(p, evs[..|evs| - 1]) && Permitted(p, Run(p, evs[..|evs| - 1]), evs[|evs| - 1]))
  }

  ghost function Run(p: Setup, evs: seq<Event>): (w: World)
    requires Registrable(p) && PermittedRun(p, evs)
    decreases |evs|, 1
  {
    if evs == [] then Start(p) else Step(p, Run(p, evs[..|evs| - 1]), evs[|evs| - 1])
  }
}
