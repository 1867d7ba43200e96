/** The registry of online connections, one per user, and every interleaving of
    inserting, cancelling and cleaning up connections. */
module Connections {
  import opened Wire
  import opened Outbox

  function Removed(online: map<UserId, nat>, user: UserId, connId: nat): (r: map<UserId, nat>)
  {
    if user in online && online[user] == connId then online - {user} else online
  }

  /** Where each connection of a run is: numbered but not yet inserted, registered,
      displaced and about to be cancelled, cancelled, or removed by its own cleanup.
      Taking a number, inserting and cancelling are separate steps of a task. */
  datatype Registry = Registry(nextId: nat, owner: map<nat, UserId>, waiting: set<nat>, online: map<UserId, nat>,
                               displaced: set<nat>, cancelled: set<nat>, cleaned: set<nat>)

  datatype Event = TakeNumber(user: UserId) | Inserting(id: nat) | Cancelling(id: nat) | CleaningUp(id: nat)

  function Empty(): (r: Registry) { Registry(1, map[], {}, map[], {}, {}, {}) }

  /** A connection cleans up only after it was inserted. */
  predicate Permitted(r: Registry, ev: Event)
  {
    match ev
    case TakeNumber(_) => true
    case Inserting(id) => id in r.waiting && id in r.owner
    case Cancelling(id) => id in r.displaced
    case CleaningUp(id) => id in r.owner && id !in r.waiting
  }

  function Step(r: Registry, ev: Event): (r': Registry)
    requires Permitted(r, ev)
  {
    match ev
    case TakeNumber(u) =>
      r.(nextId := r.nextId + 1, owner := r.owner[r.nextId := u], waiting := r.waiting + {r.nextId})
    case Inserting(id) =>
      var u := r.owner[id];
      r.(online := r.online[u := id], waiting := r.waiting - {id},
         displaced := r.displaced + if u in r.online then {r.online[u]} else {})
    case Cancelling(id) => r.(displaced := r.displaced - {id}, cancelled := r.cancelled + {id})
    case CleaningUp(id) =>
      var online := Removed(r.online, r.owner[id], id);
      r.(online := online, cleaned := if online != r.online then r.cleaned + {id} else r.cleaned)
  }

  predicate PermittedRun(evs: seq<Event>)
    decreases |evs|, 0
  {
    evs == [] || (PermittedRun(evs[..|evs| - 1]) && Permitted(Run(evs[..|evs| - 1]), evs[|evs| - 1]))
  }

  function Run(evs: seq<Event>): (r: Registry)
    requires PermittedRun(evs)
    decreases |evs|, 1
  {
    if evs == [] then Empty() else Step(Run(evs[..|evs| - 1]), evs[|evs| - 1])
  }

  predicate Registered(r: Registry, id: nat) { id in r.owner && r.owner[id] in r.online && r.online[r.owner[id]] == id }

  /** Replaced by a newer connection of the same user. */
  predicate Replaced(r: Registry, id: nat) { id in r.displaced || id in r.cancelled }

  /** In one of the five places, and in no two of them. */
  predicate StandsOnce(r: Registry, id: nat)
  {
    && (id in r.waiting || Registered(r, id) || id in r.displaced || id in r.cancelled || id in r.cleaned)
    && (id in r.waiting ==> !Registered(r, id) && id !in r.displaced && id !in r.cancelled && id !in r.cleaned)
    && (Registered(r, id) ==> id !in r.displaced && id !in r.cancelled && id !in r.cleaned)
    && (id in r.displaced ==> id !in r.cancelled && id !in r.cleaned)
    && (id in r.cancelled ==> id !in r.cleaned)
  }

  ghost predicate RegistryOk(r: Registry)
  {
    && (forall id :: id in r.owner ==> id < r.nextId)
    && r.waiting + r.displaced + r.cancelled + r.cleaned <= r.owner.Keys
    && (forall u :: u in r.online ==> r.online[u] in r.owner && r.owner[r.online[u]] == u)
    && (forall id :: id in r.owner ==> StandsOnce(r, id))
  }

  lemma StepKeeps(r: Registry, ev: Event)
    requires RegistryOk(r) && Permitted(r, ev)
    ensures RegistryOk(Step(r, ev))
  {
    var r' := Step(r, ev);
    forall id | id in r'.owner
      ensures StandsOnce(r', id)
    {
      assert id in r.owner ==> StandsOnce(r, id);
      if ev.Inserting? {
        assert StandsOnce(r, ev.id);
      }
    }
  }

  lemma {:induction false} RunKeeps(evs: seq<Event>)
    requires PermittedRun(evs)
    ensures RegistryOk(Run(evs))
  {
    if evs != [] {
      RunKeeps(evs[..|evs| - 1]);
      StepKeeps(Run(evs[..|evs| - 1]), evs[|evs| - 1]);
    }
  }

  /** Over every interleaving, each connection that was ever numbered stands in exactly
      one place: not yet inserted, registered, displaced by a replacement, cancelled
      by it, or removed by its own cleanup. */
  lemma NoConnectionForgotten(evs: seq<Event>, id: nat)
    requires PermittedRun(evs) && id in Run(evs).owner
    ensures StandsOnce(Run(evs), id)
  {
    RunKeeps(evs);
    assert StandsOnce(Run(evs), id);
  }

  /** Over every interleaving, a cleanup removes its own connection and no other: the
      cleanup of a displaced one leaves its replacement registered. */
  lemma CleanupSparesReplacement(evs: seq<Event>, id: nat, other: nat)
    requires PermittedRun(evs) && Permitted(Run(evs), CleaningUp(id)) && other != id
    ensures Registered(Step(Run(evs), CleaningUp(id)), other) <==> Registered(Run(evs), other)
    ensures Replaced(Run(evs), id) ==> Step(Run(evs), CleaningUp(id)).online == Run(evs).online
    ensures !Registered(Step(Run(evs), CleaningUp(id)), id)
  {
    RunKeeps(evs);
    assert StandsOnce(Run(evs), id);
  }

  /** The shared map, and which connections were told to stop. The ghost parameter of
      each method is the state of the whole run, of which this object is a part. */
  class ConnectionRegistry {
    var online: map<UserId, nat>
    var cancelled: set<nat>

    constructor ()
      ensures PartOf(Empty())
    {
      online, cancelled := map[], {};
    }

    ghost predicate PartOf(r: Registry)
      reads this
    {
      online == r.online && cancelled == r.cancelled
    }

    /** Inserting, and cancelling the connection that was displaced, if any. */
    method Insert(user: UserId, connId: nat, ghost r: Registry) returns (displaced: Option<nat>)
      requires PartOf(r) && Permitted(r, Inserting(connId)) && r.owner[connId] == user
      modifies this
      ensures displaced == if user in r.online then Some(r.online[user]) else None
      ensures PartOf(match displaced
                     case Some(previous) => Step(Step(r, Inserting(connId)), Cancelling(previous))
                     case None => Step(r, Inserting(connId)))
    {
      displaced := None;
      if user in online {
        displaced := Some(online[user]);
      }
      online := online[user := connId];
      if displaced.Some? {
        cancelled := cancelled + {displaced.value};
      }
    }

    /** The cleanup of one connection. Afterwards that connection is not registered;
        whatever else was registered still is. */
    method RemoveIfMatch(user: UserId, connId: nat, ghost r: Registry)
      requires PartOf(r) && RegistryOk(r) && Permitted(r, CleaningUp(connId)) && r.owner[connId] == user
      modifies `online
      ensures PartOf(Step(r, CleaningUp(connId)))
      ensures forall id :: Registered(Step(r, CleaningUp(connId)), id) <==> Registered(r, id) && id != connId
    {
      if user in online && online[user] == connId {
        online := online - {user};
      }
    }
  }
}
