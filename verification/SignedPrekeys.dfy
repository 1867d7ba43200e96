/** The signed-prekey IDs of one client over its whole life: the registered key and
    every key a rotation ever released. */
module SignedPrekeys {
  import opened Wire
  import opened Outbox
  import opened PrekeyStores
  import opened ClientSpec
  import opened ClientInvariant
  import ClientKeys
  import opened ClientItems
  import opened ClientRuns
  import opened RotationRefinement
  import Protocol = RotationProtocol

  /** Keys that a registration committed. */
  ghost function Registered(identity: Key32, evs: seq<Event>): (keys: set<SignedPrekey>)
    requires PermittedRun(identity, evs)
  {
    if evs == [] then {}
    else
      var ev := evs[|evs| - 1];
      Registered(identity, evs[..|evs| - 1]) + if ev.DoRegister? && ev.ok then {ev.spk} else {}
  }

  lemma HasPending(c: Client) returns (p: Option<Protocol.Request>)
    requires Inv(c)
    ensures RotationPending(c.mem.outbox, p)
  {
    p := None;
    if HasRotation(c.mem.outbox) {
      var x :| x in c.mem.outbox && x.SignedPrekeyRotation?;
      p := Some(Protocol.Request(x.rotationId, SignedPrekey(x.keyId, x.publicKey)));
    }
    hide SameOutbox, RingOk, OpksOk, CoreSaved;
  }

  lemma RotationGrows(r: SpkRing, p: Option<Protocol.Request>, r': SpkRing, p': Option<Protocol.Request>, ev: Event)
    requires RotationStep(r, p, r', p', ev)
    ensures r.nextId <= r'.nextId && (r.current.Some? ==> r'.current.Some?)
    ensures p' != p && p'.Some? ==> r.nextId <= p'.value.key.keyId < r'.nextId
  {}

  /** A rotation item that was not there before names an ID that was still free. */
  lemma IdsGrow(c: Client, log: set<PendingOutbound>, ev: Event)
    requires Inv(c) && Permitted(c, log, ev) && !ev.DoRegister?
    ensures var c' := Step(c, log, ev).0;
            && c.mem.core.spks.nextId <= c'.mem.core.spks.nextId
            && (c.mem.core.spks.current.Some? ==> c'.mem.core.spks.current.Some?)
            && (forall x :: x in c'.disk.outbox && x.SignedPrekeyRotation? && x !in c.mem.outbox ==>
                  c.mem.core.spks.nextId <= x.keyId)
  {
    var p := HasPending(c);
    ClientTakesRotationSteps(c, p, log, ev);
    StepKeepsInv(c, log, ev);
    OnDisk(Step(c, log, ev).0);
    hide Inv, Step, Permitted, RotationStep;
    var p' :| RotationPending(Step(c, log, ev).0.mem.outbox, p')
              && RotationStep(c.mem.core.spks, p, Step(c, log, ev).0.mem.core.spks, p', ev);
    RotationGrows(c.mem.core.spks, p, Step(c, log, ev).0.mem.core.spks, p', ev);
  }

  /** Registered keys lie below the next ID, and no released rotation has theirs. */
  ghost predicate Apart(keys: set<SignedPrekey>, log: set<PendingOutbound>, ring: SpkRing)
  {
    && (forall k :: k in keys ==> k.keyId < ring.nextId && ring.current.Some?)
    && (forall k, x :: k in keys && x in log && x.SignedPrekeyRotation? ==> x.keyId != k.keyId)
    && (forall k, k' :: k in keys && k' in keys ==> k == k')
  }

  lemma StepKeepsApart(keys: set<SignedPrekey>, c: Client, log: set<PendingOutbound>, ev: Event)
    requires Inv(c) && Permitted(c, log, ev) && !ev.DoRegister? && Items(c.disk.outbox) <= log
    requires Apart(keys, log, c.mem.core.spks)
    ensures Apart(keys, log + Items(Step(c, log, ev).0.disk.outbox), Step(c, log, ev).0.mem.core.spks)
  {
    IdsGrow(c, log, ev);
    OnDisk(c);
    hide Inv, Step, Permitted;
  }

  lemma RegisterKeepsApart(keys: set<SignedPrekey>, c: Client, log: set<PendingOutbound>, ev: Event)
    requires Inv(c) && Permitted(c, log, ev) && ev.DoRegister? && Items(c.disk.outbox) <= log
    requires Apart(keys, log, c.mem.core.spks) && RotationsOk(log, c.mem.core.spks)
    ensures Apart(keys + (if ev.ok then {ev.spk} else {}), log + Items(Step(c, log, ev).0.disk.outbox),
                  Step(c, log, ev).0.mem.core.spks)
  {
    hide Inv, DerivedNext;
    assert Step(c, log, ev).0.disk.outbox == c.disk.outbox;
    assert log + Items(c.disk.outbox) == log;
  }

  lemma {:induction false} RegisteredApart(identity: Key32, evs: seq<Event>)
    requires PermittedRun(identity, evs)
    ensures Apart(Registered(identity, evs), Run(identity, evs).log, Run(identity, evs).c.mem.core.spks)
  {
    if evs != [] {
      var front, ev := evs[..|evs| - 1], evs[|evs| - 1];
      var h := Run(identity, front);
      RegisteredApart(identity, front);
      RunKeepsAll(identity, front);
      assert RotationsOk(h.log, h.c.mem.core.spks);
      hide Inv, LogOk, Apart, Permitted;
      if ev.DoRegister? {
        RegisterKeepsApart(Registered(identity, front), h.c, h.log, ev);
      } else {
        StepKeepsApart(Registered(identity, front), h.c, h.log, ev);
        assert Registered(identity, evs) == Registered(identity, front);
      }
      hide Step;
    }
  }

  /** The keys released under an ID by a registration or a rotation. */
  ghost predicate Released(identity: Key32, evs: seq<Event>, k: SignedPrekey)
    requires PermittedRun(identity, evs)
  {
    || k in Registered(identity, evs)
    || exists x :: x in Run(identity, evs).log && x.SignedPrekeyRotation? && k == SignedPrekey(x.keyId, x.publicKey)
  }

  /** After every run, under arbitrary server answers: signed-prekey IDs strictly
      decrease from the current key through the history and lie below the next
      ID; a pending rotation has a predecessor; the history holds at most three
      keys when idle and four while a rotation is pending; no ID was ever released
      for two keys, and none released will be used again. */
  lemma SignedPrekeysOrdered(identity: Key32, evs: seq<Event>)
    requires PermittedRun(identity, evs)
    ensures
      var c := Run(identity, evs).c;
      var ring := c.mem.core.spks;
      && StrictlyDecreasing(Held(ring))
      && (forall i :: 0 <= i < |Held(ring)| ==> Held(ring)[i].keyId < ring.nextId)
      && (HasRotation(c.mem.outbox) ==> ring.previous != [])
      && |ring.previous| <= (if HasRotation(c.mem.outbox) then 4 else 3)
      && (forall k :: Released(identity, evs, k) ==> k.keyId < ring.nextId)
      && (forall k, k' :: Released(identity, evs, k) && Released(identity, evs, k') && k.keyId == k'.keyId ==> k == k')
  {
    RunKeepsAll(identity, evs);
    RegisteredApart(identity, evs);
    hide Run, PermittedRun, Registered, ClientKeys.KeysOk, UploadsOk, SameOutbox, OpksOk;
  }
}
