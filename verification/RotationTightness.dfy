/** The client's history length is just enough: with `keep` private predecessors
    a delay is safe exactly when it is shorter than `keep - 2` rotation intervals. */
module RotationTightness {
  import opened Wire
  import opened PrekeyStores
  import opened ServerSpec
  import opened RotationProtocol

  function Begun(): (w: Joint) { Start(SignedPrekey(0, 0), 1) }

  /** After `evs` key number `n` is current; the relay has accepted it unless it is `waiting`. */
  ghost predicate Reached(keep: nat, evs: seq<Event>, n: nat, waiting: bool)
  {
    PermittedRun(keep, Begun(), evs)
    && var w := Run(keep, Begun(), evs);
       && |w.keys| == n + 1 && w.keys[n].keyId == n && w.ring.nextId == n + 1
       && (forall r :: r in w.sent ==> r.id <= n)
       && w.pending.Some? == waiting
       && RotationProtocol.Accepted(w, if waiting then n - 1 else n)
  }

  lemma Extended(keep: nat, evs: seq<Event>, ev: Event)
    requires PermittedRun(keep, Begun(), evs) && Permitted(Run(keep, Begun(), evs), ev)
    ensures PermittedRun(keep, Begun(), evs + [ev])
    ensures Run(keep, Begun(), evs + [ev]) == Step(keep, Run(keep, Begun(), evs), ev)
  {
    assert (evs + [ev])[..|evs|] == evs;
    hide Permitted, Step;
  }

  /** Time passes, and messages may be admitted. */
  lemma Passing(keep: nat, evs: seq<Event>, n: nat, waiting: bool, ev: Event)
    requires Reached(keep, evs, n, waiting) && (ev.Advance? || ev.Admit?) && Permitted(Run(keep, Begun(), evs), ev)
    ensures Reached(keep, evs + [ev], n, waiting)
    ensures Run(keep, Begun(), evs + [ev]) == Step(keep, Run(keep, Begun(), evs), ev)
  {
    hide Run, PermittedRun;
    Extended(keep, evs, ev);
  }

  lemma Beginning(keep: nat, evs: seq<Event>, n: nat)
    requires Reached(keep, evs, n, false) && n + 3 < U32_LIMIT
    requires RotationDue(Run(keep, Begun(), evs).ring, Run(keep, Begun(), evs).now)
    ensures Permitted(Run(keep, Begun(), evs), Begin(n + 1, 0))
    ensures Reached(keep, evs + [Begin(n + 1, 0)], n + 1, true)
    ensures Run(keep, Begun(), evs + [Begin(n + 1, 0)]) == Step(keep, Run(keep, Begun(), evs), Begin(n + 1, 0))
  {
    RunKeeps(keep, SignedPrekey(0, 0), 1, evs);
    hide Run, PermittedRun, SentOk, AnswersOk, AllAdmittedOk, Spaced;
    Extended(keep, evs, Begin(n + 1, 0));
  }

  /** The relay hears the pending request and the client its answer. */
  lemma Finishing(keep: nat, evs: seq<Event>, n: nat) returns (evs': seq<Event>)
    requires Reached(keep, evs, n, true) && n >= 1
    ensures Reached(keep, evs', n, false)
    ensures var w, w' := Run(keep, Begun(), evs), Run(keep, Begun(), evs');
            w'.now == w.now && w'.admitted == w.admitted && w'.keys == w.keys && w'.times == w.times
            && w'.ring.rotatedAt == w.ring.rotatedAt
  {
    RunKeeps(keep, SignedPrekey(0, 0), 1, evs);
    hide Run, PermittedRun, AnswersOk, AllAdmittedOk, RingHolds;
    var w := Run(keep, Begun(), evs);
    var r := w.pending.value;
    ServedKeys(w.keys, w.published, n - 1, n);
    hide RotateKeys;
    Extended(keep, evs, Serve(r));
    var a := AnswerTo(r.id, RotationAccepted(n));
    Extended(keep, evs + [Serve(r)], Hear(a, n + 1, 0));
    evs' := evs + [Serve(r)] + [Hear(a, n + 1, 0)];
  }

  /** The first message is admitted under key 0 while key 2 is pending; then key 2 is settled. */
  lemma Opening(keep: nat) returns (evs: seq<Event>, x: Admission)
    ensures Reached(keep, evs, 2, false)
    ensures var w := Run(keep, Begun(), evs);
            x in w.admitted && x.key == w.keys[0] && w.now == x.at
            && w.ring.rotatedAt + SIGNED_PREKEY_ROTATION_SECS == w.now
  {
    var interval := Advance(SIGNED_PREKEY_ROTATION_SECS);
    assert Reached(keep, [], 0, false);
    Passing(keep, [], 0, false, interval);
    Beginning(keep, [] + [interval], 0);
    var e1 := Finishing(keep, [] + [interval] + [Begin(1, 0)], 1);
    var w1 := Run(keep, Begun(), e1);
    hide Run, PermittedRun;
    assert w1.ring.rotatedAt == w1.now;
    Passing(keep, e1, 1, false, interval);
    Beginning(keep, e1 + [interval], 1);
    var e2 := e1 + [interval] + [Begin(2, 0)];
    Passing(keep, e2, 2, true, interval);
    var e3 := e2 + [interval];
    var w3 := Run(keep, Begun(), e3);
    assert w3.published[1] == w3.keys[0] && w3.keys[0] == SignedPrekey(0, 0) && w3.published[0].keyId == 1;
    assert FindKey(w3.published[1..], 0) == Some(w3.keys[0]);
    Passing(keep, e3, 2, true, Admit(0));
    x := Admission(w3.keys[0], w3.now);
    evs := Finishing(keep, e3 + [Admit(0)], 2);
  }

  /** `j` more rotations, each an interval after the one before; the first at once. */
  lemma {:induction false} Rotations(keep: nat, j: nat) returns (evs: seq<Event>, x: Admission)
    requires 1 <= j && j + 5 < U32_LIMIT
    ensures Reached(keep, evs, j + 2, false)
    ensures var w := Run(keep, Begun(), evs);
            x in w.admitted && x.key == w.keys[0] && w.now == x.at + (j - 1) * SIGNED_PREKEY_ROTATION_SECS
            && w.ring.rotatedAt == w.now
    decreases j
  {
    hide Run, PermittedRun, RotationProtocol.Accepted;
    if j == 1 {
      var opening, y := Opening(keep);
      x := y;
      evs := OneMore(keep, opening, 2, x);
    } else {
      var shorter, y := Rotations(keep, j - 1);
      x := y;
      var interval := Advance(SIGNED_PREKEY_ROTATION_SECS);
      Passing(keep, shorter, j + 1, false, interval);
      evs := OneMore(keep, shorter + [interval], j + 1, x);
    }
  }

  /** A whole rotation, begun and settled at once. */
  lemma OneMore(keep: nat, evs: seq<Event>, n: nat, x: Admission) returns (evs': seq<Event>)
    requires Reached(keep, evs, n, false) && n + 3 < U32_LIMIT
    requires var w := Run(keep, Begun(), evs);
             x in w.admitted && x.key == w.keys[0] && w.ring.rotatedAt + SIGNED_PREKEY_ROTATION_SECS == w.now
    ensures Reached(keep, evs', n + 1, false)
    ensures var w, w' := Run(keep, Begun(), evs), Run(keep, Begun(), evs');
            x in w'.admitted && x.key == w'.keys[0] && w'.now == w.now && w'.ring.rotatedAt == w'.now
  {
    hide Run, PermittedRun, RotationProtocol.Accepted;
    Beginning(keep, evs, n);
    evs' := Finishing(keep, evs + [Begin(n + 1, 0)], n + 1);
  }

  /** Key 0 has left the ring once more than `keep` keys came after it. */
  lemma Dropped(keep: nat, evs: seq<Event>, n: nat)
    requires Reached(keep, evs, n, false) && n > keep
    ensures Run(keep, Begun(), evs).keys[0] !in Held(Run(keep, Begun(), evs).ring)
  {
    RunKeeps(keep, SignedPrekey(0, 0), 1, evs);
    hide Run, PermittedRun, SentOk, AnswersOk, AllAdmittedOk, RotationProtocol.Accepted;
    var w := Run(keep, Begun(), evs);
    forall i | 0 <= i < |Held(w.ring)|
      ensures Held(w.ring)[i] != w.keys[0]
    {
      assert Held(w.ring)[i] == w.keys[n - i];
    }
  }

  /** Delivered that long after admission, a first message always finds the private half. */
  ghost predicate Safe(keep: nat, delay: nat)
  {
    forall k: SignedPrekey, now: nat, evs: seq<Event>, x: Admission ::
      k.keyId + 1 < U32_LIMIT && now >= 1 && PermittedRun(keep, Start(k, now), evs)
      && x in Run(keep, Start(k, now), evs).admitted && Run(keep, Start(k, now), evs).now == x.at + delay
      ==> StillHeld(Run(keep, Start(k, now), evs), x)
  }

  lemma ShortDelaysSafe(keep: nat, delay: nat)
    requires keep >= 2 && delay < Grace(keep)
    ensures Safe(keep, delay)
  {
    forall k: SignedPrekey, now: nat, evs: seq<Event>, x: Admission
      | k.keyId + 1 < U32_LIMIT && now >= 1 && PermittedRun(keep, Start(k, now), evs)
        && x in Run(keep, Start(k, now), evs).admitted && Run(keep, Start(k, now), evs).now == x.at + delay
      ensures StillHeld(Run(keep, Start(k, now), evs), x)
    {
      RunKeeps(keep, k, now, evs);
      HeldWithinGrace(keep, Run(keep, Start(k, now), evs), x);
    }
  }

  lemma LongDelaysUnsafe(keep: nat, delay: nat)
    requires 2 <= keep && keep + 4 < U32_LIMIT && delay >= Grace(keep)
    ensures !Safe(keep, delay)
  {
    var evs, x := Rotations(keep, keep - 1);
    var rest := Advance(delay - Grace(keep));
    Passing(keep, evs, keep + 1, false, rest);
    Dropped(keep, evs + [rest], keep + 1);
    var w := Run(keep, Begun(), evs + [rest]);
    assert w.now == x.at + delay && x in w.admitted && !StillHeld(w, x);
  }

  /** With `keep` private predecessors a delay is safe in every run if and only if
      it is shorter than `keep - 2` rotation intervals. */
  lemma SafeExactly(keep: nat, delay: nat)
    requires 2 <= keep && keep + 4 < U32_LIMIT
    ensures Safe(keep, delay) <==> delay < Grace(keep)
  {
    if delay < Grace(keep) {
      ShortDelaysSafe(keep, delay);
    } else {
      LongDelaysUnsafe(keep, delay);
    }
  }

  /** Three predecessors cover every delay below thirty days and no more; two cover none. */
  lemma ThreeIsJustEnough(delay: nat)
    ensures Safe(SIGNED_PREKEY_PRIVATE_HISTORY, delay) <==> delay < 30 * DAY
    ensures !Safe(SIGNED_PREKEY_PRIVATE_HISTORY - 1, delay)
  {
    SafeExactly(SIGNED_PREKEY_PRIVATE_HISTORY, delay);
    SafeExactly(SIGNED_PREKEY_PRIVATE_HISTORY - 1, delay);
  }
}
