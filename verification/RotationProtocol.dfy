/** One client and the relay rotating the client's signed prekey over a network
    that loses, delays, reorders and duplicates requests and answers. How many
    private predecessors the client keeps is a parameter, `keep`, so that the
    value it uses can be shown to be just large enough. */
module RotationProtocol {
  import opened Wire
  import opened Outbox
  import opened PrekeyStores
  import opened ServerSpec

  datatype Request = Request(id: Uuid, key: SignedPrekey)

  datatype Answer = Answer(id: Uuid, accepted: bool, previously: bool, current: U32)

  /** A first message the relay admitted under one of the published keys. */
  datatype Admission = Admission(key: SignedPrekey, at: nat)

  /** `sent` and `answers` hold every message ever put on the network. `keys` and
      `times` record every key that was ever current, oldest first, and when. */
  datatype Joint = Joint(
    ring: SpkRing,
    pending: Option<Request>,
    sent: set<Request>,
    answers: set<Answer>,
    published: seq<SignedPrekey>,
    now: nat,
    admitted: set<Admission>,
    keys: seq<SignedPrekey>,
    times: seq<nat>)

  datatype Event =
    | Advance(secs: nat)
    | Begin(id: Uuid, pair: Key32)
    | Serve(request: Request)
    | Hear(answer: Answer, newId: Uuid, pair: Key32)
    | Admit(keyId: U32)

  function Newest(keep: nat, keys: seq<SignedPrekey>): (r: seq<SignedPrekey>)
  {
    if |keys| > keep then keys[..keep] else keys
  }

  /** Just after a successful registration. */
  function Start(k: SignedPrekey, now: nat): (w: Joint)
    requires k.keyId + 1 < U32_LIMIT
  {
    Joint(SpkRing(Some(k), [], now, k.keyId + 1), None, {}, {}, [k], now, {}, [k], [now])
  }

  ghost predicate UnusedId(w: Joint, id: Uuid) { forall r :: r in w.sent ==> r.id != id }

  /** Events not listed as impossible here may happen at any time; an operation the
      client refuses or fails to persist is one that does not happen. */
  ghost predicate Permitted(w: Joint, ev: Event)
  {
    match ev
    case Advance(_) => true
    case Begin(id, _) =>
      w.pending.None? && w.ring.current.Some? && RotationDue(w.ring, w.now) && RotationKeyId(w.ring).Some?
        && UnusedId(w, id)
    case Serve(r) => r in w.sent && w.published != []
    case Hear(a, newId, _) => a in w.answers && UnusedId(w, newId)
    case Admit(id) => FindKey(w.published, id).Some?
  }

  function AnswerTo(id: Uuid, r: RotationResult): (a: Answer)
    requires !r.RotationFailed?
  {
    Answer(id, r.RotationAccepted?, r.PreviouslyAccepted?, r.current)
  }

  predicate Settles(w: Joint, a: Answer)
  {
    w.pending.Some? && w.pending.value.id == a.id && a.accepted && w.pending.value.key.keyId == a.current
  }

  /** The client would have to replace its candidate. */
  predicate Reconciles(w: Joint, a: Answer)
  {
    w.pending.Some? && w.pending.value.id == a.id && !(a.accepted && w.pending.value.key.keyId == a.current)
    && w.ring.current.Some? && w.ring.previous != [] && ReplacementKeyId(w.ring, a.current).Some?
  }

  function Swapped(keep: nat, r: SpkRing, a: Answer, pair: Key32, now: nat): (r': SpkRing)
    requires r.current.Some? && r.previous != [] && ReplacementKeyId(r, a.current).Some?
  {
    var k := ReplacementKeyId(r, a.current).value;
    var history := if a.previously then [r.current.value] + r.previous else r.previous;
    SpkRing(Some(SignedPrekey(k, pair)), Newest(keep, history), now, k + 1)
  }

  ghost function Step(keep: nat, w: Joint, ev: Event): (w': Joint)
    requires Permitted(w, ev)
  {
    match ev
    case Advance(secs) => w.(now := w.now + secs)
    case Begin(id, pair) =>
      var ring := Rotated(w.ring, pair, w.now);
      var r := Request(id, ring.current.value);
      w.(ring := ring, pending := Some(r), sent := w.sent + {r}, keys := w.keys + [r.key], times := w.times + [w.now])
    case Serve(r) =>
      var (keys, result) := RotateKeys(w.published, r.key);
      w.(published := keys, answers := w.answers + {AnswerTo(r.id, result)})
    case Hear(a, newId, pair) =>
      if Settles(w, a) then w.(ring := w.ring.(previous := Newest(keep, w.ring.previous)), pending := None)
      else if Reconciles(w, a) then
        var ring := Swapped(keep, w.ring, a, pair, w.now);
        var r := Request(newId, ring.current.value);
        w.(ring := ring, pending := Some(r), sent := w.sent + {r}, keys := w.keys + [r.key], times := w.times + [w.now])
      else w
    case Admit(id) => w.(admitted := w.admitted + {Admission(FindKey(w.published, id).value, w.now)})
  }

  /** With the client's own history length, these are the client's own steps. */
  lemma StandardHistory(r: SpkRing, a: Answer, pair: Key32, now: nat)
    ensures r.(previous := Newest(SIGNED_PREKEY_PRIVATE_HISTORY, r.previous)) == RotationConfirmed(r)
    ensures r.current.Some? && r.previous != [] && ReplacementKeyId(r, a.current).Some? ==>
              Swapped(SIGNED_PREKEY_PRIVATE_HISTORY, r, a, pair, now)
              == Reconciled(r, a.current, a.previously, pair, now)
  {}

  ghost predicate PermittedRun(keep: nat, start: Joint, evs: seq<Event>)
    decreases |evs|, 0
  {
    evs == [] || (PermittedRun(keep, start, evs[..|evs| - 1])
                  && Permitted(Run(keep, start, evs[..|evs| - 1]), evs[|evs| - 1]))
  }

  ghost function Run(keep: nat, start: Joint, evs: seq<Event>): (w: Joint)
    requires PermittedRun(keep, start, evs)
    decreases |evs|, 1
  {
    if evs == [] then start else Step(keep, Run(keep, start, evs[..|evs| - 1]), evs[|evs| - 1])
  }

  // -- The invariant -----------------------------------------------------------

  function Least(a: nat, b: nat): (m: nat) { if a <= b then a else b }

  /** Keys were made in increasing order, a rotation interval apart. */
  ghost predicate Spaced(keys: seq<SignedPrekey>, times: seq<nat>)
  {
    && |keys| == |times| >= 1
    && (forall i, j :: 0 <= i < j < |keys| ==> keys[i].keyId < keys[j].keyId)
    && (forall i :: 0 <= i < |times| - 1 ==> times[i] + SIGNED_PREKEY_ROTATION_SECS <= times[i + 1])
    && times[0] >= 1
  }

  /** The ring holds the newest keys: `limit` predecessors. */
  ghost predicate RingHolds(limit: nat, ring: SpkRing, keys: seq<SignedPrekey>)
  {
    var n := |keys| - 1;
    && n >= 0
    && ring.current == Some(keys[n]) && keys[n].keyId < ring.nextId
    && |ring.previous| == Least(n, limit)
    && (forall j :: 0 <= j < |ring.previous| ==> ring.previous[j] == keys[n - 1 - j])
  }

  /** The relay publishes the two newest keys it has accepted, the newest being number `a`. */
  ghost predicate Published(published: seq<SignedPrekey>, keys: seq<SignedPrekey>, a: int)
  {
    && 0 <= a < |keys|
    && |published| == Least(a + 1, PUBLIC_SIGNED_PREKEYS)
    && (forall j :: 0 <= j < |published| ==> published[j] == keys[a - j])
  }

  ghost predicate SentOk(sent: set<Request>, keys: seq<SignedPrekey>, pending: Option<Request>)
  {
    && (forall r :: r in sent ==> r.key in keys)
    && (forall r, r' :: r in sent && r' in sent && r.id == r'.id ==> r == r')
    && (pending.Some? ==> |keys| >= 2 && pending.value.key == keys[|keys| - 1] && pending.value in sent)
  }

  /** Answers answer requests, and an answer to the pending one accepted it. */
  ghost predicate AnswersOk(answers: set<Answer>, sent: set<Request>, pending: Option<Request>,
                            published: seq<SignedPrekey>)
  {
    && (forall a :: a in answers ==> exists r :: r in sent && r.id == a.id)
    && (forall a :: a in answers && pending.Some? && pending.value.id == a.id ==>
          a.accepted && a.current == pending.value.key.keyId && published != [] && published[0] == pending.value.key)
  }

  /** The admitted key was one of the two newest, or the two before a pending one:
      the third key after it was not yet made. */
  ghost predicate AdmittedOk(keys: seq<SignedPrekey>, times: seq<nat>, x: Admission)
  {
    exists m :: 0 <= m < |keys| && keys[m] == x.key && NotYet(times, m + 3, x.at)
  }

  ghost predicate NotYet(times: seq<nat>, from: nat, at: nat)
  {
    forall j :: from <= j < |times| ==> at <= times[j]
  }

  ghost predicate AllAdmittedOk(w: Joint)
  {
    forall x :: x in w.admitted ==> x.at <= w.now && AdmittedOk(w.keys, w.times, x)
  }

  /** How many of the keys the relay has accepted, counting from zero. */
  ghost predicate Accepted(w: Joint, a: int)
  {
    && Published(w.published, w.keys, a)
    && (a == |w.keys| - 1 || (w.pending.Some? && a == |w.keys| - 2))
  }

  ghost predicate Inv(keep: nat, w: Joint)
  {
    && Spaced(w.keys, w.times)
    && RingHolds(keep + (if w.pending.Some? then 1 else 0), w.ring, w.keys)
    && w.ring.rotatedAt == w.times[|w.times| - 1] <= w.now
    && SentOk(w.sent, w.keys, w.pending)
    && AnswersOk(w.answers, w.sent, w.pending, w.published)
    && (exists a :: Accepted(w, a))
    && AllAdmittedOk(w)
  }

  lemma StartOk(keep: nat, k: SignedPrekey, now: nat)
    requires k.keyId + 1 < U32_LIMIT && now >= 1
    ensures Inv(keep, Start(k, now))
  {
    assert Accepted(Start(k, now), 0);
  }

  lemma AdmittedGrows(keys: seq<SignedPrekey>, times: seq<nat>, x: Admission, k: SignedPrekey, now: nat)
    requires AdmittedOk(keys, times, x) && x.at <= now
    ensures AdmittedOk(keys + [k], times + [now], x)
  {
    var m :| 0 <= m < |keys| && keys[m] == x.key && NotYet(times, m + 3, x.at);
    assert (keys + [k])[m] == x.key && NotYet(times + [now], m + 3, x.at);
  }

  lemma RotatedHolds(keep: nat, ring: SpkRing, keys: seq<SignedPrekey>, pair: Key32, now: nat)
    requires RingHolds(keep, ring, keys) && RotationKeyId(ring).Some?
    ensures RingHolds(keep + 1, Rotated(ring, pair, now), keys + [Rotated(ring, pair, now).current.value])
    ensures keys[|keys| - 1].keyId < Rotated(ring, pair, now).current.value.keyId
  {}

  lemma {:induction false} TimesApart(keys: seq<SignedPrekey>, times: seq<nat>, i: nat, j: nat)
    requires Spaced(keys, times) && i <= j < |times|
    ensures times[i] + (j - i) * SIGNED_PREKEY_ROTATION_SECS <= times[j]
  {
    if i < j {
      TimesApart(keys, times, i, j - 1);
      assert times[j - 1] + SIGNED_PREKEY_ROTATION_SECS <= times[j - 1 + 1];
    }
  }

  lemma SpacedGrows(keys: seq<SignedPrekey>, times: seq<nat>, k: SignedPrekey, now: nat)
    requires Spaced(keys, times) && keys[|keys| - 1].keyId < k.keyId
    requires times[|times| - 1] + SIGNED_PREKEY_ROTATION_SECS <= now
    ensures Spaced(keys + [k], times + [now])
  {}

  lemma BeginKeeps(keep: nat, w: Joint, ev: Event)
    requires Inv(keep, w) && ev.Begin? && Permitted(w, ev)
    ensures Inv(keep, Step(keep, w, ev))
  {
    var w', n := Step(keep, w, ev), |w.keys| - 1;
    RotatedHolds(keep, w.ring, w.keys, ev.pair, w.now);
    TimesApart(w.keys, w.times, 0, n);
    SpacedGrows(w.keys, w.times, w'.keys[n + 1], w.now);
    hide Spaced;
    var a :| Accepted(w, a);
    assert Accepted(w', a);
    forall x | x in w'.admitted
      ensures x.at <= w.now && AdmittedOk(w'.keys, w'.times, x)
    {
      AdmittedGrows(w.keys, w.times, x, w'.keys[n + 1], w.now);
    }
    hide AdmittedOk, Accepted, RingHolds, Rotated, RotationKeyId;
    assert w'.keys[..n + 1] == w.keys;
    assert SentOk(w'.sent, w'.keys, w'.pending);
  }

  /** What the relay answers, by the age of the key it is asked to accept. */
  lemma ServedKeys(keys: seq<SignedPrekey>, published: seq<SignedPrekey>, a: nat, i: nat)
    requires forall i, j :: 0 <= i < j < |keys| ==> keys[i].keyId < keys[j].keyId
    requires Published(published, keys, a) && i < |keys| && i <= a + 1
    ensures var (p, r) := RotateKeys(published, keys[i]);
            && (i > a ==> p == [keys[i], keys[a]] && r == RotationAccepted(keys[i].keyId))
            && (i == a ==> p == published && r == RotationAccepted(keys[i].keyId))
            && (i < a ==> p == published)
            && !r.RotationFailed?
  {
    if i > a {
      assert FindKey(published, keys[i].keyId).None?;
      assert ([keys[i]] + published)[..2] == [keys[i], keys[a]];
    } else if i == a {
      assert FindKey(published, keys[i].keyId) == Some(keys[a]);
    } else if i == a - 1 {
      assert published[1] == keys[i] && published[0].keyId != keys[i].keyId;
      assert FindKey(published[1..], keys[i].keyId) == Some(keys[i]);
    }
  }

  lemma AnswerAdded(answers: set<Answer>, sent: set<Request>, pending: Option<Request>, published: seq<SignedPrekey>,
                    published': seq<SignedPrekey>, r: Request, a: Answer)
    requires AnswersOk(answers, sent, pending, published) && r in sent && a.id == r.id
    requires published' == published || (pending.Some? && published' != [] && published'[0] == pending.value.key)
    requires pending.Some? && pending.value.id == r.id ==>
               a.accepted && a.current == pending.value.key.keyId && published' != []
                 && published'[0] == pending.value.key
    ensures AnswersOk(answers + {a}, sent, pending, published')
  {}

  lemma ServeKeeps(keep: nat, w: Joint, ev: Event)
    requires Inv(keep, w) && ev.Serve? && Permitted(w, ev)
    ensures Inv(keep, Step(keep, w, ev))
  {
    hide RingHolds, AdmittedOk, RotateKeys, AnswersOk;
    var w', n, r := Step(keep, w, ev), |w.keys| - 1, ev.request;
    var a :| Accepted(w, a);
    var i :| 0 <= i < |w.keys| && w.keys[i] == r.key;
    ServedKeys(w.keys, w.published, a, i);
    assert Accepted(w', if i > a then n else a);
    if w.pending.Some? && r.id == w.pending.value.id {
      assert r == w.pending.value;
      assert i == n;
    }
    hide Spaced, SentOk;
    AnswerAdded(w.answers, w.sent, w.pending, w.published, w'.published, r,
                AnswerTo(r.id, RotateKeys(w.published, r.key).1));
    hide Accepted;
  }

  /** The client never has to reconcile: the only answers to its pending request accept it. */
  lemma HearKeeps(keep: nat, w: Joint, ev: Event)
    requires Inv(keep, w) && ev.Hear? && Permitted(w, ev)
    ensures Inv(keep, Step(keep, w, ev))
    ensures !Reconciles(w, ev.answer)
  {
    hide AdmittedOk;
    var w', n := Step(keep, w, ev), |w.keys| - 1;
    if Settles(w, ev.answer) {
      var a :| Accepted(w, a);
      assert a == n by {
        assert w.published[0] == w.keys[a] == w.keys[n];
      }
      assert Accepted(w', n);
      assert RingHolds(keep, w'.ring, w'.keys);
    }
    hide Accepted, RingHolds, Spaced;
  }

  lemma AdvanceKeeps(keep: nat, w: Joint, ev: Event)
    requires Inv(keep, w) && ev.Advance? && Permitted(w, ev)
    ensures Inv(keep, Step(keep, w, ev))
  {
    hide RingHolds, SentOk, AnswersOk, Spaced, AdmittedOk, Published;
    var a :| Accepted(w, a);
    assert Accepted(Step(keep, w, ev), a);
  }

  lemma AdmitKeeps(keep: nat, w: Joint, ev: Event)
    requires Inv(keep, w) && ev.Admit? && Permitted(w, ev)
    ensures Inv(keep, Step(keep, w, ev))
  {
    hide RingHolds, SentOk, AnswersOk, FindKey;
    var w', k := Step(keep, w, ev), FindKey(w.published, ev.keyId).value;
    var a :| Accepted(w, a);
    assert Accepted(w', a);
    var j :| 0 <= j < |w.published| && w.published[j] == k;
    assert w.keys[a - j] == k && NotYet(w.times, a - j + 3, w.now);
    assert AdmittedOk(w.keys, w.times, Admission(k, w.now));
    hide Accepted, Spaced, AdmittedOk;
  }

  lemma {:induction false} RunKeeps(keep: nat, k: SignedPrekey, now: nat, evs: seq<Event>)
    requires k.keyId + 1 < U32_LIMIT && now >= 1 && PermittedRun(keep, Start(k, now), evs)
    ensures Inv(keep, Run(keep, Start(k, now), evs))
  {
    if evs == [] {
      StartOk(keep, k, now);
    } else {
      var w, ev := Run(keep, Start(k, now), evs[..|evs| - 1]), evs[|evs| - 1];
      RunKeeps(keep, k, now, evs[..|evs| - 1]);
      hide Inv;
      if ev.Begin? {
        BeginKeeps(keep, w, ev);
      } else if ev.Serve? {
        ServeKeeps(keep, w, ev);
      } else if ev.Hear? {
        HearKeeps(keep, w, ev);
      } else if ev.Admit? {
        AdmitKeeps(keep, w, ev);
      } else {
        AdvanceKeeps(keep, w, ev);
      }
      hide Step;
    }
  }

  ghost predicate StillHeld(w: Joint, x: Admission) { x.key in Held(w.ring) }

  /** How long an admitted first message may take with `keep` predecessors. */
  function Grace(keep: nat): (secs: nat)
    requires keep >= 2
  {
    (keep - 2) * SIGNED_PREKEY_ROTATION_SECS
  }

  lemma HeldWithinGrace(keep: nat, w: Joint, x: Admission)
    requires keep >= 2 && Inv(keep, w) && x in w.admitted && w.now < x.at + Grace(keep)
    ensures StillHeld(w, x)
  {
    var n := |w.keys| - 1;
    var m :| 0 <= m < |w.keys| && w.keys[m] == x.key && NotYet(w.times, m + 3, x.at);
    hide AdmittedOk, SentOk, AnswersOk, Accepted;
    if n >= m + 3 {
      TimesApart(w.keys, w.times, m + 3, n);
      GraceOver(keep, w.times[m + 3], w.times[n], n - m - 3, x.at, w.now);
    }
    hide Spaced;
    if m == n {
      assert Held(w.ring)[0] == x.key;
    } else {
      assert w.ring.previous[n - 1 - m] == x.key;
      assert Held(w.ring)[n - m] == x.key;
    }
  }

  lemma GraceOver(keep: nat, first: nat, last: nat, gaps: nat, at: nat, now: nat)
    requires keep >= 2 && at <= first && first + gaps * SIGNED_PREKEY_ROTATION_SECS <= last <= now < at + Grace(keep)
    ensures gaps < keep - 2
  {}

  /** In every run, a first message admitted under a published key and delivered
      less than thirty days later still finds the key's private half. */
  lemma PrivateHalfOutlivesAdmission(k: SignedPrekey, now: nat, evs: seq<Event>, x: Admission)
    requires k.keyId + 1 < U32_LIMIT && now >= 1
    requires PermittedRun(SIGNED_PREKEY_PRIVATE_HISTORY, Start(k, now), evs)
    requires x in Run(SIGNED_PREKEY_PRIVATE_HISTORY, Start(k, now), evs).admitted
    requires Run(SIGNED_PREKEY_PRIVATE_HISTORY, Start(k, now), evs).now < x.at + 30 * DAY
    ensures StillHeld(Run(SIGNED_PREKEY_PRIVATE_HISTORY, Start(k, now), evs), x)
  {
    RunKeeps(SIGNED_PREKEY_PRIVATE_HISTORY, k, now, evs);
    HeldWithinGrace(SIGNED_PREKEY_PRIVATE_HISTORY, Run(SIGNED_PREKEY_PRIVATE_HISTORY, Start(k, now), evs), x);
  }
}
