// ServeHTTP's event loop over the gate's cache and the core's ReportIncident, as they are written, and
// proof that what they do is one of the schedules of module Ingest.

module Webhook {
  import opened Prelude
  import opened AlertCache
  import opened Ingest

  /** The incidents table and the triages launched, behind grpc_servicer.py. */
  class Servicer {
    var rows: seq<IncidentRow>
    var launched: seq<string>

    constructor ()
      ensures rows == [] && launched == []
    {
      rows, launched := [], [];
    }

    /** SELECT * FROM incidents WHERE fingerprint = ?, the newest row first */
    method Existing(fingerprint: string) returns (found: Option<string>)
      ensures found == Find(rows, fingerprint)
    {
      assert rows[..|rows|] == rows;
      var i := |rows|;
      while i > 0
        invariant 0 <= i <= |rows| && Find(rows, fingerprint) == Find(rows[..i], fingerprint)
      {
        assert rows[..i][..i - 1] == rows[..i - 1];
        if rows[i - 1].fingerprint == fingerprint {
          return Some(rows[i - 1].id);
        }
        i := i - 1;
      }
      return None;
    }

    /** ReportIncident; None is an exception raised after the insert, before triage is launched */
    method ReportIncident(fingerprint: string, uuid: string, dies: bool) returns (r: Option<Response>)
      modifies this
      ensures fingerprint == "" ==>
                && r == Some(Response(false, false, "", "missing event/fingerprint"))
                && rows == old(rows) && launched == old(launched)
      ensures fingerprint != "" && Find(old(rows), fingerprint).Some? ==>
                && r == Some(Response(true, true, Find(old(rows), fingerprint).value, "already exists"))
                && rows == old(rows) && launched == old(launched)
      ensures fingerprint != "" && Find(old(rows), fingerprint).None? ==>
                && rows == old(rows) + [IncidentRow(uuid, fingerprint)]
                && launched == (if dies then old(launched) else old(launched) + [uuid])
                && r == (if dies then None else Some(Response(true, false, uuid, "created")))
    {
      if fingerprint == "" {
        return Some(MISSING);
      }
      var found := Existing(fingerprint);
      if found.Some? {
        return Some(Ingest.Existing(found.value));
      }
      rows := rows + [IncidentRow(uuid, fingerprint)];
      if dies {
        return None;
      }
      launched := launched + [uuid];
      return Some(JustCreated(uuid));
    }
  }

  /** How one call to the core goes. */
  datatype Fate = Works | Unreachable | CoreDies | ReplyLost

  /** What the environment decides while one event is handled: clock readings, the uuid drawn, the call's fate. */
  datatype Visit = Visit(now: int, fate: Fate, uuid: string, evictAt: int, writeAt: int)

  /** The acts of module Ingest that one event amounts to. */
  function Acts(w: World, h: nat, v: Visit): seq<Act>
    requires h in w.handlers && w.handlers[h].pc.Looking? && |w.handlers[h].answers| < |w.handlers[h].batch|
  {
    var e := w.handlers[h].batch[|w.handlers[h].answers|];
    [Look(h, v.now)] +
    if Lookup(w.cache, IdempotencyKey(e.fingerprint, e.status), v.now).Some? then []
    else if v.fate.Unreachable? then [FailBefore(h)]
    else
      [Report(h, v.uuid)]
      + if e.fingerprint == "" || Find(w.rows, e.fingerprint).Some? then [LastAct(h, v)]
        else if v.fate.CoreDies? then [Die(h)]
        else [Launch(h), LastAct(h, v)]
  }

  lemma RunOne(w: World, a: Act)
    ensures RunFrom(w, [a]) == Step(w, a)
  {
    RunFromSnoc(w, [], a);
  }

  lemma RunMore(w: World, a: Act, rest: seq<Act>)
    ensures RunFrom(w, [a] + rest) == RunFrom(Step(w, a), rest)
  {
    RunConcat(w, [a], rest);
    RunOne(w, a);
  }

  lemma {:induction false} RunConcat(w: World, a: seq<Act>, b: seq<Act>)
    ensures RunFrom(w, a + b) == RunFrom(RunFrom(w, a), b)
  {
    if b == [] {
      assert a + b == a;
    } else {
      assert (a + b)[..|a + b| - 1] == a + b[..|b| - 1];
      RunConcat(w, a, b[..|b| - 1]);
    }
  }

  /** The last act of an event that reached the core. */
  function LastAct(h: nat, v: Visit): Act {
    if v.fate.ReplyLost? then LoseReply(h) else Reply(h, v.evictAt, v.writeAt)
  }

  /** What one event does when its schedule is not interrupted. */
  function Turn(w: World, h: nat, v: Visit): World
    requires h in w.handlers && w.handlers[h].pc.Looking? && |w.handlers[h].answers| < |w.handlers[h].batch|
  {
    var e := w.handlers[h].batch[|w.handlers[h].answers|];
    var w1 := Step(w, Look(h, v.now));
    if Lookup(w.cache, IdempotencyKey(e.fingerprint, e.status), v.now).Some? then w1
    else if v.fate.Unreachable? then Step(w1, FailBefore(h))
    else
      var w2 := Step(w1, Report(h, v.uuid));
      if e.fingerprint == "" || Find(w.rows, e.fingerprint).Some? then Step(w2, LastAct(h, v))
      else if v.fate.CoreDies? then Step(w2, Die(h))
      else Step(Step(w2, Launch(h)), LastAct(h, v))
  }

  lemma TurnIsARun(w: World, h: nat, v: Visit)
    requires h in w.handlers && w.handlers[h].pc.Looking? && |w.handlers[h].answers| < |w.handlers[h].batch|
    ensures RunFrom(w, Acts(w, h, v)) == Turn(w, h, v)
  {
    hide Step, Find, Lookup, RunFrom, IdempotencyKey;
    var e := w.handlers[h].batch[|w.handlers[h].answers|];
    var look, report, launch, last := Look(h, v.now), Report(h, v.uuid), Launch(h), LastAct(h, v);
    var w1, w2 := Step(w, look), Step(Step(w, look), report);
    if Lookup(w.cache, IdempotencyKey(e.fingerprint, e.status), v.now).Some? {
      assert [look] + [] == [look];
      RunOne(w, look);
    } else if v.fate.Unreachable? {
      RunMore(w, look, [FailBefore(h)]);
      RunOne(w1, FailBefore(h));
    } else {
      var rest := if e.fingerprint == "" || Find(w.rows, e.fingerprint).Some? then [last]
                  else if v.fate.CoreDies? then [Die(h)] else [launch] + [last];
      assert Acts(w, h, v) == [look] + ([report] + rest);
      RunMore(w, look, [report] + rest);
      RunMore(w1, report, rest);
      RunOne(w2, last);
      RunOne(w2, Die(h));
      RunMore(w2, launch, [last]);
      RunOne(Step(w2, launch), last);
    }
  }

  // What a turn leaves, case by case.

  lemma TurnHits(w: World, h: nat, v: Visit, e: AlertEvent)
    requires h in w.handlers && w.handlers[h].pc.Looking? && |w.handlers[h].answers| < |w.handlers[h].batch|
    requires e == w.handlers[h].batch[|w.handlers[h].answers|]
    requires Lookup(w.cache, IdempotencyKey(e.fingerprint, e.status), v.now).Some?
    ensures var r := Lookup(w.cache, IdempotencyKey(e.fingerprint, e.status), v.now).value;
            Turn(w, h, v) == w.(handlers := w.handlers[h := w.handlers[h].(answers := w.handlers[h].answers + [Cached(r)])])
  {
    hide Lookup, IdempotencyKey, Find;
  }

  lemma TurnFails(w: World, h: nat, v: Visit, e: AlertEvent)
    requires h in w.handlers && w.handlers[h].pc.Looking? && |w.handlers[h].answers| < |w.handlers[h].batch|
    requires e == w.handlers[h].batch[|w.handlers[h].answers|] && v.fate.Unreachable?
    requires Lookup(w.cache, IdempotencyKey(e.fingerprint, e.status), v.now).None?
    ensures Turn(w, h, v) == w.(handlers := w.handlers[h := w.handlers[h].(pc := Failed)])
  {
    hide Lookup, IdempotencyKey, Find;
    assert Step(w, Look(h, v.now)).handlers[h := w.handlers[h].(pc := Failed)] == w.handlers[h := w.handlers[h].(pc := Failed)];
  }

  /** The world once the core has the answer ready for h's current event, and what is left to do. */
  function Answered(w: World, h: nat, uuid: string): World
    requires h in w.handlers && |w.handlers[h].answers| < |w.handlers[h].batch|
  {
    var s := w.handlers[h];
    var f := s.batch[|s.answers|].fingerprint;
    if f == "" then Move(w, h, s.(pc := Replied(MISSING)))
    else if Find(w.rows, f).Some? then Move(w, h, s.(pc := Replied(Ingest.Existing(Find(w.rows, f).value))))
    else
      Move(w.(rows := w.rows + [IncidentRow(uuid, f)], launched := w.launched + [uuid]), h, s.(pc := Replied(JustCreated(uuid))))
  }

  lemma MoveTwice(w: World, h: nat, s: Handler, t: Handler)
    ensures Move(Move(w, h, s), h, t) == Move(w, h, t)
  {
    assert w.handlers[h := s][h := t] == w.handlers[h := t];
  }

  lemma TurnReachesCore(w: World, h: nat, v: Visit, e: AlertEvent)
    requires h in w.handlers && w.handlers[h].pc.Looking? && |w.handlers[h].answers| < |w.handlers[h].batch|
    requires e == w.handlers[h].batch[|w.handlers[h].answers|] && !v.fate.Unreachable? && Fresh(w.rows, v.uuid)
    requires Lookup(w.cache, IdempotencyKey(e.fingerprint, e.status), v.now).None?
    ensures (e.fingerprint == "" || Find(w.rows, e.fingerprint).Some? || !v.fate.CoreDies?) ==>
              Turn(w, h, v) == Step(Answered(w, h, v.uuid), LastAct(h, v))
    ensures e.fingerprint != "" && Find(w.rows, e.fingerprint).None? && v.fate.CoreDies? ==>
              Turn(w, h, v) == Move(w.(rows := w.rows + [IncidentRow(v.uuid, e.fingerprint)]), h, w.handlers[h].(pc := Failed))
  {
    hide Lookup, IdempotencyKey, Find, Fresh, LastAct;
    var s := w.handlers[h];
    var w1 := Step(w, Look(h, v.now));
    assert w1 == Move(w, h, s.(pc := Calling));
    if e.fingerprint == "" {
      MoveTwice(w, h, s.(pc := Calling), s.(pc := Replied(MISSING)));
    } else if Find(w.rows, e.fingerprint).Some? {
      MoveTwice(w, h, s.(pc := Calling), s.(pc := Replied(Ingest.Existing(Find(w.rows, e.fingerprint).value))));
    } else {
      var w0 := w.(rows := w.rows + [IncidentRow(v.uuid, e.fingerprint)]);
      MoveTwice(w0, h, s.(pc := Calling), s.(pc := Creating(v.uuid)));
      assert Step(w1, Report(h, v.uuid)) == Move(w0, h, s.(pc := Creating(v.uuid)));
      MoveTwice(w0, h, s.(pc := Creating(v.uuid)), s.(pc := Failed));
      MoveTwice(w0.(launched := w.launched + [v.uuid]), h, s.(pc := Creating(v.uuid)), s.(pc := Replied(JustCreated(v.uuid))));
    }
  }

  /** The cache with the answer put in. */
  function Remembering(w: World, e: AlertEvent, r: Response, v: Visit): State {
    PutSpec(w.cache, IdempotencyKey(e.fingerprint, e.status), r, v.evictAt, v.writeAt, DEFAULT_TTL)
  }

  lemma LastTurn(w: World, h: nat, v: Visit, r: Response)
    requires h in w.handlers && |w.handlers[h].answers| < |w.handlers[h].batch| && w.handlers[h].pc == Replied(r)
    ensures var s := w.handlers[h];
            var e := s.batch[|s.answers|];
            Step(w, LastAct(h, v)) == if v.fate.ReplyLost? then Move(w, h, s.(pc := Failed))
              else Move(if r.accepted then w.(cache := Remembering(w, e, r, v)) else w, h, Handler(s.batch, s.answers + [Forwarded(r)], Looking))
  {
    hide PutSpec, IdempotencyKey;
  }

  predicate Creates(w: World, e: AlertEvent) {
    e.fingerprint != "" && Find(w.rows, e.fingerprint).None?
  }

  function CoreSays(w: World, e: AlertEvent, uuid: string): Response {
    if e.fingerprint == "" then MISSING
    else if Find(w.rows, e.fingerprint).Some? then Ingest.Existing(Find(w.rows, e.fingerprint).value)
    else JustCreated(uuid)
  }

  function CoreAfter(w: World, e: AlertEvent, v: Visit): World {
    if !Creates(w, e) then w
    else w.(rows := w.rows + [IncidentRow(v.uuid, e.fingerprint)],
            launched := if v.fate.CoreDies? then w.launched else w.launched + [v.uuid])
  }

  /** A turn that reaches the core, all in one. */
  lemma TurnForwards(w: World, h: nat, v: Visit, e: AlertEvent)
    requires h in w.handlers && w.handlers[h].pc.Looking? && |w.handlers[h].answers| < |w.handlers[h].batch|
    requires e == w.handlers[h].batch[|w.handlers[h].answers|] && !v.fate.Unreachable? && Fresh(w.rows, v.uuid)
    requires Lookup(w.cache, IdempotencyKey(e.fingerprint, e.status), v.now).None?
    ensures var s, r, w1 := w.handlers[h], CoreSays(w, e, v.uuid), CoreAfter(w, e, v);
            Turn(w, h, v) ==
              if v.fate.ReplyLost? || (v.fate.CoreDies? && Creates(w, e)) then Move(w1, h, s.(pc := Failed))
              else Move(if r.accepted then w1.(cache := Remembering(w, e, r, v)) else w1, h, Handler(s.batch, s.answers + [Forwarded(r)], Looking))
  {
    hide Turn, Find, PutSpec, Lookup, IdempotencyKey, Step, Fresh, LastAct;
    TurnReachesCore(w, h, v, e);
    if !(v.fate.CoreDies? && Creates(w, e)) {
      var s, r, w1, a := w.handlers[h], CoreSays(w, e, v.uuid), CoreAfter(w, e, v), Answered(w, h, v.uuid);
      assert a == Move(w1, h, s.(pc := Replied(r)));
      LastTurn(a, h, v, r);
      var w2 := w1.(cache := Remembering(w, e, r, v));
      MoveTwice(w1, h, s.(pc := Replied(r)), s.(pc := Failed));
      MoveTwice(if r.accepted then w2 else w1, h, s.(pc := Replied(r)), Handler(s.batch, s.answers + [Forwarded(r)], Looking));
    }
  }

  lemma ArrivalRuns(w: World, h: nat, events: seq<AlertEvent>)
    requires h !in w.handlers
    ensures RunFrom(w, [Arrive(h, events)]) == Move(w, h, Handler(events, [], Looking))
  {
    RunOne(w, Arrive(h, events));
  }

  class Webhook {
    const store: Store
    const core: Servicer

    constructor (store: Store, core: Servicer)
      ensures this.store == store && this.core == core
    {
      this.store, this.core := store, core;
    }

    ghost predicate Holds(w: World) reads store, core {
      store.View() == w.cache && core.rows == w.rows && core.launched == w.launched
    }

    /** One turn of the loop; false is the 502 that ends the request. */
    method ServeOne(ghost w: World, ghost h: nat, e: AlertEvent, v: Visit, results: seq<Answer>)
      returns (ok: bool, answers: seq<Answer>)
      requires store.ttl == DEFAULT_TTL && Holds(w)
      requires h in w.handlers && w.handlers[h].pc.Looking? && w.handlers[h].answers == results
      requires |results| < |w.handlers[h].batch| && e == w.handlers[h].batch[|results|] && Fresh(w.rows, v.uuid)
      modifies store, core
      ensures Holds(Turn(w, h, v)) && Turn(w, h, v) == RunFrom(w, Acts(w, h, v))
      ensures Turn(w, h, v).handlers
           == w.handlers[h := Handler(w.handlers[h].batch, answers, if ok then Looking else Failed)]
      ensures ok ==> |answers| == |results| + 1
    {
      TurnIsARun(w, h, v);
      hide Acts, RunFrom, Turn, Find, PutSpec, Lookup, IdempotencyKey, Step, Fresh;
      var key := IdempotencyKey(e.fingerprint, e.status);
      var prev := store.Get(key, v.now);
      if prev.Some? {
        TurnHits(w, h, v, e);
        return true, results + [Cached(prev.value)];
      }
      if v.fate.Unreachable? {
        TurnFails(w, h, v, e);
        return false, results;
      }
      TurnForwards(w, h, v, e);
      var response := core.ReportIncident(e.fingerprint, v.uuid, v.fate.CoreDies?);
      if response.None? || v.fate.ReplyLost? {
        return false, results;
      }
      if response.value.accepted {
        store.Put(key, response.value, v.evictAt, v.writeAt);
      }
      return true, results + [Forwarded(response.value)];
    }

    /**
     * The event loop: one answer for each event in order, or a 502 at the first call that fails. Together with
     * everything it leaves in the cache and the core, the request is a schedule of module Ingest.
     */
    method ServeHTTP(ghost w: World, ghost h: nat, events: seq<AlertEvent>, visits: seq<Visit>)
      returns (ok: bool, results: seq<Answer>, ghost acts: seq<Act>)
      requires store.ttl == DEFAULT_TTL && Holds(w) && h !in w.handlers
      requires |visits| == |events| && forall i | 0 <= i < |visits| :: Fresh(w.rows, visits[i].uuid)
      requires forall i, j | 0 <= i < j < |visits| :: visits[i].uuid != visits[j].uuid
      modifies store, core
      ensures Holds(RunFrom(w, acts))
      ensures RunFrom(w, acts).handlers == w.handlers[h := Handler(events, results, if ok then Looking else Failed)]
      ensures ok ==> |results| == |events|
    {
      hide Step, Next, Can, RunFrom, Turn, Acts, PutSpec, Lookup, IdempotencyKey, Find, Fresh;
      results := [];
      ghost var now := Move(w, h, Handler(events, [], Looking));
      acts := [Arrive(h, events)];
      ArrivalRuns(w, h, events);
      for i := 0 to |events|
        invariant RunFrom(w, acts) == now && Holds(now) && |results| == i
        invariant now.handlers == w.handlers[h := Handler(events, results, Looking)]
        invariant forall j | i <= j < |visits| :: Fresh(now.rows, visits[j].uuid)
      {
        RunConcat(w, acts, Acts(now, h, visits[i]));
        TurnAddsOnlyItsUuid(now, h, visits[i]);
        acts := acts + Acts(now, h, visits[i]);
        var more;
        more, results := ServeOne(now, h, events[i], visits[i], results);
        now := Turn(now, h, visits[i]);
        if !more {
          return false, results, acts;
        }
      }
      return true, results, acts;
    }
  }

  lemma TurnAddsOnlyItsUuid(w: World, h: nat, v: Visit)
    requires h in w.handlers && w.handlers[h].pc.Looking? && |w.handlers[h].answers| < |w.handlers[h].batch|
    ensures forall id | Fresh(w.rows, id) && id != v.uuid :: Fresh(Turn(w, h, v).rows, id)
  {
    hide PutSpec, Lookup, IdempotencyKey, Find, RunFrom, Acts, Step;
    StepAddsOnlyItsUuid(w, Look(h, v.now));
    var w1 := Step(w, Look(h, v.now));
    StepAddsOnlyItsUuid(w1, FailBefore(h));
    StepAddsOnlyItsUuid(w1, Report(h, v.uuid));
    var w2 := Step(w1, Report(h, v.uuid));
    StepAddsOnlyItsUuid(w2, LastAct(h, v));
    StepAddsOnlyItsUuid(w2, Die(h));
    StepAddsOnlyItsUuid(w2, Launch(h));
    StepAddsOnlyItsUuid(Step(w2, Launch(h)), LastAct(h, v));
  }

  lemma StepAddsOnlyItsUuid(w: World, a: Act)
    ensures forall id | Fresh(w.rows, id) && (a.Report? ==> id != a.id) :: Fresh(Step(w, a).rows, id)
  {
    hide PutSpec, Lookup, IdempotencyKey, Find;
  }
}
