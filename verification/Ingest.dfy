// gate/internal/ingest/handler.go and core's ReportIncident: alerts arriving through any number of
// concurrent webhook handlers, with core calls that can fail before or after their effect.

module Ingest {
  import opened Prelude
  import opened AlertCache

  datatype AlertEvent = AlertEvent(fingerprint: string, status: AlertStatus)

  /** incidents: one row per incident */
  datatype IncidentRow = IncidentRow(id: string, fingerprint: string)

  /** SELECT * FROM incidents WHERE fingerprint = ? */
  function Find(rows: seq<IncidentRow>, fingerprint: string): Option<string> {
    if rows == [] then None
    else if rows[|rows| - 1].fingerprint == fingerprint then Some(rows[|rows| - 1].id)
    else Find(rows[..|rows| - 1], fingerprint)
  }

  predicate Fresh(rows: seq<IncidentRow>, id: string) {
    forall i | 0 <= i < |rows| :: rows[i].id != id
  }

  const MISSING := Response(false, false, "", "missing event/fingerprint")

  function JustCreated(id: string): Response {
    Response(true, false, id, "created")
  }

  function Existing(id: string): Response {
    Response(true, true, id, "already exists")
  }

  /** What the webhook answers for one alert of the batch. */
  datatype Answer = Answer(accepted: bool, deduplicated: bool, incident: string, message: string)

  function Cached(r: Response): Answer {
    Answer(r.accepted, true, r.incident, r.message)
  }

  function Forwarded(r: Response): Answer {
    Answer(r.accepted, r.deduplicated, r.incident, r.message)
  }

  // ---------------------------------------------------------------- handlers

  /**
   * Where a handler is: about to look an event up (or done, after the last one), waiting for the core,
   * in the core between creating the incident and answering, holding the core's answer, or ended with 502.
   */
  datatype Pc = Looking | Calling | Creating(id: string) | Replied(response: Response) | Failed

  datatype Handler = Handler(batch: seq<AlertEvent>, answers: seq<Answer>, pc: Pc)

  datatype World = World(cache: State, rows: seq<IncidentRow>, launched: seq<string>, handlers: map<nat, Handler>)

  const START := World(EMPTY, [], [], map[])

  datatype Act =
    | Arrive(h: nat, batch: seq<AlertEvent>)
    | Look(h: nat, now: int)
    | FailBefore(h: nat)                    // the call is lost before it reaches the core
    | Report(h: nat, id: string)            // create_incident; id is the uuid it draws
    | Launch(h: nat)                        // incident_created is logged and triage starts
    | Die(h: nat)                           // the core fails between the two
    | LoseReply(h: nat)                     // the core answers and the answer is lost
    | Reply(h: nat, evictAt: int, writeAt: int)
    | Forget                                // the gate restarts with an empty cache

  predicate Can(w: World, a: Act) {
    if a.Forget? then true
    else if a.Arrive? then a.h !in w.handlers
    else
      && a.h in w.handlers
      && var s := w.handlers[a.h];
         && |s.answers| < |s.batch|
         && match a
            case Look(_, _) => s.pc.Looking?
            case FailBefore(_) => s.pc.Calling?
            case Report(_, id) => s.pc.Calling? && Fresh(w.rows, id)
            case Launch(_) => s.pc.Creating?
            case Die(_) => s.pc.Creating?
            case LoseReply(_) => s.pc.Replied?
            case Reply(_, _, _) => s.pc.Replied?
  }

  function Next(w: World, a: Act): World
    requires Can(w, a)
  {
    if a.Forget? then w.(cache := EMPTY)
    else if a.Arrive? then w.(handlers := w.handlers[a.h := Handler(a.batch, [], Looking)])
    else
      var s := w.handlers[a.h];
      var e := s.batch[|s.answers|];
      match a
      case Look(h, now) =>
        var hit := Lookup(w.cache, IdempotencyKey(e.fingerprint, e.status), now);
        Move(w, h, if hit.Some? then s.(answers := s.answers + [Cached(hit.value)]) else s.(pc := Calling))
      case FailBefore(h) => Move(w, h, s.(pc := Failed))
      case Report(h, id) =>
        if e.fingerprint == "" then Move(w, h, s.(pc := Replied(MISSING)))
        else if Find(w.rows, e.fingerprint).Some? then
          Move(w, h, s.(pc := Replied(Existing(Find(w.rows, e.fingerprint).value))))
        else Move(w.(rows := w.rows + [IncidentRow(id, e.fingerprint)]), h, s.(pc := Creating(id)))
      case Launch(h) =>
        Move(w.(launched := w.launched + [s.pc.id]), h, s.(pc := Replied(JustCreated(s.pc.id))))
      case Die(h) => Move(w, h, s.(pc := Failed))
      case LoseReply(h) => Move(w, h, s.(pc := Failed))
      case Reply(h, evictAt, writeAt) =>
        var r := s.pc.response;
        var key := IdempotencyKey(e.fingerprint, e.status);
        var w := if r.accepted then w.(cache := PutSpec(w.cache, key, r, evictAt, writeAt, DEFAULT_TTL)) else w;
        Move(w, h, Handler(s.batch, s.answers + [Forwarded(r)], Looking))
  }

  function Move(w: World, h: nat, s: Handler): World {
    w.(handlers := w.handlers[h := s])
  }

  function Step(w: World, a: Act): World {
    if Can(w, a) then Next(w, a) else w
  }

  /** Any schedule; an act that is not possible at its turn does nothing. */
  function RunFrom(w: World, acts: seq<Act>): World {
    if acts == [] then w else Step(RunFrom(w, acts[..|acts| - 1]), acts[|acts| - 1])
  }

  function Run(acts: seq<Act>): World {
    RunFrom(START, acts)
  }

  lemma RunFromSnoc(w: World, acts: seq<Act>, a: Act)
    ensures RunFrom(w, acts + [a]) == Step(RunFrom(w, acts), a)
  {
    assert (acts + [a])[..|acts|] == acts;
  }

  // ---------------------------------------------------------------- the invariant

  ghost predicate RowsOk(rows: seq<IncidentRow>) {
    && (forall i | 0 <= i < |rows| :: rows[i].fingerprint != "")
    && (forall i, j | 0 <= i < j < |rows| :: rows[i].fingerprint != rows[j].fingerprint)
    && (forall i, j | 0 <= i < j < |rows| :: rows[i].id != rows[j].id)
  }

  ghost predicate CacheOk(c: State, rows: seq<IncidentRow>) {
    forall k, f, s | k in c.m && k == IdempotencyKey(f, s) ::
      c.m[k].response.accepted && Find(rows, f) == Some(c.m[k].response.incident)
  }

  /** Refused exactly when there is no fingerprint; otherwise the id is the one the core holds for it. */
  predicate Right(rows: seq<IncidentRow>, e: AlertEvent, accepted: bool, incident: string) {
    if e.fingerprint == "" then !accepted else accepted && Find(rows, e.fingerprint) == Some(incident)
  }

  ghost predicate AnswersOk(rows: seq<IncidentRow>, s: Handler) {
    && |s.answers| <= |s.batch|
    && forall i | 0 <= i < |s.answers| :: Right(rows, s.batch[i], s.answers[i].accepted, s.answers[i].incident)
  }

  predicate PcOk(rows: seq<IncidentRow>, launched: seq<string>, s: Handler) {
    match s.pc
    case Looking => true
    case Failed => true
    case Calling => |s.answers| < |s.batch|
    case Creating(id) => |s.answers| < |s.batch| && Find(rows, s.batch[|s.answers|].fingerprint) == Some(id) && id !in launched
    case Replied(r) => |s.answers| < |s.batch| && Right(rows, s.batch[|s.answers|], r.accepted, r.incident)
  }

  ghost predicate HandlersOk(w: World) {
    && (forall h | h in w.handlers :: AnswersOk(w.rows, w.handlers[h]) && PcOk(w.rows, w.launched, w.handlers[h]))
    && (forall g, h | g in w.handlers && h in w.handlers && g != h :: !SameCreation(w.handlers[g], w.handlers[h]))
  }

  predicate SameCreation(s: Handler, t: Handler) {
    s.pc.Creating? && t.pc == s.pc
  }

  ghost predicate LaunchesOk(rows: seq<IncidentRow>, launched: seq<string>) {
    && (forall i, j | 0 <= i < j < |launched| :: launched[i] != launched[j])
    && (forall i | 0 <= i < |launched| :: !Fresh(rows, launched[i]))
  }

  ghost predicate Inv(w: World) {
    RowsOk(w.rows) && CacheOk(w.cache, w.rows) && HandlersOk(w) && LaunchesOk(w.rows, w.launched)
  }

  lemma {:induction false} FoundIsARow(rows: seq<IncidentRow>, fingerprint: string)
    ensures Find(rows, fingerprint).Some? ==>
              exists i | 0 <= i < |rows| :: rows[i] == IncidentRow(Find(rows, fingerprint).value, fingerprint)
    ensures Find(rows, fingerprint).None? ==> forall i | 0 <= i < |rows| :: rows[i].fingerprint != fingerprint
  {
    if rows != [] && rows[|rows| - 1].fingerprint != fingerprint {
      FoundIsARow(rows[..|rows| - 1], fingerprint);
      if Find(rows, fingerprint).Some? {
        var i :| 0 <= i < |rows| - 1 && rows[..|rows| - 1][i] == IncidentRow(Find(rows, fingerprint).value, fingerprint);
        assert rows[i] == IncidentRow(Find(rows, fingerprint).value, fingerprint);
      }
    }
  }

  lemma FindSnoc(rows: seq<IncidentRow>, r: IncidentRow, f: string)
    ensures Find(rows + [r], f) == if r.fingerprint == f then Some(r.id) else Find(rows, f)
  {
    assert (rows + [r])[..|rows|] == rows;
  }

  /** What a handler may become when nothing else changes. */
  lemma MoveKeeps(w: World, h: nat, s: Handler)
    requires Inv(w) && AnswersOk(w.rows, s) && PcOk(w.rows, w.launched, s)
    requires s.pc.Creating? ==> forall g | g in w.handlers && g != h :: w.handlers[g].pc != s.pc
    ensures Inv(Move(w, h, s))
  {
    hide RowsOk, CacheOk, LaunchesOk, AnswersOk, PcOk;
  }

  lemma AnswerKeeps(w: World, h: nat, r: Answer)
    requires Inv(w) && h in w.handlers && |w.handlers[h].answers| < |w.handlers[h].batch|
    requires Right(w.rows, w.handlers[h].batch[|w.handlers[h].answers|], r.accepted, r.incident)
    ensures Inv(Move(w, h, w.handlers[h].(answers := w.handlers[h].answers + [r], pc := Looking)))
  {
    var s := w.handlers[h];
    hide RowsOk, CacheOk, LaunchesOk, Find;
    MoveKeeps(w, h, s.(answers := s.answers + [r], pc := Looking));
  }

  lemma RightStays(rows: seq<IncidentRow>, r: IncidentRow, e: AlertEvent, accepted: bool, incident: string)
    requires Right(rows, e, accepted, incident) && Find(rows, r.fingerprint) == None
    ensures Right(rows + [r], e, accepted, incident)
  {
    FindSnoc(rows, r, e.fingerprint);
  }

  lemma HandlerStays(rows: seq<IncidentRow>, r: IncidentRow, launched: seq<string>, s: Handler)
    requires AnswersOk(rows, s) && PcOk(rows, launched, s) && Find(rows, r.fingerprint) == None
    ensures AnswersOk(rows + [r], s) && PcOk(rows + [r], launched, s)
  {
    forall i | 0 <= i < |s.answers| ensures Right(rows + [r], s.batch[i], s.answers[i].accepted, s.answers[i].incident) {
      RightStays(rows, r, s.batch[i], s.answers[i].accepted, s.answers[i].incident);
    }
    if s.pc.Creating? {
      FindSnoc(rows, r, s.batch[|s.answers|].fingerprint);
    } else if s.pc.Replied? {
      RightStays(rows, r, s.batch[|s.answers|], s.pc.response.accepted, s.pc.response.incident);
    }
  }

  lemma RowsGrow(rows: seq<IncidentRow>, r: IncidentRow)
    requires RowsOk(rows) && Find(rows, r.fingerprint) == None && r.fingerprint != "" && Fresh(rows, r.id)
    ensures RowsOk(rows + [r])
  {
    FoundIsARow(rows, r.fingerprint);
  }

  lemma CacheStays(c: State, rows: seq<IncidentRow>, r: IncidentRow)
    requires CacheOk(c, rows) && Find(rows, r.fingerprint) == None
    ensures CacheOk(c, rows + [r])
  {
    forall k, f, s | k in c.m && k == IdempotencyKey(f, s)
      ensures c.m[k].response.accepted && Find(rows + [r], f) == Some(c.m[k].response.incident)
    {
      FindSnoc(rows, r, f);
    }
  }

  lemma LaunchesStay(rows: seq<IncidentRow>, r: IncidentRow, launched: seq<string>)
    requires LaunchesOk(rows, launched)
    ensures LaunchesOk(rows + [r], launched)
    ensures Fresh(rows, r.id) ==> r.id !in launched
  {
    forall i | 0 <= i < |launched| ensures !Fresh(rows + [r], launched[i]) {
      var k :| 0 <= k < |rows| && rows[k].id == launched[i];
      assert (rows + [r])[k].id == launched[i];
    }
  }

  lemma ReportKeeps(w: World, a: Act)
    requires Inv(w) && a.Report? && Can(w, a)
    ensures Inv(Next(w, a))
  {
    var s := w.handlers[a.h];
    var e := s.batch[|s.answers|];
    if e.fingerprint == "" || Find(w.rows, e.fingerprint).Some? {
      hide RowsOk, CacheOk, LaunchesOk;
      var response := if e.fingerprint == "" then MISSING else Existing(Find(w.rows, e.fingerprint).value);
      MoveKeeps(w, a.h, s.(pc := Replied(response)));
    } else {
      var r := IncidentRow(a.id, e.fingerprint);
      RowAddedKeeps(w, r);
      LaunchesStay(w.rows, r, w.launched);
      FindSnoc(w.rows, r, r.fingerprint);
      HandlerStays(w.rows, r, w.launched, s);
      forall g | g in w.handlers && g != a.h ensures w.handlers[g].pc != Creating(a.id) {
        if w.handlers[g].pc == Creating(a.id) {
          FoundIsARow(w.rows, w.handlers[g].batch[|w.handlers[g].answers|].fingerprint);
        }
      }
      MoveKeeps(w.(rows := w.rows + [r]), a.h, s.(pc := Creating(a.id)));
    }
  }

  lemma RowAddedKeeps(w: World, r: IncidentRow)
    requires Inv(w) && Find(w.rows, r.fingerprint) == None && r.fingerprint != "" && Fresh(w.rows, r.id)
    ensures Inv(w.(rows := w.rows + [r]))
  {
    RowsGrow(w.rows, r);
    CacheStays(w.cache, w.rows, r);
    LaunchesStay(w.rows, r, w.launched);
    hide RowsOk, CacheOk, LaunchesOk, AnswersOk, PcOk;
    forall h | h in w.handlers ensures AnswersOk(w.rows + [r], w.handlers[h]) && PcOk(w.rows + [r], w.launched, w.handlers[h]) {
      HandlerStays(w.rows, r, w.launched, w.handlers[h]);
    }
  }

  lemma LaunchKeeps(w: World, a: Act)
    requires Inv(w) && a.Launch? && Can(w, a)
    ensures Inv(Next(w, a))
  {
    var s := w.handlers[a.h];
    FoundIsARow(w.rows, s.batch[|s.answers|].fingerprint);
    hide RowsOk, CacheOk, AnswersOk, Find;
    var launched := w.launched + [s.pc.id];
    assert LaunchesOk(w.rows, launched);
    forall g | g in w.handlers && g != a.h ensures PcOk(w.rows, launched, w.handlers[g]) {
      assert !SameCreation(w.handlers[a.h], w.handlers[g]);
    }
  }

  lemma PutKeeps(c: State, rows: seq<IncidentRow>, e: AlertEvent, r: Response, evictAt: int, writeAt: int)
    requires CacheOk(c, rows) && r.accepted && Find(rows, e.fingerprint) == Some(r.incident)
    ensures CacheOk(PutSpec(c, IdempotencyKey(e.fingerprint, e.status), r, evictAt, writeAt, DEFAULT_TTL), rows)
  {
    var c' := PutSpec(c, IdempotencyKey(e.fingerprint, e.status), r, evictAt, writeAt, DEFAULT_TTL);
    forall k, f, s | k in c'.m && k == IdempotencyKey(f, s)
      ensures c'.m[k].response.accepted && Find(rows, f) == Some(c'.m[k].response.incident)
    {
      if k == IdempotencyKey(e.fingerprint, e.status) {
        KeyIsInjective(f, s, e.fingerprint, e.status);
      }
    }
  }

  lemma ReplyKeeps(w: World, a: Act)
    requires Inv(w) && a.Reply? && Can(w, a)
    ensures Inv(Next(w, a))
  {
    var s := w.handlers[a.h];
    var e, r := s.batch[|s.answers|], s.pc.response;
    var w1 := Next(w, a).(handlers := w.handlers);
    if r.accepted {
      assert PcOk(w.rows, w.launched, s);
      PutKeeps(w.cache, w.rows, e, r, a.evictAt, a.writeAt);
    }
    hide RowsOk, CacheOk, LaunchesOk, PutSpec, Find, IdempotencyKey;
    AnswerKeeps(w1, a.h, Forwarded(r));
  }

  lemma LookKeeps(w: World, a: Act)
    requires Inv(w) && a.Look? && Can(w, a)
    ensures Inv(Next(w, a))
  {
    var s := w.handlers[a.h];
    var e := s.batch[|s.answers|];
    var key := IdempotencyKey(e.fingerprint, e.status);
    var hit := Lookup(w.cache, key, a.now);
    if hit.Some? {
      assert hit.value.accepted && Find(w.rows, e.fingerprint) == Some(hit.value.incident);
      FoundIsARow(w.rows, e.fingerprint);
      AnswerKeeps(w, a.h, Cached(hit.value));
    } else {
      MoveKeeps(w, a.h, s.(pc := Calling));
    }
  }

  lemma ForgetKeeps(w: World)
    requires Inv(w)
    ensures Inv(w.(cache := EMPTY))
  {
  }

  lemma NextKeeps(w: World, a: Act)
    requires Inv(w) && Can(w, a)
    ensures Inv(Next(w, a))
  {
    hide RowsOk, CacheOk, LaunchesOk;
    match a
    case Arrive(h, batch) => MoveKeeps(w, h, Handler(batch, [], Looking));
    case Look(_, _) => LookKeeps(w, a);
    case FailBefore(h) => MoveKeeps(w, h, w.handlers[h].(pc := Failed));
    case Report(_, _) => ReportKeeps(w, a);
    case Launch(_) => LaunchKeeps(w, a);
    case Die(h) => MoveKeeps(w, h, w.handlers[h].(pc := Failed));
    case LoseReply(h) => MoveKeeps(w, h, w.handlers[h].(pc := Failed));
    case Reply(_, _, _) => ReplyKeeps(w, a);
    case Forget => ForgetKeeps(w);
  }

  lemma {:induction false} RunKeeps(w: World, acts: seq<Act>)
    requires Inv(w)
    ensures Inv(RunFrom(w, acts))
  {
    hide Inv, Next, Can;
    if acts != [] {
      RunKeeps(w, acts[..|acts| - 1]);
      var v, a := RunFrom(w, acts[..|acts| - 1]), acts[|acts| - 1];
      if Can(v, a) { NextKeeps(v, a); }
    }
  }

  lemma StartIsSound()
    ensures Inv(START)
  {
  }

  // ---------------------------------------------------------------- results

  /**
   * Exactly-once ingest, at every moment of every schedule: no fingerprint has two incidents, no incident
   * is triaged twice, an alert is refused exactly when it has no fingerprint, and every other answer, fresh
   * or cached, carries the id of the one incident that has its fingerprint.
   */
  lemma ExactlyOnceIngest(acts: seq<Act>)
    ensures var w := Run(acts);
            && (forall i, j | 0 <= i < j < |w.rows| ::
                  w.rows[i].fingerprint != w.rows[j].fingerprint && w.rows[i].id != w.rows[j].id)
            && (forall i, j | 0 <= i < j < |w.launched| :: w.launched[i] != w.launched[j])
            && (forall i | 0 <= i < |w.launched| :: !Fresh(w.rows, w.launched[i]))
            && (forall h, i | h in w.handlers && 0 <= i < |w.handlers[h].answers| :: RightlyAnswered(w.rows, w.handlers[h], i))
  {
    StartIsSound();
    RunKeeps(START, acts);
    var w := Run(acts);
    hide Run, RunFrom, Find;
    forall h, i | h in w.handlers && 0 <= i < |w.handlers[h].answers| ensures RightlyAnswered(w.rows, w.handlers[h], i) {
      assert AnswersOk(w.rows, w.handlers[h]);
      FoundIsARow(w.rows, w.handlers[h].batch[i].fingerprint);
    }
  }

  ghost predicate RightlyAnswered(rows: seq<IncidentRow>, s: Handler, i: nat)
    requires i < |s.answers|
  {
    && i < |s.batch|
    && (s.answers[i].accepted <==> s.batch[i].fingerprint != "")
    && (s.answers[i].accepted ==>
          exists k | 0 <= k < |rows| :: rows[k] == IncidentRow(s.answers[i].incident, s.batch[i].fingerprint))
  }

  /** Ids are for ever: whatever happens later, the core still holds the same id for the fingerprint. */
  lemma {:induction false} FoundStays(w: World, acts: seq<Act>, fingerprint: string)
    requires Find(w.rows, fingerprint).Some?
    ensures Find(RunFrom(w, acts).rows, fingerprint) == Find(w.rows, fingerprint)
  {
    if acts != [] {
      FoundStays(w, acts[..|acts| - 1], fingerprint);
      var v, a := RunFrom(w, acts[..|acts| - 1]), acts[|acts| - 1];
      if Can(v, a) && a.Report? {
        var s := v.handlers[a.h];
        FindSnoc(v.rows, IncidentRow(a.id, s.batch[|s.answers|].fingerprint), fingerprint);
      }
    }
  }

  /** Handler h has, or is about to give, the answer "created" for its i-th alert. */
  predicate SaysCreated(s: Handler, i: nat) {
    if i < |s.answers| then s.answers[i].accepted && !s.answers[i].deduplicated
    else i == |s.answers| && (s.pc.Creating? || (s.pc.Replied? && s.pc.response.accepted && !s.pc.response.deduplicated))
  }

  /** ... and this is that alert. */
  predicate CreatedFor(w: World, h: nat, i: nat, fingerprint: string) {
    && h in w.handlers && SaysCreated(w.handlers[h], i)
    && i < |w.handlers[h].batch| && w.handlers[h].batch[i].fingerprint == fingerprint
  }

  ghost predicate CreatedOnce(w: World) {
    forall f, g, i: nat, h, j: nat | CreatedFor(w, g, i, f) && CreatedFor(w, h, j, f) :: g == h && i == j
  }

  /** Only a creation makes a new "created"; every other act leaves them where they are. */
  lemma CreatedComesFromReport(w: World, a: Act, g: nat, i: nat)
    requires Can(w, a) && g in Next(w, a).handlers && SaysCreated(Next(w, a).handlers[g], i)
    ensures (g in w.handlers && SaysCreated(w.handlers[g], i) && w.handlers[g].batch == Next(w, a).handlers[g].batch)
         || (a.Report? && a.h == g && i == |w.handlers[g].answers| && w.handlers[g].batch == Next(w, a).handlers[g].batch
             && Find(w.rows, w.handlers[g].batch[i].fingerprint) == None)
  {
    hide Find, PutSpec, IdempotencyKey;
  }

  lemma CreatedIsFound(w: World, g: nat, i: nat)
    requires Inv(w) && g in w.handlers && SaysCreated(w.handlers[g], i) && i < |w.handlers[g].batch|
    ensures Find(w.rows, w.handlers[g].batch[i].fingerprint).Some?
  {
    hide Find;
    assert AnswersOk(w.rows, w.handlers[g]) && PcOk(w.rows, w.launched, w.handlers[g]);
    if i < |w.handlers[g].answers| {
      assert Right(w.rows, w.handlers[g].batch[i], w.handlers[g].answers[i].accepted, w.handlers[g].answers[i].incident);
    }
  }

  lemma CreatedOnceStep(w: World, a: Act)
    requires Inv(w) && CreatedOnce(w) && Can(w, a)
    ensures CreatedOnce(Next(w, a))
  {
    var v := Next(w, a);
    hide Next, Can, Inv, SaysCreated, Find;
    forall f, g, i: nat, h, j: nat | CreatedFor(v, g, i, f) && CreatedFor(v, h, j, f)
      ensures g == h && i == j
    {
      CreatedComesFromReport(w, a, g, i);
      CreatedComesFromReport(w, a, h, j);
      if CreatedFor(w, g, i, f) { CreatedIsFound(w, g, i); }
      if CreatedFor(w, h, j, f) { CreatedIsFound(w, h, j); }
    }
  }

  /** At most one answer for a fingerprint, over all handlers and retries, says that it created the incident. */
  lemma {:induction false} OneAnswerSaysCreated(acts: seq<Act>)
    ensures CreatedOnce(Run(acts)) && Inv(Run(acts))
  {
    if acts == [] {
      StartIsSound();
    } else {
      hide Inv, CreatedOnce, Can, Next;
      var front, a := acts[..|acts| - 1], acts[|acts| - 1];
      OneAnswerSaysCreated(front);
      if Can(Run(front), a) {
        CreatedOnceStep(Run(front), a);
        NextKeeps(Run(front), a);
      }
    }
  }

  // ---------------------------------------------------------------- which answers say that they are new

  /** This act is the call that adds an incident's row, made for handler h's i-th alert. */
  predicate Creates(w: World, a: Act, h: nat, i: nat) {
    a.Report? && Can(w, a) && a.h == h && |w.handlers[h].answers| == i && |w.rows| < |Next(w, a).rows|
  }

  ghost predicate CreatedBy(acts: seq<Act>, h: nat, i: nat) {
    exists n | 0 <= n < |acts| :: Creates(Run(acts[..n]), acts[n], h, i)
  }

  lemma CreatedBySnoc(acts: seq<Act>, h: nat, i: nat)
    requires acts != []
    ensures var front, a := acts[..|acts| - 1], acts[|acts| - 1];
            CreatedBy(acts, h, i) <==> CreatedBy(front, h, i) || Creates(Run(front), a, h, i)
  {
    hide Run, Creates;
    var front := acts[..|acts| - 1];
    assert forall n | 0 <= n <= |front| :: acts[..n] == front[..n];
    assert front[..|front|] == front;
    assert forall n | 0 <= n < |front| :: acts[n] == front[n];
  }

  /** What is said of an alert: refused without a fingerprint, new if its call added the row, a duplicate otherwise. */
  predicate SaysRight(fingerprint: string, created: bool, accepted: bool, deduplicated: bool, message: string) {
    if fingerprint == "" then !created && !accepted && !deduplicated && message == "missing event/fingerprint"
    else accepted && (deduplicated <==> !created) && (created ==> message == "created")
  }

  /** What handler h says, or is about to say, of its i-th alert, whose call added a row or did not. */
  predicate Standing(w: World, h: nat, i: nat, created: bool) {
    if h !in w.handlers || i > |w.handlers[h].answers| then !created
    else
      var s := w.handlers[h];
      if i < |s.answers| then
        i < |s.batch| && SaysRight(s.batch[i].fingerprint, created, s.answers[i].accepted, s.answers[i].deduplicated, s.answers[i].message)
      else
        match s.pc
        case Looking => !created
        case Calling => !created
        case Creating(_) => created && i < |s.batch| && s.batch[i].fingerprint != ""
        case Replied(r) => i < |s.batch| && SaysRight(s.batch[i].fingerprint, created, r.accepted, r.deduplicated, r.message)
        case Failed => true
  }

  /** A cached answer is to an alert with a fingerprint, and an accepted one. */
  lemma HitsAreAccepted(w: World, e: AlertEvent, now: int)
    requires Inv(w) && Lookup(w.cache, IdempotencyKey(e.fingerprint, e.status), now).Some?
    ensures e.fingerprint != "" && Lookup(w.cache, IdempotencyKey(e.fingerprint, e.status), now).value.accepted
  {
    FoundIsARow(w.rows, e.fingerprint);
  }

  /** An act of another handler, or of none, leaves this one where it is. */
  lemma OthersStand(w: World, a: Act, h: nat, i: nat)
    requires Can(w, a) && (a.Forget? || a.h != h)
    ensures h in Next(w, a).handlers <==> h in w.handlers
    ensures h in w.handlers ==> Next(w, a).handlers[h] == w.handlers[h]
    ensures !Creates(w, a, h, i)
  {
    hide Find, PutSpec, IdempotencyKey, Lookup;
  }

  lemma StandingStep(w: World, a: Act, h: nat, i: nat, created: bool)
    requires Inv(w) && Can(w, a) && Standing(w, h, i, created)
    ensures Standing(Next(w, a), h, i, created || Creates(w, a, h, i))
  {
    if a.Forget? || a.h != h {
      OthersStand(w, a, h, i);
      hide Inv, Can, Next, Creates, SaysRight;
    } else {
      if a.Look? {
        var e := w.handlers[h].batch[|w.handlers[h].answers|];
        if Lookup(w.cache, IdempotencyKey(e.fingerprint, e.status), a.now).Some? { HitsAreAccepted(w, e, a.now); }
      }
      hide Inv, Find, PutSpec, IdempotencyKey, Lookup;
    }
  }

  lemma {:induction false} StandingRight(acts: seq<Act>, h: nat, i: nat)
    ensures Standing(Run(acts), h, i, CreatedBy(acts, h, i))
  {
    if acts != [] {
      var front, a := acts[..|acts| - 1], acts[|acts| - 1];
      StandingRight(front, h, i);
      CreatedBySnoc(acts, h, i);
      RunSnocIs(acts);
      StartIsSound();
      RunKeeps(START, front);
      hide Run, RunFrom, Standing, Inv, Next, Can, CreatedBy;
      if Can(Run(front), a) { StandingStep(Run(front), a, h, i, CreatedBy(front, h, i)); } else { CannotCreate(Run(front), a, h, i); }
    }
  }

  lemma CannotCreate(w: World, a: Act, h: nat, i: nat)
    requires !Can(w, a)
    ensures !Creates(w, a, h, i)
  {
  }

  /**
   * In every schedule an answer says that nothing was deduplicated exactly when it refuses the alert or comes from
   * the call that added the incident's row; then it says so, with the incident's id.
   */
  lemma NewIffCreated(acts: seq<Act>, h: nat, i: nat)
    requires h in Run(acts).handlers && i < |Run(acts).handlers[h].answers|
    ensures var w := Run(acts);
            var s := w.handlers[h];
            && i < |s.batch|
            && (!s.answers[i].deduplicated <==> s.batch[i].fingerprint == "" || CreatedBy(acts, h, i))
            && (s.batch[i].fingerprint == "" ==> !s.answers[i].accepted && s.answers[i].message == "missing event/fingerprint")
            && (CreatedBy(acts, h, i) ==>
                  && s.answers[i].accepted && s.answers[i].message == "created"
                  && IncidentRow(s.answers[i].incident, s.batch[i].fingerprint) in w.rows)
  {
    StandingRight(acts, h, i);
    ExactlyOnceIngest(acts);
    hide Run, CreatedBy;
    assert RightlyAnswered(Run(acts).rows, Run(acts).handlers[h], i);
  }

  /** Every incident was added by the call of one alert with its fingerprint ... */
  lemma {:induction false} EveryRowWasCreated(acts: seq<Act>, k: nat) returns (h: nat, i: nat)
    requires k < |Run(acts).rows|
    ensures var w := Run(acts);
            && CreatedBy(acts, h, i) && h in w.handlers && i < |w.handlers[h].batch|
            && w.handlers[h].batch[i].fingerprint == w.rows[k].fingerprint
  {
    var front, a := acts[..|acts| - 1], acts[|acts| - 1];
    var w := Run(front);
    RunSnocIs(acts);
    if k < |w.rows| {
      h, i := EveryRowWasCreated(front, k);
      CreatedBySnoc(acts, h, i);
      hide Run, RunFrom, CreatedBy;
      RowsAndBatchesStay(w, a, k, h);
    } else {
      h, i := a.h, |w.handlers[a.h].answers|;
      CreatedBySnoc(acts, h, i);
      hide Run, RunFrom, CreatedBy, Find;
    }
  }

  lemma RowsAndBatchesStay(w: World, a: Act, k: nat, h: nat)
    requires k < |w.rows| && h in w.handlers
    ensures k < |Step(w, a).rows| && Step(w, a).rows[k] == w.rows[k]
    ensures h in Step(w, a).handlers && Step(w, a).handlers[h].batch == w.handlers[h].batch
  {
    hide Find, PutSpec, IdempotencyKey, Lookup;
  }

  /** ... and by one only: once that call was answered, its answer is the only accepted one that says the incident is new. */
  lemma OneNewAnswer(acts: seq<Act>, g: nat, i: nat, h: nat, j: nat)
    requires CreatedBy(acts, g, i) && g in Run(acts).handlers && i < |Run(acts).handlers[g].answers|
    requires h in Run(acts).handlers && j < |Run(acts).handlers[h].answers|
    requires Run(acts).handlers[h].answers[j].incident == Run(acts).handlers[g].answers[i].incident
    ensures Run(acts).handlers[h].answers[j].accepted && !Run(acts).handlers[h].answers[j].deduplicated <==> g == h && i == j
  {
    var w := Run(acts);
    NewIffCreated(acts, g, i);
    NewIffCreated(acts, h, j);
    OneAnswerSaysCreated(acts);
    ExactlyOnceIngest(acts);
    hide Run, CreatedBy, Inv, CreatedOnce;
    assert RightlyAnswered(w.rows, w.handlers[g], i) && RightlyAnswered(w.rows, w.handlers[h], j);
    var s, t := w.handlers[g], w.handlers[h];
    if t.answers[j].accepted && !t.answers[j].deduplicated {
      var k :| 0 <= k < |w.rows| && w.rows[k] == IncidentRow(s.answers[i].incident, s.batch[i].fingerprint);
      var l :| 0 <= l < |w.rows| && w.rows[l] == IncidentRow(t.answers[j].incident, t.batch[j].fingerprint);
      assert k == l;
      SameCreationMeansSame(w, g, i, h, j);
    }
  }

  lemma SameCreationMeansSame(w: World, g: nat, i: nat, h: nat, j: nat)
    requires CreatedOnce(w) && g in w.handlers && h in w.handlers
    requires i < |w.handlers[g].answers| && i < |w.handlers[g].batch| && j < |w.handlers[h].answers| && j < |w.handlers[h].batch|
    requires w.handlers[g].batch[i].fingerprint == w.handlers[h].batch[j].fingerprint
    requires w.handlers[g].answers[i].accepted && !w.handlers[g].answers[i].deduplicated
    requires w.handlers[h].answers[j].accepted && !w.handlers[h].answers[j].deduplicated
    ensures g == h && i == j
  {
    assert CreatedFor(w, g, i, w.handlers[g].batch[i].fingerprint) && CreatedFor(w, h, j, w.handlers[g].batch[i].fingerprint);
  }

  predicate TriageDue(w: World, id: string) {
    id in w.launched || exists h | h in w.handlers :: w.handlers[h].pc == Creating(id)
  }

  /** At step n the core dies between creating this incident and launching its triage. */
  predicate DiesCreating(w: World, a: Act, id: string) {
    a.Die? && Can(w, a) && w.handlers[a.h].pc == Creating(id)
  }

  ghost predicate DiedCreating(acts: seq<Act>, id: string) {
    exists n | 0 <= n < |acts| :: DiesCreating(Run(acts[..n]), acts[n], id)
  }

  lemma DiedSnoc(acts: seq<Act>, id: string)
    requires acts != []
    ensures var front, a := acts[..|acts| - 1], acts[|acts| - 1];
            DiedCreating(acts, id) <==> DiedCreating(front, id) || DiesCreating(Run(front), a, id)
  {
    hide Run, DiesCreating;
    var front := acts[..|acts| - 1];
    assert forall n | 0 <= n <= |front| :: acts[..n] == front[..n];
    assert front[..|front|] == front;
    assert forall n | 0 <= n < |front| :: acts[n] == front[n];
  }

  /** What one act does to an incident that the table holds: only the death of its creation changes its standing. */
  lemma DueStays(w: World, a: Act, id: string)
    requires Inv(w) && Can(w, a) && !Fresh(w.rows, id)
    ensures TriageDue(Next(w, a), id) <==> TriageDue(w, id) && !DiesCreating(w, a, id)
  {
    hide Next, RowsOk, CacheOk, AnswersOk, DiesCreating;
    if DiesCreating(w, a, id) { DeathEndsIt(w, a, id); } else { OthersLeaveIt(w, a, id); }
  }

  lemma DeathEndsIt(w: World, a: Act, id: string)
    requires Inv(w) && DiesCreating(w, a, id)
    ensures TriageDue(w, id) && !TriageDue(Next(w, a), id)
  {
    hide Find, PutSpec, IdempotencyKey, RowsOk, CacheOk, AnswersOk;
    var v := Next(w, a);
    assert PcOk(w.rows, w.launched, w.handlers[a.h]);
    forall h | h in v.handlers ensures v.handlers[h].pc != Creating(id) {
      if h != a.h { assert !SameCreation(w.handlers[a.h], w.handlers[h]); }
    }
  }

  lemma OthersLeaveIt(w: World, a: Act, id: string)
    requires Can(w, a) && !Fresh(w.rows, id) && !DiesCreating(w, a, id)
    ensures TriageDue(Next(w, a), id) <==> TriageDue(w, id)
  {
    hide Find, PutSpec, IdempotencyKey;
    var v := Next(w, a);
    if TriageDue(w, id) && id !in w.launched {
      var h :| h in w.handlers && w.handlers[h].pc == Creating(id);
      if a.Forget? || a.h != h { assert v.handlers[h].pc == Creating(id); }
    }
    if TriageDue(v, id) && id !in v.launched {
      var h :| h in v.handlers && v.handlers[h].pc == Creating(id);
      assert h in w.handlers && w.handlers[h].pc == Creating(id);
    }
  }

  /** A new row is being created, and nobody died over it before. */
  lemma NewRowIsDue(w: World, a: Act, id: string)
    requires Can(w, a) && Fresh(w.rows, id) && !Fresh(Next(w, a).rows, id)
    ensures TriageDue(Next(w, a), id) && a.Report?
  {
    hide Find, PutSpec, IdempotencyKey;
    assert Next(w, a).handlers[a.h].pc == Creating(id);
  }

  lemma {:induction false} DeadHadRows(acts: seq<Act>, id: string)
    requires DiedCreating(acts, id)
    ensures !Fresh(Run(acts).rows, id)
  {
    var front, a := acts[..|acts| - 1], acts[|acts| - 1];
    var w := Run(front);
    DiedSnoc(acts, id);
    StartIsSound();
    RunKeeps(START, front);
    hide Run, RunFrom, DiedCreating, Find, PutSpec, IdempotencyKey;
    assert Run(acts) == Step(w, a) by { RunSnocIs(acts); }
    if DiedCreating(front, id) {
      DeadHadRows(front, id);
    } else {
      assert PcOk(w.rows, w.launched, w.handlers[a.h]);
      FoundIsARow(w.rows, w.handlers[a.h].batch[|w.handlers[a.h].answers|].fingerprint);
    }
    RowsStayUsed(w, a, id);
  }

  lemma RunSnocIs(acts: seq<Act>)
    requires acts != []
    ensures Run(acts) == Step(Run(acts[..|acts| - 1]), acts[|acts| - 1])
  {
  }

  lemma RowsStayUsed(w: World, a: Act, id: string)
    requires !Fresh(w.rows, id)
    ensures !Fresh(Step(w, a).rows, id)
  {
    hide Find, PutSpec, IdempotencyKey;
    var i :| 0 <= i < |w.rows| && w.rows[i].id == id;
    assert Step(w, a).rows[i].id == id;
  }

  /**
   * An incident has its triage launched, or about to be, exactly when the core did not die between creating
   * that incident and launching it. As acts grow a death stays a death: what is lost is lost for good, since
   * every retry finds the row.
   */
  lemma {:induction false} TriageIsNotLost(acts: seq<Act>, id: string)
    requires !Fresh(Run(acts).rows, id)
    ensures TriageDue(Run(acts), id) <==> !DiedCreating(acts, id)
  {
    if acts != [] {
      var front, a := acts[..|acts| - 1], acts[|acts| - 1];
      var w := Run(front);
      StartIsSound();
      RunKeeps(START, front);
      DiedSnoc(acts, id);
      RunSnocIs(acts);
      hide Run, RunFrom, DiedCreating, TriageDue, Inv, Next, Can, Fresh, DiesCreating;
      if !Fresh(w.rows, id) {
        TriageIsNotLost(front, id);
        if Can(w, a) { DueStays(w, a, id); } else { NobodyDies(w, a, id); }
      } else {
        NewRowIsDue(w, a, id);
        NotReportNotDie(w, a, id);
        if DiedCreating(front, id) { DeadHadRows(front, id); }
      }
    }
  }

  lemma NobodyDies(w: World, a: Act, id: string)
    requires !Can(w, a)
    ensures !DiesCreating(w, a, id)
  {
  }

  lemma NotReportNotDie(w: World, a: Act, id: string)
    requires a.Report?
    ensures !DiesCreating(w, a, id)
  {
  }

  /** Once lost, never launched, whatever happens later. */
  lemma {:induction false} LostStaysLost(w: World, acts: seq<Act>, id: string)
    requires Inv(w) && !Fresh(w.rows, id) && !TriageDue(w, id)
    ensures !Fresh(RunFrom(w, acts).rows, id) && !TriageDue(RunFrom(w, acts), id)
  {
    if acts != [] {
      var v, a := RunFrom(w, acts[..|acts| - 1]), acts[|acts| - 1];
      LostStaysLost(w, acts[..|acts| - 1], id);
      RunKeeps(w, acts[..|acts| - 1]);
      hide Inv, TriageDue, Fresh, Next, Can;
      RowsStayUsed(v, a, id);
      if Can(v, a) { DueStays(v, a, id); }
    }
  }
}
