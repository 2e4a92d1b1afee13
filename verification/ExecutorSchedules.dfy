// What can still happen to execute under threads: schedules for each thing that the locks and checks of
// module ExecutorThreads leave open, for any reports and incidents.

module ExecutorSchedules {
  import opened Prelude
  import opened ReportSchema
  import opened Database
  import opened Executor
  import opened ExecutorThreads
  import Machine

  const FINE := Output("")

  lemma ReachSnoc(acts: seq<Act>, a: Act)
    ensures Reach(acts + [a]) == Next(Reach(acts), a)
  {
    assert (acts + [a])[..|acts|] == acts;
  }

  /** k turns of call t, every command succeeding. */
  function Turns(t: nat, k: nat): seq<Act> {
    if k == 0 then [] else Turns(t, k - 1) + [Turn(t, FINE)]
  }

  function AfterTurns(s: Sys, t: nat, k: nat): Sys {
    if k == 0 then s else Next(AfterTurns(s, t, k - 1), Turn(t, FINE))
  }

  lemma {:induction false} ReachTurns(acts: seq<Act>, t: nat, k: nat)
    ensures Reach(acts + Turns(t, k)) == AfterTurns(Reach(acts), t, k)
  {
    hide Reach, Next;
    if k == 0 {
      assert acts + Turns(t, 0) == acts;
    } else {
      ReachTurns(acts, t, k - 1);
      ReachSnoc(acts + Turns(t, k - 1), Turn(t, FINE));
      assert acts + Turns(t, k) == acts + Turns(t, k - 1) + [Turn(t, FINE)];
    }
  }

  lemma Update<K, V>(m: map<K, V>, k: K, v: V, w: V)
    ensures m[k := v][k := w] == m[k := w]
  {
  }

  /** A turn whose effect is known. */
  lemma OneTurn(s: Sys, t: nat, to: Pc, after: Sys)
    requires t in s.jobs && t in s.pc && PcAfter(s, t, FINE) == to
    requires after == s.(pc := s.pc[t := to], holder := HolderAfter(s, t), executed := ExecutedAfter(s, t),
                         trace := if Emits(s, t, FINE).Some? then s.trace + [Emits(s, t, FINE).value] else s.trace)
    ensures Next(s, Turn(t, FINE)) == after
  {
  }

  predicate Stands(s: Sys, t: nat, pc: Pc) {
    t in s.jobs && t in s.pc && s.pc[t] == pc
  }

  /** Nothing keeps call t from reaching the loop. */
  predicate Free(s: Sys, t: nat) {
    && Stands(s, t, WantsLock)
    && var j := s.jobs[t];
       && j.incident !in s.holder && !Done(s.executed, KeyOf(j))
       && j.incident in s.status && s.status[j.incident] !in {MITIGATED, RESOLVED}
  }

  /** Call t has its lock and has read the status. */
  function HasLooked(s: Sys, t: nat): Sys
    requires Free(s, t)
  {
    var i := s.jobs[t].incident;
    s.(pc := s.pc[t := ReadsGrant], holder := s.holder[i := t], trace := s.trace + [Looked(t, s.status[i])])
  }

  lemma ToTheLook(s: Sys, t: nat)
    requires Free(s, t)
    ensures AfterTurns(s, t, 3) == HasLooked(s, t)
  {
    hide KeyOf, ScriptOf, Next;
    var i := s.jobs[t].incident;
    var s1 := s.(pc := s.pc[t := ReadsKey], holder := s.holder[i := t]);
    OneTurn(s, t, ReadsKey, s1);
    assert AfterTurns(s, t, 1) == s1;
    var s2 := s1.(pc := s1.pc[t := ReadsStatus]);
    OneTurn(s1, t, ReadsStatus, s2);
    assert AfterTurns(s, t, 2) == s2;
    OneTurn(s2, t, ReadsGrant, HasLooked(s, t).(pc := s2.pc[t := ReadsGrant]));
    Update(s.pc, t, ReadsKey, ReadsStatus);
    Update(s.pc, t, ReadsStatus, ReadsGrant);
  }

  predicate Approved(s: Sys, t: nat) {
    t in s.jobs && (AnyMutating(s.jobs[t].report.suggestedActions) ==> s.jobs[t].incident in s.granted)
  }

  /** Call t is at the first command of its script. */
  function HasBegun(s: Sys, t: nat): Sys
    requires Stands(s, t, ReadsGrant)
  {
    s.(pc := s.pc[t := Runs(0)], executed := Started(s.executed, KeyOf(s.jobs[t])), trace := s.trace + [Began(t)])
  }

  lemma ToTheLoop(s: Sys, t: nat)
    requires Stands(s, t, ReadsGrant) && Approved(s, t)
    ensures AfterTurns(s, t, 3) == HasBegun(s, t)
  {
    hide KeyOf, ScriptOf, Next, AnyMutating, Started;
    var s1 := s.(pc := s.pc[t := RecordsStart]);
    OneTurn(s, t, RecordsStart, s1);
    assert AfterTurns(s, t, 1) == s1;
    var s2 := s1.(pc := s1.pc[t := LogsStart], executed := Started(s.executed, KeyOf(s.jobs[t])));
    OneTurn(s1, t, LogsStart, s2);
    assert AfterTurns(s, t, 2) == s2;
    Update(s.pc, t, RecordsStart, LogsStart);
    OneTurn(s2, t, Runs(0), HasBegun(s, t).(pc := s2.pc[t := Runs(0)]));
    Update(s.pc, t, LogsStart, Runs(0));
  }

  /** k commands of a script, from the n-th on. */
  function Issues(t: nat, script: seq<Command>, n: nat, k: nat): seq<Ev>
    requires n + k <= |script|
  {
    if k == 0 then [] else Issues(t, script, n, k - 1) + [Issued(t, script[n + k - 1], FINE)]
  }

  function HasIssued(s: Sys, t: nat, n: nat, k: nat): Sys
    requires Stands(s, t, Runs(n)) && n + k <= |ScriptOf(s.jobs[t])|
  {
    s.(pc := s.pc[t := Runs(n + k)], trace := s.trace + Issues(t, ScriptOf(s.jobs[t]), n, k))
  }

  lemma {:induction false} ThroughTheLoop(s: Sys, t: nat, n: nat, k: nat)
    requires Stands(s, t, Runs(n)) && n + k <= |ScriptOf(s.jobs[t])|
    ensures AfterTurns(s, t, k) == HasIssued(s, t, n, k)
  {
    hide ScriptOf, Next;
    if k == 0 {
      assert s.pc[t := Runs(n)] == s.pc;
      assert s.trace + [] == s.trace;
    } else {
      ThroughTheLoop(s, t, n, k - 1);
      var s1, s2 := HasIssued(s, t, n, k - 1), HasIssued(s, t, n, k);
      assert s1.trace + [Issued(t, ScriptOf(s.jobs[t])[n + k - 1], FINE)] == s2.trace;
      Update(s.pc, t, Runs(n + k - 1), Runs(n + k));
      OneTurn(s1, t, Runs(n + k), s2);
    }
  }

  /** Whatever of the script has been issued, and by whichever call, it is there to be seen. */
  lemma {:induction false} IssuesAre(t: nat, script: seq<Command>, n: nat, k: nat)
    requires n + k <= |script|
    ensures |Issues(t, script, n, k)| == k
    ensures forall i | 0 <= i < k :: Issues(t, script, n, k)[i] == Issued(t, script[n + i], FINE)
  {
    if k > 0 { IssuesAre(t, script, n, k - 1); }
  }

  // ---------------------------------------------------------------- mitigation during an execution

  /** Statuses move as Machine.Transition moves them, from open. */
  predicate LegalMove(s: Sys, a: Act) {
    a.SetStatus? ==>
      if a.incident in s.status then Machine.CanTransition(s.status[a.incident], a.to) else a.to == OPEN
  }

  ghost predicate LegalStatuses(acts: seq<Act>) {
    forall n | 0 <= n < |acts| :: LegalMove(Reach(acts[..n]), acts[n])
  }

  lemma LegalSnoc(acts: seq<Act>, a: Act)
    requires LegalStatuses(acts) && LegalMove(Reach(acts), a)
    ensures LegalStatuses(acts + [a])
  {
    hide Reach, LegalMove;
    var more := acts + [a];
    forall n | 0 <= n < |more| ensures LegalMove(Reach(more[..n]), more[n]) {
      if n < |acts| { assert more[..n] == acts[..n]; } else { assert more[..n] == acts; }
    }
  }

  lemma {:induction false} LegalTurns(acts: seq<Act>, t: nat, k: nat)
    requires LegalStatuses(acts)
    ensures LegalStatuses(acts + Turns(t, k))
  {
    if k == 0 {
      assert acts + Turns(t, 0) == acts;
    } else {
      LegalTurns(acts, t, k - 1);
      hide LegalStatuses, Reach;
      LegalSnoc(acts + Turns(t, k - 1), Turn(t, FINE));
      assert acts + Turns(t, k) == acts + Turns(t, k - 1) + [Turn(t, FINE)];
    }
  }

  /** One more act. */
  lemma Do(acts: seq<Act>, a: Act) returns (more: seq<Act>)
    requires LegalStatuses(acts) && LegalMove(Reach(acts), a)
    ensures LegalStatuses(more) && Reach(more) == Next(Reach(acts), a)
  {
    hide *;
    LegalSnoc(acts, a);
    ReachSnoc(acts, a);
    more := acts + [a];
  }

  lemma DoTurns(acts: seq<Act>, t: nat, k: nat) returns (more: seq<Act>)
    requires LegalStatuses(acts)
    ensures LegalStatuses(more) && Reach(more) == AfterTurns(Reach(acts), t, k)
  {
    hide *;
    LegalTurns(acts, t, k);
    ReachTurns(acts, t, k);
    more := acts + Turns(t, k);
  }

  /** One call on one approved incident under investigation. */
  function Ready(incident: string, report: TriageReport): Sys {
    Sys(map[0 := Job(incident, report)], map[0 := WantsLock], map[], map[], map[incident := INVESTIGATING], {incident},
        [Changed(incident, OPEN), Changed(incident, INVESTIGATING)])
  }

  lemma GetReady(incident: string, report: TriageReport) returns (acts: seq<Act>)
    requires report.validated
    ensures LegalStatuses(acts) && Reach(acts) == Ready(incident, report)
  {
    hide Reach, LegalStatuses;
    acts := Nothing();
    acts := Do(acts, Spawn(0, Job(incident, report)));
    acts := Do(acts, SetStatus(incident, OPEN));
    acts := Do(acts, SetStatus(incident, INVESTIGATING));
    acts := Do(acts, Grant(incident));
    assert Reach(acts).status == map[incident := INVESTIGATING];
  }

  lemma Nothing() returns (acts: seq<Act>)
    ensures acts == [] && LegalStatuses(acts) && Reach(acts) == START
  {
    acts := [];
  }

  /** The history of a call that is overtaken by a mitigation, m commands into its script. */
  function OvertakenAt(incident: string, script: seq<Command>, m: nat): seq<Ev>
    requires m <= |script|
  {
    [Changed(incident, OPEN), Changed(incident, INVESTIGATING), Looked(0, INVESTIGATING), Began(0)]
    + Issues(0, script, 0, m) + [Changed(incident, MITIGATED)] + Issues(0, script, m, |script| - m)
  }

  /**
   * The look is not repeated: any report's whole script can be issued after its incident was mitigated,
   * if the change falls between the call's look at the status and its start ...
   */
  lemma MitigationCanSlipIn(incident: string, report: TriageReport) returns (acts: seq<Act>)
    requires report.validated
    ensures LegalStatuses(acts)
    ensures var script := Script(report.suggestedActions);
            Reach(acts).trace == [Changed(incident, OPEN), Changed(incident, INVESTIGATING), Looked(0, INVESTIGATING),
                                  Changed(incident, MITIGATED), Began(0)] + Issues(0, script, 0, |script|)
  {
    hide Reach, LegalStatuses, KeyOf, AfterTurns, Issues, Script;
    acts := GetReady(incident, report);
    var s := Reach(acts);
    ToTheLook(s, 0);
    acts := DoTurns(acts, 0, 3);
    acts := Do(acts, SetStatus(incident, MITIGATED));
    s := Reach(acts);
    ToTheLoop(s, 0);
    acts := DoTurns(acts, 0, 3);
    s := Reach(acts);
    ThroughTheLoop(s, 0, 0, |ScriptOf(s.jobs[0])|);
    acts := DoTurns(acts, 0, |ScriptOf(s.jobs[0])|);
  }

  /** ... and, since the loop never looks, the rest of it after any number of commands. */
  lemma MitigationInsideTheLoop(incident: string, report: TriageReport, m: nat) returns (acts: seq<Act>)
    requires report.validated && m <= |Script(report.suggestedActions)|
    ensures LegalStatuses(acts)
    ensures Reach(acts).trace == OvertakenAt(incident, Script(report.suggestedActions), m)
  {
    hide Reach, LegalStatuses, KeyOf, AfterTurns, Issues, Script;
    acts := GetReady(incident, report);
    var s := Reach(acts);
    ToTheLook(s, 0);
    acts := DoTurns(acts, 0, 3);
    s := Reach(acts);
    ToTheLoop(s, 0);
    acts := DoTurns(acts, 0, 3);
    s := Reach(acts);
    ThroughTheLoop(s, 0, 0, m);
    acts := DoTurns(acts, 0, m);
    acts := Do(acts, SetStatus(incident, MITIGATED));
    s := Reach(acts);
    ThroughTheLoop(s, 0, m, |ScriptOf(s.jobs[0])| - m);
    acts := DoTurns(acts, 0, |ScriptOf(s.jobs[0])| - m);
  }

  // ---------------------------------------------------------------- ... and only by such a change

  predicate BeforeLook(pc: Pc) {
    pc.WantsLock? || pc.ReadsKey? || pc.ReadsStatus?
  }

  ghost predicate LookOk(s: Sys) {
    && (forall i | 0 <= i < |s.trace| && s.trace[i].Looked? ::
          s.trace[i].t in s.jobs && s.trace[i].t in s.pc && !BeforeLook(s.pc[s.trace[i].t]))
    && (forall i, j | 0 <= i < j < |s.trace| && s.trace[i].Looked? && s.trace[j].Looked? :: s.trace[i].t != s.trace[j].t)
  }

  lemma TurnLooks(s: Sys, t: nat, reply: Reply)
    requires t in s.jobs && t in s.pc
    ensures var after, e := TakeTurn(s, t, reply), Emits(s, t, reply);
            && after.jobs == s.jobs && t in after.pc && after.pc == s.pc[t := after.pc[t]]
            && after.trace == (if e.Some? then s.trace + [e.value] else s.trace)
            && (!BeforeLook(s.pc[t]) ==> !BeforeLook(after.pc[t]))
            && (e.Some? && e.value.Looked? ==> e.value.t == t && BeforeLook(s.pc[t]) && !BeforeLook(after.pc[t]))
  {
    hide KeyOf, ScriptOf, AnyMutating, Started, Finished, Released, Done;
  }

  lemma {:induction false} LooksAtMostOnce(acts: seq<Act>)
    ensures LookOk(Reach(acts))
  {
    if acts != [] {
      var s, a := Reach(acts[..|acts| - 1]), acts[|acts| - 1];
      LooksAtMostOnce(acts[..|acts| - 1]);
      hide TakeTurn, BeforeLook, Reach;
      if a.Turn? && a.t in s.jobs && a.t in s.pc { TurnLooks(s, a.t, a.reply); }
    }
  }

  predicate Settled(status: Option<string>) {
    status == Some(MITIGATED) || status == Some(RESOLVED)
  }

  predicate Settles(e: Ev, incident: string) {
    e.Changed? && e.incident == incident && Settled(Some(e.status))
  }

  /** Each change leaves from the status that the one before it reached. */
  ghost predicate LegalTrace(trace: seq<Ev>) {
    forall m | 0 <= m < |trace| && trace[m].Changed? ::
      match StatusThen(trace[..m], trace[m].incident)
      case None => trace[m].status == OPEN
      case Some(current) => Machine.CanTransition(current, trace[m].status)
  }

  lemma LegalTraceSnoc(trace: seq<Ev>, e: Ev)
    requires LegalTrace(trace)
    requires e.Changed? ==>
               match StatusThen(trace, e.incident)
               case None => e.status == OPEN
               case Some(current) => Machine.CanTransition(current, e.status)
    ensures LegalTrace(trace + [e])
  {
    hide StatusThen;
    var more := trace + [e];
    assert more[..|trace|] == trace;
    forall m | 0 <= m < |trace| ensures more[..m] == trace[..m] && more[m] == trace[m] {
    }
  }

  lemma {:induction false} ReachIsLegal(acts: seq<Act>)
    requires LegalStatuses(acts)
    ensures LegalTrace(Reach(acts).trace)
  {
    if acts != [] {
      var front, a := acts[..|acts| - 1], acts[|acts| - 1];
      var s := Reach(front);
      assert LegalStatuses(front) by {
        forall n | 0 <= n < |front| ensures LegalMove(Reach(front[..n]), front[n]) {
          assert front[..n] == acts[..n] && front[n] == acts[n];
        }
      }
      assert LegalMove(Reach(acts[..|front|]), acts[|front|]);
      ReachIsLegal(front);
      StatusKeeps(front);
      hide LegalTrace, LegalStatuses, TakeTurn, StatusThen;
      if a.Turn? && a.t in s.jobs && a.t in s.pc {
        TurnLeavesStatuses(s, a.t, a.reply);
        if Emits(s, a.t, a.reply).Some? { LegalTraceSnoc(s.trace, Emits(s, a.t, a.reply).value); }
      } else if a.SetStatus? {
        LegalTraceSnoc(s.trace, Changed(a.incident, a.to));
      }
    }
  }

  lemma {:induction false} SettledThen(trace: seq<Ev>, incident: string, m: nat, j: nat)
    requires LegalTrace(trace) && m < j <= |trace| && Settles(trace[m], incident)
    ensures Settled(StatusThen(trace[..j], incident))
    decreases j
  {
    hide StatusThen;
    assert trace[..j] == trace[..j - 1] + [trace[j - 1]];
    StatusSnoc(trace[..j - 1], trace[j - 1], incident);
    if j > m + 1 { SettledThen(trace, incident, m, j - 1); }
  }

  lemma {:induction false} UnsettledThen(trace: seq<Ev>, incident: string, r: nat, j: nat)
    requires r <= j <= |trace| && !Settled(StatusThen(trace[..r], incident))
    requires forall m | r <= m < j :: !Settles(trace[m], incident)
    ensures !Settled(StatusThen(trace[..j], incident))
    decreases j
  {
    hide StatusThen;
    if j > r {
      assert trace[..j] == trace[..j - 1] + [trace[j - 1]];
      StatusSnoc(trace[..j - 1], trace[j - 1], incident);
      UnsettledThen(trace, incident, r, j - 1);
    }
  }

  /**
   * While statuses move as the machine allows, an execution starts on a mitigated or resolved incident exactly
   * when a change to one of these falls between the call's own look at the status, at r, and its start, at j.
   */
  lemma StartsSettledIff(acts: seq<Act>, r: nat, j: nat)
    requires LegalStatuses(acts)
    requires var trace := Reach(acts).trace;
             r < |trace| && j < |trace| && trace[j].Began? && trace[r].Looked? && trace[r].t == trace[j].t
    ensures var s := Reach(acts);
            && r < j && s.trace[j].t in s.jobs
            && var incident := s.jobs[s.trace[j].t].incident;
               Settled(StatusThen(s.trace[..j], incident)) <==> exists m | r < m < j :: Settles(s.trace[m], incident)
  {
    var s := Reach(acts);
    var look := StartsLookedFirst(acts, j);
    LooksAtMostOnce(acts);
    assert look == r;
    var incident := s.jobs[s.trace[j].t].incident;
    hide StatusThen, Reach;
    ReachIsLegal(acts);
    if m :| r < m < j && Settles(s.trace[m], incident) {
      SettledThen(s.trace, incident, m, j);
    } else {
      UnsettledThen(s.trace, incident, r, j);
    }
  }

  // ---------------------------------------------------------------- two incidents, one key

  function TwoCalls(a: Job, b: Job): Sys
    requires a.incident != b.incident
  {
    Sys(map[0 := a, 1 := b], map[0 := WantsLock, 1 := WantsLock], map[], map[],
        map[a.incident := OPEN, b.incident := OPEN], {a.incident, b.incident},
        [Changed(a.incident, OPEN), Changed(b.incident, OPEN)])
  }

  lemma GetTwoReady(a: Job, b: Job) returns (acts: seq<Act>)
    requires a.report.validated && b.report.validated && a.incident != b.incident
    ensures LegalStatuses(acts) && Reach(acts) == TwoCalls(a, b)
  {
    hide Reach, LegalStatuses;
    acts := Nothing();
    acts := Do(acts, Spawn(0, a));
    acts := Do(acts, Spawn(1, b));
    acts := Do(acts, SetStatus(a.incident, OPEN));
    acts := Do(acts, SetStatus(b.incident, OPEN));
    acts := Do(acts, Grant(a.incident));
    acts := Do(acts, Grant(b.incident));
    assert Reach(acts).granted == {a.incident, b.incident};
  }

  lemma BothInTheLoop(a: Job, b: Job) returns (acts: seq<Act>)
    requires a.report.validated && b.report.validated && a.incident != b.incident && KeyOf(a) == KeyOf(b)
    ensures LegalStatuses(acts) && Reach(acts).jobs == map[0 := a, 1 := b]
    ensures Stands(Reach(acts), 0, Runs(0)) && Stands(Reach(acts), 1, Runs(0))
  {
    hide Reach, LegalStatuses, KeyOf, AfterTurns, ScriptOf, AnyMutating;
    acts := GetTwoReady(a, b);
    var s := Reach(acts);
    ToTheLook(s, 0);
    acts := DoTurns(acts, 0, 3);
    s := Reach(acts);
    ToTheLoop(s, 0);
    acts := DoTurns(acts, 0, 3);
    s := Reach(acts);
    ToTheLook(s, 1);
    acts := DoTurns(acts, 1, 3);
    s := Reach(acts);
    ToTheLoop(s, 1);
    acts := DoTurns(acts, 1, 3);
  }

  /** Any two calls on different incidents that share a key: one issues a command after the other completed it. */
  lemma SharedKeysRace(a: Job, b: Job) returns (acts: seq<Act>)
    requires a.report.validated && b.report.validated && a.incident != b.incident
    requires KeyOf(a) == KeyOf(b) && ScriptOf(a) != []
    ensures LegalStatuses(acts) && Reach(acts).jobs == map[0 := a, 1 := b]
    ensures var trace := Reach(acts).trace;
            |trace| >= 2 && trace[|trace| - 2] == Completed(1) && trace[|trace| - 1] == Issued(0, ScriptOf(a)[0], FINE)
  {
    hide Reach, LegalStatuses, KeyOf, AfterTurns, Issues, ScriptOf, AnyMutating, Finished;
    acts := BothInTheLoop(a, b);
    var s := Reach(acts);
    ThroughTheLoop(s, 1, 0, |ScriptOf(b)|);
    acts := DoTurns(acts, 1, |ScriptOf(b)|);
    acts := Do(acts, Turn(1, FINE));
    acts := Do(acts, Turn(0, FINE));
  }

  function ReportOf(incident: string, actions: seq<SuggestedAction>): TriageReport {
    TriageReport(incident, [Hypothesis("cause", 1.0, [])], actions, [], "1.0.0", true)
  }

  lemma ReportIsWellFormed(incident: string, actions: seq<SuggestedAction>)
    requires NonBlank(incident) && Suggestible(actions)
    ensures WellFormed(ReportOf(incident, actions))
  {
    FirstVersion();
    CauseIsNoBlank();
    hide NonBlank, SemverMatch, Digits, ThreeNumbers;
  }

  lemma CauseIsNoBlank()
    ensures NonBlank("cause")
  {
    assert "cause"[0] == 'c';
  }

  lemma FirstVersion()
    ensures SemverMatch("1.0.0")
  {
    var v := "1.0.0";
    var a, b, c := v[..1], v[2..3], v[4..];
    assert a == "1" && b == "0" && c == "0";
    assert Digits(a) && Digits(b) && Digits(c);
    hide Digits;
    assert v[1] == '.' && v[3] == '.' && v[1 + 1..3] == b && v[3 + 1..] == c;
    assert ThreeNumbers(v);
  }

  lemma LongerIsNoBlank(a: string, b: string)
    requires NonBlank(a)
    ensures NonBlank(a + b)
  {
    var i :| 0 <= i < |a| && !IsSpace(a[i]);
    assert (a + b)[i] == a[i];
  }

  /** What the outer incident's report suggests: one action, or nothing. */
  function Outer(action: string, risk: string): seq<SuggestedAction> {
    if action == "" then [] else OneAction(action, risk)
  }

  /**
   * So every pair of nested ids that the report contract accepts has reports that it accepts too, with which a
   * command is issued under a completed key; the outer report may suggest any action that fits.
   */
  lemma NestedIdsBreakTheKey(i: string, j: string, action: string, risk: string) returns (acts: seq<Act>)
    requires Nested(i, j) && NonBlank(i) && risk in {READ_ONLY, MUTATING}
    requires action == "" || (NonBlank(action) && |j| - |i| + |action| <= 200)
    ensures LegalStatuses(acts)
    ensures var s := Reach(acts);
            && 0 in s.jobs && 1 in s.jobs && s.jobs[0].incident == i && s.jobs[1].incident == j
            && Acceptable(s.jobs[0]) && Acceptable(s.jobs[1]) && s.jobs[1].report.suggestedActions == Outer(action, risk)
            && KeyOf(s.jobs[0]) == KeyOf(s.jobs[1]) && |s.trace| >= 2
            && s.trace[|s.trace| - 2] == Completed(1) && s.trace[|s.trace| - 1].Issued? && s.trace[|s.trace| - 1].t == 0
  {
    hide Reach, FullKey, LegalStatuses, NonBlank, WellFormed;
    var inner, outer := OneAction(j[|i| + 1..] + ":" + action, risk), Outer(action, risk);
    NestedIdsShareAKey(i, j, action, risk);
    ColonIsNoBlank(j[|i| + 1..], action);
    assert j == i + j[|i|..];
    LongerIsNoBlank(i, j[|i|..]);
    ReportIsWellFormed(i, inner);
    ReportIsWellFormed(j, outer);
    var a, b := Job(i, ReportOf(i, inner)), Job(j, ReportOf(j, outer));
    assert inner[..0] == [] && ScriptOf(a) == Script([]) + ActionCommands(inner[0]);
    acts := SharedKeysRace(a, b);
  }

  /** The call executes a report that validate_report accepts, under the report's own incident. */
  predicate Acceptable(j: Job) {
    WellFormed(j.report) && j.report.validated && j.report.incidentId == j.incident
  }
}
