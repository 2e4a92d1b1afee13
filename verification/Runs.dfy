// Whole runs of gate, orchestrator, executor and status machine over one database:
// what may run, when, how often, and what the history proves afterwards.

module Runs {
  import opened Prelude
  import opened ReportSchema
  import opened Database
  import opened Executor
  import opened ApprovalGate
  import opened ApprovalFlow
  import opened Machine

  /** One atomic call from outside. Elsewhere stands for the rows other components append. */
  datatype Op =
    | CreateIncident(id: string)
    | Move(id: string, target: string)
    | Elsewhere(id: string, kind: string)
    | Propose(rid: string, id: string, report: TriageReport, now: real)
    | Answer(kind: string, rid: string, user: string, reason: string, replies: nat -> Reply)
    | Tick(listing: seq<string>, now: real)

  function Apply(w: World, cfg: Config, op: Op): World {
    match op
    case CreateIncident(id) => w.(db := w.db.(incidents := w.db.incidents[id := OPEN]))
    case Move(id, target) => w.(db := TransitionSpec(w.db, id, target).0)
    case Elsewhere(id, kind) => Log(w, id, Other(kind))
    case Propose(rid, id, report, now) => Register(w, cfg, rid, id, report, now).0
    case Answer(kind, rid, user, reason, replies) => HandleAction(w, cfg, kind, rid, user, reason, replies).0
    case Tick(listing, now) => TickUpTo(w, cfg, listing, now, |listing|).0
  }

  /** New ids are fresh; rows belong to known incidents; a tick works on what the query returns. */
  ghost predicate Enabled(w: World, op: Op) {
    match op
    case CreateIncident(id) => id !in w.db.incidents
    case Elsewhere(id, kind) => id in w.db.incidents
    case Propose(rid, _, _, _) => rid !in w.db.approvals && rid !in w.pending
    case Tick(listing, _) => Lists(w.db.approvals, listing)
    case _ => true
  }

  const EMPTY := World(Db(map[], map[], map[], []), map[])

  /** The world after a sequence of calls. */
  function WorldAfter(cfg: Config, ops: seq<Op>): World {
    if ops == [] then EMPTY else Apply(WorldAfter(cfg, ops[..|ops| - 1]), cfg, ops[|ops| - 1])
  }

  ghost predicate Legal(cfg: Config, ops: seq<Op>) {
    ops == [] || (Legal(cfg, ops[..|ops| - 1]) && Enabled(WorldAfter(cfg, ops[..|ops| - 1]), ops[|ops| - 1]))
  }

  // ---------------------------------------------------------------- the life of a request

  /** Where a request stands, with the report it was registered for. */
  datatype Life =
    | Unheard
    | Announced
    | Awaiting(report: TriageReport)
    | Late(report: TriageReport)
    | Granted(report: TriageReport)
    | Executed(report: TriageReport)
    | TurnedDown
    | Dropped
    | Broken

  /** The request an observation is about, if any. */
  function About(o: Obs): Option<string> {
    match o
    case Registered(rid, _, _) => Some(rid)
    case Called(rid, _) => Some(rid)
    case Ran(_, _, _) => None
    case Logged(_, e) =>
      match e
      case ApprovalRequested(rid, _, _) => Some(rid)
      case ApprovalGranted(rid, _) => Some(rid)
      case ApprovalRejected(rid, _, _) => Some(rid)
      case OverrideIndexed(rid, _) => Some(rid)
      case ApprovalEscalated(rid, _, _) => Some(rid)
      case ApprovalAbandoned(rid, _, _) => Some(rid)
      case _ => None
  }

  /** The only order in which a request's events may occur. */
  function LiveOn(l: Life, o: Obs): Life {
    match o
    case Registered(_, _, report) => if l.Announced? then Awaiting(report) else Broken
    case Called(_, report) => if l.Granted? && report == l.report.(validated := true) then Executed(l.report) else Broken
    case Ran(_, _, _) => l
    case Logged(_, e) =>
      match e
      case ApprovalRequested(_, _, _) => if l.Unheard? then Announced else Broken
      case ApprovalGranted(_, _) => if l.Awaiting? then Granted(l.report) else Broken
      case ApprovalRejected(_, _, _) => if l.Awaiting? then TurnedDown else Broken
      case OverrideIndexed(_, _) => if l.TurnedDown? then TurnedDown else Broken
      case ApprovalEscalated(_, _, _) => if l.Awaiting? || l.Late? then Late(l.report) else Broken
      case ApprovalAbandoned(_, _, _) => if l.Late? then Dropped else Broken
      case _ => l
  }

  function LifeOf(trace: seq<Obs>, rid: string): Life {
    if trace == [] then Unheard
    else
      var l := LifeOf(trace[..|trace| - 1], rid);
      var o := trace[|trace| - 1];
      if About(o) == Some(rid) then LiveOn(l, o) else l
  }

  lemma LifeSnoc(trace: seq<Obs>, o: Obs, rid: string)
    ensures LifeOf(trace + [o], rid) == if About(o) == Some(rid) then LiveOn(LifeOf(trace, rid), o) else LifeOf(trace, rid)
  {
    assert (trace + [o])[..|trace|] == trace;
  }

  lemma {:induction false} LifeUntouched(trace: seq<Obs>, more: seq<Obs>, rid: string)
    requires forall i | 0 <= i < |more| :: About(more[i]) != Some(rid)
    ensures LifeOf(trace + more, rid) == LifeOf(trace, rid)
  {
    if more == [] {
      assert trace + more == trace;
    } else {
      var m := |more| - 1;
      LifeUntouched(trace, more[..m], rid);
      LifeSnoc(trace + more[..m], more[m], rid);
      assert trace + more == trace + more[..m] + [more[m]];
    }
  }

  // ---------------------------------------------------------------- commands belong to calls

  /** The call in progress and how many of its commands were issued. */
  datatype Issue = Idle | During(rid: string, report: TriageReport, issued: nat) | Stray

  function IssueOn(i: Issue, o: Obs): Issue {
    if o.Called? then (if i.Stray? then Stray else During(o.rid, o.report, 0))
    else if !o.Ran? then i
    else if i.During? && o.incident == i.report.incidentId && i.issued < |Script(i.report.suggestedActions)|
            && o.command == Script(i.report.suggestedActions)[i.issued] then i.(issued := i.issued + 1)
    else Stray
  }

  function IssueOf(trace: seq<Obs>): Issue {
    if trace == [] then Idle else IssueOn(IssueOf(trace[..|trace| - 1]), trace[|trace| - 1])
  }

  lemma IssueSnoc(trace: seq<Obs>, o: Obs)
    ensures IssueOf(trace + [o]) == IssueOn(IssueOf(trace), o)
  {
    assert (trace + [o])[..|trace|] == trace;
  }

  lemma {:induction false} CommandsSnoc(obs: seq<Obs>, o: Obs)
    ensures Commands(obs + [o]) == Commands(obs) + CommandOf(o)
  {
    assert (obs + [o])[..|obs|] == obs;
  }

  lemma IssueAdvances(i: Issue, o: Obs)
    requires i.During? && !o.Called?
    requires o.Ran? ==> o.incident == i.report.incidentId && i.issued < |Script(i.report.suggestedActions)|
                        && o.command == Script(i.report.suggestedActions)[i.issued]
    ensures IssueOn(i, o) == i.(issued := i.issued + |CommandOf(o)|)
  {
  }

  /** No call begins here, and every command runs on the given incident. */
  predicate WithinOneCall(obs: seq<Obs>, inc: string) {
    forall i | 0 <= i < |obs| :: !obs[i].Called? && (obs[i].Ran? ==> obs[i].incident == inc)
  }

  lemma {:induction false} IssueFollowsScript(trace: seq<Obs>, more: seq<Obs>, rid: string, report: TriageReport)
    requires IssueOf(trace) == During(rid, report, 0)
    requires WithinOneCall(more, report.incidentId)
    requires Commands(more) <= Script(report.suggestedActions)
    ensures IssueOf(trace + more) == During(rid, report, |Commands(more)|)
  {
    if more == [] {
      assert trace + more == trace && Commands(more) == [];
    } else {
      var m := |more| - 1;
      assert WithinOneCall(more[..m], report.incidentId);
      var o := more[m];
      assert !o.Called? && (o.Ran? ==> o.incident == report.incidentId);
      hide *;
      LastCommandFits(more, Script(report.suggestedActions));
      IssueFollowsScript(trace, more[..m], rid, report);
      IssueAdvances(During(rid, report, |Commands(more[..m])|), o);
      IssueSplit(trace, more);
    }
  }

  lemma IssueSplit(trace: seq<Obs>, more: seq<Obs>)
    requires more != []
    ensures IssueOf(trace + more) == IssueOn(IssueOf(trace + more[..|more| - 1]), more[|more| - 1])
  {
    assert (trace + more)[..|trace + more| - 1] == trace + more[..|more| - 1];
  }

  lemma LastCommandFits(obs: seq<Obs>, script: seq<Command>)
    requires obs != [] && Commands(obs) <= script
    ensures var m := |obs| - 1;
            var n := |Commands(obs[..m])|;
            && Commands(obs[..m]) <= script && |Commands(obs)| == n + |CommandOf(obs[m])|
            && (obs[m].Ran? ==> n < |script| && obs[m].command == script[n])
  {
    var m := |obs| - 1;
    assert Commands(obs) == Commands(obs[..m]) + CommandOf(obs[m]);
    hide Commands;
    if obs[m].Ran? {
      PrefixSnoc(Commands(obs[..m]), obs[m].command, script);
    }
  }

  // ---------------------------------------------------------------- the invariant

  ghost predicate RequestOk(w: World, rid: string) {
    var l := LifeOf(w.db.trace, rid);
    && !l.Broken? && !l.Announced?
    && (l.Awaiting? <==> Waiting(w.pending, rid, Pending))
    && (l.Late? <==> Waiting(w.pending, rid, Escalated))
    && (rid in w.pending ==> w.pending[rid].state in {Pending, Escalated} && w.pending[rid].incident in w.db.incidents)
    && (Waiting(w.pending, rid, Pending) ==> w.pending[rid].timeouts == 0)
    && (rid in w.db.approvals <==> !l.Unheard?)
    && (l.Awaiting? ==> w.db.approvals[rid].state == PENDING)
    && (l.Awaiting? || l.Late? || l.Granted? ==> w.db.approvals[rid].report == ReportToDict(l.report))
  }

  ghost predicate IncidentOk(w: World, id: string) {
    Replay(w.db.trace, id) == Some(if id in w.db.incidents then w.db.incidents[id] else OPEN)
  }

  ghost predicate Inv(w: World) {
    && (forall rid :: RequestOk(w, rid))
    && (forall id :: IncidentOk(w, id))
    && !IssueOf(w.db.trace).Stray?
  }

  lemma InitiallyOk()
    ensures Inv(EMPTY)
  {
  }

  lemma Unaffected(w: World, after: World, rid: string)
    requires RequestOk(w, rid)
    requires LifeOf(after.db.trace, rid) == LifeOf(w.db.trace, rid)
    requires rid in after.pending <==> rid in w.pending
    requires rid in w.pending ==> after.pending[rid] == w.pending[rid]
    requires rid in after.db.approvals <==> rid in w.db.approvals
    requires rid in w.db.approvals ==> after.db.approvals[rid] == w.db.approvals[rid]
    requires w.db.incidents.Keys <= after.db.incidents.Keys
    ensures RequestOk(after, rid)
  {
  }

  /** A row about no request and no status leaves everything in order. */
  lemma QuietLog(w: World, id: string, e: Event)
    requires Inv(w) && About(Logged(id, e)) == None && !e.StatusChanged?
    requires e.ExecutionStarted? ==> id in w.db.incidents && w.db.incidents[id] !in {MITIGATED, RESOLVED}
    ensures Inv(Log(w, id, e))
  {
    hide RequestOk, IncidentOk;
    var o := Logged(id, e);
    var after := Log(w, id, e);
    IssueSnoc(w.db.trace, o);
    forall rid ensures RequestOk(after, rid) {
      LifeSnoc(w.db.trace, o, rid);
      Unaffected(w, after, rid);
    }
    forall i ensures IncidentOk(after, i) {
      assert IncidentOk(w, i);
      QuietReplay(w, i, id, e);
    }
  }

  lemma QuietReplay(w: World, i: string, id: string, e: Event)
    requires IncidentOk(w, i) && !e.StatusChanged?
    requires e.ExecutionStarted? ==> id in w.db.incidents && w.db.incidents[id] !in {MITIGATED, RESOLVED}
    ensures IncidentOk(Log(w, id, e), i)
  {
    ReplaySnoc(w.db.trace, Logged(id, e), i);
  }

  lemma CreateKeeps(w: World, cfg: Config, id: string)
    requires Inv(w) && id !in w.db.incidents
    ensures Inv(Apply(w, cfg, CreateIncident(id)))
  {
    var after := Apply(w, cfg, CreateIncident(id));
    forall rid ensures RequestOk(after, rid) {
      assert RequestOk(w, rid);
      Unaffected(w, after, rid);
    }
    forall i ensures IncidentOk(after, i) {
      assert IncidentOk(w, i);
    }
  }

  lemma MoveKeeps(w: World, cfg: Config, id: string, target: string)
    requires Inv(w)
    ensures Inv(Apply(w, cfg, Move(id, target)))
  {
    var after := Apply(w, cfg, Move(id, target));
    if id in w.db.incidents {
      var current := w.db.incidents[id];
      if CanTransition(current, target) {
        var o := Logged(id, StatusChanged(current, target));
        IssueSnoc(w.db.trace, o);
        forall rid ensures RequestOk(after, rid) {
          assert RequestOk(w, rid);
          LifeSnoc(w.db.trace, o, rid);
          Unaffected(w, after, rid);
        }
        forall i ensures IncidentOk(after, i) {
          assert IncidentOk(w, i);
          ReplaySnoc(w.db.trace, o, i);
        }
      } else {
        QuietLog(w, id, IllegalTransition(current, target));
      }
    }
  }

  /** Rows about one request: everyone else's standing, every status and the commands are as before. */
  lemma OthersKeep(w: World, after: World, rid: string, id: string, e: Event)
    requires Inv(w) && About(Logged(id, e)) == Some(rid)
    requires after.db.trace == w.db.trace + [Logged(id, e)] && after.db.incidents == w.db.incidents
    requires forall r | r != rid ::
               (r in after.pending <==> r in w.pending) && (r in w.pending ==> after.pending[r] == w.pending[r])
    requires forall r | r != rid :: (r in after.db.approvals <==> r in w.db.approvals)
                                    && (r in w.db.approvals ==> after.db.approvals[r] == w.db.approvals[r])
    ensures forall r | r != rid :: RequestOk(after, r)
    ensures forall i :: IncidentOk(after, i)
    ensures !IssueOf(after.db.trace).Stray?
    ensures LifeOf(after.db.trace, rid) == LiveOn(LifeOf(w.db.trace, rid), Logged(id, e))
  {
    hide RequestOk, IncidentOk, Replay, LifeOf;
    var o := Logged(id, e);
    IssueSnoc(w.db.trace, o);
    LifeSnoc(w.db.trace, o, rid);
    forall r | r != rid ensures RequestOk(after, r) {
      LifeSnoc(w.db.trace, o, r);
      Unaffected(w, after, r);
    }
    forall i ensures IncidentOk(after, i) {
      OtherReplay(w, after, i, o);
    }
  }

  lemma OtherReplay(w: World, after: World, i: string, o: Obs)
    requires IncidentOk(w, i) && after.db.trace == w.db.trace + [o] && after.db.incidents == w.db.incidents
    requires !o.Logged? || (!o.event.StatusChanged? && !o.event.ExecutionStarted?)
    ensures IncidentOk(after, i)
  {
    ReplaySnoc(w.db.trace, o, i);
  }

  lemma ProposeKeeps(w: World, cfg: Config, rid: string, id: string, report: TriageReport, now: real)
    requires Inv(w) && rid !in w.db.approvals && rid !in w.pending
    ensures Inv(Apply(w, cfg, Propose(rid, id, report, now)))
  {
    hide Inv, RequestOk, IncidentOk, LifeOf, Replay, IssueOf;
    if AnyMutating(report.suggestedActions) && id in w.db.incidents {
      var w1 := Log(w, id, DryRunUnavailable(STEP));
      QuietLog(w, id, DryRunUnavailable(STEP));
      RegisterFreshKeeps(w1, cfg, rid, id, report, now);
    }
  }

  lemma RegisterFreshKeeps(w: World, cfg: Config, rid: string, id: string, report: TriageReport, now: real)
    requires Inv(w) && rid !in w.db.approvals && rid !in w.pending && id in w.db.incidents
    ensures var entry := PendingApproval(id, STEP, Pending, [cfg.chain.initial], 0);
            var w2 := Log(w.(pending := w.pending[rid := entry]), id, ApprovalRequested(rid, STEP, cfg.chain.initial));
            Inv(WithRow(w2, rid, id, report, now))
  {
    hide RequestOk, IncidentOk, LifeOf, Replay, IssueOf;
    var e := ApprovalRequested(rid, STEP, cfg.chain.initial);
    var w2 := Log(w.(pending := w.pending[rid := PendingApproval(id, STEP, Pending, [cfg.chain.initial], 0)]), id, e);
    assert RequestOk(w, rid);
    OthersKeep(w, w2, rid, id, e);
    var o := Registered(rid, id, report);
    var after := WithRow(w2, rid, id, report, now);
    LifeSnoc(w2.db.trace, o, rid);
    IssueSnoc(w2.db.trace, o);
    forall r ensures RequestOk(after, r) {
      if r == rid {
        StillUnheard(w, rid);
        AwaitingOk(after, rid, report);
      } else {
        LifeSnoc(w2.db.trace, o, r);
        Unaffected(w2, after, r);
      }
    }
    forall i ensures IncidentOk(after, i) {
      OtherReplay(w2, after, i, o);
    }
  }

  lemma StillUnheard(w: World, rid: string)
    requires RequestOk(w, rid) && rid !in w.db.approvals
    ensures LifeOf(w.db.trace, rid).Unheard?
  {
  }

  lemma AwaitingOk(w: World, rid: string, report: TriageReport)
    requires LifeOf(w.db.trace, rid) == Awaiting(report)
    requires Waiting(w.pending, rid, Pending) && w.pending[rid].incident in w.db.incidents && w.pending[rid].timeouts == 0
    requires PendingRow(w.db.approvals, rid) && w.db.approvals[rid].report == ReportToDict(report)
    ensures RequestOk(w, rid)
  {
  }

  // ---------------------------------------------------------------- executions

  predicate StepObs(o: Obs, inc: string) {
    (o.Ran? && o.incident == inc)
    || (o.Logged? && o.incident == inc && (o.event.StepCompleted? || o.event.StepFailed? || o.event.ExecutionFinished?))
  }

  predicate AllSteps(obs: seq<Obs>, inc: string) {
    forall i | 0 <= i < |obs| :: StepObs(obs[i], inc)
  }

  lemma {:induction false} ActionsAreSteps(inc: string, actions: seq<SuggestedAction>, k: nat, env: Env)
    requires k <= |actions|
    ensures AllSteps(RunUpTo(inc, actions, k, env).obs, inc)
  {
    hide StepName;
    if k > 0 {
      ActionsAreSteps(inc, actions, k - 1, env);
      var p := RunUpTo(inc, actions, k - 1, env);
      assert AllSteps(RunAction(inc, k - 1, actions[k - 1], p.issued, env).obs, inc);
    }
  }

  lemma {:induction false} ReplayIgnoresSteps(trace: seq<Obs>, steps: seq<Obs>, inc: string, i: string)
    requires AllSteps(steps, inc)
    ensures Replay(trace + steps, i) == Replay(trace, i)
  {
    if steps == [] {
      assert trace + steps == trace;
    } else {
      var m := |steps| - 1;
      ReplayIgnoresSteps(trace, steps[..m], inc, i);
      ReplaySnoc(trace + steps[..m], steps[m], i);
      assert StepObs(steps[m], inc);
      assert trace + steps == trace + steps[..m] + [steps[m]];
    }
  }

  /** The steps of one execution, after it started. */
  function StepTrace(inc: string, actions: seq<SuggestedAction>, env: Env): seq<Obs> {
    var p := RunUpTo(inc, actions, |actions|, env);
    p.obs + if p.ok then [Logged(inc, ExecutionFinished(StepsOk(p.steps), |p.steps|))] else []
  }

  lemma StepTraceFits(inc: string, actions: seq<SuggestedAction>, env: Env)
    ensures RunTrace(inc, actions, env) ==
            [Logged(inc, ExecutionStarted(FullKey(inc, actions), ActionTexts(actions)))] + StepTrace(inc, actions, env)
    ensures AllSteps(StepTrace(inc, actions, env), inc)
    ensures Commands(StepTrace(inc, actions, env)) <= Script(actions)
  {
    StepCommands(inc, actions, env);
    hide StepName, StepsOk, Script, Commands, FullKey, ActionTexts, RunAction;
    var p := RunUpTo(inc, actions, |actions|, env);
    ActionsAreSteps(inc, actions, |actions|, env);
  }

  lemma StepCommands(inc: string, actions: seq<SuggestedAction>, env: Env)
    ensures Commands(StepTrace(inc, actions, env)) <= Script(actions)
  {
    hide Script, Commands, RunUpTo, StepsOk;
    var p := RunUpTo(inc, actions, |actions|, env);
    ExactLog(inc, actions, |actions|, env);
    assert actions[..|actions|] == actions;
    assert Commands(p.obs) <= Script(actions);
    if p.ok {
      var last := Logged(inc, ExecutionFinished(StepsOk(p.steps), |p.steps|));
      CommandsSnoc(p.obs, last);
    } else {
      assert StepTrace(inc, actions, env) == p.obs;
    }
  }

  lemma StepsKeep(w: World, after: World, steps: seq<Obs>, rid: string, report: TriageReport)
    requires Inv(w) && IssueOf(w.db.trace) == During(rid, report, 0)
    requires AllSteps(steps, report.incidentId) && Commands(steps) <= Script(report.suggestedActions)
    requires after.db.trace == w.db.trace + steps && after.db.incidents == w.db.incidents
    requires after.db.approvals == w.db.approvals && after.pending == w.pending
    ensures Inv(after)
  {
    hide RequestOk, LifeOf, IssueOf, Replay, Commands, Script;
    forall r ensures RequestOk(after, r) {
      assert forall i | 0 <= i < |steps| :: StepObs(steps[i], report.incidentId);
      LifeUntouched(w.db.trace, steps, r);
      Unaffected(w, after, r);
    }
    forall i ensures IncidentOk(after, i) {
      assert IncidentOk(w, i);
      ReplayIgnoresSteps(w.db.trace, steps, report.incidentId, i);
    }
    assert forall i | 0 <= i < |steps| :: StepObs(steps[i], report.incidentId);
    IssueFollowsScript(w.db.trace, steps, rid, report);
  }

  lemma ExecuteKeeps(w: World, report: TriageReport, env: Env, rid: string)
    requires Inv(w) && IssueOf(w.db.trace) == During(rid, report, 0)
    ensures Inv(w.(db := ExecuteSpec(w.db, report.incidentId, report, env).0))
  {
    hide Inv, RunTrace, StepTrace, ActionKey, ActionTexts, IssueOf, FullKey;
    var inc, actions := report.incidentId, report.suggestedActions;
    if Cleared(w.db, inc, report) {
      var e := ExecutionStarted(FullKey(inc, actions), ActionTexts(actions));
      var w1 := Log(w, inc, e);
      QuietLog(w, inc, e);
      IssueIgnoresRows(w.db.trace, Logged(inc, e));
      StepTraceFits(inc, actions, env);
      var after := w.(db := ExecuteSpec(w.db, inc, report, env).0);
      assert after.db.trace == w1.db.trace + StepTrace(inc, actions, env);
      StepsKeep(w1, after, StepTrace(inc, actions, env), rid, report);
    } else if report.validated && inc in w.db.incidents {
      if Done(w.db.executed, FullKey(inc, actions)) {
        QuietLog(w, inc, ExecutionSkipped("idempotent"));
      } else if w.db.incidents[inc] in {MITIGATED, RESOLVED} {
        QuietLog(w, inc, ExecutionSkipped("already_mitigated"));
      }
    }
  }

  lemma IssueIgnoresRows(trace: seq<Obs>, o: Obs)
    requires o.Logged?
    ensures IssueOf(trace + [o]) == IssueOf(trace)
  {
    IssueSnoc(trace, o);
  }

  // ---------------------------------------------------------------- decisions

  lemma CloseKeeps(w: World, rid: string, state: string)
    requires Inv(w) && !LifeOf(w.db.trace, rid).Awaiting?
    ensures Inv(Close(w, rid, state))
  {
    var after := Close(w, rid, state);
    forall r ensures RequestOk(after, r) {
      assert RequestOk(w, r);
    }
    forall i ensures IncidentOk(after, i) {
      assert IncidentOk(w, i);
    }
  }

  lemma ApproveKeeps(w: World, rid: string, user: string)
    requires Inv(w)
    ensures var (after, g) := OnApprove(w, rid, user);
            && Inv(after) && !g.ValueErrorRaised?
            && (g.state == Approved <==> Waiting(w.pending, rid, Pending))
            && (g.state == Approved ==> LifeOf(after.db.trace, rid).Granted?
                                        && after.db.approvals == w.db.approvals && PendingRow(w.db.approvals, rid))
  {
    hide IncidentOk, LifeOf, Replay, IssueOf;
    assert RequestOk(w, rid);
    if Waiting(w.pending, rid, Pending) {
      var id := w.pending[rid].incident;
      OthersKeep(w, OnApprove(w, rid, user).0, rid, id, ApprovalGranted(rid, user));
    }
  }

  lemma ExecuteApprovedKeeps(w: World, cfg: Config, rid: string, replies: nat -> Reply)
    requires Inv(w) && LifeOf(w.db.trace, rid).Granted?
    ensures Inv(ExecuteApproved(w, cfg, rid, replies).0)
  {
    hide RequestOk, IncidentOk, Replay, IssueOf, LifeOf, ExecuteSpec, Validate;
    if PendingRow(w.db.approvals, rid) {
      if !cfg.hasRunner {
        CloseKeeps(w, rid, "approved_no_executor");
      } else {
        var granted := LifeOf(w.db.trace, rid).report;
        GrantedRow(w, rid);
        StoredReportReadsBack(granted);
        if Validate(w.db.approvals[rid].report, None).Accepted? {
          var report := granted.(validated := true);
          CallKeeps(w, rid, report);
          var called := w.(db := Extend(w.db, [Called(rid, report)]));
          ExecuteKeeps(called, report, Env(replies, cfg.redact), rid);
        }
      }
    }
  }

  lemma GrantedRow(w: World, rid: string)
    requires RequestOk(w, rid) && LifeOf(w.db.trace, rid).Granted?
    ensures rid in w.db.approvals && w.db.approvals[rid].report == ReportToDict(LifeOf(w.db.trace, rid).report)
  {
  }

  lemma CallKeeps(w: World, rid: string, report: TriageReport)
    requires Inv(w) && LifeOf(w.db.trace, rid).Granted? && report == LifeOf(w.db.trace, rid).report.(validated := true)
    ensures var after := w.(db := Extend(w.db, [Called(rid, report)]));
            && Inv(after) && IssueOf(after.db.trace) == During(rid, report, 0)
            && LifeOf(after.db.trace, rid).Executed?
  {
    hide IncidentOk, Replay, IssueOf, LifeOf;
    var o := Called(rid, report);
    var after := w.(db := Extend(w.db, [o]));
    IssueSnoc(w.db.trace, o);
    LifeSnoc(w.db.trace, o, rid);
    forall r ensures RequestOk(after, r) {
      assert RequestOk(w, r);
      LifeSnoc(w.db.trace, o, r);
    }
    forall i ensures IncidentOk(after, i) {
      OtherReplay(w, after, i, o);
    }
  }

  lemma RejectKeeps(w: World, rid: string, user: string, reason: string)
    requires Inv(w)
    ensures var (after, g) := OnReject(w, rid, user, reason);
            && Inv(after) && !g.ValueErrorRaised? && g.state == State.Rejected && !LifeOf(after.db.trace, rid).Awaiting?
  {
    hide IncidentOk, LifeOf, Replay, IssueOf;
    assert RequestOk(w, rid);
    if Waiting(w.pending, rid, Pending) {
      var id := w.pending[rid].incident;
      var w1 := Log(w.(pending := Without(w.pending, rid)), id, ApprovalRejected(rid, user, reason));
      OthersKeep(w, w1, rid, id, ApprovalRejected(rid, user, reason));
      assert RequestOk(w1, rid);
      OthersKeep(w1, Log(w1, id, OverrideIndexed(rid, reason)), rid, id, OverrideIndexed(rid, reason));
    }
  }

  lemma AnswerKeeps(w: World, cfg: Config, kind: string, rid: string, user: string, reason: string, replies: nat -> Reply)
    requires Inv(w)
    ensures Inv(HandleAction(w, cfg, kind, rid, user, reason, replies).0)
  {
    hide Inv, LifeOf, OnApprove, OnReject, ExecuteApproved;
    if kind == "approve" {
      ApproveKeeps(w, rid, user);
      var (w1, g) := OnApprove(w, rid, user);
      if g.state == Approved {
        ExecuteApprovedKeeps(w1, cfg, rid, replies);
      }
    } else if kind == "reject" {
      RejectKeeps(w, rid, user, reason);
      CloseKeeps(OnReject(w, rid, user, reason).0, rid, "rejected");
    }
  }

  // ---------------------------------------------------------------- timeouts

  lemma EscalationKeeps(w: World, c: Chain, rid: string, after: World)
    requires Inv(w) && (Waiting(w.pending, rid, Pending) || Waiting(w.pending, rid, Escalated))
    requires Escalates(c, w.pending[rid]) && w.pending[rid].incident in w.db.incidents && after == OnTimeout(w, c, rid).0
    ensures Inv(after)
  {
    hide IncidentOk, LifeOf, Replay, IssueOf, Escalates;
    assert RequestOk(w, rid);
    var p := w.pending[rid];
    OthersKeep(w, after, rid, p.incident, ApprovalEscalated(rid, LastTarget(c, p), TargetFor(c, LastTarget(c, p))));
  }

  lemma AbandonmentKeeps(w: World, c: Chain, rid: string, after: World)
    requires Inv(w) && (Waiting(w.pending, rid, Pending) || Waiting(w.pending, rid, Escalated))
    requires !Escalates(c, w.pending[rid]) && w.pending[rid].incident in w.db.incidents && after == OnTimeout(w, c, rid).0
    ensures Inv(after) && LifeOf(after.db.trace, rid).Dropped?
  {
    hide IncidentOk, LifeOf, Replay, IssueOf;
    assert RequestOk(w, rid);
    var p := w.pending[rid];
    OthersKeep(w, after, rid, p.incident, ApprovalAbandoned(rid, p.targets, p.timeouts + 1));
  }

  lemma TimeoutKeeps(w: World, c: Chain, rid: string)
    requires Inv(w)
    ensures var (after, g) := OnTimeout(w, c, rid);
            && Inv(after) && !g.ValueErrorRaised?
            && (g.state == Abandoned ==> LifeOf(after.db.trace, rid).Dropped?)
  {
    hide IncidentOk, LifeOf, IssueOf, Escalates;
    assert RequestOk(w, rid);
    if Waiting(w.pending, rid, Pending) || Waiting(w.pending, rid, Escalated) {
      hide Inv, RequestOk;
      if Escalates(c, w.pending[rid]) {
        EscalationKeeps(w, c, rid, OnTimeout(w, c, rid).0);
      } else {
        AbandonmentKeeps(w, c, rid, OnTimeout(w, c, rid).0);
      }
    }
  }

  lemma {:induction false} TickKeeps(w: World, cfg: Config, listing: seq<string>, now: real, k: nat)
    requires Inv(w) && k <= |listing|
    ensures Inv(TickUpTo(w, cfg, listing, now, k).0) && !TickUpTo(w, cfg, listing, now, k).1
  {
    hide Inv, LifeOf, OnTimeout;
    if k > 0 {
      TickKeeps(w, cfg, listing, now, k - 1);
      var w1 := TickUpTo(w, cfg, listing, now, k - 1).0;
      TickOneKeeps(w1, cfg, listing[k - 1], now);
    }
  }

  lemma TickOneKeeps(w: World, cfg: Config, rid: string, now: real)
    requires Inv(w)
    ensures Inv(TickOne(w, cfg, rid, now).0) && !TickOne(w, cfg, rid, now).1
  {
    hide Inv, LifeOf, OnTimeout;
    if Due(w.db.approvals, cfg, rid, now) {
      TimeoutKeeps(w, cfg.chain, rid);
      var (after, g) := OnTimeout(w, cfg.chain, rid);
      if g.state == Abandoned {
        CloseKeeps(after, rid, "abandoned");
      }
    }
  }

  /** Every step keeps the invariant. */
  lemma ApplyKeeps(w: World, cfg: Config, op: Op)
    requires Inv(w) && Enabled(w, op)
    ensures Inv(Apply(w, cfg, op))
  {
    hide Inv, Register, HandleAction, TickUpTo, Lists;
    match op
    case CreateIncident(id) => CreateKeeps(w, cfg, id);
    case Move(id, target) => MoveKeeps(w, cfg, id, target);
    case Elsewhere(id, kind) => QuietLog(w, id, Other(kind));
    case Propose(rid, id, report, now) => ProposeKeeps(w, cfg, rid, id, report, now);
    case Answer(kind, rid, user, reason, replies) => AnswerKeeps(w, cfg, kind, rid, user, reason, replies);
    case Tick(listing, now) => TickKeeps(w, cfg, listing, now, |listing|);
  }

  lemma {:induction false} RunKeeps(cfg: Config, ops: seq<Op>)
    requires Legal(cfg, ops)
    ensures Inv(WorldAfter(cfg, ops))
  {
    hide Inv, Apply, Enabled;
    if ops == [] {
      InitiallyOk();
    } else {
      RunKeeps(cfg, ops[..|ops| - 1]);
      ApplyKeeps(WorldAfter(cfg, ops[..|ops| - 1]), cfg, ops[|ops| - 1]);
    }
  }
}
