// What holds of every run of the approval and execution path.

module Guarantees {
  import opened Prelude
  import opened ReportSchema
  import opened Database
  import opened Executor
  import opened ApprovalGate
  import opened ApprovalFlow
  import opened Machine
  import opened Runs

  // ---------------------------------------------------------------- lives only move forward

  /** The standings a request can still reach. */
  predicate CanBecome(a: Life, b: Life) {
    match a
    case Late(r) => b == a || b == Dropped
    case Granted(r) => b == a || b == Life.Executed(r)
    case Awaiting(r) => b in {a, Late(r), Granted(r), Life.Executed(r), TurnedDown, Dropped}
    case Unheard => true
    case Announced => !b.Unheard?
    case _ => b == a
  }

  lemma {:induction false} LifePrefix(trace: seq<Obs>, rid: string, k: nat)
    requires k <= |trace| && !LifeOf(trace, rid).Broken?
    ensures !LifeOf(trace[..k], rid).Broken? && CanBecome(LifeOf(trace[..k], rid), LifeOf(trace, rid))
  {
    if k == |trace| {
      assert trace[..k] == trace;
    } else {
      var m := |trace| - 1;
      assert trace == trace[..m] + [trace[m]] && trace[..m][..k] == trace[..k];
      LifeSnoc(trace[..m], trace[m], rid);
      LifePrefix(trace[..m], rid, k);
    }
  }

  /** An event about a request finds the request where the event needs it, and moves it on. */
  lemma EventFits(trace: seq<Obs>, rid: string, k: nat)
    requires k < |trace| && !LifeOf(trace, rid).Broken? && About(trace[k]) == Some(rid)
    ensures !LifeOf(trace[..k], rid).Broken?
    ensures LifeOf(trace[..k + 1], rid) == LiveOn(LifeOf(trace[..k], rid), trace[k])
    ensures !LifeOf(trace[..k + 1], rid).Broken?
    ensures CanBecome(LifeOf(trace[..k + 1], rid), LifeOf(trace, rid))
  {
    LifePrefix(trace, rid, k);
    LifePrefix(trace, rid, k + 1);
    assert trace[..k + 1] == trace[..k] + [trace[k]];
    LifeSnoc(trace[..k], trace[k], rid);
  }

  lemma EventsInOrder(trace: seq<Obs>, rid: string, i: nat, j: nat)
    requires i < j < |trace| && !LifeOf(trace, rid).Broken?
    requires About(trace[i]) == Some(rid) && About(trace[j]) == Some(rid)
    ensures CanBecome(LiveOn(LifeOf(trace[..i], rid), trace[i]), LifeOf(trace[..j], rid))
    ensures !LiveOn(LifeOf(trace[..j], rid), trace[j]).Broken? && !LiveOn(LifeOf(trace[..i], rid), trace[i]).Broken?
  {
    EventFits(trace, rid, j);
    EventFits(trace, rid, i);
    LifePrefix(trace[..j], rid, i + 1);
    assert trace[..j][..i + 1] == trace[..i + 1];
  }

  // ---------------------------------------------------------------- decisions

  predicate GrantOf(o: Obs, rid: string) { o.Logged? && o.event.ApprovalGranted? && o.event.rid == rid }
  predicate RejectionOf(o: Obs, rid: string) { o.Logged? && o.event.ApprovalRejected? && o.event.rid == rid }
  predicate AbandonmentOf(o: Obs, rid: string) { o.Logged? && o.event.ApprovalAbandoned? && o.event.rid == rid }
  predicate EscalationOf(o: Obs, rid: string) { o.Logged? && o.event.ApprovalEscalated? && o.event.rid == rid }
  predicate CallOf(o: Obs, rid: string) { o.Called? && o.rid == rid }
  predicate RegistrationOf(o: Obs, rid: string) { o.Registered? && o.rid == rid }

  predicate DecisionOn(o: Obs, rid: string) {
    GrantOf(o, rid) || RejectionOf(o, rid) || AbandonmentOf(o, rid)
  }

  lemma NeverBroken(cfg: Config, ops: seq<Op>, rid: string)
    requires Legal(cfg, ops)
    ensures !LifeOf(WorldAfter(cfg, ops).db.trace, rid).Broken?
  {
    RunKeeps(cfg, ops);
    assert RequestOk(WorldAfter(cfg, ops), rid);
  }

  lemma OneDecisionPerLife(trace: seq<Obs>, rid: string, i: nat, j: nat)
    requires i < j < |trace| && !LifeOf(trace, rid).Broken? && DecisionOn(trace[i], rid)
    ensures !DecisionOn(trace[j], rid)
  {
    if DecisionOn(trace[j], rid) {
      hide LifeOf;
      EventsInOrder(trace, rid, i, j);
    }
  }

  lemma OneCallPerLife(trace: seq<Obs>, rid: string, i: nat, j: nat)
    requires i < j < |trace| && !LifeOf(trace, rid).Broken?
    ensures CallOf(trace[i], rid) ==> !CallOf(trace[j], rid) && !NeverToRun(trace[j], rid)
    ensures CallOf(trace[j], rid) ==> !NeverToRun(trace[i], rid)
  {
    hide LifeOf;
    if About(trace[i]) == Some(rid) && About(trace[j]) == Some(rid) {
      EventsInOrder(trace, rid, i, j);
    }
  }

  predicate NeverToRun(o: Obs, rid: string) {
    RejectionOf(o, rid) || EscalationOf(o, rid) || AbandonmentOf(o, rid)
  }

  /** A request is granted, rejected or abandoned at most once, and by at most one of these. */
  lemma AtMostOneDecision(cfg: Config, ops: seq<Op>, rid: string, i: nat, j: nat)
    requires Legal(cfg, ops)
    requires i < |WorldAfter(cfg, ops).db.trace| && DecisionOn(WorldAfter(cfg, ops).db.trace[i], rid)
    requires j < |WorldAfter(cfg, ops).db.trace| && DecisionOn(WorldAfter(cfg, ops).db.trace[j], rid)
    ensures i == j
  {
    hide *;
    NeverBroken(cfg, ops, rid);
    if i < j { OneDecisionPerLife(WorldAfter(cfg, ops).db.trace, rid, i, j); }
    if j < i { OneDecisionPerLife(WorldAfter(cfg, ops).db.trace, rid, j, i); }
  }

  /** No request causes two executions. */
  lemma CalledAtMostOnce(cfg: Config, ops: seq<Op>, rid: string, i: nat, j: nat)
    requires Legal(cfg, ops)
    requires i < |WorldAfter(cfg, ops).db.trace| && CallOf(WorldAfter(cfg, ops).db.trace[i], rid)
    requires j < |WorldAfter(cfg, ops).db.trace| && CallOf(WorldAfter(cfg, ops).db.trace[j], rid)
    ensures i == j
  {
    hide *;
    NeverBroken(cfg, ops, rid);
    if i < j { OneCallPerLife(WorldAfter(cfg, ops).db.trace, rid, i, j); }
    if j < i { OneCallPerLife(WorldAfter(cfg, ops).db.trace, rid, j, i); }
  }

  /** A request that is ever rejected, escalated or abandoned never causes an execution, before or after. */
  lemma OnlyGrantedRequestsAreCalled(cfg: Config, ops: seq<Op>, rid: string, i: nat, j: nat)
    requires Legal(cfg, ops)
    requires i < |WorldAfter(cfg, ops).db.trace| && CallOf(WorldAfter(cfg, ops).db.trace[i], rid)
    requires j < |WorldAfter(cfg, ops).db.trace|
    ensures !NeverToRun(WorldAfter(cfg, ops).db.trace[j], rid)
  {
    NeverBroken(cfg, ops, rid);
    var trace := WorldAfter(cfg, ops).db.trace;
    hide LifeOf, WorldAfter, Legal;
    if i < j { OneCallPerLife(trace, rid, i, j); }
    if j < i { OneCallPerLife(trace, rid, j, i); }
  }

  // ---------------------------------------------------------------- where a call comes from

  lemma {:induction false} AwaitingWasRegistered(trace: seq<Obs>, rid: string) returns (r: nat)
    requires LifeOf(trace, rid).Awaiting?
    ensures r < |trace| && RegistrationOf(trace[r], rid) && trace[r].report == LifeOf(trace, rid).report
  {
    var m := |trace| - 1;
    assert trace == trace[..m] + [trace[m]];
    LifeSnoc(trace[..m], trace[m], rid);
    if About(trace[m]) == Some(rid) {
      r := m;
    } else {
      r := AwaitingWasRegistered(trace[..m], rid);
    }
  }

  lemma {:induction false} GrantedWasRegistered(trace: seq<Obs>, rid: string) returns (r: nat, g: nat)
    requires LifeOf(trace, rid).Granted?
    ensures r < g < |trace| && RegistrationOf(trace[r], rid) && trace[r].report == LifeOf(trace, rid).report
    ensures GrantOf(trace[g], rid)
  {
    var m := |trace| - 1;
    assert trace == trace[..m] + [trace[m]];
    LifeSnoc(trace[..m], trace[m], rid);
    if About(trace[m]) == Some(rid) {
      g := m;
      r := AwaitingWasRegistered(trace[..m], rid);
    } else {
      r, g := GrantedWasRegistered(trace[..m], rid);
    }
  }

  predicate NoCalls(obs: seq<Obs>) {
    forall i | 0 <= i < |obs| :: !obs[i].Called?
  }

  /** What the state of issuing says about the commands since a call. */
  predicate Issued(now: Issue, since: seq<Obs>) {
    now.During? && NoCalls(since) && now.issued <= |Script(now.report.suggestedActions)|
    && Commands(since) == Script(now.report.suggestedActions)[..now.issued]
  }

  lemma IssuedSnoc(was: Issue, now: Issue, since: seq<Obs>, o: Obs, more: seq<Obs>)
    requires Issued(was, since) && now == IssueOn(was, o) && now.During? && !o.Called?
    requires Commands(more) == Commands(since) + CommandOf(o) && (NoCalls(since) ==> NoCalls(more))
    ensures Issued(now, more) && now.rid == was.rid && now.report == was.report
  {
    hide Commands, NoCalls, Script;
    if o.Ran? {
      TakeSnoc(Script(was.report.suggestedActions), was.issued);
    }
  }

  lemma LastIssue(trace: seq<Obs>)
    requires IssueOf(trace).During?
    ensures trace != []
    ensures var m := |trace| - 1;
            var was, o := IssueOf(trace[..m]), trace[m];
            && IssueOf(trace) == IssueOn(was, o)
            && (if o.Called? then IssueOf(trace) == During(o.rid, o.report, 0) else was.During?)
  {
  }

  lemma NothingSince(rid: string, report: TriageReport)
    ensures Issued(During(rid, report, 0), [])
  {
  }

  lemma {:induction false} CommandsSinceCall(trace: seq<Obs>) returns (c: nat)
    requires IssueOf(trace).During?
    ensures c < |trace| && trace[c] == Called(IssueOf(trace).rid, IssueOf(trace).report)
    ensures Issued(IssueOf(trace), trace[c + 1..])
  {
    hide *;
    LastIssue(trace);
    var m := |trace| - 1;
    if trace[m].Called? {
      c := m;
      NothingSince(trace[m].rid, trace[m].report);
      assert trace[c + 1..] == [];
    } else {
      c := CommandsSinceCall(trace[..m]);
      OneMoreSince(trace, c);
      IssuedSnoc(IssueOf(trace[..m]), IssueOf(trace), trace[..m][c + 1..], trace[m], trace[c + 1..]);
    }
  }

  lemma OneMoreSince(trace: seq<Obs>, c: nat)
    requires c < |trace| - 1
    ensures var m := |trace| - 1;
            && Commands(trace[c + 1..]) == Commands(trace[..m][c + 1..]) + CommandOf(trace[m])
            && (NoCalls(trace[..m][c + 1..]) && !trace[m].Called? ==> NoCalls(trace[c + 1..]))
  {
    assert trace[c + 1..][..|trace| - c - 2] == trace[..|trace| - 1][c + 1..];
  }

  lemma {:induction false} NeverStray(trace: seq<Obs>, k: nat)
    requires k <= |trace| && !IssueOf(trace).Stray?
    ensures !IssueOf(trace[..k]).Stray?
  {
    if k == |trace| {
      assert trace[..k] == trace;
    } else {
      var m := |trace| - 1;
      assert trace == trace[..m] + [trace[m]] && trace[..m][..k] == trace[..k];
      IssueSnoc(trace[..m], trace[m]);
      NeverStray(trace[..m], k);
    }
  }

  lemma CommandHasItsCall(trace: seq<Obs>, i: nat) returns (c: nat)
    requires i < |trace| && trace[i].Ran? && !IssueOf(trace).Stray?
    ensures c < i && trace[c].Called? && NoCalls(trace[c + 1..i])
    ensures trace[i].incident == trace[c].report.incidentId
    ensures Commands(trace[c + 1..i]) + [trace[i].command] <= Script(trace[c].report.suggestedActions)
  {
    hide LifeOf, Script, IssueOf, Commands, NoCalls;
    NeverStray(trace, i);
    NeverStray(trace, i + 1);
    assert trace[..i + 1] == trace[..i] + [trace[i]];
    IssueSnoc(trace[..i], trace[i]);
    c := CommandsSinceCall(trace[..i]);
    assert trace[..i][c + 1..] == trace[c + 1..i];
    TakeSnoc(Script(trace[c].report.suggestedActions), IssueOf(trace[..i]).issued);
  }

  lemma CallWasApproved(trace: seq<Obs>, c: nat) returns (r: nat, g: nat)
    requires c < |trace| && trace[c].Called? && !LifeOf(trace, trace[c].rid).Broken?
    ensures r < g < c && RegistrationOf(trace[r], trace[c].rid) && GrantOf(trace[g], trace[c].rid)
    ensures trace[c].report == trace[r].report.(validated := true)
  {
    hide LifeOf;
    EventFits(trace, trace[c].rid, c);
    r, g := GrantedWasRegistered(trace[..c], trace[c].rid);
  }

  lemma NeverStrayed(cfg: Config, ops: seq<Op>)
    requires Legal(cfg, ops)
    ensures !IssueOf(WorldAfter(cfg, ops).db.trace).Stray?
  {
    RunKeeps(cfg, ops);
  }

  /**
   * Every command ever issued belongs to the execution of a request that was registered, then
   * approved, then called with exactly the registered report; and it is the next command of that
   * report's script.
   */
  lemma EveryCommandWasApproved(cfg: Config, ops: seq<Op>, i: nat)
    returns (rid: string, r: nat, g: nat, c: nat)
    requires Legal(cfg, ops)
    requires i < |WorldAfter(cfg, ops).db.trace| && WorldAfter(cfg, ops).db.trace[i].Ran?
    ensures var trace := WorldAfter(cfg, ops).db.trace;
            && r < g < c < i
            && RegistrationOf(trace[r], rid) && GrantOf(trace[g], rid) && CallOf(trace[c], rid)
            && trace[c].report == trace[r].report.(validated := true)
            && NoCalls(trace[c + 1..i])
            && trace[i].incident == trace[c].report.incidentId
            && Commands(trace[c + 1..i]) + [trace[i].command] <= Script(trace[c].report.suggestedActions)
  {
    hide WorldAfter, Legal, IssueOf, LifeOf, Commands, Script, NoCalls;
    var trace := WorldAfter(cfg, ops).db.trace;
    NeverStrayed(cfg, ops);
    c := CommandHasItsCall(trace, i);
    rid := trace[c].rid;
    NeverBroken(cfg, ops, rid);
    r, g := CallWasApproved(trace, c);
  }

  // ---------------------------------------------------------------- after a decision, nothing moves

  lemma {:induction false} DecidedLife(trace: seq<Obs>, rid: string, k: nat)
    requires k < |trace| && !LifeOf(trace, rid).Broken?
    requires DecisionOn(trace[k], rid)
    ensures var l := LifeOf(trace, rid); l.Granted? || l.Executed? || l.TurnedDown? || l.Dropped?
  {
    EventFits(trace, rid, k);
  }

  /** Once decided, callbacks and timeouts change neither the gate nor the timeline. */
  lemma DecidedIsQuiet(cfg: Config, ops: seq<Op>, rid: string, k: nat, user: string, reason: string)
    requires Legal(cfg, ops)
    requires k < |WorldAfter(cfg, ops).db.trace| && DecisionOn(WorldAfter(cfg, ops).db.trace[k], rid)
    ensures var w := WorldAfter(cfg, ops);
            && OnApprove(w, rid, user).0 == w && OnReject(w, rid, user, reason).0 == w
            && OnTimeout(w, cfg.chain, rid).0 == w
  {
    RunKeeps(cfg, ops);
    var w := WorldAfter(cfg, ops);
    assert RequestOk(w, rid);
    DecidedLife(w.db.trace, rid, k);
  }

  lemma EscalatedLife(trace: seq<Obs>, rid: string, k: nat)
    requires k < |trace| && !LifeOf(trace, rid).Broken? && EscalationOf(trace[k], rid)
    ensures LifeOf(trace, rid).Late? || LifeOf(trace, rid).Dropped?
  {
    hide LifeOf;
    EventFits(trace, rid, k);
  }

  lemma UnheldIsUnanswerable(w: World, cfg: Config, kind: string, rid: string, user: string, reason: string,
                             replies: nat -> Reply)
    requires !Waiting(w.pending, rid, Pending)
    ensures HandleAction(w, cfg, kind, rid, user, reason, replies).0 == if kind == "reject" then Close(w, rid, "rejected") else w
  {
    hide ExecuteApproved;
  }

  /** An escalated request can no longer be answered: a rejection closes its row and nothing else. */
  lemma EscalatedCannotBeAnswered(cfg: Config, ops: seq<Op>, rid: string, k: nat, kind: string, user: string,
                                  reason: string, replies: nat -> Reply)
    requires Legal(cfg, ops)
    requires k < |WorldAfter(cfg, ops).db.trace| && EscalationOf(WorldAfter(cfg, ops).db.trace[k], rid)
    ensures var w := WorldAfter(cfg, ops);
            HandleAction(w, cfg, kind, rid, user, reason, replies).0 == if kind == "reject" then Close(w, rid, "rejected") else w
  {
    var w := WorldAfter(cfg, ops);
    RunKeeps(cfg, ops);
    assert RequestOk(w, rid);
    hide LifeOf, WorldAfter, Legal, HandleAction;
    EscalatedLife(w.db.trace, rid, k);
    UnheldIsUnanswerable(w, cfg, kind, rid, user, reason, replies);
  }

  // ---------------------------------------------------------------- approval leads to execution

  lemma GrantIsFound(db: Db, id: string, e: Event, more: seq<Obs>)
    requires e.ApprovalGranted?
    ensures HasGrant(db.trace + [Logged(id, e)] + more, id)
  {
    assert GrantedOn((db.trace + [Logged(id, e)] + more)[|db.trace|], id);
  }

  /**
   * An approved request always finds its report: approving a request the gate holds as pending logs
   * the grant and calls the executor with the report it was registered with, and raises nothing if
   * that report is well formed and names the request's incident.
   */
  lemma ApprovalReachesTheExecutor(cfg: Config, ops: seq<Op>, rid: string, user: string, reason: string, replies: nat -> Reply)
    returns (r: nat)
    requires Legal(cfg, ops) && cfg.hasRunner && Waiting(WorldAfter(cfg, ops).pending, rid, Pending)
    ensures var w := WorldAfter(cfg, ops);
            && r < |w.db.trace| && RegistrationOf(w.db.trace[r], rid)
            && var report := w.db.trace[r].report;
               var id := w.pending[rid].incident;
               var (after, result) := HandleAction(w, cfg, "approve", rid, user, reason, replies);
               && PendingRow(w.db.approvals, rid)
               && w.db.trace + [Logged(id, ApprovalGranted(rid, user))] <= after.db.trace
               && (WellFormed(report) ==>
                     w.db.trace + [Logged(id, ApprovalGranted(rid, user)), Called(rid, report.(validated := true))]
                     <= after.db.trace)
               && (!WellFormed(report) ==> result == RaisedError)
               && (WellFormed(report) && report.incidentId == id ==> result == Answered(Approved, Some(rid)))
               && PendingRow(after.db.approvals, rid)
  {
    hide LifeOf, Validate, WellFormed, ReportToDict, RunTrace, RunUpTo, Finished, Started, FullKey;
    RunKeeps(cfg, ops);
    var w := WorldAfter(cfg, ops);
    assert RequestOk(w, rid);
    r := AwaitingWasRegistered(w.db.trace, rid);
    var report := w.db.trace[r].report;
    var id := w.pending[rid].incident;
    StoredReportReadsBack(report);
    if WellFormed(report) {
      var granted := ApprovalGranted(rid, user);
      var report' := report.(validated := true);
      GrantIsFound(w.db, id, granted, [Called(rid, report')]);
      var called := Extend(OnApprove(w, rid, user).0.db, [Called(rid, report')]);
      assert called.trace == w.db.trace + [Logged(id, granted)] + [Called(rid, report')];
      ExecuteOnlyAdds(called, report'.incidentId, report', Env(replies, cfg.redact));
    }
  }

  /** The database when the executor is called for an approved request. */
  function AtTheCall(w: World, rid: string, user: string, report: TriageReport): Db
    requires rid in w.pending
  {
    Extend(w.db, [Logged(w.pending[rid].incident, ApprovalGranted(rid, user)), Called(rid, report)])
  }

  lemma ApprovalIsAnExecution(w: World, cfg: Config, rid: string, user: string, reason: string, replies: nat -> Reply,
                              report: TriageReport)
    requires cfg.hasRunner && Waiting(w.pending, rid, Pending) && w.pending[rid].incident in w.db.incidents
    requires PendingRow(w.db.approvals, rid) && w.db.approvals[rid].report == ReportToDict(report) && WellFormed(report)
    ensures var called := report.(validated := true);
            HandleAction(w, cfg, "approve", rid, user, reason, replies).0.db
            == ExecuteSpec(AtTheCall(w, rid, user, called), called.incidentId, called, Env(replies, cfg.redact)).0
  {
    StoredReportReadsBack(report);
    hide ExecuteSpec, Validate, WellFormed, ReportToDict;
    var called := report.(validated := true);
    var granted := OnApprove(w, rid, user).0;
    ExtendTwice(w.db, [Logged(w.pending[rid].incident, ApprovalGranted(rid, user))], [Called(rid, called)]);
    assert Extend(granted.db, [Called(rid, called)]) == AtTheCall(w, rid, user, called);
  }

  /**
   * From the button to the commands: approving a pending request runs the report it was registered with, up to
   * its first failing command, exactly when the report's key is not done and its incident is not mitigated or
   * resolved; otherwise the approved script is skipped unrun.
   */
  lemma ApprovedScriptRunsIff(cfg: Config, ops: seq<Op>, rid: string, user: string, reason: string, replies: nat -> Reply)
    returns (r: nat)
    requires Legal(cfg, ops) && cfg.hasRunner && Waiting(WorldAfter(cfg, ops).pending, rid, Pending)
    ensures var w := WorldAfter(cfg, ops);
            && r < |w.db.trace| && RegistrationOf(w.db.trace[r], rid)
            && w.pending[rid].incident in w.db.incidents
            && var report, id := w.db.trace[r].report, w.pending[rid].incident;
               var script, key := Script(report.suggestedActions), FullKey(id, report.suggestedActions);
               var after := HandleAction(w, cfg, "approve", rid, user, reason, replies).0.db;
               WellFormed(report) && report.incidentId == id ==>
                 && |w.db.trace| + 2 <= |after.trace|
                 && var commands := Commands(after.trace[|w.db.trace| + 2..]);
                    && (commands != [] <==> script != [] && !Done(w.db.executed, key) && Active(w.db.incidents[id]))
                    && (!Done(w.db.executed, key) && Active(w.db.incidents[id]) ==>
                          RunsUpToFailure(commands, script, replies) && (Done(after.executed, key) <==> Succeeds(commands, script, replies)))
                    && (Done(w.db.executed, key) || !Active(w.db.incidents[id]) ==> after.executed == w.db.executed)
  {
    hide Script, Commands, FullKey, ExecuteSpec, HandleAction, Inv, WorldAfter, Legal, LifeOf, WellFormed, ReportToDict, Done,
         RunsUpToFailure, Succeeds;
    RunKeeps(cfg, ops);
    var w := WorldAfter(cfg, ops);
    r := HeldIsRegistered(w, rid);
    var report, id := w.db.trace[r].report, w.pending[rid].incident;
    if WellFormed(report) && report.incidentId == id {
      ApprovalIsAnExecution(w, cfg, rid, user, reason, replies, report);
      CalledScriptRuns(w, rid, user, report, Env(replies, cfg.redact));
    }
  }

  lemma HeldIsRegistered(w: World, rid: string) returns (r: nat)
    requires Inv(w) && Waiting(w.pending, rid, Pending)
    ensures r < |w.db.trace| && RegistrationOf(w.db.trace[r], rid)
    ensures w.pending[rid].incident in w.db.incidents && PendingRow(w.db.approvals, rid)
    ensures w.db.approvals[rid].report == ReportToDict(w.db.trace[r].report)
  {
    assert RequestOk(w, rid);
    hide LifeOf, ReportToDict;
    r := AwaitingWasRegistered(w.db.trace, rid);
  }

  predicate Active(status: string) {
    status != MITIGATED && status != RESOLVED
  }

  lemma CalledScriptRuns(w: World, rid: string, user: string, report: TriageReport, env: Env)
    requires rid in w.pending && w.pending[rid].incident == report.incidentId && report.incidentId in w.db.incidents
    ensures var id, called := report.incidentId, report.(validated := true);
            var script, key := Script(report.suggestedActions), FullKey(id, report.suggestedActions);
            var after := ExecuteSpec(AtTheCall(w, rid, user, called), id, called, env).0;
            && |w.db.trace| + 2 <= |after.trace|
            && var commands := Commands(after.trace[|w.db.trace| + 2..]);
               && (commands != [] <==> script != [] && !Done(w.db.executed, key) && Active(w.db.incidents[id]))
               && (!Done(w.db.executed, key) && Active(w.db.incidents[id]) ==>
                     RunsUpToFailure(commands, script, env.replies)
                     && (Done(after.executed, key) <==> Succeeds(commands, script, env.replies)))
               && (Done(w.db.executed, key) || !Active(w.db.incidents[id]) ==> after.executed == w.db.executed)
  {
    var id, called := report.incidentId, report.(validated := true);
    var db := AtTheCall(w, rid, user, called);
    GrantIsFound(w.db, id, ApprovalGranted(rid, user), [Called(rid, called)]);
    assert db.trace == w.db.trace + [Logged(id, ApprovalGranted(rid, user))] + [Called(rid, called)];
    hide ExecuteSpec, Script, Commands, FullKey, AnyMutating, HasGrant, RunsUpToFailure, Succeeds, Done;
    if Cleared(db, id, called) { ClearedRuns(db, id, called, env); } else { UnclearedSkips(db, id, called, env); }
  }

  lemma ClearedRuns(db: Db, id: string, report: TriageReport, env: Env)
    requires Cleared(db, id, report)
    ensures var script, key := Script(report.suggestedActions), FullKey(id, report.suggestedActions);
            var after := ExecuteSpec(db, id, report, env).0;
            && |db.trace| <= |after.trace|
            && var commands := Commands(after.trace[|db.trace|..]);
               && (commands != [] <==> script != []) && RunsUpToFailure(commands, script, env.replies)
               && (Done(after.executed, key) <==> Succeeds(commands, script, env.replies))
  {
    hide ExecuteSpec, Script, Commands, FullKey, Cleared, StepEvents, EventsFor, StepsFollow, Done;
    ExecuteIssuesTheScript(db, id, report, env);
  }

  lemma UnclearedSkips(db: Db, id: string, report: TriageReport, env: Env)
    requires !Cleared(db, id, report)
    ensures var after := ExecuteSpec(db, id, report, env).0;
            |db.trace| <= |after.trace| && Commands(after.trace[|db.trace|..]) == [] && after.executed == db.executed
  {
    hide ExecuteSpec, Script, Commands, FullKey, Cleared, StepEvents, EventsFor;
    ExecuteIssuesTheScript(db, id, report, env);
  }

  lemma ExecuteOnlyAdds(db: Db, id: string, report: TriageReport, env: Env)
    ensures db.trace <= ExecuteSpec(db, id, report, env).0.trace
    ensures ExecuteSpec(db, id, report, env).0.approvals == db.approvals
  {
  }

  // ---------------------------------------------------------------- statuses

  /** The current status is the replay of the status changes, came in order, and executions respect it. */
  lemma StatusIsItsHistory(cfg: Config, ops: seq<Op>, id: string)
    requires Legal(cfg, ops) && id in WorldAfter(cfg, ops).db.incidents
    ensures var w := WorldAfter(cfg, ops);
            var trace := w.db.trace;
            && Replay(trace, id) == Some(w.db.incidents[id]) && CameThrough(trace, id, Came(w.db.incidents[id]))
            && (forall i, j | 0 <= i < j < |trace| :: MovesTo(trace[i], id, {MITIGATED, RESOLVED}) ==> !Starts(trace[j], id))
            && (forall j | 0 <= j < |trace| :: trace[j].Logged? && trace[j].incident == id && trace[j].event.StatusChanged? ==>
                  && Replay(trace[..j], id) == Some(trace[j].event.source)
                  && CanTransition(trace[j].event.source, trace[j].event.target))
  {
    RunKeeps(cfg, ops);
    assert IncidentOk(WorldAfter(cfg, ops), id);
    ReplayableHistory(WorldAfter(cfg, ops).db.trace, id);
    hide CameThrough, WorldAfter, Legal, Replay;
    StatusesInOrder(WorldAfter(cfg, ops).db.trace, id);
  }

  // ---------------------------------------------------------------- unanswered requests end

  predicate Callback(op: Op, rid: string) {
    op.Answer? && op.rid == rid
  }

  /** Ticks that find the request still listed and old enough. */
  function DueTicks(createdAt: real, cfg: Config, ops: seq<Op>): nat {
    if ops == [] then 0
    else
      var op := ops[|ops| - 1];
      DueTicks(createdAt, cfg, ops[..|ops| - 1]) + if op.Tick? && op.now - createdAt >= cfg.timeoutSeconds then 1 else 0
  }

  function Later(cfg: Config, w: World, ops: seq<Op>): World {
    if ops == [] then w else Apply(Later(cfg, w, ops[..|ops| - 1]), cfg, ops[|ops| - 1])
  }

  ghost predicate LegalFrom(cfg: Config, w: World, ops: seq<Op>) {
    ops == [] || (LegalFrom(cfg, w, ops[..|ops| - 1]) && Enabled(Later(cfg, w, ops[..|ops| - 1]), ops[|ops| - 1]))
  }

  /** The gate entry and store row of a request that has seen n due ticks and no callback. */
  ghost predicate TickedTimes(w: World, c: Chain, rid: string, p: PendingApproval, row: ApprovalRow, n: nat) {
    && rid in w.db.approvals
    && match AfterTimeouts(c, p, n)
       case Some(q) => rid in w.pending && w.pending[rid] == q && w.db.approvals[rid] == row
       case None => rid !in w.pending && w.db.approvals[rid] == row.(state := "abandoned")
  }

  lemma TimeoutOfOther(w: World, c: Chain, cfg: Config, rid: string, other: string, now: real)
    requires other != rid
    ensures SameStanding(w, TickOne(w, cfg, other, now).0, rid)
  {
  }

  lemma {:induction false} TickReaches(w: World, cfg: Config, rid: string, p: PendingApproval, row: ApprovalRow, n: nat,
                                       listing: seq<string>, now: real, k: nat)
    requires Inv(w) && k <= |listing| && TickedTimes(w, cfg.chain, rid, p, row, n)
    requires row.state == PENDING && Lists(w.db.approvals, listing)
    ensures var after := TickUpTo(w, cfg, listing, now, k).0;
            var due := rid in listing[..k] && now - row.createdAt >= cfg.timeoutSeconds;
            TickedTimes(after, cfg.chain, rid, p, row, if due then n + 1 else n)
  {
    hide LifeOf, RequestOk, IncidentOk, Inv, OnTimeout, TickOne;
    if k > 0 {
      TickReaches(w, cfg, rid, p, row, n, listing, now, k - 1);
      TickKeeps(w, cfg, listing, now, k - 1);
      var w1 := TickUpTo(w, cfg, listing, now, k - 1).0;
      assert listing[..k] == listing[..k - 1] + [listing[k - 1]];
      if listing[k - 1] == rid {
        assert rid !in listing[..k - 1];
        assert rid in listing && PendingRow(w.db.approvals, rid);
        OwnTimeout(w1, cfg, rid, p, row, n, now);
      } else {
        TimeoutOfOther(w1, cfg.chain, cfg, rid, listing[k - 1], now);
      }
    }
  }

  lemma OwnTimeout(w: World, cfg: Config, rid: string, p: PendingApproval, row: ApprovalRow, n: nat, now: real)
    requires Inv(w) && TickedTimes(w, cfg.chain, rid, p, row, n) && AfterTimeouts(cfg.chain, p, n).Some?
    ensures var due := now - row.createdAt >= cfg.timeoutSeconds;
            TickedTimes(TickOne(w, cfg, rid, now).0, cfg.chain, rid, p, row, if due then n + 1 else n)
  {
    hide LifeOf, IncidentOk;
    assert RequestOk(w, rid);
  }

  lemma AnswerLeavesOthers(w: World, cfg: Config, kind: string, rid: string, user: string, reason: string,
                           replies: nat -> Reply, other: string)
    requires other != rid
    ensures SameStanding(w, HandleAction(w, cfg, kind, rid, user, reason, replies).0, other)
  {
    hide ExecuteApproved;
    ExecutionLeavesOthers(OnApprove(w, rid, user).0, cfg, rid, replies, other);
  }

  lemma ExecutionLeavesOthers(w: World, cfg: Config, rid: string, replies: nat -> Reply, other: string)
    requires other != rid
    ensures SameStanding(w, ExecuteApproved(w, cfg, rid, replies).0, other)
  {
    hide ExecuteSpec, Validate;
    if PendingRow(w.db.approvals, rid) {
      var verdict := Validate(w.db.approvals[rid].report, None);
      if verdict.Accepted? {
        ExecuteOnlyAdds(Extend(w.db, [Called(rid, verdict.report)]), verdict.report.incidentId, verdict.report,
                        Env(replies, cfg.redact));
      }
    }
  }

  /** The gate entry and the store row of a request are the same in both worlds. */
  ghost predicate SameStanding(w: World, after: World, rid: string) {
    && (rid in after.pending <==> rid in w.pending) && (rid in w.pending ==> after.pending[rid] == w.pending[rid])
    && (rid in after.db.approvals <==> rid in w.db.approvals)
    && (rid in w.db.approvals ==> after.db.approvals[rid] == w.db.approvals[rid])
  }

  lemma ProposeLeavesOthers(w: World, cfg: Config, rid: string, id: string, report: TriageReport, now: real, other: string)
    requires other != rid
    ensures SameStanding(w, Register(w, cfg, rid, id, report, now).0, other)
  {
  }

  lemma OpReaches(w: World, cfg: Config, op: Op, rid: string, p: PendingApproval, row: ApprovalRow, n: nat)
    requires Inv(w) && Enabled(w, op) && !Callback(op, rid)
    requires row.state == PENDING && TickedTimes(w, cfg.chain, rid, p, row, n)
    ensures TickedTimes(Apply(w, cfg, op), cfg.chain, rid, p, row,
                        if op.Tick? && op.now - row.createdAt >= cfg.timeoutSeconds then n + 1 else n)
  {
    hide Inv, Register, HandleAction, OnTimeout;
    match op
    case Tick(listing, now) =>
      TickReaches(w, cfg, rid, p, row, n, listing, now, |listing|);
      assert listing[..|listing|] == listing;
      if AfterTimeouts(cfg.chain, p, n).Some? {
        assert PendingRow(w.db.approvals, rid);
      }
    case Propose(other, id, report, now) => ProposeLeavesOthers(w, cfg, other, id, report, now, rid);
    case Answer(kind, other, user, reason, replies) =>
      AnswerLeavesOthers(w, cfg, kind, other, user, reason, replies, rid);
    case _ =>
  }

  lemma {:induction false} RunReaches(w: World, cfg: Config, ops: seq<Op>, rid: string, p: PendingApproval, row: ApprovalRow)
    requires Inv(w) && LegalFrom(cfg, w, ops) && forall i | 0 <= i < |ops| :: !Callback(ops[i], rid)
    requires row.state == PENDING && TickedTimes(w, cfg.chain, rid, p, row, 0)
    ensures Inv(Later(cfg, w, ops))
    ensures TickedTimes(Later(cfg, w, ops), cfg.chain, rid, p, row, DueTicks(row.createdAt, cfg, ops))
  {
    hide Inv, TickedTimes, Apply, Enabled;
    if ops != [] {
      var front, op := ops[..|ops| - 1], ops[|ops| - 1];
      RunReaches(w, cfg, front, rid, p, row);
      ApplyKeeps(Later(cfg, w, front), cfg, op);
      OpReaches(Later(cfg, w, front), cfg, op, rid, p, row, DueTicks(row.createdAt, cfg, front));
    }
  }

  lemma ProposedStanding(w: World, cfg: Config, rid: string, id: string, report: TriageReport, now: real)
    requires Enabled(w, Propose(rid, id, report, now)) && id in w.db.incidents && AnyMutating(report.suggestedActions)
    ensures TickedTimes(Apply(w, cfg, Propose(rid, id, report, now)), cfg.chain, rid, Fresh(cfg.chain, id, STEP),
                        ApprovalRow(id, ReportToDict(report), PENDING, now), 0)
  {
    hide ReportToDict;
  }

  /**
   * A registered request that gets no callback stays with the gate through fewer than max(2, k + 1)
   * due ticks, and from then on it is gone and its row reads abandoned, whatever else happens.
   */
  lemma UnansweredRequestEnds(cfg: Config, before: seq<Op>, rid: string, id: string, report: TriageReport, now: real,
                              ops: seq<Op>, k: nat)
    requires Legal(cfg, before) && Enabled(WorldAfter(cfg, before), Propose(rid, id, report, now))
    requires id in WorldAfter(cfg, before).db.incidents && AnyMutating(report.suggestedActions)
    requires LegalFrom(cfg, Apply(WorldAfter(cfg, before), cfg, Propose(rid, id, report, now)), ops)
    requires forall i | 0 <= i < |ops| :: !Callback(ops[i], rid)
    requires FollowedExactly(cfg.chain, cfg.chain.initial, k)
    ensures var w := Later(cfg, Apply(WorldAfter(cfg, before), cfg, Propose(rid, id, report, now)), ops);
            && rid in w.db.approvals
            && (if DueTicks(now, cfg, ops) < Max(2, k + 1)
                then rid in w.pending && w.db.approvals[rid].state == PENDING
                else rid !in w.pending && w.db.approvals[rid].state == "abandoned")
  {
    hide Inv, Later, LegalFrom, WorldAfter, Legal, LifeOf;
    var w0 := WorldAfter(cfg, before);
    var w := Apply(w0, cfg, Propose(rid, id, report, now));
    RunKeeps(cfg, before);
    ApplyKeeps(w0, cfg, Propose(rid, id, report, now));
    var p := Fresh(cfg.chain, id, STEP);
    var row := ApprovalRow(id, ReportToDict(report), PENDING, now);
    ProposedStanding(w0, cfg, rid, id, report, now);
    hide Apply, Enabled, FollowedExactly;
    RunReaches(w, cfg, ops, rid, p, row);
    SurvivesUntil(cfg.chain, id, STEP, k, DueTicks(now, cfg, ops));
  }
}
