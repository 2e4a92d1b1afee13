// approval_flow.py: from a triage report to an approval request, and from a decision to an execution.

module ApprovalFlow {
  import opened Prelude
  import opened ReportSchema
  import opened Database
  import opened Executor
  import Gate = ApprovalGate
  import opened ApprovalGate

  datatype Config = Config(chain: Chain, timeoutSeconds: real, hasRunner: bool, redact: string -> string)

  const STEP := "triage-mutating-actions"

  /** RaisedError: an exception leaves the orchestrator (ValueError, TypeError or ExecutorRejected). */
  datatype FlowResult = Answered(state: State, request: Option<string>) | RaisedError

  function WithRow(w: World, rid: string, incident: string, report: TriageReport, now: real): World {
    var row := ApprovalRow(incident, ReportToDict(report), PENDING, now);
    w.(db := Extend(w.db, [Registered(rid, incident, report)]).(approvals := WithRequest(w.db.approvals, rid, row)))
  }

  /** register_from_report; the new request id is an input. */
  function Register(w: World, cfg: Config, rid: string, incident: string, report: TriageReport, now: real): (World, FlowResult) {
    if !AnyMutating(report.suggestedActions) then (w, Answered(Pending, None))
    else
      var (w1, g) := Submit(w, cfg.chain, rid, incident, Step(STEP, MUTATING, false));
      if g.ValueErrorRaised? then (w1, RaisedError)
      else (WithRow(w1, rid, incident, report, now), Answered(Pending, Some(rid)))
  }

  function Close(w: World, rid: string, state: string): World {
    w.(db := w.db.(approvals := Closed(w.db.approvals, rid, state)))
  }

  /** _execute_approved; the flag says whether an exception leaves it. */
  function ExecuteApproved(w: World, cfg: Config, rid: string, replies: nat -> Reply): (World, bool) {
    if !PendingRow(w.db.approvals, rid) then (w, false)
    else if !cfg.hasRunner then (Close(w, rid, "approved_no_executor"), false)
    else
      var verdict := Validate(w.db.approvals[rid].report, None);
      if !verdict.Accepted? then (w, true)
      else
        var report := verdict.report;
        var called := Extend(w.db, [Called(rid, report)]);
        var (db, r) := ExecuteSpec(called, report.incidentId, report, Env(replies, cfg.redact));
        (w.(db := db), r.Refused?)
  }

  function HandleAction(w: World, cfg: Config, kind: string, rid: string, user: string, reason: string,
                        replies: nat -> Reply): (World, FlowResult) {
    if kind == "approve" then
      var (w1, g) := OnApprove(w, rid, user);
      if g.ValueErrorRaised? then (w1, RaisedError)
      else if g.state != Approved then (w1, Answered(g.state, g.request))
      else
        var (w2, raised) := ExecuteApproved(w1, cfg, rid, replies);
        (w2, if raised then RaisedError else Answered(g.state, g.request))
    else if kind == "reject" then
      var (w1, g) := OnReject(w, rid, user, reason);
      if g.ValueErrorRaised? then (w1, RaisedError)
      else (if g.state == Rejected then Close(w1, rid, "rejected") else w1, Answered(g.state, g.request))
    else (w, Answered(Pending, None))
  }

  /** What list_pending_approvals returns: each pending request once (oldest first). */
  ghost predicate Lists(rows: map<string, ApprovalRow>, listing: seq<string>) {
    && (forall rid :: rid in listing <==> PendingRow(rows, rid))
    && (forall i, j | 0 <= i < j < |listing| :: listing[i] != listing[j])
    && (forall i, j | 0 <= i < j < |listing| ::
          listing[i] in rows && listing[j] in rows ==> rows[listing[i]].createdAt <= rows[listing[j]].createdAt)
  }

  predicate Due(rows: map<string, ApprovalRow>, cfg: Config, rid: string, now: real) {
    rid in rows && now - rows[rid].createdAt >= cfg.timeoutSeconds
  }

  /** One row of tick_timeouts. */
  function TickOne(w: World, cfg: Config, rid: string, now: real): (World, bool) {
    if !Due(w.db.approvals, cfg, rid, now) then (w, false)
    else
      var (w1, g) := OnTimeout(w, cfg.chain, rid);
      if g.ValueErrorRaised? then (w1, true)
      else (if g.state == Abandoned then Close(w1, rid, "abandoned") else w1, false)
  }

  /** tick_timeouts after the first k rows; an exception ends the tick. */
  function TickUpTo(w: World, cfg: Config, listing: seq<string>, now: real, k: nat): (World, bool)
    requires k <= |listing|
  {
    if k == 0 then (w, false)
    else
      var (w1, raised) := TickUpTo(w, cfg, listing, now, k - 1);
      if raised then (w1, true) else TickOne(w1, cfg, listing[k - 1], now)
  }

  function DueCount(rows: map<string, ApprovalRow>, cfg: Config, listing: seq<string>, now: real, k: nat): nat
    requires k <= |listing|
  {
    if k == 0 then 0
    else DueCount(rows, cfg, listing, now, k - 1) + if Due(rows, cfg, listing[k - 1], now) then 1 else 0
  }

  class Orchestrator {
    const store: Store
    const gate: Gate.ApprovalGate
    const runner: ExecutorRunner
    const cfg: Config

    ghost predicate Valid() reads store {
      && store.Valid() && gate.store == store && runner.store == store
      && gate.chain == cfg.chain && runner.redact == cfg.redact
    }

    constructor (store: Store, gate: Gate.ApprovalGate, runner: ExecutorRunner, cfg: Config)
      requires store.Valid() && gate.store == store && runner.store == store
      requires gate.chain == cfg.chain && runner.redact == cfg.redact
      ensures Valid() && this.gate == gate && this.cfg == cfg
    {
      this.store, this.gate, this.runner, this.cfg := store, gate, runner, cfg;
    }

    method RegisterFromReport(rid: string, incident: string, report: TriageReport, now: real) returns (r: FlowResult)
      requires Valid()
      modifies store, gate
      ensures Valid() && (gate.View(), r) == Register(old(gate.View()), cfg, rid, incident, report, now)
    {
      if !AnyMutating(report.suggestedActions) {
        return Answered(Pending, None);
      }
      var g := gate.SubmitStep(rid, incident, Step(STEP, MUTATING, false));
      if g.ValueErrorRaised? {
        return RaisedError;
      }
      store.RecordPendingApproval(rid, incident, ReportToDict(report), now);
      store.Note(Registered(rid, incident, report));
      return Answered(Pending, Some(rid));
    }

    method RunApproved(rid: string, replies: nat -> Reply) returns (raised: bool)
      requires Valid()
      modifies store, gate
      ensures Valid() && (gate.View(), raised) == ExecuteApproved(old(gate.View()), cfg, rid, replies)
    {
      hide Validate, ExecuteSpec;
      if !PendingRow(store.approvals, rid) {
        return false;
      }
      if !cfg.hasRunner {
        store.MarkApprovalDone(rid, "approved_no_executor");
        return false;
      }
      var verdict := ValidateReport(store.approvals[rid].report, None);
      if !verdict.Accepted? {
        return true;
      }
      var report := verdict.report;
      store.Note(Called(rid, report));
      var r := runner.Execute(report.incidentId, report, replies);
      return r.Refused?;
    }

    method Handle(kind: string, rid: string, user: string, reason: string, replies: nat -> Reply) returns (r: FlowResult)
      requires Valid()
      modifies store, gate
      ensures Valid() && (gate.View(), r) == HandleAction(old(gate.View()), cfg, kind, rid, user, reason, replies)
    {
      hide ExecuteApproved, OnApprove, OnReject;
      if kind == "approve" {
        var g := gate.Approve(rid, user);
        if g.ValueErrorRaised? {
          return RaisedError;
        }
        if g.state == Approved {
          var raised := RunApproved(rid, replies);
          if raised {
            return RaisedError;
          }
        }
        return Answered(g.state, g.request);
      }
      if kind == "reject" {
        var g := gate.Reject(rid, user, reason);
        if g.ValueErrorRaised? {
          return RaisedError;
        }
        if g.state == Rejected {
          store.MarkApprovalDone(rid, "rejected");
        }
        return Answered(g.state, g.request);
      }
      return Answered(Pending, None);
    }

    /** One round of the timeout scheduler over the rows the query returned. */
    method TickTimeouts(listing: seq<string>, now: real) returns (handled: nat, raised: bool)
      requires Valid() && Lists(store.approvals, listing)
      modifies store, gate
      ensures Valid() && (gate.View(), raised) == TickUpTo(old(gate.View()), cfg, listing, now, |listing|)
      ensures !raised ==> handled == |DueOnes(old(store.approvals), cfg, listing, now)|
    {
      hide OnTimeout;
      handled, raised := 0, false;
      ghost var start := gate.View();
      for k := 0 to |listing|
        invariant Valid() && !raised
        invariant (gate.View(), false) == TickUpTo(start, cfg, listing, now, k)
        invariant handled == DueCount(start.db.approvals, cfg, listing, now, k)
        invariant SameDates(start.db.approvals, store.approvals)
      {
        var rid := listing[k];
        assert rid in listing && PendingRow(start.db.approvals, rid);
        if now - store.approvals[rid].createdAt < cfg.timeoutSeconds {
          continue;
        }
        TimeoutKeepsRows(gate.View(), cfg.chain, rid);
        var g := gate.Timeout(rid);
        if g.ValueErrorRaised? {
          raised := true;
          TickStops(start, cfg, listing, now, k + 1);
          return;
        }
        if g.state == Abandoned {
          store.MarkApprovalDone(rid, "abandoned");
        }
        handled := handled + 1;
      }
      assert listing[..|listing|] == listing;
      DueAreCounted(start.db.approvals, cfg, listing, now, |listing|);
    }
  }

  /** The listed requests that are at least the timeout old. */
  function DueOnes(rows: map<string, ApprovalRow>, cfg: Config, listing: seq<string>, now: real): set<string> {
    set rid | rid in listing && rid in rows && now - rows[rid].createdAt >= cfg.timeoutSeconds
  }

  lemma OneMoreListed(rows: map<string, ApprovalRow>, cfg: Config, listing: seq<string>, rid: string, now: real)
    requires rid !in listing
    ensures |DueOnes(rows, cfg, listing + [rid], now)| == |DueOnes(rows, cfg, listing, now)| + if Due(rows, cfg, rid, now) then 1 else 0
  {
    var before, after := DueOnes(rows, cfg, listing, now), DueOnes(rows, cfg, listing + [rid], now);
    assert after == if Due(rows, cfg, rid, now) then before + {rid} else before;
  }

  /** A round handles each of them once. */
  lemma {:induction false} DueAreCounted(rows: map<string, ApprovalRow>, cfg: Config, listing: seq<string>, now: real, k: nat)
    requires k <= |listing| && forall i, j | 0 <= i < j < |listing| :: listing[i] != listing[j]
    ensures DueCount(rows, cfg, listing, now, k) == |DueOnes(rows, cfg, listing[..k], now)|
  {
    hide Due, DueOnes;
    if k == 0 {
      assert listing[..0] == [] && DueOnes(rows, cfg, [], now) == {} by { NoneDue(rows, cfg, now); }
    } else {
      DueAreCounted(rows, cfg, listing, now, k - 1);
      assert listing[..k] == listing[..k - 1] + [listing[k - 1]] && listing[k - 1] !in listing[..k - 1];
      OneMoreListed(rows, cfg, listing[..k - 1], listing[k - 1], now);
    }
  }

  lemma NoneDue(rows: map<string, ApprovalRow>, cfg: Config, now: real)
    ensures DueOnes(rows, cfg, [], now) == {}
  {
  }

  predicate SameDates(a: map<string, ApprovalRow>, b: map<string, ApprovalRow>) {
    a.Keys == b.Keys && forall rid | rid in a :: a[rid].createdAt == b[rid].createdAt
  }

  lemma TimeoutKeepsRows(w: World, c: Chain, rid: string)
    ensures OnTimeout(w, c, rid).0.db.approvals == w.db.approvals
  {
  }

  lemma {:induction false} TickStops(w: World, cfg: Config, listing: seq<string>, now: real, k: nat)
    requires k <= |listing| && TickUpTo(w, cfg, listing, now, k).1
    ensures TickUpTo(w, cfg, listing, now, |listing|) == TickUpTo(w, cfg, listing, now, k)
    decreases |listing| - k
  {
    if k < |listing| { TickStops(w, cfg, listing, now, k + 1); }
  }
}
