// What a decision leaves: in the history, in the gate, in the request's row; and that the row stays closed.

module Decisions {
  import opened Prelude
  import opened ReportSchema
  import opened Database
  import opened Executor
  import opened ExecutorSteps
  import opened ApprovalGate
  import opened ApprovalFlow
  import Machine
  import opened Runs
  import opened Guarantees

  // ---------------------------------------------------------------- what asks for an approval

  /**
   * Registering a report of a known incident asks for an approval exactly when some action is mutating: the gate
   * then holds the request for the chain's first target, its row is pending with the report in stored form, and the
   * timeline says that no dry run is available and who was asked. Otherwise nothing happens.
   */
  lemma RegistersIff(w: World, cfg: Config, rid: string, incident: string, report: TriageReport, now: real)
    requires incident in w.db.incidents && rid !in w.db.approvals && rid !in w.pending
    ensures var (after, r) := Register(w, cfg, rid, incident, report, now);
            var asks := exists i | 0 <= i < |report.suggestedActions| :: report.suggestedActions[i].risk == "mutating";
            && (rid in after.pending <==> asks) && (rid in after.db.approvals <==> asks)
            && (!asks ==> after == w && r == Answered(Pending, None))
            && (asks ==>
                  && r == Answered(Pending, Some(rid))
                  && after.pending == w.pending[rid := PendingApproval(incident, "triage-mutating-actions", Pending, [cfg.chain.initial], 0)]
                  && after.db.approvals == w.db.approvals[rid := ApprovalRow(incident, ReportToDict(report), "pending", now)]
                  && after.db.trace == w.db.trace + [
                       Logged(incident, DryRunUnavailable("triage-mutating-actions")),
                       Logged(incident, ApprovalRequested(rid, "triage-mutating-actions", cfg.chain.initial)),
                       Registered(rid, incident, report)]
                  && after.db.incidents == w.db.incidents && after.db.executed == w.db.executed)
  {
    assert AnyMutating(report.suggestedActions) <==>
           exists i | 0 <= i < |report.suggestedActions| :: report.suggestedActions[i].risk == "mutating";
    hide ReportToDict, AnyMutating;
  }

  /** Of a known incident only a read-only step passes unasked, and it is not held. */
  lemma OnlyReadOnlyPasses(w: World, c: Chain, rid: string, incident: string, step: Step)
    requires incident in w.db.incidents && rid !in w.pending
    ensures var (after, g) := Submit(w, c, rid, incident, step);
            && (g == GateResult.Outcome(AutoApproved, None) <==> step.risk == "read-only")
            && (rid in after.pending <==> step.risk != "read-only")
            && (step.risk != "read-only" ==> g == GateResult.Outcome(Pending, Some(rid)) && after.pending[rid] == Fresh(c, incident, step.name))
  {
  }

  // ---------------------------------------------------------------- what a callback does

  /**
   * Rejecting a request that the gate holds as pending takes it out, logs who rejected it and why, indexes the
   * reason, and closes its row; nothing is called.
   */
  lemma RejectionIsRecorded(cfg: Config, ops: seq<Op>, rid: string, user: string, reason: string, replies: nat -> Reply)
    requires Legal(cfg, ops) && Waiting(WorldAfter(cfg, ops).pending, rid, Pending)
    ensures var w := WorldAfter(cfg, ops);
            var id, (after, r) := w.pending[rid].incident, HandleAction(w, cfg, "reject", rid, user, reason, replies);
            && r == Answered(Rejected, Some(rid))
            && after.db.trace == w.db.trace + [Logged(id, ApprovalRejected(rid, user, reason)), Logged(id, OverrideIndexed(rid, reason))]
            && rid !in after.pending && rid in w.db.approvals
            && after.db.approvals == w.db.approvals[rid := w.db.approvals[rid].(state := "rejected")]
            && after.db.incidents == w.db.incidents && after.db.executed == w.db.executed
  {
    RunKeeps(cfg, ops);
    assert RequestOk(WorldAfter(cfg, ops), rid);
    hide LifeOf, WorldAfter, Legal, Inv;
  }

  /** Without an executor an approval is logged and its row closed as such; nothing is called. */
  lemma ApprovalWithoutExecutor(cfg: Config, ops: seq<Op>, rid: string, user: string, reason: string, replies: nat -> Reply)
    requires Legal(cfg, ops) && !cfg.hasRunner && Waiting(WorldAfter(cfg, ops).pending, rid, Pending)
    ensures var w := WorldAfter(cfg, ops);
            var id, (after, r) := w.pending[rid].incident, HandleAction(w, cfg, "approve", rid, user, reason, replies);
            && r == Answered(Approved, Some(rid))
            && after.db.trace == w.db.trace + [Logged(id, ApprovalGranted(rid, user))]
            && rid !in after.pending && rid in w.db.approvals
            && after.db.approvals == w.db.approvals[rid := w.db.approvals[rid].(state := "approved_no_executor")]
            && after.db.incidents == w.db.incidents && after.db.executed == w.db.executed
  {
    RunKeeps(cfg, ops);
    assert RequestOk(WorldAfter(cfg, ops), rid);
    hide LifeOf, WorldAfter, Legal, Inv, Validate, ExecuteSpec;
  }

  /** Any other callback, and any for a request that is not held as pending, is refused; a rejection still closes the row. */
  lemma OtherwiseRefused(w: World, cfg: Config, kind: string, rid: string, user: string, reason: string, replies: nat -> Reply)
    requires !Waiting(w.pending, rid, Pending) || (kind != "approve" && kind != "reject")
    ensures var (after, r) := HandleAction(w, cfg, kind, rid, user, reason, replies);
            && r == Answered(if kind == "approve" || kind == "reject" then Rejected else Pending, None)
            && after.pending == w.pending && after.db.trace == w.db.trace
            && after.db.incidents == w.db.incidents && after.db.executed == w.db.executed
            && after.db.approvals == if kind == "reject" && rid in w.db.approvals
                                     then w.db.approvals[rid := w.db.approvals[rid].(state := "rejected")] else w.db.approvals
  {
    hide ExecuteApproved;
  }

  // ---------------------------------------------------------------- what a call adds to the history

  /** Calls and commands come from approvals, decisions from the callback or the tick that made them. */
  predicate ComesFrom(w: World, op: Op, o: Obs) {
    && (o.Ran? || o.Called? ==> op.Answer? && op.kind == "approve")
    && (o.Logged? ==>
          match o.event
          case ApprovalRejected(rid, _, _) => op.Answer? && op.kind == "reject" && op.rid == rid && Waiting(w.pending, rid, Pending)
          case ApprovalGranted(rid, _) => op.Answer? && op.kind == "approve" && op.rid == rid && Waiting(w.pending, rid, Pending)
          case ApprovalAbandoned(rid, _, _) => op.Tick?
          case ApprovalEscalated(rid, _, _) => op.Tick?
          case _ => true)
  }

  /** b is a with lines added that come from op. */
  ghost predicate Grows(w: World, op: Op, a: seq<Obs>, b: seq<Obs>) {
    a <= b && forall n | |a| <= n < |b| :: ComesFrom(w, op, b[n])
  }

  lemma GrowsTwice(w: World, op: Op, a: seq<Obs>, b: seq<Obs>, c: seq<Obs>)
    requires Grows(w, op, a, b) && Grows(w, op, b, c)
    ensures Grows(w, op, a, c)
  {
    hide ComesFrom;
    assert forall n | 0 <= n < |b| :: c[n] == b[n];
  }

  lemma ExecutionAdds(w: World, op: Op, db: Db, inc: string, report: TriageReport, env: Env)
    requires op.Answer? && op.kind == "approve"
    ensures Grows(w, op, db.trace, ExecuteSpec(db, inc, report, env).0.trace)
  {
    hide RunUpTo, StepsOk, ActionKey, ActionTexts, FullKey, StepTrace, AnyMutating, HasGrant;
    StepTraceFits(inc, report.suggestedActions, env);
    hide RunTrace;
    assert AllSteps(StepTrace(inc, report.suggestedActions, env), inc);
    assert forall o | StepObs(o, inc) :: ComesFrom(w, op, o);
  }

  lemma ApprovalAdds(w: World, cfg: Config, op: Op)
    requires op.Answer?
    ensures Grows(w, op, w.db.trace, Apply(w, cfg, op).db.trace)
  {
    hide ExecuteSpec, Validate;
    if op.kind == "approve" && Waiting(w.pending, op.rid, Pending) {
      var w1 := OnApprove(w, op.rid, op.user).0;
      assert Grows(w, op, w.db.trace, w1.db.trace);
      var verdict := if PendingRow(w1.db.approvals, op.rid) then Validate(w1.db.approvals[op.rid].report, None) else TypeErrorRaised;
      if verdict.Accepted? {
        var called := Extend(w1.db, [Called(op.rid, verdict.report)]);
        var env := Env(op.replies, cfg.redact);
        assert Grows(w, op, w1.db.trace, called.trace);
        ExecutionAdds(w, op, called, verdict.report.incidentId, verdict.report, env);
        GrowsTwice(w, op, w1.db.trace, called.trace, ExecuteSpec(called, verdict.report.incidentId, verdict.report, env).0.trace);
        GrowsTwice(w, op, w.db.trace, w1.db.trace, ExecuteSpec(called, verdict.report.incidentId, verdict.report, env).0.trace);
      }
    }
  }

  lemma TickOneAdds(w0: World, w: World, cfg: Config, op: Op, rid: string)
    requires op.Tick?
    ensures Grows(w0, op, w.db.trace, TickOne(w, cfg, rid, op.now).0.db.trace)
  {
  }

  lemma {:induction false} TickAdds(w: World, cfg: Config, op: Op, k: nat)
    requires op.Tick? && k <= |op.listing|
    ensures Grows(w, op, w.db.trace, TickUpTo(w, cfg, op.listing, op.now, k).0.db.trace)
  {
    hide TickOne, ComesFrom;
    if k > 0 {
      TickAdds(w, cfg, op, k - 1);
      var w1 := TickUpTo(w, cfg, op.listing, op.now, k - 1).0;
      TickOneAdds(w, w1, cfg, op, op.listing[k - 1]);
      GrowsTwice(w, op, w.db.trace, w1.db.trace, TickOne(w1, cfg, op.listing[k - 1], op.now).0.db.trace);
    }
  }

  /** Every line that a call adds to the history comes from it, and no line is ever taken back. */
  lemma WhatACallAdds(w: World, cfg: Config, op: Op)
    ensures Grows(w, op, w.db.trace, Apply(w, cfg, op).db.trace)
  {
    hide TickUpTo, HandleAction, Register, Grows;
    match op
    case Answer(_, _, _, _, _) => ApprovalAdds(w, cfg, op);
    case Tick(listing, _) => TickAdds(w, cfg, op, |listing|);
    case Propose(_, _, _, _) => RegistrationAdds(w, cfg, op);
    case _ => RowAdds(w, cfg, op);
  }

  lemma RegistrationAdds(w: World, cfg: Config, op: Op)
    requires op.Propose?
    ensures Grows(w, op, w.db.trace, Apply(w, cfg, op).db.trace)
  {
    hide ReportToDict, AnyMutating;
  }

  lemma RowAdds(w: World, cfg: Config, op: Op)
    requires op.CreateIncident? || op.Move? || op.Elsewhere?
    ensures Grows(w, op, w.db.trace, Apply(w, cfg, op).db.trace)
  {
    hide Machine.CanTransition;
  }

  // ---------------------------------------------------------------- rows stay closed

  predicate InState(rows: map<string, ApprovalRow>, rid: string, states: set<string>) {
    rid in rows && rows[rid].state in states
  }

  predicate Held(w: World, rid: string) {
    rid in w.pending
  }

  lemma TickLeavesUnheld(w: World, cfg: Config, rid: string, other: string, now: real)
    requires !Held(w, rid)
    ensures SameStanding(w, TickOne(w, cfg, other, now).0, rid)
  {
  }

  lemma {:induction false} TicksLeaveUnheld(w: World, cfg: Config, rid: string, listing: seq<string>, now: real, k: nat)
    requires !Held(w, rid) && k <= |listing|
    ensures SameStanding(w, TickUpTo(w, cfg, listing, now, k).0, rid)
  {
    hide TickOne;
    if k > 0 {
      TicksLeaveUnheld(w, cfg, rid, listing, now, k - 1);
      TickLeavesUnheld(TickUpTo(w, cfg, listing, now, k - 1).0, cfg, rid, listing[k - 1], now);
    }
  }

  /** A request that the gate no longer holds is never held again; only a rejection still touches its row. */
  lemma UnheldStays(w: World, cfg: Config, op: Op, rid: string)
    requires Enabled(w, op) && !Held(w, rid) && rid in w.db.approvals
    ensures var after := Apply(w, cfg, op);
            && !Held(after, rid) && rid in after.db.approvals
            && after.db.approvals[rid].state in {w.db.approvals[rid].state, "rejected"}
  {
    hide HandleAction, TickUpTo, Lists, Register;
    match op
    case Answer(kind, other, user, reason, replies) =>
      if other == rid {
        OtherwiseRefused(w, cfg, kind, rid, user, reason, replies);
      } else {
        AnswerLeavesOthers(w, cfg, kind, other, user, reason, replies, rid);
      }
    case Tick(listing, now) => TicksLeaveUnheld(w, cfg, rid, listing, now, |listing|);
    case Propose(other, id, report, now) => ProposeLeavesOthers(w, cfg, other, id, report, now, rid);
    case _ =>
  }

  /** A decision is in the history, and the row says so. */
  ghost predicate ClosedFor(w: World, rid: string, states: set<string>) {
    !Held(w, rid) && InState(w.db.approvals, rid, states)
  }

  lemma DecidedIsNotHeld(w: World, rid: string, k: nat)
    requires Inv(w) && k < |w.db.trace| && DecisionOn(w.db.trace[k], rid)
    ensures !Held(w, rid) && rid in w.db.approvals
  {
    assert RequestOk(w, rid);
    DecidedLife(w.db.trace, rid, k);
  }

  /** One call from outside: a rejection that it logs leaves the row closed as rejected. */
  lemma RejectionCloses(cfg: Config, front: seq<Op>, op: Op, rid: string)
    requires Legal(cfg, front) && op.Answer? && op.kind == "reject" && op.rid == rid
    requires Waiting(WorldAfter(cfg, front).pending, rid, Pending)
    ensures ClosedFor(Apply(WorldAfter(cfg, front), cfg, op), rid, {"rejected"})
  {
    hide HandleAction, WorldAfter, Legal;
    RejectionIsRecorded(cfg, front, rid, op.user, op.reason, op.replies);
  }

  lemma Split(cfg: Config, ops: seq<Op>)
    requires ops != [] && Legal(cfg, ops)
    ensures var front, op := ops[..|ops| - 1], ops[|ops| - 1];
            && Legal(cfg, front) && Enabled(WorldAfter(cfg, front), op)
            && WorldAfter(cfg, ops) == Apply(WorldAfter(cfg, front), cfg, op)
  {
  }

  lemma ClosedIsUnlisted(w: World, rid: string, states: set<string>)
    requires ClosedFor(w, rid, states) && "pending" !in states
    ensures forall listing | Lists(w.db.approvals, listing) :: rid !in listing
  {
  }

  /**
   * Once a rejection is in the history, the request's row reads rejected, at the end of that call and of every
   * later one, and no listing contains the request.
   */
  lemma {:induction false} RejectedRowIsClosed(cfg: Config, ops: seq<Op>, rid: string, k: nat)
    requires Legal(cfg, ops) && k < |WorldAfter(cfg, ops).db.trace| && RejectionOf(WorldAfter(cfg, ops).db.trace[k], rid)
    ensures ClosedFor(WorldAfter(cfg, ops), rid, {"rejected"})
    ensures forall listing | Lists(WorldAfter(cfg, ops).db.approvals, listing) :: rid !in listing
  {
    Split(cfg, ops);
    var front, op := ops[..|ops| - 1], ops[|ops| - 1];
    var w := WorldAfter(cfg, front);
    WhatACallAdds(w, cfg, op);
    hide WorldAfter, Apply, Legal, Enabled, Lists;
    if k < |w.db.trace| {
      RejectedRowIsClosed(cfg, front, rid, k);
      UnheldStays(w, cfg, op, rid);
    } else {
      assert ComesFrom(w, op, WorldAfter(cfg, ops).db.trace[k]);
      RejectionCloses(cfg, front, op, rid);
    }
    ClosedIsUnlisted(WorldAfter(cfg, ops), rid, {"rejected"});
  }

  lemma TickOneAbandons(w: World, cfg: Config, other: string, rid: string, now: real, n: nat)
    requires rid in w.pending ==> rid in w.db.approvals
    requires |w.db.trace| <= n < |TickOne(w, cfg, other, now).0.db.trace|
    requires AbandonmentOf(TickOne(w, cfg, other, now).0.db.trace[n], rid)
    ensures ClosedFor(TickOne(w, cfg, other, now).0, rid, {"abandoned"})
  {
  }

  lemma {:induction false} TickAbandons(w: World, cfg: Config, op: Op, rid: string, k: nat, n: nat)
    requires Inv(w) && op.Tick? && k <= |op.listing|
    requires |w.db.trace| <= n < |TickUpTo(w, cfg, op.listing, op.now, k).0.db.trace|
    requires AbandonmentOf(TickUpTo(w, cfg, op.listing, op.now, k).0.db.trace[n], rid)
    ensures ClosedFor(TickUpTo(w, cfg, op.listing, op.now, k).0, rid, {"abandoned"})
  {
    if k > 0 {
      var w1, other := TickUpTo(w, cfg, op.listing, op.now, k - 1).0, op.listing[k - 1];
      TickKeeps(w, cfg, op.listing, op.now, k - 1);
      TickOneAdds(w, w1, cfg, op, other);
      HeldHasRow(w1, rid);
      hide TickOne, Inv;
      if n < |w1.db.trace| {
        TickAbandons(w, cfg, op, rid, k - 1, n);
        TickLeavesUnheld(w1, cfg, rid, other, op.now);
      } else {
        TickOneAbandons(w1, cfg, other, rid, op.now, n);
      }
    }
  }

  lemma HeldHasRow(w: World, rid: string)
    requires Inv(w)
    ensures rid in w.pending ==> rid in w.db.approvals
  {
    assert RequestOk(w, rid);
  }

  /** Once an abandonment is in the history, the row reads abandoned, or rejected by a later callback. */
  lemma {:induction false} AbandonedRowIsClosed(cfg: Config, ops: seq<Op>, rid: string, k: nat)
    requires Legal(cfg, ops) && k < |WorldAfter(cfg, ops).db.trace| && AbandonmentOf(WorldAfter(cfg, ops).db.trace[k], rid)
    ensures ClosedFor(WorldAfter(cfg, ops), rid, {"abandoned", "rejected"})
    ensures forall listing | Lists(WorldAfter(cfg, ops).db.approvals, listing) :: rid !in listing
  {
    Split(cfg, ops);
    var front, op := ops[..|ops| - 1], ops[|ops| - 1];
    var w := WorldAfter(cfg, front);
    WhatACallAdds(w, cfg, op);
    RunKeeps(cfg, front);
    hide WorldAfter, Legal, Enabled, Inv, TickUpTo, Lists, Apply;
    if k < |w.db.trace| {
      AbandonedRowIsClosed(cfg, front, rid, k);
      UnheldStays(w, cfg, op, rid);
    } else {
      assert ComesFrom(w, op, WorldAfter(cfg, ops).db.trace[k]);
      ApplyTick(w, cfg, op);
      TickAbandons(w, cfg, op, rid, |op.listing|, k);
    }
    ClosedIsUnlisted(WorldAfter(cfg, ops), rid, {"abandoned", "rejected"});
  }

  lemma ApplyTick(w: World, cfg: Config, op: Op)
    requires op.Tick?
    ensures Apply(w, cfg, op) == TickUpTo(w, cfg, op.listing, op.now, |op.listing|).0
  {
  }

  // ---------------------------------------------------------------- what the timeline says of timeouts

  /** n timeouts have passed over this entry, and nothing else. */
  ghost predicate TimedTimes(c: Chain, p: PendingApproval, n: nat) {
    AfterTimeouts(c, Fresh(c, p.incident, p.step), n) == Some(p)
  }

  ghost predicate TimedOnly(c: Chain, pending: map<string, PendingApproval>) {
    forall rid | rid in pending :: exists n: nat :: TimedTimes(c, pending[rid], n)
  }

  /** An escalation goes from one target of the chain to the next; an abandonment lists everyone asked, each twice but the first. */
  ghost predicate TimeoutTold(c: Chain, o: Obs) {
    o.Logged? ==>
      match o.event
      case ApprovalEscalated(_, from, to) => exists n: nat :: EscalatesAt(c, from, to, n)
      case ApprovalAbandoned(_, attempts, timeouts) => timeouts > 0 && attempts == Trail(c, timeouts - 1) && ChainGives(c, timeouts)
      case _ => true
  }

  predicate EscalatesAt(c: Chain, from: string, to: string, n: nat) {
    from == Reached(c, c.initial, n) && to == Reached(c, c.initial, n + 1)
  }

  ghost predicate TimeoutsTold(c: Chain, w: World) {
    TimedOnly(c, w.pending) && forall k | 0 <= k < |w.db.trace| :: TimeoutTold(c, w.db.trace[k])
  }

  lemma EscalationEvent(c: Chain, p: PendingApproval, rid: string, n: nat)
    requires TimedTimes(c, p, n) && Escalates(c, p)
    ensures TimedTimes(c, TimedOut(c, p), n + 1)
    ensures TimeoutTold(c, Logged(p.incident, ApprovalEscalated(rid, LastTarget(c, p), TargetFor(c, LastTarget(c, p)))))
  {
    UnansweredTrail(c, p.incident, p.step, n);
    assert EscalatesAt(c, LastTarget(c, p), TargetFor(c, LastTarget(c, p)), n);
  }

  lemma AbandonmentEvent(c: Chain, p: PendingApproval, rid: string, n: nat)
    requires TimedTimes(c, p, n) && !Escalates(c, p)
    ensures TimeoutTold(c, Logged(p.incident, ApprovalAbandoned(rid, p.targets, p.timeouts + 1)))
  {
    UnansweredTrail(c, p.incident, p.step, n);
    assert AbandonedAt(c, Fresh(c, p.incident, p.step), n + 1);
    AbandonedAtExactly(c, p.incident, p.step, n + 1);
    hide ChainGives, Escalates;
  }

  lemma TimeoutIsTold(w: World, c: Chain, rid: string)
    requires TimeoutsTold(c, w)
    ensures TimeoutsTold(c, OnTimeout(w, c, rid).0)
  {
    if Waiting(w.pending, rid, Pending) || Waiting(w.pending, rid, Escalated) {
      var n: nat :| TimedTimes(c, w.pending[rid], n);
      var p := w.pending[rid];
      hide TimeoutTold, TimedTimes, Escalates, LastTarget, TargetFor, TimedOut;
      if Escalates(c, p) { EscalationEvent(c, p, rid, n); } else { AbandonmentEvent(c, p, rid, n); }
    }
  }

  lemma {:induction false} TickIsTold(w: World, cfg: Config, listing: seq<string>, now: real, k: nat)
    requires TimeoutsTold(cfg.chain, w) && k <= |listing|
    ensures TimeoutsTold(cfg.chain, TickUpTo(w, cfg, listing, now, k).0)
  {
    hide OnTimeout, TimeoutTold, TimedOnly;
    if k > 0 {
      TickIsTold(w, cfg, listing, now, k - 1);
      TimeoutIsTold(TickUpTo(w, cfg, listing, now, k - 1).0, cfg.chain, listing[k - 1]);
    }
  }

  lemma AnswersOnlyRemove(w: World, cfg: Config, kind: string, rid: string, user: string, reason: string, replies: nat -> Reply)
    ensures var after := HandleAction(w, cfg, kind, rid, user, reason, replies).0;
            forall r | r in after.pending :: r in w.pending && after.pending[r] == w.pending[r]
  {
    hide Validate, ExecuteSpec;
  }

  /** Whatever the gate holds was registered and has since only seen timeouts; and the history tells the timeouts right. */
  lemma {:induction false} TimeoutsAreTold(cfg: Config, ops: seq<Op>)
    requires Legal(cfg, ops)
    ensures TimeoutsTold(cfg.chain, WorldAfter(cfg, ops))
  {
    if ops != [] {
      var front, op := ops[..|ops| - 1], ops[|ops| - 1];
      var w, after := WorldAfter(cfg, front), Apply(WorldAfter(cfg, front), cfg, op);
      TimeoutsAreTold(cfg, front);
      if op.Tick? {
        hide TickUpTo;
        TickIsTold(w, cfg, op.listing, op.now, |op.listing|);
      } else {
        WhatACallAdds(w, cfg, op);
        PendingStaysTimed(w, cfg, op);
        hide Apply, TimedOnly;
        forall k | 0 <= k < |after.db.trace| ensures TimeoutTold(cfg.chain, after.db.trace[k]) {
          if k < |w.db.trace| { assert after.db.trace[k] == w.db.trace[k]; } else { assert ComesFrom(w, op, after.db.trace[k]); }
        }
      }
    }
  }

  lemma PendingStaysTimed(w: World, cfg: Config, op: Op)
    requires TimedOnly(cfg.chain, w.pending) && !op.Tick?
    ensures TimedOnly(cfg.chain, Apply(w, cfg, op).pending)
  {
    hide HandleAction;
    match op
    case Answer(kind, rid, user, reason, replies) => AnswersOnlyRemove(w, cfg, kind, rid, user, reason, replies);
    case Propose(rid, id, report, now) =>
      var after := Apply(w, cfg, op);
      forall r | r in after.pending ensures exists n: nat :: TimedTimes(cfg.chain, after.pending[r], n) {
        if r == rid && AnyMutating(report.suggestedActions) {
          assert TimedTimes(cfg.chain, Fresh(cfg.chain, id, STEP), 0);
        }
      }
    case _ =>
  }

  // ---------------------------------------------------------------- commands belong to executions

  /** Line i of the history was written by this execution. */
  ghost predicate WrittenBy(trace: seq<Obs>, i: nat, db: Db, report: TriageReport, env: Env) {
    var after := ExecuteSpec(db, report.incidentId, report, env).0;
    && db.trace != [] && db.trace[|db.trace| - 1].Called? && db.trace[|db.trace| - 1].report == report
    && db.trace <= after.trace <= trace && |db.trace| <= i < |after.trace|
  }

  lemma ApprovalWrites(w: World, cfg: Config, op: Op, i: nat) returns (db: Db, report: TriageReport, env: Env)
    requires op.Answer? && op.kind == "approve"
    requires |w.db.trace| <= i < |Apply(w, cfg, op).db.trace| && Apply(w, cfg, op).db.trace[i].Ran?
    ensures WrittenBy(Apply(w, cfg, op).db.trace, i, db, report, env)
  {
    hide ExecuteSpec, Validate;
    var w1 := OnApprove(w, op.rid, op.user).0;
    report, env := Validate(w1.db.approvals[op.rid].report, None).report, Env(op.replies, cfg.redact);
    db := Extend(w1.db, [Called(op.rid, report)]);
    ExecutionAdds(w, op, db, report.incidentId, report, env);
  }

  /** Every command of a run was written by one execution, called with its report. */
  lemma {:induction false} CommandsAreWritten(cfg: Config, ops: seq<Op>, i: nat) returns (db: Db, report: TriageReport, env: Env)
    requires Legal(cfg, ops) && i < |WorldAfter(cfg, ops).db.trace| && WorldAfter(cfg, ops).db.trace[i].Ran?
    ensures WrittenBy(WorldAfter(cfg, ops).db.trace, i, db, report, env)
  {
    Split(cfg, ops);
    var front, op := ops[..|ops| - 1], ops[|ops| - 1];
    var w := WorldAfter(cfg, front);
    WhatACallAdds(w, cfg, op);
    hide WorldAfter, Legal, Enabled, Apply, ExecuteSpec;
    if i < |w.db.trace| {
      db, report, env := CommandsAreWritten(cfg, front, i);
    } else {
      assert ComesFrom(w, op, WorldAfter(cfg, ops).db.trace[i]);
      db, report, env := ApprovalWrites(w, cfg, op, i);
    }
  }

  lemma AddedAt(before: seq<Obs>, more: seq<Obs>, trace: seq<Obs>, m: nat)
    requires before + more <= trace && m < |more|
    ensures |before| + m < |trace| && trace[|before| + m] == more[m] && trace[|before|..|before| + m] == more[..m]
  {
    var all := before + more;
    assert all == trace[..|all|];
    assert all[|before| + m] == more[m] && all[|before|..|before| + m] == more[..m];
    assert trace[..|all|][|before|..|before| + m] == trace[|before|..|before| + m];
  }

  lemma AddedLine(before: seq<Obs>, start: Obs, lines: seq<Obs>, tail: seq<Obs>, trace: seq<Obs>, n: nat)
    requires before + ([start] + lines + tail) <= trace && n < |lines|
    ensures var b := |before|;
            && b + 1 + n < |trace| && trace[b..b + 1 + n] == [start] + lines[..n]
            && trace[b + 1 + n] == lines[n] && (n > 0 ==> trace[b + n] == lines[n - 1]) && (n == 0 ==> trace[b + n] == start)
  {
    var more := [start] + lines + tail;
    AddedAt(before, more, trace, n + 1);
    AddedAt(before, more, trace, n);
    assert more[..n + 1] == [start] + lines[..n];
    assert more[n + 1] == lines[n] && more[n] == if n > 0 then lines[n - 1] else start;
  }

  /** The line of an execution that it wrote, read off its own lines. */
  lemma FindLine(trace: seq<Obs>, i: nat, db: Db, report: TriageReport, env: Env)
    returns (lines: seq<Obs>, steps: seq<StepResult>, n: nat)
    requires WrittenBy(trace, i, db, report, env) && trace[i].Ran?
    ensures n < |lines| && Told(lines, report.incidentId, report.suggestedActions, steps, env.redact)
    ensures var b, inc := |db.trace|, report.incidentId;
            i == b + 1 + n && trace[i] == lines[n]
            && trace[b..i] == [Logged(inc, ExecutionStarted(FullKey(inc, report.suggestedActions), ActionTexts(report.suggestedActions)))]
                              + lines[..n]
            && (n > 0 ==> trace[i - 1] == lines[n - 1])
  {
    hide ExecuteSpec, Told, FullKey, ActionTexts;
    var inc, actions := report.incidentId, report.suggestedActions;
    var (after, r) := ExecuteSpec(db, inc, report, env);
    ExecutesIff(db, inc, report, env);
    assert after.trace[i] == trace[i];
    lines := ExecutionIsTold(db, inc, report, env);
    steps := r.outcome.steps;
    n := i - |db.trace| - 1;
    var start := Logged(inc, ExecutionStarted(FullKey(inc, actions), ActionTexts(actions)));
    var tail := after.trace[|db.trace| + 1 + |lines|..];
    assert after.trace == db.trace + ([start] + lines + tail);
    AddedLine(db.trace, start, lines, tail, trace, n);
  }

  lemma StartedIsNoStep(o: Obs, lines: seq<Obs>)
    requires o.Logged? && o.event.ExecutionStarted?
    ensures StepEvents([o] + lines) == StepEvents(lines)
  {
    OneObs(o);
    HistoriesConcatenate([o], lines);
  }

  /**
   * Command i belongs to the call at c and is of the action whose turn it is there; it is a rehearsal only of a
   * mutating action, and runs a mutating action only directly after its own rehearsal went through.
   */
  predicate InTurn(trace: seq<Obs>, c: nat, i: nat)
    requires c < i < |trace| && trace[c].Called? && trace[i].Ran?
  {
    var report, command, k := trace[c].report, trace[i].command, |StepEvents(trace[c + 1..i])|;
    && c + 1 < i && NoCalls(trace[c + 1..i]) && k < |report.suggestedActions|
    && trace[i].incident == report.incidentId && command.action == report.suggestedActions[k].action
    && (command.dryRun ==> report.suggestedActions[k].risk == "mutating")
    && (!command.dryRun && report.suggestedActions[k].risk == "mutating" ==>
          && trace[i - 1].Ran? && trace[i - 1].incident == trace[i].incident
          && trace[i - 1].command == Command(command.action, true) && trace[i - 1].reply.Output?)
  }

  lemma WrittenIsTold(trace: seq<Obs>, i: nat, db: Db, report: TriageReport, env: Env)
    requires WrittenBy(trace, i, db, report, env) && trace[i].Ran?
    ensures var c := |db.trace| - 1; c < i && trace[c].Called? && InTurn(trace, c, i)
  {
    hide ExecuteSpec, StepEvents, FullKey, ActionTexts, StepName;
    var lines, steps, n := FindLine(trace, i, db, report, env);
    var c := |db.trace| - 1;
    assert trace[c] == db.trace[c];
    StartedIsNoStep(trace[c + 1..i][0], lines[..n]);
    assert LineFits(lines, n, report.incidentId, report.suggestedActions, steps, env.redact);
    forall m | 0 <= m < n ensures !lines[..n][m].Called? {
      assert LineFits(lines, m, report.incidentId, report.suggestedActions, steps, env.redact);
    }
  }

  /** In every run each command belongs to the call before it and is in turn there. */
  lemma MutatingRunsAreRehearsed(cfg: Config, ops: seq<Op>, i: nat) returns (c: nat)
    requires Legal(cfg, ops) && i < |WorldAfter(cfg, ops).db.trace| && WorldAfter(cfg, ops).db.trace[i].Ran?
    ensures var trace := WorldAfter(cfg, ops).db.trace;
            c < i && trace[c].Called? && InTurn(trace, c, i)
  {
    hide WorldAfter, Legal, ExecuteSpec, StepEvents, Told, LineFits, InTurn;
    var trace := WorldAfter(cfg, ops).db.trace;
    var db, report, env := CommandsAreWritten(cfg, ops, i);
    c := |db.trace| - 1;
    WrittenIsTold(trace, i, db, report, env);
  }
}
