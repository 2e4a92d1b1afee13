// The steps of module GateThreads, taken without interruption, are the gate and the orchestrator of ApprovalFlow.

module GateRefines {
  import opened Prelude
  import opened ReportSchema
  import opened Database
  import opened Executor
  import Gate = ApprovalGate
  import opened ApprovalGate
  import opened ApprovalFlow
  import opened Guarantees
  import opened GateThreads

  function Alone(s: Sys, t: nat, c: Chain, k: nat): Sys {
    if k == 0 then s else Next(Alone(s, t, c, k - 1), Turn(t), c)
  }

  /** s with call t at pc, its request object e, and these keys and rows. */
  function With(s: Sys, t: nat, pc: Pc, e: Entry, held: set<string>, rows: set<string>): Sys
    requires t in s.jobs
  {
    s.(pc := s.pc[t := pc], entries := s.entries[s.jobs[t].rid := e], held := held, rows := rows)
  }

  /** What two states agree on; who deleted what, and the history, are left out. */
  predicate Same(a: Sys, b: Sys) {
    a.jobs == b.jobs && a.pc == b.pc && a.entries == b.entries && a.held == b.held && a.rows == b.rows
  }

  /** Call t, left alone, comes from s to such a state. */
  ghost predicate Comes(s: Sys, t: nat, c: Chain, to: Sys) {
    exists k: nat :: Same(Alone(s, t, c, k), to)
  }

  lemma SameNext(a: Sys, b: Sys, t: nat, c: Chain)
    requires Same(a, b)
    ensures Same(Next(a, Turn(t), c), Next(b, Turn(t), c))
  {
    hide GoesOn;
  }

  /** One turn more. */
  lemma ThenTurn(s: Sys, t: nat, c: Chain, mid: Sys, to: Sys)
    requires Comes(s, t, c, mid) && Same(Next(mid, Turn(t), c), to)
    ensures Comes(s, t, c, to)
  {
    hide Next;
    var k: nat :| Same(Alone(s, t, c, k), mid);
    SameNext(Alone(s, t, c, k), mid, t, c);
    assert Same(Alone(s, t, c, k + 1), to);
  }

  /** A turn with the request object in hand. */
  lemma Turns(s: Sys, t: nat, c: Chain, pc: Pc, e: Entry, held: set<string>, rows: set<string>)
    requires t in s.jobs && s.jobs[t].rid in s.entries
    requires Comes(s, t, c, With(s, t, pc, e, held, rows))
    ensures var v := With(s, t, pc, e, held, rows);
            && Ready(v, t)
            && Comes(s, t, c, With(s, t, PcAfter(v, t, c), EntryAfter(e, pc),
                                   if DeletesIt(v, t) then held - {s.jobs[t].rid} else held,
                                   if pc.Closes? then rows - {s.jobs[t].rid} else rows))
  {
    hide PcAfter, EntryAfter, Comes;
    var rid, v := s.jobs[t].rid, With(s, t, pc, e, held, rows);
    var to := With(s, t, PcAfter(v, t, c), EntryAfter(e, pc), if DeletesIt(v, t) then held - {rid} else held,
                   if pc.Closes? then rows - {rid} else rows);
    assert v.pc[t := PcAfter(v, t, c)] == to.pc;
    assert v.entries[rid := EntryAfter(e, pc)] == to.entries;
    ThenTurn(s, t, c, v, to);
  }

  // ---------------------------------------------------------------- the two pictures of the gate

  /** The dictionary, its objects and the pending rows of the one are those of the other. */
  ghost predicate Agree(s: Sys, c: Chain, w: World) {
    && s.held == w.pending.Keys && s.held <= s.entries.Keys
    && (forall rid | rid in w.pending ::
          s.entries[rid] == Entry(w.pending[rid].state, w.pending[rid].timeouts, LastTarget(c, w.pending[rid]))
          && w.pending[rid].incident in w.db.incidents)
    && (forall rid :: rid in s.rows <==> PendingRow(w.db.approvals, rid))
  }

  /** A call about to begin. */
  predicate Begins(s: Sys, t: nat, verb: Verb) {
    t in s.jobs && s.jobs[t].verb == verb && t in s.pc && s.pc[t].Gets?
  }

  lemma Starts(s: Sys, t: nat, c: Chain)
    requires t in s.jobs && Begins(s, t, s.jobs[t].verb) && s.jobs[t].rid in s.entries
    ensures Comes(s, t, c, With(s, t, Gets, s.entries[s.jobs[t].rid], s.held, s.rows))
  {
    assert Same(Alone(s, t, c, 0), With(s, t, Gets, s.entries[s.jobs[t].rid], s.held, s.rows));
  }

  lemma UnheldTurn(s: Sys, t: nat, c: Chain)
    requires t in s.jobs && Begins(s, t, s.jobs[t].verb) && s.jobs[t].rid !in s.held
    ensures var to := Next(s, Turn(t), c);
            && Comes(s, t, c, to) && to.jobs == s.jobs && to.entries == s.entries && to.held == s.held && to.rows == s.rows
            && t in to.pc && to.pc[t] == if s.jobs[t].verb.Reject? then Closes else Left
  {
    hide GoesOn, EntryAfter;
    assert Same(Alone(s, t, c, 0), s);
    UntouchedEntry(s, t, c);
    ThenTurn(s, t, c, s, Next(s, Turn(t), c));
  }

  lemma ClosingTurn(s: Sys, t: nat, c: Chain, mid: Sys)
    requires t in s.jobs && Comes(s, t, c, mid) && mid.jobs == s.jobs && t in mid.pc && mid.pc[t].Closes?
    ensures var to := Next(mid, Turn(t), c);
            && Comes(s, t, c, to) && to.entries == mid.entries && to.held == mid.held
            && to.rows == mid.rows - {s.jobs[t].rid} && t in to.pc && to.pc[t].Left?
  {
    hide GoesOn, EntryAfter, Comes;
    UntouchedEntry(mid, t, c);
    ThenTurn(s, t, c, mid, Next(mid, Turn(t), c));
  }

  /** A request that is not held is refused; a rejection closes its row. */
  lemma UnheldAlone(s: Sys, t: nat, c: Chain) returns (to: Sys)
    requires t in s.jobs && Begins(s, t, s.jobs[t].verb) && s.jobs[t].rid !in s.held
    ensures Comes(s, t, c, to) && t in to.pc && to.pc[t].Left? && to.entries == s.entries && to.held == s.held
    ensures to.rows == if s.jobs[t].verb.Reject? then s.rows - {s.jobs[t].rid} else s.rows
  {
    UnheldTurn(s, t, c);
    hide Next, Comes;
    to := Next(s, Turn(t), c);
    if s.jobs[t].verb.Reject? {
      ClosingTurn(s, t, c, to);
      to := Next(to, Turn(t), c);
    }
  }

  lemma NoEntryChange(e: Entry)
    ensures EntryAfter(e, Gets) == e && EntryAfter(e, Closes) == e
  {
  }

  lemma UntouchedEntry(s: Sys, t: nat, c: Chain)
    requires Ready(s, t) && (s.pc[t].Gets? || s.pc[t].Closes?)
    ensures TakeTurn(s, t, c).entries == s.entries
  {
    if s.jobs[t].rid in s.entries { NoEntryChange(s.entries[s.jobs[t].rid]); }
  }

  /** A callback or timeout that finds its request. */
  lemma FindsIt(s: Sys, t: nat, c: Chain)
    requires t in s.jobs && Begins(s, t, s.jobs[t].verb) && s.jobs[t].rid in s.held && s.held <= s.entries.Keys
    ensures Comes(s, t, c, With(s, t, Checks, s.entries[s.jobs[t].rid], s.held, s.rows))
  {
    hide Comes, GoesOn;
    Starts(s, t, c);
    Turns(s, t, c, Gets, s.entries[s.jobs[t].rid], s.held, s.rows);
  }

  lemma ApproveAlone(s: Sys, t: nat, c: Chain) returns (to: Sys)
    requires Begins(s, t, Approve) && s.jobs[t].rid in s.held && s.held <= s.entries.Keys
    ensures Comes(s, t, c, to) && t in to.pc && to.pc[t].Left? && to.rows == s.rows
    ensures var rid := s.jobs[t].rid;
            var taken := s.entries[rid].state.Pending?;
            && to.held == (if taken then s.held - {rid} else s.held)
            && to.entries == (if taken then s.entries[rid := s.entries[rid].(state := Approved)] else s.entries)
  {
    hide Comes, GoesOn;
    var rid, e := s.jobs[t].rid, s.entries[s.jobs[t].rid];
    FindsIt(s, t, c);
    Turns(s, t, c, Checks, e, s.held, s.rows);
    if e.state.Pending? {
      var less, approved := s.held - {rid}, e.(state := Approved);
      Turns(s, t, c, Deletes, e, s.held, s.rows);
      Turns(s, t, c, Marks, e, less, s.rows);
      Turns(s, t, c, Logs, approved, less, s.rows);
      Turns(s, t, c, Fetches, approved, less, s.rows);
      to := With(s, t, Left, approved, less, s.rows);
    } else {
      to := With(s, t, Left, e, s.held, s.rows);
      assert s.entries[rid := e] == s.entries;
    }
  }

  lemma RejectAlone(s: Sys, t: nat, c: Chain) returns (to: Sys)
    requires Begins(s, t, Reject) && s.jobs[t].rid in s.held && s.held <= s.entries.Keys
    ensures Comes(s, t, c, to) && t in to.pc && to.pc[t].Left? && to.rows == s.rows - {s.jobs[t].rid} && to.entries == s.entries
    ensures to.held == if s.entries[s.jobs[t].rid].state.Pending? then s.held - {s.jobs[t].rid} else s.held
  {
    hide Comes, GoesOn;
    var rid, e := s.jobs[t].rid, s.entries[s.jobs[t].rid];
    FindsIt(s, t, c);
    Turns(s, t, c, Checks, e, s.held, s.rows);
    var held := s.held;
    if e.state.Pending? {
      held := s.held - {rid};
      Turns(s, t, c, Deletes, e, s.held, s.rows);
      Turns(s, t, c, Logs, e, held, s.rows);
    }
    Turns(s, t, c, Closes, e, held, s.rows);
    to := With(s, t, Left, e, held, s.rows - {rid});
    assert s.entries[rid := e] == s.entries;
  }

  /** A timeout up to its decision: the count is raised. */
  lemma TimeoutCounts(s: Sys, t: nat, c: Chain)
    requires Begins(s, t, Timeout) && s.jobs[t].rid in s.held && s.held <= s.entries.Keys && Waits(s.entries[s.jobs[t].rid])
    ensures var e := s.entries[s.jobs[t].rid];
            var counted := e.(timeouts := e.timeouts + 1);
            Comes(s, t, c, With(s, t, Tests(e.last), counted, s.held, s.rows))
  {
    hide Comes, GoesOn;
    var e := s.entries[s.jobs[t].rid];
    FindsIt(s, t, c);
    Turns(s, t, c, Checks, e, s.held, s.rows);
    Turns(s, t, c, Counts, e, s.held, s.rows);
    Turns(s, t, c, Adds(e.timeouts), e, s.held, s.rows);
    Turns(s, t, c, Asks, e.(timeouts := e.timeouts + 1), s.held, s.rows);
  }

  lemma TimeoutNotes(s: Sys, t: nat, c: Chain, e: Entry, target: string)
    requires t in s.jobs && s.jobs[t].rid in s.entries && Comes(s, t, c, With(s, t, Escalates(target), e, s.held, s.rows))
    ensures Comes(s, t, c, With(s, t, Left, Entry(State.Escalated, e.timeouts, target), s.held, s.rows))
  {
    hide Comes, GoesOn;
    var escalated := e.(state := State.Escalated);
    Turns(s, t, c, Escalates(target), e, s.held, s.rows);
    Turns(s, t, c, Notes(target), escalated, s.held, s.rows);
    Turns(s, t, c, LogsEscalation, escalated.(last := target), s.held, s.rows);
  }

  lemma TimeoutGoesOn(s: Sys, t: nat, c: Chain, e: Entry) returns (to: Sys)
    requires t in s.jobs && s.jobs[t].rid in s.entries && Comes(s, t, c, With(s, t, Tests(e.last), e, s.held, s.rows))
    requires GoesOn(c, e.last, e.timeouts)
    ensures to == With(s, t, Left, Entry(State.Escalated, e.timeouts, TargetFor(c, e.last)), s.held, s.rows) && Comes(s, t, c, to)
  {
    hide Comes, TargetFor, GoesOn;
    Turns(s, t, c, Tests(e.last), e, s.held, s.rows);
    TimeoutNotes(s, t, c, e, TargetFor(c, e.last));
    to := With(s, t, Left, Entry(State.Escalated, e.timeouts, TargetFor(c, e.last)), s.held, s.rows);
  }

  lemma TimeoutEnds(s: Sys, t: nat, c: Chain, e: Entry) returns (to: Sys)
    requires t in s.jobs && s.jobs[t].verb.Timeout? && s.jobs[t].rid in s.entries && s.jobs[t].rid in s.held
    requires Comes(s, t, c, With(s, t, Tests(e.last), e, s.held, s.rows)) && !GoesOn(c, e.last, e.timeouts)
    ensures var rid := s.jobs[t].rid;
            to == With(s, t, Left, e.(state := Abandoned), s.held - {rid}, s.rows - {rid}) && Comes(s, t, c, to)
  {
    hide Comes, TargetFor, GoesOn;
    var rid, abandoned, less := s.jobs[t].rid, e.(state := Abandoned), s.held - {s.jobs[t].rid};
    Turns(s, t, c, Tests(e.last), e, s.held, s.rows);
    Turns(s, t, c, Abandons, e, s.held, s.rows);
    Turns(s, t, c, Deletes, abandoned, s.held, s.rows);
    Turns(s, t, c, Logs, abandoned, less, s.rows);
    Turns(s, t, c, Closes, abandoned, less, s.rows);
    to := With(s, t, Left, abandoned, less, s.rows - {rid});
  }

  lemma TimeoutAlone(s: Sys, t: nat, c: Chain) returns (to: Sys)
    requires Begins(s, t, Timeout) && s.jobs[t].rid in s.held && s.held <= s.entries.Keys && Waits(s.entries[s.jobs[t].rid])
    ensures Comes(s, t, c, to) && t in to.pc && to.pc[t].Left?
    ensures var rid, e := s.jobs[t].rid, s.entries[s.jobs[t].rid];
            var on := e.timeouts == 0 || c.next(e.last).Some?;
            && to.held == (if on then s.held else s.held - {rid}) && to.rows == (if on then s.rows else s.rows - {rid})
            && to.entries == s.entries[rid := Entry(if on then State.Escalated else State.Abandoned, e.timeouts + 1,
                                                    if on then TargetFor(c, e.last) else e.last)]
  {
    hide Comes, TargetFor;
    var e := s.entries[s.jobs[t].rid];
    var counted := e.(timeouts := e.timeouts + 1);
    TimeoutCounts(s, t, c);
    if GoesOn(c, e.last, counted.timeouts) {
      to := TimeoutGoesOn(s, t, c, counted);
    } else {
      to := TimeoutEnds(s, t, c, counted);
    }
  }

  // ---------------------------------------------------------------- one callback, one row of a tick

  /** What answering a request that is held as pending does to the dictionary and the rows. */
  lemma AnswerTakes(w: World, cfg: Config, kind: string, rid: string, user: string, reason: string, replies: nat -> Reply)
    requires cfg.hasRunner && (kind == "approve" || kind == "reject")
    requires Waiting(w.pending, rid, Pending) && w.pending[rid].incident in w.db.incidents
    ensures var after := HandleAction(w, cfg, kind, rid, user, reason, replies).0;
            && after.pending == Without(w.pending, rid) && after.db.incidents == w.db.incidents
            && after.db.approvals == if kind == "reject" then Database.Closed(w.db.approvals, rid, "rejected") else w.db.approvals
  {
    hide ExecuteSpec, Validate;
    if kind == "approve" && PendingRow(w.db.approvals, rid) {
      var verdict := Validate(w.db.approvals[rid].report, None);
      if verdict.Accepted? {
        var called := Extend(OnApprove(w, rid, user).0.db, [Obs.Called(rid, verdict.report)]);
        ExecuteOnlyAdds(called, verdict.report.incidentId, verdict.report, Env(replies, cfg.redact));
        StatusesStay(called, verdict.report.incidentId, verdict.report, Env(replies, cfg.redact));
      }
    }
  }

  lemma StatusesStay(db: Db, id: string, report: TriageReport, env: Env)
    ensures ExecuteSpec(db, id, report, env).0.incidents == db.incidents
  {
  }

  /** A callback that is not interrupted leaves the dictionary, its objects and the rows as HandleAction does. */
  lemma CallbackAlone(s: Sys, t: nat, w: World, cfg: Config, user: string, reason: string, replies: nat -> Reply) returns (to: Sys)
    requires t in s.jobs && Begins(s, t, s.jobs[t].verb) && !s.jobs[t].verb.Timeout? && Agree(s, cfg.chain, w) && cfg.hasRunner
    ensures var kind := if s.jobs[t].verb.Approve? then "approve" else "reject";
            && Comes(s, t, cfg.chain, to) && t in to.pc && to.pc[t].Left?
            && Agree(to, cfg.chain, HandleAction(w, cfg, kind, s.jobs[t].rid, user, reason, replies).0)
  {
    hide Comes, HandleAction, LastTarget;
    var rid, kind := s.jobs[t].rid, if s.jobs[t].verb.Approve? then "approve" else "reject";
    var after := HandleAction(w, cfg, kind, rid, user, reason, replies).0;
    if rid !in s.held {
      to := UnheldAlone(s, t, cfg.chain);
    } else if s.jobs[t].verb.Approve? {
      to := ApproveAlone(s, t, cfg.chain);
    } else {
      to := RejectAlone(s, t, cfg.chain);
    }
    if Waiting(w.pending, rid, Pending) {
      AnswerTakes(w, cfg, kind, rid, user, reason, replies);
    } else {
      UnheldIsUnanswerable(w, cfg, kind, rid, user, reason, replies);
    }
  }

  /** What a due timeout does to the dictionary and the rows. */
  lemma TickTakes(w: World, cfg: Config, rid: string, now: real)
    requires Due(w.db.approvals, cfg, rid, now)
    ensures var (p, after) := (rid in w.pending && (w.pending[rid].state.Pending? || w.pending[rid].state.Escalated?), TickOne(w, cfg, rid, now).0);
            && after.db.incidents == w.db.incidents
            && (!p ==> after == w)
            && (p && Gate.Escalates(cfg.chain, w.pending[rid]) ==>
                  after.pending == w.pending[rid := TimedOut(cfg.chain, w.pending[rid])] && after.db.approvals == w.db.approvals)
            && (p && !Gate.Escalates(cfg.chain, w.pending[rid]) && w.pending[rid].incident in w.db.incidents ==>
                  && after.pending == Without(w.pending, rid)
                  && after.db.approvals == Database.Closed(w.db.approvals, rid, "abandoned"))
  {
    hide TimedOut, Gate.Escalates, TargetFor;
  }

  lemma TimedOutEntry(c: Chain, p: PendingApproval)
    ensures var q := TimedOut(c, p);
            && Entry(q.state, q.timeouts, LastTarget(c, q)) == Entry(State.Escalated, p.timeouts + 1, TargetFor(c, LastTarget(c, p)))
            && q.incident == p.incident
  {
  }

  /** A timeout that is not interrupted leaves them as one row of tick_timeouts does. */
  lemma TimeoutIsTick(s: Sys, t: nat, w: World, cfg: Config, now: real) returns (to: Sys)
    requires Begins(s, t, Timeout) && Agree(s, cfg.chain, w) && Due(w.db.approvals, cfg, s.jobs[t].rid, now)
    requires forall rid | rid in w.pending :: w.pending[rid].state.Pending? || w.pending[rid].state.Escalated?
    ensures Comes(s, t, cfg.chain, to) && t in to.pc && to.pc[t].Left?
    ensures Agree(to, cfg.chain, TickOne(w, cfg, s.jobs[t].rid, now).0)
  {
    hide Comes, TargetFor, TickOne, LastTarget, TimedOut;
    var rid := s.jobs[t].rid;
    TickTakes(w, cfg, rid, now);
    if rid in s.held {
      TimedOutEntry(cfg.chain, w.pending[rid]);
      to := TimeoutAlone(s, t, cfg.chain);
    } else {
      to := UnheldAlone(s, t, cfg.chain);
    }
  }
}
