// store.py: the tables the approval and execution paths share, and the order in
// which the outside world sees their effects.

module Database {
  import opened Prelude
  import opened ReportSchema

  const OPEN := "open"
  const INVESTIGATING := "investigating"
  const MITIGATED := "mitigated"
  const RESOLVED := "resolved"

  /** Timeline events. Other(kind) stands for the rows that triage, correlation and the servicer write. */
  datatype Event =
    | ApprovalAutoApproved(step: string)
    | DryRunUnavailable(step: string)
    | ApprovalRequested(rid: string, step: string, target: string)
    | ApprovalGranted(rid: string, user: string)
    | ApprovalRejected(rid: string, user: string, reason: string)
    | OverrideIndexed(rid: string, reason: string)
    | ApprovalEscalated(rid: string, from: string, to: string)
    | ApprovalAbandoned(rid: string, attempts: seq<string>, timeouts: nat)
    | ExecutionSkipped(reason: string)
    | ExecutionStarted(key: string, actions: seq<string>)
    | StepCompleted(step: string, output: string)
    | StepFailed(step: string, error: string)
    | ExecutionFinished(stepsOk: nat, stepsTotal: nat)
    | StatusChanged(source: string, target: string)
    | IllegalTransition(current: string, target: string)
    | Other(kind: string)

  datatype Command = Command(action: string, dryRun: bool)

  /** What the injected command runner does: it returns text, or it raises (a timeout included). */
  datatype Reply = Output(text: string) | Raised(text: string)

  /** Everything observable, in the order it happens. */
  datatype Obs =
    | Logged(incident: string, event: Event)
    | Registered(rid: string, about: string, report: TriageReport)
    | Called(rid: string, report: TriageReport)
    | Ran(incident: string, command: Command, reply: Reply)

  datatype ApprovalRow = ApprovalRow(incident: string, report: Doc, state: string, createdAt: real)

  const PENDING := "pending"

  /** The contents of the database, with the history beside them. */
  datatype Db = Db(
    incidents: map<string, string>,           // id -> status
    executed: map<string, bool>,              // action_key -> done_at is set
    approvals: map<string, ApprovalRow>,      // approval_requests
    trace: seq<Obs>)

  datatype Row = Row(incident: string, event: Event)

  /** The timeline table inside a history. */
  function Timeline(trace: seq<Obs>): seq<Row> {
    if trace == [] then []
    else
      var last := trace[|trace| - 1];
      Timeline(trace[..|trace| - 1]) + if last.Logged? then [Row(last.incident, last.event)] else []
  }

  lemma TimelineSnoc(trace: seq<Obs>, o: Obs)
    ensures Timeline(trace + [o]) == Timeline(trace) + if o.Logged? then [Row(o.incident, o.event)] else []
  {
    assert (trace + [o])[..|trace|] == trace;
  }

  function After(db: Db, incident: string, e: Event): Db {
    Extend(db, [Logged(incident, e)])
  }

  function Extend(db: Db, obs: seq<Obs>): Db {
    db.(trace := db.trace + obs)
  }

  lemma ExtendTwice(db: Db, a: seq<Obs>, b: seq<Obs>)
    ensures Extend(Extend(db, a), b) == Extend(db, a + b)
    ensures Extend(db, []) == db
  {
    assert db.trace + a + b == db.trace + (a + b);
  }

  predicate GrantedOn(o: Obs, incident: string) {
    o.Logged? && o.incident == incident && o.event.ApprovalGranted?
  }

  predicate GrantRow(r: Row, incident: string) {
    r.incident == incident && r.event.ApprovalGranted?
  }

  predicate RowsHaveGrant(rows: seq<Row>, incident: string) {
    exists i | 0 <= i < |rows| :: GrantRow(rows[i], incident)
  }

  /** has_timeline_kind(incident, "approval_granted") */
  predicate HasGrant(trace: seq<Obs>, incident: string) {
    exists i | 0 <= i < |trace| :: GrantedOn(trace[i], incident)
  }

  lemma {:induction false} GrantIsInTimeline(trace: seq<Obs>, incident: string)
    ensures HasGrant(trace, incident) <==>
            RowsHaveGrant(Timeline(trace), incident)
  {
    if trace != [] {
      var n := |trace| - 1;
      GrantIsInTimeline(trace[..n], incident);
      var front := Timeline(trace[..n]);
      if HasGrant(trace, incident) && !GrantedOn(trace[n], incident) {
        var i :| 0 <= i < |trace| && GrantedOn(trace[i], incident);
        assert GrantedOn(trace[..n][i], incident);
        var k :| 0 <= k < |front| && GrantRow(front[k], incident);
        assert Timeline(trace)[k] == front[k];
      }
      if GrantedOn(trace[n], incident) {
        assert Timeline(trace)[|front|] == Row(incident, trace[n].event);
      }
    }
  }

  class Store {
    var incidents: map<string, string>
    var executed: map<string, bool>
    var approvals: map<string, ApprovalRow>
    var timeline: seq<Row>
    ghost var trace: seq<Obs>

    ghost predicate Valid() reads this {
      timeline == Timeline(trace)
    }

    ghost function View(): Db reads this {
      Db(incidents, executed, approvals, trace)
    }

    constructor ()
      ensures Valid() && View() == Db(map[], map[], map[], [])
    {
      incidents, executed, approvals, timeline, trace := map[], map[], map[], [], [];
    }

    /** HashChain.append: refuses an unknown incident (ValueError). */
    method Append(incident: string, e: Event) returns (ok: bool)
      requires Valid()
      modifies this
      ensures Valid() && ok == (incident in old(incidents))
      ensures View() == if ok then After(old(View()), incident, e) else old(View())
    {
      if incident !in incidents {
        return false;
      }
      TimelineSnoc(trace, Logged(incident, e));
      timeline := timeline + [Row(incident, e)];
      trace := trace + [Logged(incident, e)];
      return true;
    }

    /** History only: something happened that is not a timeline row. */
    ghost method Note(o: Obs)
      requires Valid() && !o.Logged?
      modifies this
      ensures Valid() && View() == Extend(old(View()), [o])
    {
      TimelineSnoc(trace, o);
      trace := trace + [o];
    }

    method HasApprovalGranted(incident: string) returns (found: bool)
      requires Valid()
      ensures found == HasGrant(trace, incident)
    {
      GrantIsInTimeline(trace, incident);
      found := RowsHaveGrant(timeline, incident);
    }

    method UpdateStatus(incident: string, status: string)
      requires Valid() && incident in incidents
      modifies this
      ensures Valid() && View() == old(View()).(incidents := old(incidents)[incident := status])
    {
      incidents := incidents[incident := status];
    }

    method RecordActionStarted(key: string)
      requires Valid()
      modifies this
      ensures Valid() && View() == old(View()).(executed := Started(old(executed), key))
    {
      if key !in executed {
        executed := executed[key := false];
      }
    }

    method MarkActionDone(key: string)
      requires Valid()
      modifies this
      ensures Valid() && View() == old(View()).(executed := Finished(old(executed), key))
    {
      if key in executed {
        executed := executed[key := true];
      }
    }

    method RecordPendingApproval(rid: string, incident: string, report: Doc, now: real)
      requires Valid()
      modifies this
      ensures Valid()
      ensures View() == old(View()).(approvals := WithRequest(old(approvals), rid, ApprovalRow(incident, report, PENDING, now)))
    {
      if rid !in approvals {
        approvals := approvals[rid := ApprovalRow(incident, report, PENDING, now)];
      }
    }

    method MarkApprovalDone(rid: string, state: string)
      requires Valid()
      modifies this
      ensures Valid() && View() == old(View()).(approvals := Closed(old(approvals), rid, state))
    {
      if rid in approvals {
        approvals := approvals[rid := approvals[rid].(state := state)];
      }
    }
  }

  /** INSERT OR IGNORE INTO executed_actions */
  function Started(executed: map<string, bool>, key: string): map<string, bool> {
    if key in executed then executed else executed[key := false]
  }

  /** UPDATE executed_actions SET done_at */
  function Finished(executed: map<string, bool>, key: string): map<string, bool> {
    if key in executed then executed[key := true] else executed
  }

  /** INSERT OR IGNORE INTO approval_requests */
  function WithRequest(rows: map<string, ApprovalRow>, rid: string, row: ApprovalRow): map<string, ApprovalRow> {
    if rid in rows then rows else rows[rid := row]
  }

  /** mark_approval_done: overwrites whatever state the row had. */
  function Closed(rows: map<string, ApprovalRow>, rid: string, state: string): map<string, ApprovalRow> {
    if rid in rows then rows[rid := rows[rid].(state := state)] else rows
  }

  predicate PendingRow(rows: map<string, ApprovalRow>, rid: string) {
    rid in rows && rows[rid].state == PENDING
  }

  predicate Done(executed: map<string, bool>, key: string) {
    key in executed && executed[key]
  }
}
