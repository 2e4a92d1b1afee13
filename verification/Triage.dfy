// brain/triage.py: ask, validate, repair once, degrade. What the provider chain answers and what the
// incident's status is at each checkpoint are parameters.

module Triage {
  import opened Prelude
  import opened ReportSchema
  import opened Budget

  const ACTIVE_STATUSES := {"open", "investigating"}

  /** extract_json_object: the parsed object, a ValueError, or another exception. */
  datatype Extracted = Object(doc: Doc) | NoObject | Unreadable

  /** ProviderChain.complete: a completion, or an exception. */
  datatype Answer = Completed(tokens: int, text: Extracted) | NoAnswer

  datatype Moment = Moment(before: string, first: Answer, after: string, second: Answer)

  datatype Input = Input(incident: string, degradedSources: seq<string>)

  datatype Cause = OverBudget | OverBudgetInRepair | StillInvalid | ProviderFailure

  /** The event that ends a run. TriageAborted is written outside the hash chain. */
  datatype Event =
    | TriageAborted(status: string, note: string)
    | TriageCompleted(promptVersion: string, repairs: nat)
    | SchemaFailure(cause: Cause, repairs: nat)

  datatype Outcome =
    | Reported(report: TriageReport, repairs: nat)
    | Degraded(cause: Cause, repairs: nat, tokens: int)
    | Aborted(status: string, tokens: int)

  /** What one run did: chain calls made, completions recorded, events, predictions, outcome. */
  datatype Effect = Effect(calls: nat, records: seq<int>, events: seq<Event>, predictions: seq<TriageReport>, outcome: Outcome)

  // ---------------------------------------------------------------- what a run does

  function Judge(text: Extracted, incident: string): Verdict {
    match text
    case Object(doc) => Validate(doc, Some(incident))
    case NoObject => Invalid([])
    case Unreadable => TypeErrorRaised
  }

  function Unavailable(sources: seq<string>): seq<string> {
    seq(|sources|, i requires 0 <= i < |sources| => "context unavailable: " + sources[i])
  }

  function WithMissing(r: TriageReport, sources: seq<string>): TriageReport {
    if sources != [] && r.missingContext == [] then r.(missingContext := Unavailable(sources)) else r
  }

  function Finish(input: Input, report: TriageReport, calls: nat, records: seq<int>, repairs: nat): Effect {
    var r := WithMissing(report, input.degradedSources);
    Effect(calls, records, [TriageCompleted(r.promptVersion, repairs)], [r], Reported(r, repairs))
  }

  function Degrade(cause: Cause, repairs: nat, a: Account, calls: nat, records: seq<int>): Effect {
    Effect(calls, records, [SchemaFailure(cause, repairs)], [], Degraded(cause, repairs, a.tokens))
  }

  function Abort(status: string, note: string, a: Account, calls: nat, records: seq<int>): Effect {
    Effect(calls, records, [TriageAborted(status, note)], [], Aborted(status, a.tokens))
  }

  function RunSpec(input: Input, a: Account, limits: Limits, m: Moment): Effect {
    if m.before !in ACTIVE_STATUSES then Abort(m.before, "before_rag", a, 0, []) else AskSpec(input, a, limits, m)
  }

  function AskSpec(input: Input, a: Account, limits: Limits, m: Moment): Effect {
    if !CanSpend(a, limits, 0) then Degrade(OverBudget, 0, a, 0, [])
    else if m.first.NoAnswer? then Degrade(ProviderFailure, 0, a, 1, [])
    else
      var a1 := Recorded(a, m.first.tokens);
      if m.after !in ACTIVE_STATUSES then Abort(m.after, "after_first_llm", a1, 1, [m.first.tokens])
      else
        match Judge(m.first.text, input.incident)
        case Accepted(report) => Finish(input, report, 1, [m.first.tokens], 0)
        case TypeErrorRaised => Degrade(ProviderFailure, 0, a1, 1, [m.first.tokens])
        case Invalid(_) => RepairSpec(input, a1, limits, m)
  }

  function RepairSpec(input: Input, a1: Account, limits: Limits, m: Moment): Effect
    requires m.first.Completed?
  {
    if !CanSpend(a1, limits, 0) then Degrade(OverBudgetInRepair, 1, a1, 1, [m.first.tokens])
    else if m.second.NoAnswer? then Degrade(ProviderFailure, 0, a1, 2, [m.first.tokens])
    else
      var a2 := Recorded(a1, m.second.tokens);
      var records := [m.first.tokens, m.second.tokens];
      match Judge(m.second.text, input.incident)
      case Accepted(report) => Finish(input, report, 2, records, 1)
      case TypeErrorRaised => Degrade(ProviderFailure, 0, a2, 2, records)
      case Invalid(_) => Degrade(StillInvalid, 1, a2, 2, records)
  }

  /** The account once these completions are recorded. */
  function Charged(a: Account, records: seq<int>): Account {
    Account(a.calls + |records|, a.tokens + Sum(records))
  }

  lemma SumOfTwo(x: int, y: int)
    ensures Sum([x]) == x && Sum([x, y]) == x + y
  {
    assert [x, y][..1] == [x] && [x][..0] == [];
  }

  // ---------------------------------------------------------------- the pipeline

  datatype Logged = Logged(incident: string, event: Event)

  class TriagePipeline {
    const ledger: BudgetLedger
    var timeline: seq<Logged>
    var predictions: seq<TriageReport>

    constructor (ledger: BudgetLedger)
      ensures this.ledger == ledger && timeline == [] && predictions == []
    {
      this.ledger, timeline, predictions := ledger, [], [];
    }

    /** The outcome if the incident is no longer active. */
    method Checkpoint(incident: string, status: string, note: string, tokens: int) returns (aborted: Option<Outcome>)
      modifies this`timeline
      ensures status in ACTIVE_STATUSES ==> aborted == None && timeline == old(timeline)
      ensures status !in ACTIVE_STATUSES ==>
                && aborted == Some(Aborted(status, tokens))
                && timeline == old(timeline) + [Logged(incident, TriageAborted(status, note))]
    {
      if status !in ACTIVE_STATUSES {
        timeline := timeline + [Logged(incident, TriageAborted(status, note))];
        return Some(Aborted(status, tokens));
      }
      return None;
    }

    method FinishReport(input: Input, report: TriageReport, repairs: nat) returns (o: Outcome)
      modifies this`timeline, this`predictions
      ensures o == Reported(WithMissing(report, input.degradedSources), repairs)
      ensures timeline == old(timeline) + [Logged(input.incident, TriageCompleted(report.promptVersion, repairs))]
      ensures predictions == old(predictions) + [WithMissing(report, input.degradedSources)]
    {
      var r := report;
      if input.degradedSources != [] && r.missingContext == [] {
        r := r.(missingContext := r.missingContext + Unavailable(input.degradedSources));
        assert r.missingContext == Unavailable(input.degradedSources);
      }
      predictions := predictions + [r];
      timeline := timeline + [Logged(input.incident, TriageCompleted(r.promptVersion, repairs))];
      return Reported(r, repairs);
    }

    method DegradeTo(input: Input, cause: Cause, repairs: nat, tokens: int) returns (o: Outcome)
      modifies this`timeline
      ensures o == Degraded(cause, repairs, tokens)
      ensures timeline == old(timeline) + [Logged(input.incident, SchemaFailure(cause, repairs))]
    {
      timeline := timeline + [Logged(input.incident, SchemaFailure(cause, repairs))];
      return Degraded(cause, repairs, tokens);
    }

    method Check(text: Extracted, incident: string) returns (v: Verdict)
      ensures v == Judge(text, incident)
    {
      match text
      case Object(doc) => v := ValidateReport(doc, Some(incident));
      case NoObject => v := Invalid([]);
      case Unreadable => v := TypeErrorRaised;
    }

    ghost predicate Did(e: Effect, incident: string, timeline0: seq<Logged>, predictions0: seq<TriageReport>) reads this {
      |e.events| == 1 && timeline == timeline0 + [Logged(incident, e.events[0])] && predictions == predictions0 + e.predictions
    }

    method Run(input: Input, m: Moment) returns (o: Outcome, calls: nat)
      requires ledger.Valid()
      modifies this, ledger, ledger.budgets.Values
      ensures ledger.Valid()
      ensures var e := RunSpec(input, old(ledger.Spent(input.incident)), ledger.limits, m);
              && o == e.outcome && calls == e.calls && Did(e, input.incident, old(timeline), old(predictions))
              && ledger.Spent(input.incident) == Charged(old(ledger.Spent(input.incident)), e.records)
      ensures forall i | i != input.incident :: ledger.Spent(i) == old(ledger.Spent(i))
    {
      hide AskSpec;
      var budget := ledger.BudgetFor(input.incident);
      var aborted := Checkpoint(input.incident, m.before, "before_rag", budget.tokens);
      if aborted.Some? {
        return aborted.value, 0;
      }
      o, calls := Ask(input, m, budget);
    }

    /** From the first budget check on. */
    method Ask(input: Input, m: Moment, budget: TokenBudget) returns (o: Outcome, calls: nat)
      modifies this, budget
      ensures var e := AskSpec(input, old(budget.View()), budget.limits, m);
              && o == e.outcome && calls == e.calls && Did(e, input.incident, old(timeline), old(predictions))
              && budget.View() == Charged(old(budget.View()), e.records)
    {
      hide Judge, RepairSpec;
      var denied := budget.AssertCanSpend(0);
      if denied.Some? {
        o := DegradeTo(input, OverBudget, 0, budget.tokens);
        return o, 0;
      }
      calls := 1;
      if m.first.NoAnswer? {
        o := DegradeTo(input, ProviderFailure, 0, budget.tokens);
        return o, calls;
      }
      budget.Record(m.first.tokens);
      SumOfTwo(m.first.tokens, 0);
      var aborted := Checkpoint(input.incident, m.after, "after_first_llm", budget.tokens);
      if aborted.Some? {
        return aborted.value, calls;
      }
      var v := Check(m.first.text, input.incident);
      if v.Accepted? {
        o := FinishReport(input, v.report, 0);
      } else if v.TypeErrorRaised? {
        o := DegradeTo(input, ProviderFailure, 0, budget.tokens);
      } else {
        o, calls := Repair(input, m, budget, old(budget.View()));
      }
    }

    /** The second question; the first answer is already charged. */
    method Repair(input: Input, m: Moment, budget: TokenBudget, ghost before: Account) returns (o: Outcome, calls: nat)
      requires m.first.Completed? && budget.View() == Recorded(before, m.first.tokens)
      modifies this, budget
      ensures var e := RepairSpec(input, old(budget.View()), budget.limits, m);
              && o == e.outcome && calls == e.calls && Did(e, input.incident, old(timeline), old(predictions))
              && budget.View() == Charged(before, e.records)
    {
      hide Judge;
      SumOfTwo(m.first.tokens, if m.second.Completed? then m.second.tokens else 0);
      calls := 1;
      var denied := budget.AssertCanSpend(0);
      if denied.Some? {
        o := DegradeTo(input, OverBudgetInRepair, 1, budget.tokens);
        return o, calls;
      }
      calls := 2;
      if m.second.NoAnswer? {
        o := DegradeTo(input, ProviderFailure, 0, budget.tokens);
        return o, calls;
      }
      budget.Record(m.second.tokens);
      var v := Check(m.second.text, input.incident);
      if v.Accepted? {
        o := FinishReport(input, v.report, 1);
      } else if v.TypeErrorRaised? {
        o := DegradeTo(input, ProviderFailure, 0, budget.tokens);
      } else {
        o := DegradeTo(input, StillInvalid, 1, budget.tokens);
      }
    }
  }
}
