// What triage promises: bounded cost over any number of runs, and what a report can be relied on for.

module TriageRuns {
  import opened Prelude
  import opened ReportSchema
  import opened Budget
  import opened Triage

  /** The text holds a report for the incident. */
  predicate Holds(answer: Answer, incident: string) {
    answer.Completed? && answer.text.Object? && Meets(answer.text.doc, Some(incident))
  }

  /** The text is one that a repair may be asked for: a ValueError, not another exception. */
  predicate Repairable(answer: Answer, incident: string) {
    answer.Completed? && !Holds(answer, incident)
    && (answer.text.NoObject? || (answer.text.Object? && !RaisesTypeError(answer.text.doc)))
  }

  lemma JudgeIs(answer: Answer, incident: string)
    requires answer.Completed?
    ensures Judge(answer.text, incident).Accepted? <==> Holds(answer, incident)
    ensures Judge(answer.text, incident).Invalid? <==> Repairable(answer, incident)
    ensures Holds(answer, incident) ==>
              var r := Judge(answer.text, incident).report;
              r == Read(answer.text.doc) && r.incidentId == incident && r.validated && WellFormed(r)
  {
    hide Meets, Complaints, RaisesTypeError, WellFormed, Mirrors, Read;
    if answer.text.Object? {
      AcceptedIffContract(answer.text.doc, Some(incident));
    }
  }

  /** When a run ends in a report: exactly when the first answer holds one, or the one repair does. */
  lemma ReportedIff(input: Input, a: Account, limits: Limits, m: Moment)
    ensures RunSpec(input, a, limits, m).outcome.Reported? <==>
              && m.before in ACTIVE_STATUSES && CanSpend(a, limits, 0)
              && m.first.Completed? && m.after in ACTIVE_STATUSES
              && (Holds(m.first, input.incident)
                  || (Repairable(m.first, input.incident) && CanSpend(Recorded(a, m.first.tokens), limits, 0)
                      && Holds(m.second, input.incident)))
  {
    hide Judge, Holds, Repairable, WithMissing;
    if m.first.Completed? { JudgeIs(m.first, input.incident); }
    if m.second.Completed? { JudgeIs(m.second, input.incident); } else { NothingHolds(m.second, input.incident); }
  }

  lemma NothingHolds(answer: Answer, incident: string)
    requires answer.NoAnswer?
    ensures !Holds(answer, incident)
  {
  }

  /** What can be relied on in a report: it names the incident, keeps to the contract, and owns up to missing context. */
  predicate Reliable(r: TriageReport, input: Input) {
    && r.incidentId == input.incident && r.validated && WellFormed(r)
    && (input.degradedSources != [] ==> r.missingContext != [])
  }

  lemma MissingIsReliable(report: TriageReport, input: Input)
    requires report.incidentId == input.incident && report.validated && WellFormed(report)
    ensures Reliable(WithMissing(report, input.degradedSources), input)
    ensures report.missingContext != [] ==> WithMissing(report, input.degradedSources) == report
  {
  }

  predicate EventFits(e: Event, o: Outcome) {
    match o
    case Reported(r, repairs) => e == TriageCompleted(r.promptVersion, repairs)
    case Degraded(cause, repairs, _) => e == SchemaFailure(cause, repairs)
    case Aborted(status, _) => e.TriageAborted? && e.status == status
  }

  /**
   * Every run asks at most twice, logs exactly one outcome event, and saves a prediction exactly when it
   * reports, namely the report, which is reliable.
   */
  lemma EveryRunEndsOnce(input: Input, a: Account, limits: Limits, m: Moment)
    ensures var e := RunSpec(input, a, limits, m);
            && e.calls <= 2 && |e.records| <= e.calls
            && |e.events| == 1 && EventFits(e.events[0], e.outcome)
            && e.predictions == (if e.outcome.Reported? then [e.outcome.report] else [])
            && (e.outcome.Reported? ==> Reliable(e.outcome.report, input))
  {
    hide Judge, Holds, Repairable, WithMissing, Reliable, WellFormed;
    if m.first.Completed? {
      JudgeIs(m.first, input.incident);
      if Holds(m.first, input.incident) { MissingIsReliable(Judge(m.first.text, input.incident).report, input); }
    }
    if m.second.Completed? {
      JudgeIs(m.second, input.incident);
      if Holds(m.second, input.incident) { MissingIsReliable(Judge(m.second.text, input.incident).report, input); }
    }
    ExtensionKeepsVersion(m, input);
  }

  lemma ExtensionKeepsVersion(m: Moment, input: Input)
    ensures forall r :: WithMissing(r, input.degradedSources).promptVersion == r.promptVersion
  {
  }

  /** Missing context is the document's own; where that is empty, one entry for each degraded source, in order. */
  predicate MissingTold(r: TriageReport, doc: Doc, sources: seq<string>) {
    && "missing_context" in doc && doc["missing_context"].JArr?
    && if doc["missing_context"].items == [] && sources != []
       then |r.missingContext| == |sources|
            && forall i | 0 <= i < |sources| :: r.missingContext[i] == "context unavailable: " + sources[i]
       else doc["missing_context"] == StringsToJson(r.missingContext)
  }

  /** The report says what this answer's document says, and nothing else. */
  ghost predicate ReportOf(r: TriageReport, answer: Answer, input: Input) {
    && answer.Completed? && answer.text.Object? && Meets(answer.text.doc, Some(input.incident))
    && r.incidentId == input.incident && r.validated
    && Says(answer.text.doc, r) && MissingTold(r, answer.text.doc, input.degradedSources)
  }

  lemma FinishedIsTold(input: Input, answer: Answer)
    requires Holds(answer, input.incident)
    ensures Judge(answer.text, input.incident).Accepted?
    ensures ReportOf(WithMissing(Judge(answer.text, input.incident).report, input.degradedSources), answer, input)
  {
    JudgeIs(answer, input.incident);
    AcceptedIffContract(answer.text.doc, Some(input.incident));
    hide Meets, Read, WellFormed, SaysHypothesis, SaysAction, Complaints, RaisesTypeError, Validate;
    var r := Judge(answer.text, input.incident).report;
    assert Mirrors(r, answer.text.doc);
  }

  /**
   * A run that reports, reports the first answer if that meets the contract, with no repair, and otherwise the
   * second, with one: the same hypotheses and actions, item by item. What it saves as its prediction is that report.
   */
  lemma ReportIsTheAnswer(input: Input, a: Account, limits: Limits, m: Moment)
    requires RunSpec(input, a, limits, m).outcome.Reported?
    ensures var e := RunSpec(input, a, limits, m);
            var first := Holds(m.first, input.incident);
            && e.outcome.repairs == (if first then 0 else 1) && e.calls == (if first then 1 else 2)
            && ReportOf(e.outcome.report, if first then m.first else m.second, input)
            && e.predictions == [e.outcome.report]
  {
    hide Judge, Holds, Repairable, WithMissing, ReportOf, CanSpend;
    ReportedIff(input, a, limits, m);
    if m.first.Completed? { JudgeIs(m.first, input.incident); }
    if m.second.Completed? { JudgeIs(m.second, input.incident); }
    if Holds(m.first, input.incident) {
      FinishedIsTold(input, m.first);
    } else {
      FinishedIsTold(input, m.second);
    }
  }

  /** A run goes on past a checkpoint only with an open incident or one under investigation. */
  predicate Goes(status: string) {
    status == "open" || status == "investigating"
  }

  /** How a run ends that does not report, which it does exactly as ReportedIff says; and at what cost. */
  lemma EndsWithoutReport(input: Input, a: Account, limits: Limits, m: Moment)
    requires !RunSpec(input, a, limits, m).outcome.Reported?
    ensures var e := RunSpec(input, a, limits, m);
            var asks := Goes(m.before) && a.calls < limits.maxCalls && a.tokens < limits.maxTokens;
            var spent := a.tokens + Sum(e.records);
            var again := m.first.Completed? && a.calls + 1 < limits.maxCalls && a.tokens + m.first.tokens < limits.maxTokens;
            e.outcome ==
              if !Goes(m.before) then Aborted(m.before, spent)
              else if !asks then Degraded(OverBudget, 0, spent)
              else if m.first.NoAnswer? then Degraded(ProviderFailure, 0, spent)
              else if !Goes(m.after) then Aborted(m.after, spent)
              else if !Repairable(m.first, input.incident) then Degraded(ProviderFailure, 0, spent)
              else if !again then Degraded(OverBudgetInRepair, 1, spent)
              else if m.second.Completed? && Repairable(m.second, input.incident) then Degraded(StillInvalid, 1, spent)
              else Degraded(ProviderFailure, 0, spent)
    ensures var e := RunSpec(input, a, limits, m);
            e.outcome.Aborted? ==> e.events == [TriageAborted(e.outcome.status, if e.calls == 0 then "before_rag" else "after_first_llm")]
  {
    hide Judge, Holds, Repairable, WithMissing;
    if m.first.Completed? {
      JudgeIs(m.first, input.incident);
      SumOfTwo(m.first.tokens, if m.second.Completed? then m.second.tokens else 0);
    }
    if m.second.Completed? { JudgeIs(m.second, input.incident); }
  }

  /** A reported report, extended or not, is the very report that approval will read back from the store. */
  lemma ReportSurvivesStorage(input: Input, a: Account, limits: Limits, m: Moment)
    requires RunSpec(input, a, limits, m).outcome.Reported?
    ensures var r := RunSpec(input, a, limits, m).outcome.report;
            Validate(ReportToDict(r), None) == Accepted(r) && r.incidentId == input.incident
  {
    hide RunSpec, Validate, ReportToDict, WellFormed;
    EveryRunEndsOnce(input, a, limits, m);
    var r := RunSpec(input, a, limits, m).outcome.report;
    StoredReportReadsBack(r);
    assert r.(validated := true) == r;
  }

  // ---------------------------------------------------------------- many runs on one incident

  datatype Attempt = Attempt(degradedSources: seq<string>, moment: Moment)

  function EffectOf(incident: string, a: Account, limits: Limits, t: Attempt): Effect {
    RunSpec(Input(incident, t.degradedSources), a, limits, t.moment)
  }

  /** The account after the runs, one after the other. */
  function Spend(incident: string, limits: Limits, runs: seq<Attempt>): Account {
    if runs == [] then UNUSED
    else
      var a := Spend(incident, limits, runs[..|runs| - 1]);
      Charged(a, EffectOf(incident, a, limits, runs[|runs| - 1]).records)
  }

  /** The token counts recorded, in order. */
  function Records(incident: string, limits: Limits, runs: seq<Attempt>): seq<int> {
    if runs == [] then []
    else
      var front := runs[..|runs| - 1];
      Records(incident, limits, front) + EffectOf(incident, Spend(incident, limits, front), limits, runs[|runs| - 1]).records
  }

  /** How often the provider chain was asked, answered or not. */
  function Asked(incident: string, limits: Limits, runs: seq<Attempt>): nat {
    if runs == [] then 0
    else
      var front := runs[..|runs| - 1];
      Asked(incident, limits, front) + EffectOf(incident, Spend(incident, limits, front), limits, runs[|runs| - 1]).calls
  }

  /** Nothing is recorded without a check just before the call. */
  lemma RecordsAreChecked(input: Input, a: Account, limits: Limits, m: Moment)
    ensures var r := RunSpec(input, a, limits, m).records;
            && |r| <= 2
            && (|r| > 0 ==> CanSpend(a, limits, 0))
            && (|r| > 1 ==> CanSpend(Recorded(a, r[0]), limits, 0))
  {
    hide Judge, CanSpend, WithMissing;
  }

  lemma ChargeIsBacked(a: Account, records: seq<int>, limits: Limits, r: seq<int>)
    requires Backed(a, records, limits) && |r| <= 2
    requires |r| > 0 ==> CanSpend(a, limits, 0)
    requires |r| > 1 ==> CanSpend(Recorded(a, r[0]), limits, 0)
    ensures Backed(Charged(a, r), records + r, limits)
  {
    hide Backed, CanSpend;
    if |r| == 0 {
      assert records + r == records;
      assert Charged(a, r) == a;
    } else {
      RecordIsBacked(a, records, limits, r[0]);
      SumOfTwo(r[0], if |r| == 2 then r[1] else 0);
      if |r| == 1 {
        assert r == [r[0]];
      } else {
        assert r == [r[0], r[1]];
        RecordIsBacked(Recorded(a, r[0]), records + [r[0]], limits, r[1]);
        assert records + [r[0]] + [r[1]] == records + r;
      }
    }
  }

  lemma OneRunIsBacked(input: Input, a: Account, records: seq<int>, limits: Limits, m: Moment)
    requires Backed(a, records, limits)
    ensures var e := RunSpec(input, a, limits, m); Backed(Charged(a, e.records), records + e.records, limits)
  {
    hide *;
    RecordsAreChecked(input, a, limits, m);
    ChargeIsBacked(a, records, limits, RunSpec(input, a, limits, m).records);
  }

  /**
   * However often triage runs on an incident, and however its status changes meanwhile, the completions it
   * records never number more than max_calls, and before each of them the tokens were below max_tokens.
   */
  lemma {:induction false} SpendingIsBounded(incident: string, limits: Limits, runs: seq<Attempt>)
    ensures Backed(Spend(incident, limits, runs), Records(incident, limits, runs), limits)
  {
    if runs == [] {
    } else {
      hide RunSpec, Charged, Backed;
      var front, t := runs[..|runs| - 1], runs[|runs| - 1];
      SpendingIsBounded(incident, limits, front);
      OneRunIsBacked(Input(incident, t.degradedSources), Spend(incident, limits, front),
                     Records(incident, limits, front), limits, t.moment);
    }
  }

  /** The run gets as far as asking for the first time ... */
  predicate Asks(a: Account, limits: Limits, m: Moment) {
    m.before in ACTIVE_STATUSES && CanSpend(a, limits, 0)
  }

  /** ... and for the repair. */
  predicate AsksAgain(incident: string, a: Account, limits: Limits, m: Moment) {
    && Asks(a, limits, m) && m.first.Completed? && m.after in ACTIVE_STATUSES
    && Repairable(m.first, incident) && CanSpend(Recorded(a, m.first.tokens), limits, 0)
  }

  /** The calls of one run that got no answer. */
  function NoAnswers(incident: string, a: Account, limits: Limits, m: Moment): nat {
    if (Asks(a, limits, m) && m.first.NoAnswer?) || (AsksAgain(incident, a, limits, m) && m.second.NoAnswer?) then 1 else 0
  }

  /** Every call of a run is recorded or got no answer. */
  lemma CallsOfOneRun(input: Input, a: Account, limits: Limits, m: Moment)
    ensures var e := RunSpec(input, a, limits, m);
            && e.calls == (if Asks(a, limits, m) then 1 else 0) + (if AsksAgain(input.incident, a, limits, m) then 1 else 0)
            && e.calls == |e.records| + NoAnswers(input.incident, a, limits, m)
            && e.records == (if e.calls > 0 && m.first.Completed? then [m.first.tokens] else [])
                            + (if e.calls > 1 && m.second.Completed? then [m.second.tokens] else [])
  {
    hide Judge, Holds, Repairable, WithMissing, CanSpend;
    if m.first.Completed? { JudgeIs(m.first, input.incident); }
  }

  /** The calls of all runs that got no answer. */
  function Unanswered(incident: string, limits: Limits, runs: seq<Attempt>): nat {
    if runs == [] then 0
    else
      var front := runs[..|runs| - 1];
      Unanswered(incident, limits, front)
      + NoAnswers(incident, Spend(incident, limits, front), limits, runs[|runs| - 1].moment)
  }

  /**
   * Over any runs the provider chain is asked once for every recorded completion and once for every call that
   * got no answer: at most max_calls times, and as often again as it failed to answer.
   */
  lemma {:induction false} AskedIsRecordedOrUnanswered(incident: string, limits: Limits, runs: seq<Attempt>)
    ensures Asked(incident, limits, runs) == |Records(incident, limits, runs)| + Unanswered(incident, limits, runs)
    ensures Asked(incident, limits, runs) <= Max(0, limits.maxCalls) + Unanswered(incident, limits, runs)
  {
    SpendingIsBounded(incident, limits, runs);
    RecordsAreFew(Spend(incident, limits, runs), Records(incident, limits, runs), limits);
    hide RunSpec, NoAnswers, Charged, Backed;
    if runs != [] {
      var front, t := runs[..|runs| - 1], runs[|runs| - 1];
      AskedIsRecordedOrUnanswered(incident, limits, front);
      CallsOfOneRun(Input(incident, t.degradedSources), Spend(incident, limits, front), limits, t.moment);
    }
  }

  lemma RecordsAreFew(a: Account, records: seq<int>, limits: Limits)
    requires Backed(a, records, limits)
    ensures |records| <= Max(0, limits.maxCalls)
  {
    if records != [] { assert |records| - 1 < limits.maxCalls; }
  }

  /** A call that fails is charged nothing: runs whose calls fail go on asking for ever, whatever the limits. */
  lemma {:induction false} FailedCallsAreFree(incident: string, limits: Limits, runs: seq<Attempt>)
    requires limits.maxCalls > 0 && limits.maxTokens > 0
    requires forall i | 0 <= i < |runs| :: runs[i].moment.before in ACTIVE_STATUSES && runs[i].moment.first.NoAnswer?
    ensures Spend(incident, limits, runs) == UNUSED && Asked(incident, limits, runs) == |runs|
  {
    if runs != [] {
      FailedCallsAreFree(incident, limits, runs[..|runs| - 1]);
    }
  }

  /** n runs, each of which asks once and is answered with nothing that can be read, at no cost in tokens. */
  function Wasted(n: nat): seq<Attempt> {
    seq(n, i requires 0 <= i < n => Attempt([], Moment("open", Completed(0, Unreadable), "open", NoAnswer)))
  }

  lemma WastedRun(incident: string, a: Account, limits: Limits)
    requires CanSpend(a, limits, 0)
    ensures EffectOf(incident, a, limits, Wasted(1)[0]).records == [0] && Charged(a, [0]) == Recorded(a, 0)
  {
    hide CanSpend, WithMissing;
    SumOfTwo(0, 0);
  }

  /** The allowance is there to be used: any number of completions up to max_calls can be had. */
  lemma {:induction false} CallsCanBeUsedUp(incident: string, limits: Limits, n: nat)
    requires n <= limits.maxCalls && limits.maxTokens > 0
    ensures Spend(incident, limits, Wasted(n)) == Account(n, 0) && |Records(incident, limits, Wasted(n))| == n
  {
    hide EffectOf, Charged;
    if n > 0 {
      CallsCanBeUsedUp(incident, limits, n - 1);
      assert Wasted(n)[..n - 1] == Wasted(n - 1) && Wasted(n)[n - 1] == Wasted(1)[0];
      WastedRun(incident, Account(n - 1, 0), limits);
    }
  }
}
