// What an execution may do, and what each line of its history stands for, in terms of the report's own risks.

module ExecutorSteps {
  import opened Prelude
  import opened ReportSchema
  import opened Database
  import opened Executor

  // ---------------------------------------------------------------- when anything runs

  /**
   * execute runs a report exactly when it is validated, its key is not done, the incident is known and neither
   * mitigated nor resolved, and a grant is in the incident's timeline if any action is mutating. Otherwise it
   * says why, issues nothing and marks nothing.
   */
  lemma ExecutesIff(db: Db, inc: string, report: TriageReport, env: Env)
    ensures var key, (after, r) := FullKey(inc, report.suggestedActions), ExecuteSpec(db, inc, report, env);
            var done := key in db.executed && db.executed[key];
            var settled := inc in db.incidents && (db.incidents[inc] == "mitigated" || db.incidents[inc] == "resolved");
            var mutating := exists i | 0 <= i < |report.suggestedActions| :: report.suggestedActions[i].risk == "mutating";
            var granted := exists n | 0 <= n < |db.trace| ::
                             db.trace[n].Logged? && db.trace[n].incident == inc && db.trace[n].event.ApprovalGranted?;
            && (r.Returned? && r.outcome.executed <==>
                  report.validated && !done && inc in db.incidents && !settled && (mutating ==> granted))
            && (r.Refused? <==> !report.validated || inc !in db.incidents || (!done && !settled && mutating && !granted))
            && (r.Returned? && !r.outcome.executed ==>
                  && r.outcome.skipped == Some(if done then "idempotent" else "already " + db.incidents[inc])
                  && after.trace == db.trace + [Logged(inc, ExecutionSkipped(if done then "idempotent" else "already_mitigated"))])
            && (r.Refused? ==> after == db)
            && (!(r.Returned? && r.outcome.executed) ==>
                  after.executed == db.executed && forall n | |db.trace| <= n < |after.trace| :: !after.trace[n].Ran?)
  {
  }

  // ---------------------------------------------------------------- what each line stands for

  predicate IsRun(o: Obs, inc: string, action: string, dryRun: bool) {
    o.Ran? && o.incident == inc && o.command.action == action && o.command.dryRun == dryRun
  }

  /** Where a step begins: first of all, or after a step that succeeded. */
  predicate AtBeginning(obs: seq<Obs>, n: nat)
    requires n <= |obs|
  {
    n == 0 || (obs[n - 1].Logged? && obs[n - 1].event.StepCompleted?)
  }

  /** The line before is the rehearsal of the action, and it went through. */
  predicate Rehearsed(obs: seq<Obs>, n: nat, inc: string, action: string)
    requires n <= |obs|
  {
    n > 0 && IsRun(obs[n - 1], inc, action, true) && obs[n - 1].reply.Output?
  }

  /** What the n-th line, a command, means: a rehearsal is of a mutating action; what is mutating runs rehearsed. */
  predicate CommandFits(obs: seq<Obs>, n: nat, inc: string, a: SuggestedAction)
    requires n < |obs| && obs[n].Ran?
  {
    && IsRun(obs[n], inc, a.action, obs[n].command.dryRun)
    && if obs[n].command.dryRun then a.risk == "mutating" && AtBeginning(obs, n)
       else if a.risk == "mutating" then Rehearsed(obs, n, inc, a.action)
       else AtBeginning(obs, n)
  }

  /** What the n-th line, a row, means: how the command before it went, as the redacted text of its reply says. */
  predicate RowFits(obs: seq<Obs>, n: nat, inc: string, k: nat, a: SuggestedAction, s: StepResult, redact: string -> string)
    requires n < |obs| && obs[n].Logged?
  {
    && n > 0 && obs[n - 1].Ran? && IsRun(obs[n - 1], inc, a.action, obs[n - 1].command.dryRun)
    && obs[n].incident == inc && s.name == StepName(k, a) && s.output == redact(obs[n - 1].reply.text)
    && (if obs[n - 1].reply.Raised? then obs[n].event == StepFailed(s.name, Take(s.output, 2000)) && !s.ok
        else !obs[n - 1].command.dryRun && obs[n].event == StepCompleted(s.name, Take(s.output, 2000)) && s.ok)
    && s.dryRun == (if a.risk == "mutating" && !obs[n - 1].command.dryRun && n > 1 && obs[n - 2].Ran?
                    then Some(redact(obs[n - 2].reply.text)) else None)
  }

  /** The n-th line is about the action whose turn it is: as many actions are behind it as rows of steps. */
  predicate LineFits(obs: seq<Obs>, n: nat, inc: string, actions: seq<SuggestedAction>, steps: seq<StepResult>, redact: string -> string)
    requires n < |obs|
  {
    var k := |StepEvents(obs[..n])|;
    && k < |actions|
    && (obs[n].Ran? || (obs[n].Logged? && k < |steps|))
    && if obs[n].Ran? then CommandFits(obs, n, inc, actions[k]) else RowFits(obs, n, inc, k, actions[k], steps[k], redact)
  }

  ghost predicate Told(obs: seq<Obs>, inc: string, actions: seq<SuggestedAction>, steps: seq<StepResult>, redact: string -> string) {
    && |StepEvents(obs)| == |steps| <= |actions|
    && forall n | 0 <= n < |obs| :: LineFits(obs, n, inc, actions, steps, redact)
  }

  /** Lines stay true when more follow. */
  lemma LineStays(obs: seq<Obs>, n: nat, more: seq<Obs>, inc: string, actions: seq<SuggestedAction>,
                  steps: seq<StepResult>, s: StepResult, redact: string -> string)
    requires n < |obs| && LineFits(obs, n, inc, actions, steps, redact)
    ensures LineFits(obs + more, n, inc, actions, steps + [s], redact)
  {
    hide StepEvents, StepName;
    assert (obs + more)[..n] == obs[..n];
    assert forall m | 0 <= m <= n :: (obs + more)[m] == obs[m];
  }

  lemma {:induction false} NoRowsYet(obs: seq<Obs>)
    requires forall i | 0 <= i < |obs| :: obs[i].Ran?
    ensures StepEvents(obs) == []
  {
    if obs != [] { NoRowsYet(obs[..|obs| - 1]); }
  }

  /** Whose turn it is within a block of lines, until the block's row. */
  lemma TurnIs(before: seq<Obs>, block: seq<Obs>, j: nat)
    requires j <= |block| && forall i | 0 <= i < j :: block[i].Ran?
    ensures StepEvents((before + block)[..|before| + j]) == StepEvents(before)
  {
    hide StepEvents;
    NoRowsYet(block[..j]);
    assert (before + block)[..|before| + j] == before + block[..j];
    HistoriesConcatenate(before, block[..j]);
  }

  /** The lines of one real run: the command and its row. */
  lemma RealRunFits(before: seq<Obs>, inc: string, k: nat, actions: seq<SuggestedAction>, n: nat, steps: seq<StepResult>,
                    dry: Option<string>, env: Env)
    requires k < |actions| && |StepEvents(before)| == |steps| == k
    requires if actions[k].risk == "mutating"
             then Rehearsed(before, |before|, inc, actions[k].action) && dry == Some(env.redact(before[|before| - 1].reply.text))
             else AtBeginning(before, |before|) && dry == None
    ensures var p := RealRun(inc, actions[k], StepName(k, actions[k]), n, dry, env);
            && |p.obs| == 2 && |p.steps| == 1
            && LineFits(before + p.obs, |before|, inc, actions, steps + p.steps, env.redact)
            && LineFits(before + p.obs, |before| + 1, inc, actions, steps + p.steps, env.redact)
            && (p.ok ==> AtBeginning(before + p.obs, |before| + 2))
  {
    hide StepName, StepEvents;
    var p := RealRun(inc, actions[k], StepName(k, actions[k]), n, dry, env);
    var obs := before + p.obs;
    TurnIs(before, p.obs, 0);
    TurnIs(before, p.obs, 1);
    assert forall i | 0 <= i < |before| :: obs[i] == before[i];
    assert obs[|before|] == p.obs[0] && obs[|before| + 1] == p.obs[1] && (steps + p.steps)[k] == p.steps[0];
  }

  /** The rehearsal, and its row if it fails. */
  lemma RehearsalFits(before: seq<Obs>, inc: string, k: nat, actions: seq<SuggestedAction>, n: nat, steps: seq<StepResult>, env: Env)
    requires k < |actions| && |StepEvents(before)| == |steps| == k && AtBeginning(before, |before|) && Mutating(actions[k])
    ensures var p, rehearsal := RunAction(inc, k, actions[k], n, env), Ran(inc, Command(actions[k].action, true), env.replies(n));
            && |p.obs| >= 2 && |p.steps| == 1 && p.obs[0] == rehearsal
            && LineFits(before + p.obs, |before|, inc, actions, steps + p.steps, env.redact)
            && |StepEvents(before + [rehearsal])| == k
            && (rehearsal.reply.Output? ==> Rehearsed(before + [rehearsal], |before| + 1, inc, actions[k].action))
            && (rehearsal.reply.Raised? ==>
                  |p.obs| == 2 && !p.ok && LineFits(before + p.obs, |before| + 1, inc, actions, steps + p.steps, env.redact))
  {
    hide StepName, StepEvents;
    var p, rehearsal := RunAction(inc, k, actions[k], n, env), Ran(inc, Command(actions[k].action, true), env.replies(n));
    var obs := before + p.obs;
    TurnIs(before, p.obs, 0);
    TurnIs(before, p.obs, 1);
    TurnIs(before, [rehearsal], 1);
    assert (before + [rehearsal])[..|before| + 1] == before + [rehearsal];
    assert obs[|before|] == p.obs[0] && obs[|before| + 1] == p.obs[1] && (steps + p.steps)[k] == p.steps[0];
    assert |before| > 0 ==> obs[|before| - 1] == before[|before| - 1];
  }

  lemma BlockCounts(before: seq<Obs>, inc: string, k: nat, a: SuggestedAction, n: nat, env: Env)
    ensures var p := RunAction(inc, k, a, n, env);
            |p.steps| == 1 && |StepEvents(before + p.obs)| == |StepEvents(before)| + 1
  {
    hide StepName, StepEvents, RunAction;
    OneActionFits(inc, k, a, n, env);
    HistoriesConcatenate(before, RunAction(inc, k, a, n, env).obs);
  }

  /** The lines of p, after those before it, fit; and where it succeeded the next action can begin. */
  ghost predicate BlockFits(before: seq<Obs>, p: Progress, inc: string, actions: seq<SuggestedAction>, steps: seq<StepResult>,
                            redact: string -> string) {
    && (p.ok ==> AtBeginning(before + p.obs, |before + p.obs|))
    && forall m | |before| <= m < |before + p.obs| :: LineFits(before + p.obs, m, inc, actions, steps + p.steps, redact)
  }

  lemma RehearsedBlockFits(before: seq<Obs>, inc: string, k: nat, actions: seq<SuggestedAction>, n: nat, steps: seq<StepResult>, env: Env)
    requires k < |actions| && |StepEvents(before)| == |steps| == k && AtBeginning(before, |before|) && Mutating(actions[k])
    ensures BlockFits(before, RunAction(inc, k, actions[k], n, env), inc, actions, steps, env.redact)
  {
    hide StepName, StepEvents, LineFits, AtBeginning, Rehearsed, RealRun;
    var a := actions[k];
    RehearsalFits(before, inc, k, actions, n, steps, env);
    if env.replies(n).Output? {
      var rehearsal, text := Ran(inc, Command(a.action, true), env.replies(n)), env.redact(env.replies(n).text);
      RealRunFits(before + [rehearsal], inc, k, actions, n + 1, steps, Some(text), env);
      var q := RealRun(inc, a, StepName(k, a), n + 1, Some(text), env);
      assert before + [rehearsal] + q.obs == before + RunAction(inc, k, a, n, env).obs;
    }
  }

  /** The lines of one action, after those of the actions before it. */
  lemma ActionFits(before: seq<Obs>, inc: string, k: nat, actions: seq<SuggestedAction>, n: nat, steps: seq<StepResult>, env: Env)
    requires k < |actions| && |StepEvents(before)| == |steps| == k && AtBeginning(before, |before|)
    ensures BlockFits(before, RunAction(inc, k, actions[k], n, env), inc, actions, steps, env.redact)
  {
    if Mutating(actions[k]) {
      RehearsedBlockFits(before, inc, k, actions, n, steps, env);
    } else {
      hide StepName, StepEvents, LineFits, AtBeginning, RealRun;
      RealRunFits(before, inc, k, actions, n, steps, None, env);
    }
  }

  lemma {:induction false} RunIsTold(inc: string, actions: seq<SuggestedAction>, k: nat, env: Env)
    requires k <= |actions|
    ensures var p := RunUpTo(inc, actions, k, env);
            && Told(p.obs, inc, actions, p.steps, env.redact)
            && (p.ok ==> |p.steps| == k && AtBeginning(p.obs, |p.obs|))
  {
    hide RunAction, LineFits, StepName, AtBeginning;
    if k == 0 {
      NothingToTell();
    } else {
      RunIsTold(inc, actions, k - 1, env);
      var p := RunUpTo(inc, actions, k - 1, env);
      if p.ok {
        var q := RunAction(inc, k - 1, actions[k - 1], p.issued, env);
        ActionFits(p.obs, inc, k - 1, actions, p.issued, p.steps, env);
        BlockCounts(p.obs, inc, k - 1, actions[k - 1], p.issued, env);
        forall n | 0 <= n < |p.obs| ensures LineFits(p.obs + q.obs, n, inc, actions, p.steps + q.steps, env.redact) {
          LineStays(p.obs, n, q.obs, inc, actions, p.steps, q.steps[0], env.redact);
          assert q.steps == [q.steps[0]];
        }
      }
    }
  }

  lemma NothingToTell()
    ensures StepEvents([]) == [] && AtBeginning([], 0)
  {
  }

  lemma {:induction false} AllStepsOk(steps: seq<StepResult>)
    requires forall i | 0 <= i < |steps| :: steps[i].ok
    ensures StepsOk(steps) == |steps|
  {
    if steps != [] { AllStepsOk(steps[..|steps| - 1]); }
  }

  /** The rows around the lines of the steps. */
  function Framed(inc: string, actions: seq<SuggestedAction>, lines: seq<Obs>, succeeded: bool): seq<Obs> {
    [Logged(inc, ExecutionStarted(FullKey(inc, actions), ActionTexts(actions)))] + lines
    + if succeeded then [Logged(inc, ExecutionFinished(|actions|, |actions|))] else []
  }

  /**
   * The whole history of an execution: its start, lines each of which is told by the action whose turn it is and
   * by the report's result for that action, and at the end, iff every action succeeded, how many did.
   */
  lemma ExecutionIsTold(db: Db, inc: string, report: TriageReport, env: Env) returns (lines: seq<Obs>)
    requires ExecuteSpec(db, inc, report, env).1.Returned? && ExecuteSpec(db, inc, report, env).1.outcome.executed
    ensures var (after, r) := ExecuteSpec(db, inc, report, env);
            var actions, steps := report.suggestedActions, r.outcome.steps;
            var succeeded := |steps| == |actions| && forall i | 0 <= i < |steps| :: steps[i].ok;
            after.trace == db.trace + Framed(inc, actions, lines, succeeded) && Told(lines, inc, actions, steps, env.redact)
  {
    hide RunUpTo, FullKey, ActionTexts, Told, Script, Commands, StepEvents, EventFor;
    var actions := report.suggestedActions;
    RunIsTold(inc, actions, |actions|, env);
    ExactLog(inc, actions, |actions|, env);
    var p := RunUpTo(inc, actions, |actions|, env);
    if p.ok { AllStepsOk(p.steps); }
    lines := p.obs;
  }

  // ---------------------------------------------------------------- step names

  lemma {:induction false} DecimalHasNoDash(n: nat)
    ensures '-' !in Decimal(n) && Decimal(n) != ""
  {
    if n >= 10 { DecimalHasNoDash(n / 10); }
  }

  lemma {:induction false} DecimalIsInjective(m: nat, n: nat)
    requires Decimal(m) == Decimal(n)
    ensures m == n
    decreases m + n
  {
    LastDigit(m);
    LastDigit(n);
    hide Decimal;
    var s, t := Decimal(m), Decimal(n);
    if m >= 10 && n >= 10 {
      assert s[..|s| - 1] == Decimal(m / 10) && t[..|t| - 1] == Decimal(n / 10);
      DecimalIsInjective(m / 10, n / 10);
    }
  }

  lemma LastDigit(n: nat)
    ensures var s := Decimal(n);
            && s != "" && s[|s| - 1] as int == '0' as int + n % 10
            && (n < 10 ==> |s| == 1)
            && (n >= 10 ==> |s| > 1 && s[..|s| - 1] == Decimal(n / 10))
  {
    if n >= 10 { LastDigit(n / 10); }
  }

  /** A step's name says which step it is, and begins with as much of the action as fits in 40 characters. */
  lemma StepNameTells(i: nat, a: SuggestedAction, j: nat, b: SuggestedAction)
    requires StepName(i, a) == StepName(j, b)
    ensures i == j && Take(a.action, 40) == Take(b.action, 40)
  {
    hide Decimal, Take;
    DecimalHasNoDash(i);
    DecimalHasNoDash(j);
    var s := StepName(i, a);
    assert s[5..] == Decimal(i) + "-" + Take(a.action, 40) == Decimal(j) + "-" + Take(b.action, 40);
    FirstSeparator('-', Decimal(i), Take(a.action, 40), Decimal(j), Take(b.action, 40));
    DecimalIsInjective(i, j);
  }
}
