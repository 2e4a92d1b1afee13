// executor/runner.py: what one execution issues, and when it issues nothing.

module Executor {
  import opened Prelude
  import opened ReportSchema
  import opened Database
  import TextOrder

  datatype StepResult = StepResult(name: string, ok: bool, output: string, dryRun: Option<string>)

  datatype Outcome = Outcome(executed: bool, skipped: Option<string>, steps: seq<StepResult>)

  /** Refused is ExecutorRejected (or the ValueError of an append to an unknown incident). */
  datatype ExecResult = Refused | Returned(outcome: Outcome)

  /** The world around one execution: the n-th command's reply, and the redaction filter. */
  datatype Env = Env(replies: nat -> Reply, redact: string -> string)

  // ---------------------------------------------------------------- keys

  function Join(parts: seq<string>): string {
    if parts == [] then "" else if |parts| == 1 then parts[0] else parts[0] + "|" + Join(parts[1..])
  }

  function ActionTexts(actions: seq<SuggestedAction>): seq<string> {
    seq(|actions|, i requires 0 <= i < |actions| => actions[i].action)
  }

  /** _action_key: risk plays no part, and the text is cut at 200 characters. */
  function ActionKey(actions: seq<SuggestedAction>): string {
    Take(Join(TextOrder.Sort(ActionTexts(actions))), 200)
  }

  function FullKey(incident: string, actions: seq<SuggestedAction>): string {
    incident + ":" + ActionKey(actions)
  }

  /** The key depends on which commands are suggested, not on their order or risk. */
  lemma KeyIgnoresOrderAndRisk(incident: string, a: seq<SuggestedAction>, b: seq<SuggestedAction>)
    requires multiset(ActionTexts(a)) == multiset(ActionTexts(b))
    ensures FullKey(incident, a) == FullKey(incident, b)
  {
    TextOrder.SortIsCanonical(ActionTexts(a), ActionTexts(b));
  }

  /** j begins with i and a colon, and is at most 200 characters longer. */
  predicate Nested(i: string, j: string) {
    i + ":" <= j && |j| - |i| <= 200
  }

  lemma KeyIsShort(actions: seq<SuggestedAction>)
    ensures |ActionKey(actions)| <= 200
  {
  }

  /** Where a longer id shares a key with a shorter one, it is nested in it, and what follows fits behind it. */
  lemma SharedKeyIsNested(i: string, a: seq<SuggestedAction>, j: string, b: seq<SuggestedAction>)
    requires FullKey(i, a) == FullKey(j, b) && |i| <= |j| && i != j
    ensures Nested(i, j) && |j| - |i| + |ActionKey(b)| <= 200
  {
    KeyIsShort(a);
    hide ActionKey;
    var k := FullKey(i, a);
    assert k[..|i|] == i && k[..|j|] == j && k[|i|] == ':';
    assert |i| < |j|;
    assert j[|i|] == k[|i|] && j[..|i|] == i;
  }

  /** Equal keys name one incident, unless one id is nested in the other; then they stand for the same commands too. */
  lemma KeyNamesItsIncident(i: string, a: seq<SuggestedAction>, j: string, b: seq<SuggestedAction>)
    requires FullKey(i, a) == FullKey(j, b) && !Nested(i, j) && !Nested(j, i)
    ensures i == j && ActionKey(a) == ActionKey(b)
  {
    if i != j {
      if |i| <= |j| { SharedKeyIsNested(i, a, j, b); } else { SharedKeyIsNested(j, b, i, a); }
    }
    var k := FullKey(i, a);
    assert k[|i| + 1..] == ActionKey(a) && k[|j| + 1..] == ActionKey(b);
  }

  function OneAction(text: string, risk: string): seq<SuggestedAction> {
    [SuggestedAction(text, risk, None)]
  }

  lemma KeyOfOneAction(text: string, risk: string)
    requires |text| <= 200
    ensures ActionKey(OneAction(text, risk)) == text
  {
    assert ActionTexts(OneAction(text, risk)) == [text];
    assert TextOrder.Sort([text]) == [text];
  }

  /** Nested ids have reports with one key: the outer report may run any action that fits, or none. */
  lemma NestedIdsShareAKey(i: string, j: string, action: string, risk: string)
    requires Nested(i, j) && |j| - |i| + |action| <= 200
    ensures var inner := OneAction(j[|i| + 1..] + ":" + action, risk);
            && FullKey(i, inner) == i + ":" + j[|i| + 1..] + ":" + action
            && FullKey(i, inner) == FullKey(j, OneAction(action, risk))
            && (action == "" ==> FullKey(i, inner) == FullKey(j, []))
  {
    KeyOfOneAction(j[|i| + 1..] + ":" + action, risk);
    KeyOfOneAction(action, risk);
    assert ActionKey([]) == "";
    assert j == i + ":" + j[|i| + 1..];
    assert i + ":" + (j[|i| + 1..] + ":" + action) == j + ":" + action;
  }

  /** Actions that the report contract accepts. */
  predicate Suggestible(actions: seq<SuggestedAction>) {
    forall i | 0 <= i < |actions| :: NonBlank(actions[i].action) && actions[i].risk in {READ_ONLY, MUTATING}
  }

  lemma ColonIsNoBlank(a: string, b: string)
    ensures NonBlank(a + ":" + b)
  {
    assert (a + ":" + b)[|a|] == ':';
  }

  /** Acceptable actions with one key. */
  predicate Meet(i: string, a: seq<SuggestedAction>, j: string, b: seq<SuggestedAction>) {
    Suggestible(a) && Suggestible(b) && FullKey(i, a) == FullKey(j, b)
  }

  /** Two different ids have acceptable actions with one key exactly when one is nested in the other. */
  lemma KeysMeetIffNested(i: string, j: string)
    requires i != j && |i| <= |j|
    ensures (exists a, b :: Meet(i, a, j, b)) <==> Nested(i, j)
  {
    hide FullKey, Nested, Suggestible;
    if a, b :| Meet(i, a, j, b) {
      SharedKeyIsNested(i, a, j, b);
    } else if Nested(i, j) {
      var a := NestedIdsMeet(i, j);
    }
  }

  lemma NestedIdsMeet(i: string, j: string) returns (a: seq<SuggestedAction>)
    requires Nested(i, j)
    ensures Meet(i, a, j, [])
  {
    hide ActionKey, NonBlank;
    NestedIdsShareAKey(i, j, "", READ_ONLY);
    ColonIsNoBlank(j[|i| + 1..], "");
    a := OneAction(j[|i| + 1..] + ":" + "", READ_ONLY);
  }

  /** On one incident, reports whose texts agree in their first 200 characters share a key, whatever follows. */
  lemma LongReportsShareAKey(incident: string, common: string, x: string, y: string, risk: string)
    requires |common| >= 200
    ensures FullKey(incident, OneAction(common + x, risk)) == FullKey(incident, OneAction(common + y, risk))
  {
    assert ActionTexts(OneAction(common + x, risk)) == [common + x];
    assert ActionTexts(OneAction(common + y, risk)) == [common + y];
    assert TextOrder.Sort([common + x]) == [common + x] && TextOrder.Sort([common + y]) == [common + y];
    assert Take(common + x, 200) == common[..200] == Take(common + y, 200);
  }

  /** Texts that hold no bar can be read back from what joins them. */
  predicate Separable(texts: seq<string>) {
    forall i | 0 <= i < |texts| :: texts[i] != "" && '|' !in texts[i]
  }

  lemma {:induction false} JoinIsInjective(a: seq<string>, b: seq<string>)
    requires Separable(a) && Separable(b) && Join(a) == Join(b)
    ensures a == b
  {
    BarsInJoin(a);
    BarsInJoin(b);
    if |a| > 1 && |b| > 1 {
      FirstSeparator('|', a[0], Join(a[1..]), b[0], Join(b[1..]));
      JoinIsInjective(a[1..], b[1..]);
      assert a == [a[0]] + a[1..] && b == [b[0]] + b[1..];
    }
  }

  lemma BarsInJoin(a: seq<string>)
    requires Separable(a)
    ensures '|' in Join(a) <==> |a| > 1
    ensures Join(a) == "" <==> a == []
  {
    if |a| > 1 { assert Join(a)[|a[0]|] == '|'; }
  }

  /** Where texts hold no bar and nothing is cut off, reports share a key exactly when they suggest the same commands. */
  lemma KeyTellsTheCommands(incident: string, a: seq<SuggestedAction>, b: seq<SuggestedAction>)
    requires Separable(ActionTexts(a)) && |Join(TextOrder.Sort(ActionTexts(a)))| <= 200
    requires Separable(ActionTexts(b)) && |Join(TextOrder.Sort(ActionTexts(b)))| <= 200
    ensures FullKey(incident, a) == FullKey(incident, b) <==> multiset(ActionTexts(a)) == multiset(ActionTexts(b))
  {
    var s, t := TextOrder.Sort(ActionTexts(a)), TextOrder.Sort(ActionTexts(b));
    if FullKey(incident, a) == FullKey(incident, b) {
      assert FullKey(incident, a)[|incident| + 1..] == ActionKey(a) && FullKey(incident, b)[|incident| + 1..] == ActionKey(b);
      SortedStaysSeparable(ActionTexts(a));
      SortedStaysSeparable(ActionTexts(b));
      JoinIsInjective(s, t);
    } else if multiset(ActionTexts(a)) == multiset(ActionTexts(b)) {
      KeyIgnoresOrderAndRisk(incident, a, b);
    }
  }

  lemma SortedStaysSeparable(texts: seq<string>)
    requires Separable(texts)
    ensures Separable(TextOrder.Sort(texts))
  {
    var s := TextOrder.Sort(texts);
    forall i | 0 <= i < |s| ensures s[i] in texts {
      assert s[i] in multiset(s);
    }
  }

  lemma ShortSorts(x: string, y: string)
    ensures TextOrder.Sort([x]) == [x] && Join([x]) == x && Join([x, y]) == x + "|" + y
    ensures TextOrder.Leq(x, y) ==> TextOrder.Sort([x, y]) == [x, y]
  {
    hide TextOrder.Leq;
    assert TextOrder.Sort([]) == [] && [x][1..] == [] && [x, y][1..] == [y];
    assert TextOrder.Sort([y]) == TextOrder.Insert(y, []) && TextOrder.Sort([x]) == TextOrder.Insert(x, []);
    assert Join([y]) == y;
  }

  /** A bar in a text makes one action look like two. */
  lemma BarsShareAKey(incident: string, x: string, y: string, risk: string)
    requires TextOrder.Leq(x, y)
    ensures FullKey(incident, OneAction(x + "|" + y, risk)) == FullKey(incident, OneAction(x, risk) + OneAction(y, risk))
  {
    hide TextOrder.Leq, TextOrder.Sort, Join;
    assert ActionTexts(OneAction(x + "|" + y, risk)) == [x + "|" + y];
    assert ActionTexts(OneAction(x, risk) + OneAction(y, risk)) == [x, y];
    ShortSorts(x, y);
    ShortSorts(x + "|" + y, y);
  }

  // ---------------------------------------------------------------- the script of a report

  predicate Mutating(a: SuggestedAction) {
    a.risk == MUTATING
  }

  predicate AnyMutating(actions: seq<SuggestedAction>) {
    exists i | 0 <= i < |actions| :: Mutating(actions[i])
  }

  /** A mutating action is rehearsed before it is run; a read-only one is just run. */
  function ActionCommands(a: SuggestedAction): seq<Command> {
    if Mutating(a) then [Command(a.action, true), Command(a.action, false)] else [Command(a.action, false)]
  }

  /** Everything a report asks for, in order. */
  function Script(actions: seq<SuggestedAction>): seq<Command> {
    if actions == [] then []
    else Script(actions[..|actions| - 1]) + ActionCommands(actions[|actions| - 1])
  }

  lemma ScriptSnoc(actions: seq<SuggestedAction>, k: nat)
    requires k < |actions|
    ensures Script(actions[..k + 1]) == Script(actions[..k]) + ActionCommands(actions[k])
  {
    assert actions[..k + 1][..k] == actions[..k];
  }

  lemma {:induction false} ScriptGrows(actions: seq<SuggestedAction>, k: nat)
    requires k <= |actions|
    ensures Script(actions[..k]) <= Script(actions)
    decreases |actions| - k
  {
    if k == |actions| {
      assert actions[..k] == actions;
    } else {
      ScriptSnoc(actions, k);
      ScriptGrows(actions, k + 1);
    }
  }

  // ---------------------------------------------------------------- one step

  function Decimal(n: nat): string {
    var d := ['0', '1', '2', '3', '4', '5', '6', '7', '8', '9'][n % 10];
    if n < 10 then [d] else Decimal(n / 10) + [d]
  }

  function StepName(i: nat, a: SuggestedAction): string {
    "step-" + Decimal(i) + "-" + Take(a.action, 40)
  }

  datatype Progress = Progress(obs: seq<Obs>, steps: seq<StepResult>, issued: nat, ok: bool)

  function Failure(inc: string, name: string, obs: seq<Obs>, text: string, dry: Option<string>, issued: nat): Progress {
    Progress(obs + [Logged(inc, StepFailed(name, Take(text, 2000)))], [StepResult(name, false, text, dry)], issued, false)
  }

  /** The real run of an action, the n-th command of this execution. */
  function RealRun(inc: string, a: SuggestedAction, name: string, n: nat, dry: Option<string>, env: Env): Progress {
    var reply := env.replies(n);
    var obs := [Ran(inc, Command(a.action, false), reply)];
    var text := env.redact(reply.text);
    if reply.Raised? then Failure(inc, name, obs, text, dry, 1)
    else Progress(obs + [Logged(inc, StepCompleted(name, Take(text, 2000)))], [StepResult(name, true, text, dry)], 1, true)
  }

  function RunAction(inc: string, i: nat, a: SuggestedAction, n: nat, env: Env): Progress {
    var name := StepName(i, a);
    if !Mutating(a) then RealRun(inc, a, name, n, None, env)
    else
      var rehearsal := env.replies(n);
      var obs := [Ran(inc, Command(a.action, true), rehearsal)];
      var text := env.redact(rehearsal.text);
      if rehearsal.Raised? then Failure(inc, name, obs, text, None, 1)
      else
        var p := RealRun(inc, a, name, n + 1, Some(text), env);
        p.(obs := obs + p.obs, issued := 2)
  }

  function Then(p: Progress, q: Progress): Progress {
    Progress(p.obs + q.obs, p.steps + q.steps, p.issued + q.issued, q.ok)
  }

  /** The loop after k actions: it stops at the first failure. */
  function RunUpTo(inc: string, actions: seq<SuggestedAction>, k: nat, env: Env): Progress
    requires k <= |actions|
  {
    if k == 0 then Progress([], [], 0, true)
    else
      var p := RunUpTo(inc, actions, k - 1, env);
      if p.ok then Then(p, RunAction(inc, k - 1, actions[k - 1], p.issued, env)) else p
  }

  // ---------------------------------------------------------------- what the log says

  function CommandOf(o: Obs): seq<Command> {
    if o.Ran? then [o.command] else []
  }

  /** The commands inside a history. */
  function Commands(obs: seq<Obs>): seq<Command> {
    if obs == [] then [] else Commands(obs[..|obs| - 1]) + CommandOf(obs[|obs| - 1])
  }

  function StepEventOf(o: Obs): seq<Event> {
    if o.Logged? && (o.event.StepCompleted? || o.event.StepFailed?) then [o.event] else []
  }

  function StepEvents(obs: seq<Obs>): seq<Event> {
    if obs == [] then [] else StepEvents(obs[..|obs| - 1]) + StepEventOf(obs[|obs| - 1])
  }

  lemma HistoriesConcatenate(a: seq<Obs>, b: seq<Obs>)
    ensures Commands(a + b) == Commands(a) + Commands(b)
    ensures StepEvents(a + b) == StepEvents(a) + StepEvents(b)
  {
    CommandsConcatenate(a, b);
    StepEventsConcatenate(a, b);
  }

  lemma SplitLast(a: seq<Obs>, b: seq<Obs>)
    requires b != []
    ensures (a + b)[..|a + b| - 1] == a + b[..|b| - 1] && (a + b)[|a + b| - 1] == b[|b| - 1]
  {
  }

  lemma {:induction false} CommandsConcatenate(a: seq<Obs>, b: seq<Obs>)
    ensures Commands(a + b) == Commands(a) + Commands(b)
  {
    hide CommandOf;
    if b == [] {
      assert a + b == a;
    } else {
      SplitLast(a, b);
      CommandsConcatenate(a, b[..|b| - 1]);
    }
  }

  lemma {:induction false} StepEventsConcatenate(a: seq<Obs>, b: seq<Obs>)
    ensures StepEvents(a + b) == StepEvents(a) + StepEvents(b)
  {
    hide StepEventOf;
    if b == [] {
      assert a + b == a;
    } else {
      SplitLast(a, b);
      StepEventsConcatenate(a, b[..|b| - 1]);
    }
  }

  /** The event that records a step. */
  function EventFor(s: StepResult): Event {
    if s.ok then StepCompleted(s.name, Take(s.output, 2000)) else StepFailed(s.name, Take(s.output, 2000))
  }

  function EventsFor(steps: seq<StepResult>): seq<Event> {
    seq(|steps|, i requires 0 <= i < |steps| => EventFor(steps[i]))
  }

  /** One result for each action reached, in order: all of them where everything succeeded, else all ok but the last. */
  predicate StepsFollow(steps: seq<StepResult>, actions: seq<SuggestedAction>, succeeded: bool) {
    && |steps| <= |actions|
    && (forall i | 0 <= i < |steps| :: steps[i].name == StepName(i, actions[i]))
    && (forall i | 0 <= i < |steps| - 1 :: steps[i].ok)
    && (if succeeded then |steps| == |actions| && forall i | 0 <= i < |steps| :: steps[i].ok
        else steps != [] && !steps[|steps| - 1].ok)
  }

  /** No command but the last one may have raised. */
  ghost predicate CutAtFirstFailure(p: Progress, script: seq<Command>, env: Env) {
    && p.issued <= |script|
    && (p.ok ==> p.issued == |script| && forall j: nat | j < p.issued :: env.replies(j).Output?)
    && (!p.ok ==> p.issued > 0 && env.replies(p.issued - 1).Raised?
                  && forall j: nat | j < p.issued - 1 :: env.replies(j).Output?)
  }

  ghost predicate StepsMatch(p: Progress, actions: seq<SuggestedAction>) {
    StepsFollow(p.steps, actions, p.ok) && StepEvents(p.obs) == EventsFor(p.steps)
  }

  lemma NoObs()
    ensures Commands([]) == [] && StepEvents([]) == []
  {
  }

  lemma OneObs(o: Obs)
    ensures Commands([o]) == CommandOf(o) && StepEvents([o]) == StepEventOf(o)
  {
    assert [o][..0] == [];
  }

  lemma TwoObs(o: Obs, q: Obs)
    ensures Commands([o, q]) == CommandOf(o) + CommandOf(q)
    ensures StepEvents([o, q]) == StepEventOf(o) + StepEventOf(q)
  {
    OneObs(o);
    OneObs(q);
    HistoriesConcatenate([o], [q]);
    assert [o] + [q] == [o, q];
  }

  /** One command, one step, one step event. */
  lemma OneStep(inc: string, a: SuggestedAction, name: string, n: nat, dry: Option<string>, env: Env)
    ensures var p := RealRun(inc, a, name, n, dry, env);
            && p.issued == 1 && Commands(p.obs) == [Command(a.action, false)]
            && p.ok == env.replies(n).Output?
            && |p.steps| == 1 && p.steps[0].name == name && p.steps[0].ok == p.ok
            && StepEvents(p.obs) == [EventFor(p.steps[0])]
  {
    var p := RealRun(inc, a, name, n, dry, env);
    TwoObs(p.obs[0], p.obs[1]);
    assert p.obs == [p.obs[0], p.obs[1]];
  }

  lemma OneActionFits(inc: string, i: nat, a: SuggestedAction, n: nat, env: Env)
    ensures var p := RunAction(inc, i, a, n, env);
            && p.issued <= |ActionCommands(a)| && Commands(p.obs) == ActionCommands(a)[..p.issued]
            && (p.ok ==> p.issued == |ActionCommands(a)| && forall j: nat | n <= j < n + p.issued :: env.replies(j).Output?)
            && (!p.ok ==> p.issued > 0 && env.replies(n + p.issued - 1).Raised?
                          && forall j: nat | n <= j < n + p.issued - 1 :: env.replies(j).Output?)
            && |p.steps| == 1 && p.steps[0].name == StepName(i, a) && p.steps[0].ok == p.ok
            && StepEvents(p.obs) == [EventFor(p.steps[0])]
  {
    hide StepName, Commands, StepEvents, RealRun;
    var p := RunAction(inc, i, a, n, env);
    var rehearsal := Ran(inc, Command(a.action, true), env.replies(n));
    var text := env.redact(env.replies(n).text);
    if !Mutating(a) {
      OneStep(inc, a, StepName(i, a), n, None, env);
    } else if env.replies(n).Raised? {
      assert p.obs == [rehearsal, p.obs[1]];
      TwoObs(rehearsal, p.obs[1]);
    } else {
      var q := RealRun(inc, a, StepName(i, a), n + 1, Some(text), env);
      OneStep(inc, a, StepName(i, a), n + 1, Some(text), env);
      OneObs(rehearsal);
      HistoriesConcatenate([rehearsal], q.obs);
    }
  }

  ghost predicate LogIsExact(inc: string, actions: seq<SuggestedAction>, k: nat, env: Env)
    requires k <= |actions|
  {
    var p := RunUpTo(inc, actions, k, env);
    && CutAtFirstFailure(p, Script(actions[..k]), env)
    && Commands(p.obs) == Script(actions[..k])[..p.issued]
    && StepsMatch(p, actions[..k])
  }

  /** The commands issued are the report's script, cut only at the first failing command. */
  lemma {:induction false} ExactLog(inc: string, actions: seq<SuggestedAction>, k: nat, env: Env)
    requires k <= |actions|
    ensures LogIsExact(inc, actions, k, env)
  {
    if k > 0 {
      hide LogIsExact;
      ExactLog(inc, actions, k - 1, env);
      if RunUpTo(inc, actions, k - 1, env).ok {
        OneMoreStep(inc, actions, k, env);
      } else {
        StoppedStays(inc, actions, k, env);
      }
    }
  }

  lemma StoppedStays(inc: string, actions: seq<SuggestedAction>, k: nat, env: Env)
    requires 0 < k <= |actions| && !RunUpTo(inc, actions, k - 1, env).ok
    requires LogIsExact(inc, actions, k - 1, env)
    ensures LogIsExact(inc, actions, k, env)
  {
    hide StepName, RunAction, ActionCommands, EventFor, Script, Commands, StepEvents;
    var p := RunUpTo(inc, actions, k - 1, env);
    assert RunUpTo(inc, actions, k, env) == p;
    ScriptSnoc(actions, k - 1);
    assert Script(actions[..k])[..p.issued] == Script(actions[..k - 1])[..p.issued];
  }

  lemma OneMoreStep(inc: string, actions: seq<SuggestedAction>, k: nat, env: Env)
    requires 0 < k <= |actions| && RunUpTo(inc, actions, k - 1, env).ok
    requires LogIsExact(inc, actions, k - 1, env)
    ensures LogIsExact(inc, actions, k, env)
  {
    hide StepName, RunAction, ActionCommands, EventFor, Script, Commands, StepEvents;
    var p := RunUpTo(inc, actions, k - 1, env);
    var q := RunAction(inc, k - 1, actions[k - 1], p.issued, env);
    OneActionFits(inc, k - 1, actions[k - 1], p.issued, env);
    HistoriesConcatenate(p.obs, q.obs);
    ScriptSnoc(actions, k - 1);
    assert EventsFor(p.steps + q.steps) == EventsFor(p.steps) + [EventFor(q.steps[0])];
    assert Script(actions[..k - 1])[..p.issued] == Script(actions[..k - 1]);
    assert (Script(actions[..k - 1]) + ActionCommands(actions[k - 1]))[..p.issued + q.issued]
        == Script(actions[..k - 1]) + ActionCommands(actions[k - 1])[..q.issued];
  }

  // ---------------------------------------------------------------- execute

  function StepsOk(steps: seq<StepResult>): nat {
    if steps == [] then 0 else StepsOk(steps[..|steps| - 1]) + if steps[|steps| - 1].ok then 1 else 0
  }

  /** What an execution that passes every check adds to the history. */
  function RunTrace(inc: string, actions: seq<SuggestedAction>, env: Env): seq<Obs> {
    var p := RunUpTo(inc, actions, |actions|, env);
    [Logged(inc, ExecutionStarted(FullKey(inc, actions), ActionTexts(actions)))] + p.obs
    + if p.ok then [Logged(inc, ExecutionFinished(StepsOk(p.steps), |p.steps|))] else []
  }

  predicate Cleared(db: Db, inc: string, report: TriageReport) {
    && report.validated && !Done(db.executed, FullKey(inc, report.suggestedActions))
    && inc in db.incidents && db.incidents[inc] !in {MITIGATED, RESOLVED}
    && (AnyMutating(report.suggestedActions) ==> HasGrant(db.trace, inc))
  }

  function ExecuteSpec(db: Db, inc: string, report: TriageReport, env: Env): (r: (Db, ExecResult)) {
    var actions := report.suggestedActions;
    var key := FullKey(inc, actions);
    if !report.validated || inc !in db.incidents then (db, Refused)
    else if Done(db.executed, key) then
      (After(db, inc, ExecutionSkipped("idempotent")), Returned(Outcome(false, Some("idempotent"), [])))
    else if db.incidents[inc] in {MITIGATED, RESOLVED} then
      (After(db, inc, ExecutionSkipped("already_mitigated")),
       Returned(Outcome(false, Some("already " + db.incidents[inc]), [])))
    else if AnyMutating(actions) && !HasGrant(db.trace, inc) then (db, Refused)
    else
      var p := RunUpTo(inc, actions, |actions|, env);
      var started := Started(db.executed, key);
      (db.(executed := if p.ok then Finished(started, key) else started,
           trace := db.trace + RunTrace(inc, actions, env)),
       Returned(Outcome(true, None, p.steps)))
  }

  lemma RunTraceCommands(inc: string, actions: seq<SuggestedAction>, env: Env)
    ensures Commands(RunTrace(inc, actions, env)) == Commands(RunUpTo(inc, actions, |actions|, env).obs)
    ensures StepEvents(RunTrace(inc, actions, env)) == StepEvents(RunUpTo(inc, actions, |actions|, env).obs)
  {
    hide RunUpTo, StepsOk, ActionKey, ActionTexts, FullKey, Commands, StepEvents;
    var p := RunUpTo(inc, actions, |actions|, env);
    var head := [Logged(inc, ExecutionStarted(FullKey(inc, actions), ActionTexts(actions)))];
    var tail := if p.ok then [Logged(inc, ExecutionFinished(StepsOk(p.steps), |p.steps|))] else [];
    HistoriesConcatenate(head, p.obs);
    HistoriesConcatenate(head + p.obs, tail);
    OneObs(head[0]);
    if p.ok { OneObs(tail[0]); } else { NoObs(); }
    assert RunTrace(inc, actions, env) == head + p.obs + tail;
  }

  /** Past the checks. */
  lemma ClearedCallIssues(db: Db, inc: string, report: TriageReport, env: Env)
    requires Cleared(db, inc, report)
    ensures var (after, result) := ExecuteSpec(db, inc, report, env);
            var p, script := RunUpTo(inc, report.suggestedActions, |report.suggestedActions|, env), Script(report.suggestedActions);
            && result == Returned(Outcome(true, None, p.steps)) && db.trace <= after.trace
            && CutAtFirstFailure(p, script, env) && StepsFollow(p.steps, report.suggestedActions, p.ok)
            && Commands(after.trace[|db.trace|..]) == script[..p.issued]
            && StepEvents(after.trace[|db.trace|..]) == EventsFor(p.steps)
            && (Done(after.executed, FullKey(inc, report.suggestedActions)) <==> p.ok)
  {
    hide Script, StepEvents, ActionKey, RunTrace, RunUpTo, StepsFollow, CutAtFirstFailure, Commands;
    var actions := report.suggestedActions;
    RunTraceCommands(inc, actions, env);
    ExactLog(inc, actions, |actions|, env);
    assert actions[..|actions|] == actions;
    var after := ExecuteSpec(db, inc, report, env).0;
    assert after.trace[|db.trace|..] == RunTrace(inc, actions, env);
  }

  /** A prefix of the script, cut only at the first failing command. */
  predicate RunsUpToFailure(commands: seq<Command>, script: seq<Command>, replies: nat -> Reply) {
    && commands <= script
    && (forall j: nat | j + 1 < |commands| :: replies(j).Output?)
    && (|commands| < |script| ==> |commands| > 0 && replies(|commands| - 1).Raised?)
  }

  /** All of it, the last command included. */
  predicate Succeeds(commands: seq<Command>, script: seq<Command>, replies: nat -> Reply) {
    |commands| == |script| && (|commands| > 0 ==> replies(|commands| - 1).Output?)
  }

  lemma CutRunsUpToFailure(p: Progress, script: seq<Command>, env: Env)
    requires CutAtFirstFailure(p, script, env)
    ensures RunsUpToFailure(script[..p.issued], script, env.replies)
    ensures p.ok <==> Succeeds(script[..p.issued], script, env.replies)
  {
  }

  lemma UnclearedCallIssuesNothing(db: Db, inc: string, report: TriageReport, env: Env)
    requires !Cleared(db, inc, report)
    ensures var (after, result) := ExecuteSpec(db, inc, report, env);
            && db.trace <= after.trace && Commands(after.trace[|db.trace|..]) == [] && StepEvents(after.trace[|db.trace|..]) == []
            && after.executed == db.executed && (result.Returned? ==> !result.outcome.executed)
  {
    hide ActionKey, ActionTexts, RunTrace, RunUpTo, AnyMutating, HasGrant, Done, Commands, StepEvents, FullKey;
    var after := ExecuteSpec(db, inc, report, env).0;
    NoObs();
    if after.trace != db.trace {
      var o := after.trace[|db.trace|];
      assert after.trace[|db.trace|..] == [o];
      OneObs(o);
    } else {
      assert after.trace[|db.trace|..] == [];
    }
  }

  /**
   * One execute call: past the checks it issues exactly the report's script up to the first
   * failing command, with one result and one step event for each action reached, all ok but possibly the
   * last; and the key is marked done iff every action succeeded. Short of them it issues no command at all.
   */
  lemma ExecuteIssuesTheScript(db: Db, inc: string, report: TriageReport, env: Env)
    ensures var (after, result) := ExecuteSpec(db, inc, report, env);
            var script, done := Script(report.suggestedActions), Done(after.executed, FullKey(inc, report.suggestedActions));
            && db.trace <= after.trace
            && var added := after.trace[|db.trace|..];
               if Cleared(db, inc, report) then
                 && result.Returned? && result.outcome.executed
                 && RunsUpToFailure(Commands(added), script, env.replies)
                 && (done <==> Succeeds(Commands(added), script, env.replies))
                 && StepEvents(added) == EventsFor(result.outcome.steps)
                 && StepsFollow(result.outcome.steps, report.suggestedActions, done)
               else
                 Commands(added) == [] && StepEvents(added) == [] && after.executed == db.executed
                 && (result.Returned? ==> !result.outcome.executed)
  {
    hide *;
    if Cleared(db, inc, report) {
      ClearedCallIssues(db, inc, report, env);
      var actions := report.suggestedActions;
      CutRunsUpToFailure(RunUpTo(inc, actions, |actions|, env), Script(actions), env);
    } else {
      UnclearedCallIssuesNothing(db, inc, report, env);
    }
  }

  class ExecutorRunner {
    const store: Store
    const redact: string -> string

    constructor (store: Store, redact: string -> string)
      ensures this.store == store && this.redact == redact
    {
      this.store, this.redact := store, redact;
    }

    function Around(replies: nat -> Reply): Env {
      Env(replies, redact)
    }

    method RunForReal(inc: string, a: SuggestedAction, name: string, n: nat, dry: Option<string>, replies: nat -> Reply)
      returns (step: StepResult)
      requires store.Valid() && inc in store.incidents
      modifies store
      ensures store.Valid()
      ensures var p := RealRun(inc, a, name, n, dry, Around(replies));
              p.steps == [step] && p.issued == 1 && p.ok == step.ok && store.View() == Extend(old(store.View()), p.obs)
    {
      var reply := replies(n);
      store.Note(Ran(inc, Command(a.action, false), reply));
      var safe := redact(reply.text);
      if reply.Raised? {
        var _ := store.Append(inc, StepFailed(name, Take(safe, 2000)));
        return StepResult(name, false, safe, dry);
      }
      var _ := store.Append(inc, StepCompleted(name, Take(safe, 2000)));
      return StepResult(name, true, safe, dry);
    }

    /** One action: the rehearsal if it is mutating, then the real run. */
    method RunStep(inc: string, i: nat, a: SuggestedAction, n: nat, replies: nat -> Reply)
      returns (step: StepResult, issued: nat)
      requires store.Valid() && inc in store.incidents
      modifies store
      ensures store.Valid()
      ensures var p := RunAction(inc, i, a, n, Around(replies));
              && p.steps == [step] && p.issued == issued && p.ok == step.ok
              && store.View() == Extend(old(store.View()), p.obs)
    {
      hide StepName, RealRun;
      var name := StepName(i, a);
      if !Mutating(a) {
        step := RunForReal(inc, a, name, n, None, replies);
        return step, 1;
      }
      ghost var before := store.View();
      ghost var rehearsal := [Ran(inc, Command(a.action, true), replies(n))];
      store.Note(Ran(inc, Command(a.action, true), replies(n)));
      var text := redact(replies(n).text);
      if replies(n).Raised? {
        var _ := store.Append(inc, StepFailed(name, Take(text, 2000)));
        ExtendTwice(before, rehearsal, [Logged(inc, StepFailed(name, Take(text, 2000)))]);
        return StepResult(name, false, text, None), 1;
      }
      step := RunForReal(inc, a, name, n + 1, Some(text), replies);
      ExtendTwice(before, rehearsal, RealRun(inc, a, name, n + 1, Some(text), Around(replies)).obs);
      return step, 2;
    }

    /** The step loop: it reports each step as it goes and stops at the first failure. */
    method RunActions(inc: string, actions: seq<SuggestedAction>, replies: nat -> Reply)
      returns (steps: seq<StepResult>, finished: bool)
      requires store.Valid() && inc in store.incidents
      modifies store
      ensures store.Valid()
      ensures var p := RunUpTo(inc, actions, |actions|, Around(replies));
              && p.steps == steps && p.ok == finished && store.View() == Extend(old(store.View()), p.obs)
    {
      hide StepName, RunAction, Extend;
      steps, finished := [], true;
      var issued: nat := 0;
      ghost var env, before := Around(replies), store.View();
      ExtendTwice(before, [], []);
      for i := 0 to |actions|
        invariant store.Valid() && inc in store.incidents
        invariant var p := RunUpTo(inc, actions, i, env);
                  p.ok && p.steps == steps && p.issued == issued && store.View() == Extend(before, p.obs)
      {
        var step, used := RunStep(inc, i, actions[i], issued, replies);
        ExtendTwice(before, RunUpTo(inc, actions, i, env).obs, RunAction(inc, i, actions[i], issued, env).obs);
        StillKnown(before, RunUpTo(inc, actions, i + 1, env).obs);
        steps, issued := steps + [step], issued + used;
        if !step.ok {
          RunStopsHere(inc, actions, i + 1, env);
          return steps, false;
        }
      }
    }

    /** execute: the incident's lock is held throughout. */
    method Execute(inc: string, report: TriageReport, replies: nat -> Reply) returns (r: ExecResult)
      requires store.Valid()
      modifies store
      ensures store.Valid()
      ensures (store.View(), r) == ExecuteSpec(old(store.View()), inc, report, Around(replies))
    {
      hide ActionKey, ActionTexts, RunUpTo, StepsOk, FullKey, Started, Finished;
      if !report.validated {
        return Refused;
      }
      var actions := report.suggestedActions;
      var key := FullKey(inc, actions);
      if Done(store.executed, key) {
        var ok := store.Append(inc, ExecutionSkipped("idempotent"));
        return if ok then Returned(Outcome(false, Some("idempotent"), [])) else Refused;
      }
      if inc !in store.incidents {
        return Refused;
      }
      var status := store.incidents[inc];
      if status == MITIGATED || status == RESOLVED {
        var _ := store.Append(inc, ExecutionSkipped("already_mitigated"));
        return Returned(Outcome(false, Some("already " + status), []));
      }
      var granted := store.HasApprovalGranted(inc);
      if AnyMutating(actions) && !granted {
        return Refused;
      }
      var steps := RunCleared(inc, actions, key, replies);
      return Returned(Outcome(true, None, steps));
    }

    /** Past the checks: the key is recorded, the steps run, and if all succeed the key is done. */
    method RunCleared(inc: string, actions: seq<SuggestedAction>, key: string, replies: nat -> Reply) returns (steps: seq<StepResult>)
      requires store.Valid() && inc in store.incidents && key == FullKey(inc, actions)
      modifies store
      ensures store.Valid()
      ensures var p := RunUpTo(inc, actions, |actions|, Around(replies));
              var started := Started(old(store.executed), key);
              && steps == p.steps
              && store.View() == old(store.View()).(executed := if p.ok then Finished(started, key) else started,
                                                    trace := old(store.trace) + RunTrace(inc, actions, Around(replies)))
    {
      hide ActionKey, ActionTexts, RunUpTo, StepsOk, FullKey, Started, Finished;
      store.RecordActionStarted(key);
      var _ := store.Append(inc, ExecutionStarted(key, ActionTexts(actions)));
      var finished;
      steps, finished := RunActions(inc, actions, replies);
      if finished {
        store.MarkActionDone(key);
        var _ := store.Append(inc, ExecutionFinished(StepsOk(steps), |steps|));
      }
      ghost var p := RunUpTo(inc, actions, |actions|, Around(replies));
      assert store.trace == old(store.trace) + RunTrace(inc, actions, Around(replies));
    }
  }

  lemma StillKnown(db: Db, obs: seq<Obs>)
    ensures Extend(db, obs).incidents == db.incidents
  {
  }

  lemma {:induction false} RunStopsHere(inc: string, actions: seq<SuggestedAction>, k: nat, env: Env)
    requires k <= |actions| && !RunUpTo(inc, actions, k, env).ok
    ensures RunUpTo(inc, actions, |actions|, env) == RunUpTo(inc, actions, k, env)
    decreases |actions| - k
  {
    if k < |actions| { RunStopsHere(inc, actions, k + 1, env); }
  }
}
