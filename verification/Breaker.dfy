// brain/providers/circuit.py and the guard around one provider in chain.py. Clock readings are parameters.

module Breaker {
  import opened Prelude

  const DEFAULT_THRESHOLD := 3
  const DEFAULT_COOLDOWN := 30.0

  datatype State = State(failures: nat, openedAt: Option<real>)

  const CLOSED_STATE := State(0, None)

  datatype Mode = Closed | Open | HalfOpen

  predicate Allows(s: State, cooldown: real, now: real) {
    s.openedAt.None? || now - s.openedAt.value >= cooldown
  }

  function Failed(s: State, threshold: int, now: real): State {
    State(s.failures + 1, if s.failures + 1 >= threshold then Some(now) else s.openedAt)
  }

  class CircuitBreaker {
    const threshold: int
    const cooldown: real
    var failures: nat
    var openedAt: Option<real>

    constructor (threshold: int := DEFAULT_THRESHOLD, cooldown: real := DEFAULT_COOLDOWN)
      ensures View() == CLOSED_STATE && this.threshold == threshold && this.cooldown == cooldown
    {
      this.threshold, this.cooldown, failures, openedAt := threshold, cooldown, 0, None;
    }

    function View(): State reads this {
      State(failures, openedAt)
    }

    method Mode(now: real) returns (m: Mode)
      ensures m == if openedAt.None? then Closed else if Allows(View(), cooldown, now) then HalfOpen else Open
    {
      if openedAt == None {
        return Closed;
      }
      if now - openedAt.value >= cooldown {
        return HalfOpen;
      }
      return Open;
    }

    method AllowRequest(now: real) returns (yes: bool)
      ensures yes == Allows(View(), cooldown, now)
    {
      var m := Mode(now);
      return m == Closed || m == HalfOpen;
    }

    method RecordSuccess()
      modifies this
      ensures View() == CLOSED_STATE
    {
      failures, openedAt := 0, None;
    }

    method RecordFailure(now: real)
      modifies this
      ensures View() == Failed(old(View()), threshold, now)
    {
      failures := failures + 1;
      if failures >= threshold {
        openedAt := Some(now);
      }
    }
  }

  // ---------------------------------------------------------------- one guarded call

  datatype Completion = Completion(text: string, tokens: int, model: string)

  /** How the provider behind the guard behaves: ProviderError and the timeout count, other exceptions do not. */
  datatype Behaviour = Succeeds(result: Completion) | TimesOut | RaisesProviderError | RaisesOther(text: string)

  predicate Fails(b: Behaviour) {
    b.TimesOut? || b.RaisesProviderError?
  }

  /** One call: the clock when it is let through or refused, what the provider does, the clock when that is recorded. */
  datatype Call = Call(lookAt: real, behaviour: Behaviour, doneAt: real)

  predicate Real(s: State, c: Call, cooldown: real) {
    Allows(s, cooldown, c.lookAt)
  }

  function AfterCall(s: State, c: Call, threshold: int, cooldown: real): State {
    if !Real(s, c, cooldown) then s
    else
      match c.behaviour
      case Succeeds(_) => CLOSED_STATE
      case RaisesOther(_) => s
      case TimesOut => Failed(s, threshold, c.doneAt)
      case RaisesProviderError => Failed(s, threshold, c.doneAt)
  }

  datatype Reply = Got(result: Completion) | ProviderError | Other(text: string)

  method GuardedComplete(breaker: CircuitBreaker, c: Call) returns (r: Reply)
    modifies breaker
    ensures breaker.View() == AfterCall(old(breaker.View()), c, breaker.threshold, breaker.cooldown)
    ensures r == if !Real(old(breaker.View()), c, breaker.cooldown) || Fails(c.behaviour) then ProviderError
                 else if c.behaviour.Succeeds? then Got(c.behaviour.result) else Other(c.behaviour.text)
  {
    var allowed := breaker.AllowRequest(c.lookAt);
    if !allowed {
      return ProviderError;
    }
    match c.behaviour
    case TimesOut =>
      breaker.RecordFailure(c.doneAt);
      return ProviderError;
    case RaisesProviderError =>
      breaker.RecordFailure(c.doneAt);
      return ProviderError;
    case RaisesOther(text) =>
      return Other(text);
    case Succeeds(result) =>
      breaker.RecordSuccess();
      return Got(result);
  }

  // ---------------------------------------------------------------- many calls

  function Run(s: State, calls: seq<Call>, threshold: int, cooldown: real): State {
    if calls == [] then s
    else AfterCall(Run(s, calls[..|calls| - 1], threshold, cooldown), calls[|calls| - 1], threshold, cooldown)
  }

  /** How often the provider was really called. */
  function RealCalls(s: State, calls: seq<Call>, threshold: int, cooldown: real): nat {
    if calls == [] then 0
    else
      var front := calls[..|calls| - 1];
      RealCalls(s, front, threshold, cooldown)
      + if Real(Run(s, front, threshold, cooldown), calls[|calls| - 1], cooldown) then 1 else 0
  }

  /** One call after the other, from t0 on, all let through by t1. */
  ghost predicate Sequential(calls: seq<Call>, t0: real, t1: real) {
    && (forall i | 0 <= i < |calls| :: t0 <= calls[i].lookAt <= calls[i].doneAt && calls[i].lookAt <= t1)
    && (forall i, j | 0 <= i < j < |calls| :: calls[i].doneAt <= calls[j].lookAt)
  }

  ghost predicate AllFail(calls: seq<Call>) {
    forall i | 0 <= i < |calls| :: Fails(calls[i].behaviour)
  }

  /** Failures that trip the breaker at the latest. */
  function Allowance(threshold: int): int {
    if threshold < 1 then 1 else threshold
  }

  predicate Consistent(s: State, threshold: int) {
    s.openedAt.Some? <==> s.failures >= Allowance(threshold)
  }

  lemma {:induction false} ReachedIsConsistent(calls: seq<Call>, threshold: int, cooldown: real)
    ensures Consistent(Run(CLOSED_STATE, calls, threshold, cooldown), threshold)
  {
    if calls != [] {
      ReachedIsConsistent(calls[..|calls| - 1], threshold, cooldown);
    }
  }

  /** k failing calls since t0 leave the breaker closed below its allowance, or opened late enough. */
  predicate Paid(s: State, k: nat, threshold: int, cooldown: real, t0: real) {
    && Consistent(s, threshold) && s.failures >= k
    && match s.openedAt
       case None => k < Allowance(threshold)
       case Some(o) => k == 0 || Spaced(k, threshold, cooldown, o - t0)
  }

  predicate Spaced(k: nat, threshold: int, cooldown: real, span: real) {
    (k - Allowance(threshold)) as real * cooldown <= span
  }

  lemma CallIsPaid(s: State, k: nat, c: Call, threshold: int, cooldown: real, t0: real)
    requires cooldown > 0.0 && Paid(s, k, threshold, cooldown, t0) && t0 <= c.lookAt <= c.doneAt && Fails(c.behaviour)
    requires Real(s, c, cooldown)
    ensures Paid(AfterCall(s, c, threshold, cooldown), k + 1, threshold, cooldown, t0)
    ensures Spaced(k + 1, threshold, cooldown, c.lookAt - t0)
  {
    var a := Allowance(threshold);
    if k + 1 <= a {
      AtMostZero(k + 1 - a, cooldown);
    } else {
      assert (k + 1 - a) as real == (k - a) as real + 1.0;
      Distribute((k - a) as real, cooldown);
    }
  }

  lemma AtMostZero(n: int, x: real)
    requires n <= 0 && x > 0.0
    ensures n as real * x <= 0.0
  {
  }

  lemma Distribute(n: real, x: real)
    ensures (n + 1.0) * x == n * x + x
  {
  }

  lemma {:induction false} RunIsPaid(s: State, calls: seq<Call>, threshold: int, cooldown: real, t0: real, t1: real)
    requires cooldown > 0.0 && Sequential(calls, t0, t1) && AllFail(calls)
    requires Consistent(s, threshold)
    ensures var k := RealCalls(s, calls, threshold, cooldown);
            && Paid(Run(s, calls, threshold, cooldown), k, threshold, cooldown, t0)
            && (k == 0 || Spaced(k, threshold, cooldown, t1 - t0))
  {
    hide Spaced, Allows;
    if calls != [] {
      var front, c := calls[..|calls| - 1], calls[|calls| - 1];
      RunIsPaid(s, front, threshold, cooldown, t0, t1);
      var before := Run(s, front, threshold, cooldown);
      if Real(before, c, cooldown) {
        CallIsPaid(before, RealCalls(s, front, threshold, cooldown), c, threshold, cooldown, t0);
        SpacedGrows(RealCalls(s, calls, threshold, cooldown), threshold, cooldown, c.lookAt - t0, t1 - t0);
      }
    }
  }

  lemma SpacedGrows(k: nat, threshold: int, cooldown: real, span: real, more: real)
    requires Spaced(k, threshold, cooldown, span) && span <= more
    ensures Spaced(k, threshold, cooldown, more)
  {
  }

  /**
   * From any state the breaker can reach, a provider whose calls all fail is really called, in any span of time,
   * at most as often as the threshold allows, and once more for every whole cooldown in the span.
   */
  lemma FailingProviderIsSpared(before: seq<Call>, calls: seq<Call>, threshold: int, cooldown: real, t0: real, t1: real)
    requires cooldown > 0.0 && t0 <= t1 && Sequential(calls, t0, t1) && AllFail(calls)
    ensures RealCalls(Run(CLOSED_STATE, before, threshold, cooldown), calls, threshold, cooldown)
         <= Allowance(threshold) + ((t1 - t0) / cooldown).Floor
  {
    var s := Run(CLOSED_STATE, before, threshold, cooldown);
    ReachedIsConsistent(before, threshold, cooldown);
    RunIsPaid(s, calls, threshold, cooldown, t0, t1);
    var k := RealCalls(s, calls, threshold, cooldown);
    DivideBy((k - Allowance(threshold)) as real, cooldown, t1 - t0);
  }

  lemma DivideBy(n: real, x: real, y: real)
    requires x > 0.0 && y >= 0.0
    ensures n * x <= y ==> n <= y / x
    ensures y / x >= 0.0
  {
    assert (y / x) * x == y;
    if n > y / x { assert n * x > (y / x) * x; }
  }

  /** n cooldowns after t0 */
  function Later(t0: real, cooldown: real, n: nat): real {
    if n == 0 then t0 else Later(t0, cooldown, n - 1) + cooldown
  }

  lemma {:induction false} LaterIs(t0: real, cooldown: real, n: nat)
    ensures Later(t0, cooldown, n) == t0 + n as real * cooldown
  {
    if n > 0 {
      LaterIs(t0, cooldown, n - 1);
      assert n as real == (n - 1) as real + 1.0;
      Distribute((n - 1) as real, cooldown);
    }
  }

  /** threshold failures at t0, then one at the end of every cooldown. */
  function Burst(threshold: nat, cooldown: real, t0: real, n: nat): seq<Call> {
    if n == 0 then seq(threshold, i => Call(t0, TimesOut, t0))
    else
      var t := Later(t0, cooldown, n);
      Burst(threshold, cooldown, t0, n - 1) + [Call(t, TimesOut, t)]
  }

  lemma {:induction false} FirstFailures(k: nat, threshold: nat, cooldown: real, t0: real)
    requires 1 <= k <= threshold
    ensures var calls := seq(k, i => Call(t0, TimesOut, t0));
            && Run(CLOSED_STATE, calls, threshold, cooldown) == State(k, if k == threshold then Some(t0) else None)
            && RealCalls(CLOSED_STATE, calls, threshold, cooldown) == k
  {
    var calls := seq(k, i => Call(t0, TimesOut, t0));
    assert calls[..k - 1] == seq(k - 1, i => Call(t0, TimesOut, t0));
    if k > 1 { FirstFailures(k - 1, threshold, cooldown, t0); }
  }

  lemma {:induction false} BurstIsSequential(threshold: nat, cooldown: real, t0: real, n: nat)
    requires threshold >= 1 && cooldown > 0.0
    ensures var calls, t := Burst(threshold, cooldown, t0, n), Later(t0, cooldown, n);
            t0 <= t && Sequential(calls, t0, t) && AllFail(calls) && forall i | 0 <= i < |calls| :: calls[i].doneAt <= t
  {
    if n > 0 {
      BurstIsSequential(threshold, cooldown, t0, n - 1);
    }
  }

  lemma {:induction false} BurstIsCalled(threshold: nat, cooldown: real, t0: real, n: nat)
    requires threshold >= 1 && cooldown > 0.0
    ensures var calls := Burst(threshold, cooldown, t0, n);
            && Run(CLOSED_STATE, calls, threshold, cooldown) == State(threshold + n, Some(Later(t0, cooldown, n)))
            && RealCalls(CLOSED_STATE, calls, threshold, cooldown) == threshold + n
  {
    if n == 0 {
      FirstFailures(threshold, threshold, cooldown, t0);
    } else {
      BurstIsCalled(threshold, cooldown, t0, n - 1);
      var calls := Burst(threshold, cooldown, t0, n);
      assert calls[..|calls| - 1] == Burst(threshold, cooldown, t0, n - 1);
    }
  }

  /** The bound is reached: a provider that fails as fast as it is asked is called that often. */
  lemma BoundIsReached(threshold: nat, cooldown: real, t0: real, n: nat)
    requires threshold >= 1 && cooldown > 0.0
    ensures exists calls :: && Sequential(calls, t0, t0 + n as real * cooldown) && AllFail(calls)
                            && RealCalls(CLOSED_STATE, calls, threshold, cooldown) == Allowance(threshold) + n
  {
    BurstIsSequential(threshold, cooldown, t0, n);
    BurstIsCalled(threshold, cooldown, t0, n);
    hide *;
    LaterIs(t0, cooldown, n);
    assert Allowance(threshold) == threshold by { AllowanceIs(threshold); }
  }

  lemma AllowanceIs(threshold: int)
    requires threshold >= 1
    ensures Allowance(threshold) == threshold
  {
  }

  // ---------------------------------------------------------------- what opens the breaker

  /** How many of the calls recorded last failed in a row; refused calls and other exceptions record nothing. */
  function Trailing(s: State, calls: seq<Call>, threshold: int, cooldown: real): nat {
    if calls == [] then 0
    else
      var front, c := calls[..|calls| - 1], calls[|calls| - 1];
      if !Real(Run(s, front, threshold, cooldown), c, cooldown) || c.behaviour.RaisesOther? then
        Trailing(s, front, threshold, cooldown)
      else if c.behaviour.Succeeds? then 0
      else Trailing(s, front, threshold, cooldown) + 1
  }

  /** When the last failure was recorded. */
  function LastFailure(s: State, calls: seq<Call>, threshold: int, cooldown: real): Option<real> {
    if calls == [] then None
    else
      var front, c := calls[..|calls| - 1], calls[|calls| - 1];
      if Real(Run(s, front, threshold, cooldown), c, cooldown) && Fails(c.behaviour) then Some(c.doneAt)
      else LastFailure(s, front, threshold, cooldown)
  }

  /** A breaker is open exactly after a run of at least threshold failures, since the last of them. */
  lemma {:induction false} OpenIffEnoughFailures(calls: seq<Call>, threshold: int, cooldown: real)
    requires threshold >= 1
    ensures var s, n := Run(CLOSED_STATE, calls, threshold, cooldown), Trailing(CLOSED_STATE, calls, threshold, cooldown);
            && s.failures == n
            && s.openedAt == if n >= threshold then LastFailure(CLOSED_STATE, calls, threshold, cooldown) else None
    ensures Trailing(CLOSED_STATE, calls, threshold, cooldown) > 0 ==> LastFailure(CLOSED_STATE, calls, threshold, cooldown).Some?
  {
    if calls != [] {
      OpenIffEnoughFailures(calls[..|calls| - 1], threshold, cooldown);
    }
  }

  /** How many of the calls the state s lets through. */
  function LetThrough(s: State, calls: seq<Call>, cooldown: real): nat {
    if calls == [] then 0
    else LetThrough(s, calls[..|calls| - 1], cooldown) + if Real(s, calls[|calls| - 1], cooldown) then 1 else 0
  }

  /**
   * Exceptions that are not ProviderError leave a breaker as it is, closed, open or half open: every such call
   * that the state lets through reaches the provider.
   */
  lemma {:induction false} OtherExceptionsAreNotCounted(s: State, calls: seq<Call>, threshold: int, cooldown: real)
    requires forall i | 0 <= i < |calls| :: calls[i].behaviour.RaisesOther?
    ensures Run(s, calls, threshold, cooldown) == s
    ensures RealCalls(s, calls, threshold, cooldown) == LetThrough(s, calls, cooldown)
    ensures s.openedAt.None? ==> RealCalls(s, calls, threshold, cooldown) == |calls|
  {
    if calls != [] {
      OtherExceptionsAreNotCounted(s, calls[..|calls| - 1], threshold, cooldown);
    }
  }
}
