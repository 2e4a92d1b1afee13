// brain/providers/chain.py: providers asked in order until one answers.

module ProviderChain {
  import opened Prelude
  import opened Breaker

  datatype Outcome =
    | Completed(result: Completion, attempts: seq<string>)
    | AllFailed(attempts: seq<string>)
    | Propagated(text: string, after: seq<string>)

  /** The guard answers with a ProviderError: the breaker refuses, or the provider fails. */
  predicate Skipped(s: State, c: Call, cooldown: real) {
    !Real(s, c, cooldown) || Fails(c.behaviour)
  }

  /** How many providers were passed over. */
  function Passed(r: Outcome): int {
    match r
    case Completed(_, attempts) => |attempts| - 1
    case AllFailed(attempts) => |attempts|
    case Propagated(_, after) => |after|
  }

  class Chain {
    const names: seq<string>
    const breakers: seq<CircuitBreaker>

    constructor (names: seq<string>, breakers: seq<CircuitBreaker>)
      requires names != []
      ensures this.names == names && this.breakers == breakers
    {
      this.names, this.breakers := names, breakers;
    }

    ghost predicate Valid() {
      && |names| == |breakers| > 0
      && forall i, j | 0 <= i < j < |breakers| :: breakers[i] != breakers[j]
    }

    /** The state of the j-th breaker, and what a call makes of a state of it. */
    function At(j: nat): State
      requires j < |breakers|
      reads breakers
    {
      breakers[j].View()
    }

    function Made(j: nat, was: State, c: Call): State
      requires j < |breakers|
    {
      AfterCall(was, c, breakers[j].threshold, breakers[j].cooldown)
    }

    /**
     * The first provider that is let through and answers wins, and attempts names every provider up to it.
     * Providers before it had a failure recorded, or were refused; those after it are left alone. It raises
     * AllFailed exactly when every provider was refused or failed.
     */
    method Complete(calls: seq<Call>) returns (r: Outcome)
      requires Valid() && |calls| == |names|
      modifies breakers
      ensures 0 <= Passed(r) <= |names|
      ensures forall j | 0 <= j < Passed(r) :: Skipped(old(At(j)), calls[j], breakers[j].cooldown)
      ensures forall j | 0 <= j < Passed(r) :: At(j) == Made(j, old(At(j)), calls[j])
      ensures forall j | Passed(r) < j < |names| :: At(j) == old(At(j))
      ensures r.AllFailed? <==> Passed(r) == |names|
      ensures r.AllFailed? ==> r == AllFailed(names)
      ensures var n := Passed(r);
              n < |names| ==>
                && !Skipped(old(At(n)), calls[n], breakers[n].cooldown)
                && At(n) == Made(n, old(At(n)), calls[n])
                && r == if calls[n].behaviour.Succeeds? then Completed(calls[n].behaviour.result, names[..n + 1])
                        else Propagated(calls[n].behaviour.text, names[..n])
    {
      var errors := [];
      for i := 0 to |names|
        invariant errors == names[..i]
        invariant forall j | 0 <= j < i :: Skipped(old(At(j)), calls[j], breakers[j].cooldown)
        invariant forall j | 0 <= j < i :: At(j) == Made(j, old(At(j)), calls[j])
        invariant forall j | i <= j < |names| :: At(j) == old(At(j))
      {
        hide AfterCall;
        var reply := GuardedComplete(breakers[i], calls[i]);
        TakeSnoc(names, i);
        match reply
        case Got(result) =>
          return Completed(result, errors + [names[i]]);
        case Other(text) =>
          return Propagated(text, errors);
        case ProviderError =>
          errors := errors + [names[i]];
      }
      return AllFailed(errors);
    }
  }
}
