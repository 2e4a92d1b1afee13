// brain/budget.py: what triage may spend on one incident.

module Budget {
  import opened Prelude

  const DEFAULT_MAX_CALLS := 6
  const DEFAULT_MAX_TOKENS := 20_000

  datatype Account = Account(calls: nat, tokens: int)

  datatype Limits = Limits(maxCalls: int, maxTokens: int)

  const UNUSED := Account(0, 0)

  datatype Denial = CallLimit(used: int) | TokenLimit(used: int)

  predicate CanSpend(a: Account, limits: Limits, estimated: int) {
    a.calls < limits.maxCalls && a.tokens < limits.maxTokens && a.tokens + estimated <= limits.maxTokens
  }

  function Recorded(a: Account, tokens: int): Account {
    Account(a.calls + 1, a.tokens + tokens)
  }

  class TokenBudget {
    const incident: string
    const limits: Limits
    var calls: nat
    var tokens: int

    constructor (incident: string, limits: Limits)
      ensures View() == UNUSED && this.limits == limits && this.incident == incident
    {
      this.incident, this.limits, calls, tokens := incident, limits, 0, 0;
    }

    function View(): Account reads this {
      Account(calls, tokens)
    }

    method AssertCanSpend(estimated: int) returns (denied: Option<Denial>)
      ensures denied.None? <==> CanSpend(View(), limits, estimated)
      ensures denied == if calls >= limits.maxCalls then Some(CallLimit(calls))
                        else if tokens >= limits.maxTokens then Some(TokenLimit(tokens))
                        else if tokens + estimated > limits.maxTokens then Some(TokenLimit(tokens + estimated)) else None
    {
      if calls >= limits.maxCalls {
        return Some(CallLimit(calls));
      }
      if tokens >= limits.maxTokens {
        return Some(TokenLimit(tokens));
      }
      var projected := tokens + estimated;
      if projected > limits.maxTokens {
        return Some(TokenLimit(projected));
      }
      return None;
    }

    method Record(used: int)
      modifies this
      ensures View() == Recorded(old(View()), used)
    {
      calls := calls + 1;
      tokens := tokens + used;
    }
  }

  class BudgetLedger {
    const limits: Limits
    var budgets: map<string, TokenBudget>

    constructor (limits: Limits)
      ensures Valid() && this.limits == limits && budgets == map[]
    {
      this.limits, budgets := limits, map[];
    }

    ghost predicate Valid() reads this, budgets.Values {
      forall i | i in budgets :: budgets[i] in budgets.Values && budgets[i].limits == limits && budgets[i].incident == i
    }

    /** What has been spent on an incident; nothing if it has no budget yet. */
    ghost function Spent(incident: string): Account reads this, budgets.Values {
      if incident in budgets then assert budgets[incident] in budgets.Values; budgets[incident].View() else UNUSED
    }

    /** The one budget of the incident, opened on first use. */
    method BudgetFor(incident: string) returns (b: TokenBudget)
      requires Valid()
      modifies this
      ensures Valid() && incident in budgets && b == budgets[incident] && b.limits == limits
      ensures b.View() == old(Spent(incident))
      ensures forall i :: Spent(i) == old(Spent(i))
      ensures forall i | i in old(budgets) :: i in budgets && budgets[i] == old(budgets[i])
      ensures fresh(budgets.Values - old(budgets.Values))
    {
      if incident !in budgets {
        var budget := new TokenBudget(incident, limits);
        budgets := budgets[incident := budget];
      }
      return budgets[incident];
    }
  }

  // ---------------------------------------------------------------- histories

  function Sum(records: seq<int>): int {
    if records == [] then 0 else Sum(records[..|records| - 1]) + records[|records| - 1]
  }

  /** The account is the sum of what was recorded, and each record was made with room left for it. */
  ghost predicate Backed(a: Account, records: seq<int>, limits: Limits) {
    && a == Account(|records|, Sum(records))
    && (forall k | 0 <= k < |records| :: k < limits.maxCalls && Sum(records[..k]) < limits.maxTokens)
  }

  lemma RecordIsBacked(a: Account, records: seq<int>, limits: Limits, tokens: int)
    requires Backed(a, records, limits) && CanSpend(a, limits, 0)
    ensures Backed(Recorded(a, tokens), records + [tokens], limits)
  {
    var more := records + [tokens];
    assert more[..|records|] == records;
    forall k | 0 <= k < |more| ensures k < limits.maxCalls && Sum(more[..k]) < limits.maxTokens {
      if k < |records| { assert more[..k] == records[..k]; }
    }
  }

  /** So with at most one completion's tokens over it, spending stays within the limit. */
  lemma OverspendIsOneCall(a: Account, records: seq<int>, limits: Limits, most: nat)
    requires Backed(a, records, limits) && forall k | 0 <= k < |records| :: records[k] <= most
    ensures a.calls <= Max(0, limits.maxCalls) && (records != [] ==> a.tokens < limits.maxTokens + most)
  {
    if records != [] {
      var k := |records| - 1;
      assert k < limits.maxCalls && Sum(records[..k]) < limits.maxTokens;
    }
  }
}
