// runbook/approval.py: the approval request state machine and its escalation chain.

module ApprovalGate {
  import opened Prelude
  import opened Database

  datatype State = AutoApproved | Pending | Approved | Rejected | Escalated | Abandoned

  datatype Step = Step(name: string, risk: string, dryRunCapable: bool)

  datatype PendingApproval = PendingApproval(
    incident: string, step: string, state: State, targets: seq<string>, timeouts: nat)

  /** next_target of the escalation chain, and the target notified first. */
  datatype Chain = Chain(next: string -> Option<string>, initial: string)

  datatype GateResult = Outcome(state: State, request: Option<string>) | ValueErrorRaised

  /** The database together with the gate's _pending dictionary. */
  datatype World = World(db: Db, pending: map<string, PendingApproval>)

  const UNKNOWN := Outcome(Rejected, None)

  function Without(pending: map<string, PendingApproval>, rid: string): map<string, PendingApproval> {
    map r | r in pending && r != rid :: pending[r]
  }

  predicate Waiting(pending: map<string, PendingApproval>, rid: string, state: State) {
    rid in pending && pending[rid].state == state
  }

  function Log(w: World, incident: string, e: Event): World {
    w.(db := After(w.db, incident, e))
  }

  // ---------------------------------------------------------------- decisions

  function Submit(w: World, c: Chain, rid: string, incident: string, step: Step): (World, GateResult) {
    if step.risk == "read-only" then
      if incident !in w.db.incidents then (w, ValueErrorRaised)
      else (Log(w, incident, ApprovalAutoApproved(step.name)), Outcome(AutoApproved, None))
    else if !step.dryRunCapable && incident !in w.db.incidents then (w, ValueErrorRaised)
    else
      var w1 := if step.dryRunCapable then w else Log(w, incident, DryRunUnavailable(step.name));
      var entry := PendingApproval(incident, step.name, Pending, [c.initial], 0);
      var w2 := w1.(pending := w1.pending[rid := entry]);
      if incident !in w.db.incidents then (w2, ValueErrorRaised)
      else (Log(w2, incident, ApprovalRequested(rid, step.name, c.initial)), Outcome(Pending, Some(rid)))
  }

  function OnApprove(w: World, rid: string, user: string): (World, GateResult) {
    if !Waiting(w.pending, rid, Pending) then (w, UNKNOWN)
    else
      var w1 := w.(pending := Without(w.pending, rid));
      var incident := w.pending[rid].incident;
      if incident !in w.db.incidents then (w1, ValueErrorRaised)
      else (Log(w1, incident, ApprovalGranted(rid, user)), Outcome(Approved, Some(rid)))
  }

  function OnReject(w: World, rid: string, user: string, reason: string): (World, GateResult) {
    if !Waiting(w.pending, rid, Pending) then (w, UNKNOWN)
    else
      var w1 := w.(pending := Without(w.pending, rid));
      var incident := w.pending[rid].incident;
      if incident !in w.db.incidents then (w1, ValueErrorRaised)
      else (Log(Log(w1, incident, ApprovalRejected(rid, user, reason)), incident, OverrideIndexed(rid, reason)),
            Outcome(Rejected, Some(rid)))
  }

  // ---------------------------------------------------------------- timeouts

  function LastTarget(c: Chain, p: PendingApproval): string {
    if p.targets == [] then c.initial else p.targets[|p.targets| - 1]
  }

  /** `next_target or last_target`: an empty name counts as no name. */
  function TargetFor(c: Chain, last: string): string {
    var next := c.next(last);
    if next.Some? && next.value != "" then next.value else last
  }

  /** Whether the next timeout escalates; otherwise it abandons. */
  predicate Escalates(c: Chain, p: PendingApproval) {
    p.timeouts == 0 || c.next(LastTarget(c, p)).Some?
  }

  /** The target is recorded by on_timeout and again by _notify. */
  function TimedOut(c: Chain, p: PendingApproval): PendingApproval {
    var target := TargetFor(c, LastTarget(c, p));
    p.(timeouts := p.timeouts + 1, state := Escalated, targets := p.targets + [target, target])
  }

  function OnTimeout(w: World, c: Chain, rid: string): (World, GateResult) {
    if !Waiting(w.pending, rid, Pending) && !Waiting(w.pending, rid, Escalated) then (w, UNKNOWN)
    else
      var p := w.pending[rid];
      if Escalates(c, p) then
        var last := LastTarget(c, p);
        var w1 := w.(pending := w.pending[rid := TimedOut(c, p)]);
        if p.incident !in w.db.incidents then (w1, ValueErrorRaised)
        else (Log(w1, p.incident, ApprovalEscalated(rid, last, TargetFor(c, last))), Outcome(Escalated, Some(rid)))
      else
        var w1 := w.(pending := Without(w.pending, rid));
        if p.incident !in w.db.incidents then (w1, ValueErrorRaised)
        else (Log(w1, p.incident, ApprovalAbandoned(rid, p.targets, p.timeouts + 1)), Outcome(Abandoned, Some(rid)))
  }

  // ---------------------------------------------------------------- the escalation bound

  /** A request entry after n timeouts without an answer; None once it was abandoned. */
  function AfterTimeouts(c: Chain, p: PendingApproval, n: nat): Option<PendingApproval> {
    if n == 0 then Some(p)
    else
      var q := AfterTimeouts(c, p, n - 1);
      if q.Some? && Escalates(c, q.value) then Some(TimedOut(c, q.value)) else None
  }

  /** next_target can be followed k times from `from` before it returns None. */
  predicate FollowedExactly(c: Chain, from: string, k: nat)
    decreases k
  {
    if k == 0 then c.next(from) == None
    else c.next(from).Some? && c.next(from).value != "" && FollowedExactly(c, c.next(from).value, k - 1)
  }

  /** The k-th target, staying put where the chain ends. */
  function Reached(c: Chain, from: string, k: nat): string {
    if k == 0 then from else TargetFor(c, Reached(c, from, k - 1))
  }

  function Fresh(c: Chain, incident: string, step: string): PendingApproval {
    PendingApproval(incident, step, Pending, [c.initial], 0)
  }

  /** Two records of every target it escalated to. */
  function Trail(c: Chain, n: nat): seq<string> {
    if n == 0 then [c.initial] else Trail(c, n - 1) + [Reached(c, c.initial, n), Reached(c, c.initial, n)]
  }

  /** What n timeouts in a row leave of a request that is still held: its count and the trail of targets. */
  lemma {:induction false} UnansweredTrail(c: Chain, incident: string, step: string, n: nat)
    ensures var q := AfterTimeouts(c, Fresh(c, incident, step), n);
            q.Some? ==>
              && q.value == PendingApproval(incident, step, if n == 0 then Pending else Escalated, Trail(c, n), n)
              && LastTarget(c, q.value) == Reached(c, c.initial, n)
  {
    if n > 0 { UnansweredTrail(c, incident, step, n - 1); }
  }

  lemma {:induction false} FollowingReaches(c: Chain, from: string, k: nat, i: nat)
    requires FollowedExactly(c, from, k)
    ensures i <= k ==> FollowedExactly(c, Reached(c, from, i), k - i)
    ensures i > k ==> c.next(Reached(c, from, i)) == None
  {
    if i > 0 { FollowingReaches(c, from, k, i - 1); }
  }

  /** The targets are the chain's: each the next of the one before, and the last of them for good. */
  lemma {:induction false} TargetsFollowTheChain(c: Chain, from: string, k: nat, i: nat)
    requires FollowedExactly(c, from, k)
    ensures if i < k then c.next(Reached(c, from, i)) == Some(Reached(c, from, i + 1)) && Reached(c, from, i + 1) != ""
            else Reached(c, from, i) == Reached(c, from, k)
    ensures Reached(c, from, 0) == from
  {
    FollowingReaches(c, from, k, i);
    if i > k {
      FollowingReaches(c, from, k, i - 1);
      TargetsFollowTheChain(c, from, k, i - 1);
    }
  }

  /** With k further targets a request outlives all timeouts before the max(2, k + 1)-th, and not that one. */
  lemma {:induction false} SurvivesUntil(c: Chain, incident: string, step: string, k: nat, n: nat)
    requires FollowedExactly(c, c.initial, k)
    ensures AfterTimeouts(c, Fresh(c, incident, step), n).Some? <==> n < Max(2, k + 1)
  {
    if n > 0 {
      SurvivesUntil(c, incident, step, k, n - 1);
      UnansweredTrail(c, incident, step, n - 1);
      FollowingReaches(c, c.initial, k, n - 1);
    }
  }

  lemma {:induction false} PrependFollowed(c: Chain, from: string, i: nat, k: nat)
    requires forall j: nat | j < i :: c.next(Reached(c, from, j)).Some? && c.next(Reached(c, from, j)).value != ""
    requires FollowedExactly(c, Reached(c, from, i), k)
    ensures FollowedExactly(c, from, i + k)
  {
    if i > 0 { PrependFollowed(c, from, i - 1, k + 1); }
  }

  /** Once the chain names an empty target, no number of timeouts ends the request. */
  lemma {:induction false} StuckForever(c: Chain, incident: string, step: string, i: nat, n: nat)
    requires i <= n && c.next(Reached(c, c.initial, i)) == Some("")
    requires AfterTimeouts(c, Fresh(c, incident, step), i).Some?
    ensures AfterTimeouts(c, Fresh(c, incident, step), n).Some?
    ensures Reached(c, c.initial, n) == Reached(c, c.initial, i)
  {
    if n > i {
      StuckForever(c, incident, step, i, n - 1);
      UnansweredTrail(c, incident, step, n - 1);
    }
  }

  lemma {:induction false} EarlierEscalated(c: Chain, p: PendingApproval, j: nat, n: nat)
    requires j <= n && AfterTimeouts(c, p, n).Some?
    ensures AfterTimeouts(c, p, j).Some?
  {
    if j < n { EarlierEscalated(c, p, j, n - 1); }
  }

  /**
   * An unanswered request is abandoned at its n-th timeout iff n == max(2, k + 1), where k is how
   * often next_target can be followed; if next_target never returns None along the way, or returns
   * an empty name first, it is never abandoned.
   */
  lemma AbandonedAtExactly(c: Chain, incident: string, step: string, n: nat)
    ensures AbandonedAt(c, Fresh(c, incident, step), n) <==> ChainGives(c, n)
  {
    var p := Fresh(c, incident, step);
    if ChainGives(c, n) {
      var k: nat :| k <= n && FollowedExactly(c, c.initial, k) && n == Max(2, k + 1);
      SurvivesUntil(c, incident, step, k, n);
      SurvivesUntil(c, incident, step, k, n - 1);
    }
    if AbandonedAt(c, p, n) {
      ChainEndedAt(c, incident, step, n);
    }
  }

  /** The n-th timeout in a row is the one that abandons the request. */
  ghost predicate AbandonedAt(c: Chain, p: PendingApproval, n: nat) {
    n > 0 && AfterTimeouts(c, p, n - 1).Some? && AfterTimeouts(c, p, n) == None
  }

  ghost predicate ChainGives(c: Chain, n: nat) {
    exists k: nat | k <= n :: FollowedExactly(c, c.initial, k) && n == Max(2, k + 1)
  }

  /** A chain that ends at once abandons at the second timeout, if at any. */
  lemma EndsAtOnce(c: Chain, incident: string, step: string, n: nat)
    requires AbandonedAt(c, Fresh(c, incident, step), n) && c.next(c.initial) == None
    ensures n == 2
  {
    var p := Fresh(c, incident, step);
    UnansweredTrail(c, incident, step, n - 1);
    if n > 2 {
      FollowingReaches(c, c.initial, 0, 1);
      UnansweredTrail(c, incident, step, 1);
      EarlierEscalated(c, p, 1, n - 1);
      EarlierEscalated(c, p, 2, n - 1);
    }
  }

  /** Before the chain ends it names a target each time. */
  lemma NamesTargets(c: Chain, incident: string, step: string, n: nat, j: nat)
    requires AbandonedAt(c, Fresh(c, incident, step), n) && c.next(c.initial) != None && j < n - 1
    ensures c.next(Reached(c, c.initial, j)).Some? && c.next(Reached(c, c.initial, j)).value != ""
  {
    var p := Fresh(c, incident, step);
    EarlierEscalated(c, p, j, n - 1);
    EarlierEscalated(c, p, j + 1, n - 1);
    UnansweredTrail(c, incident, step, j);
    if c.next(Reached(c, c.initial, j)) == Some("") {
      StuckForever(c, incident, step, j, n);
    }
  }

  lemma ChainEndedAt(c: Chain, incident: string, step: string, n: nat)
    requires AbandonedAt(c, Fresh(c, incident, step), n)
    ensures ChainGives(c, n)
  {
    UnansweredTrail(c, incident, step, n - 1);
    assert n >= 2 && c.next(Reached(c, c.initial, n - 1)) == None;
    if c.next(c.initial) == None {
      EndsAtOnce(c, incident, step, n);
      assert FollowedExactly(c, c.initial, 0);
    } else {
      forall j: nat | j < n - 1
        ensures c.next(Reached(c, c.initial, j)).Some? && c.next(Reached(c, c.initial, j)).value != ""
      {
        NamesTargets(c, incident, step, n, j);
      }
      assert FollowedExactly(c, Reached(c, c.initial, n - 1), 0);
      PrependFollowed(c, c.initial, n - 1, 0);
      hide AbandonedAt, Reached;
      assert FollowedExactly(c, c.initial, n - 1);
    }
  }

  // ---------------------------------------------------------------- the gate

  class ApprovalGate {
    const store: Store
    const chain: Chain
    var pending: map<string, PendingApproval>

    constructor (store: Store, chain: Chain)
      ensures this.store == store && this.chain == chain && pending == map[]
    {
      this.store, this.chain, pending := store, chain, map[];
    }

    ghost function View(): World reads this, store {
      World(store.View(), pending)
    }

    /** Looks up a request in the expected state and removes it; None otherwise. */
    method TakeOut(rid: string, expected: State) returns (found: Option<PendingApproval>)
      modifies this
      ensures found == if Waiting(old(pending), rid, expected) then Some(old(pending)[rid]) else None
      ensures pending == if found.Some? then Without(old(pending), rid) else old(pending)
    {
      if rid !in pending || pending[rid].state != expected {
        return None;
      }
      found := Some(pending[rid]);
      pending := map r | r in pending && r != rid :: pending[r];
    }

    method SubmitStep(rid: string, incident: string, step: Step) returns (r: GateResult)
      requires store.Valid()
      modifies this, store
      ensures store.Valid() && (View(), r) == Submit(old(View()), chain, rid, incident, step)
    {
      if step.risk == "read-only" {
        var ok := store.Append(incident, ApprovalAutoApproved(step.name));
        return if ok then Outcome(AutoApproved, None) else ValueErrorRaised;
      }
      if !step.dryRunCapable {
        var ok := store.Append(incident, DryRunUnavailable(step.name));
        if !ok {
          return ValueErrorRaised;
        }
      }
      pending := pending[rid := PendingApproval(incident, step.name, Pending, [chain.initial], 0)];
      var ok := store.Append(incident, ApprovalRequested(rid, step.name, chain.initial));
      return if ok then Outcome(Pending, Some(rid)) else ValueErrorRaised;
    }

    method Approve(rid: string, user: string) returns (r: GateResult)
      requires store.Valid()
      modifies this, store
      ensures store.Valid() && (View(), r) == OnApprove(old(View()), rid, user)
    {
      var found := TakeOut(rid, Pending);
      if found == None {
        return UNKNOWN;
      }
      var ok := store.Append(found.value.incident, ApprovalGranted(rid, user));
      return if ok then Outcome(Approved, Some(rid)) else ValueErrorRaised;
    }

    method Reject(rid: string, user: string, reason: string) returns (r: GateResult)
      requires store.Valid()
      modifies this, store
      ensures store.Valid() && (View(), r) == OnReject(old(View()), rid, user, reason)
    {
      var found := TakeOut(rid, Pending);
      if found == None {
        return UNKNOWN;
      }
      var ok := store.Append(found.value.incident, ApprovalRejected(rid, user, reason));
      if !ok {
        return ValueErrorRaised;
      }
      var _ := store.Append(found.value.incident, OverrideIndexed(rid, reason));
      return Outcome(Rejected, Some(rid));
    }

    /** Remind again, and move on to the next target when the chain names one. */
    method Escalate(rid: string, p: PendingApproval, last: string, next: Option<string>) returns (r: GateResult)
      requires store.Valid()
      modifies this, store
      ensures store.Valid()
      ensures var target := if next.Some? && next.value != "" then next.value else last;
              var q := p.(state := Escalated, targets := p.targets + [target, target]);
              var w1 := old(View()).(pending := old(pending)[rid := q]);
              (View(), r) == if p.incident !in old(store.incidents) then (w1, ValueErrorRaised)
                             else (Log(w1, p.incident, ApprovalEscalated(rid, last, target)), Outcome(Escalated, Some(rid)))
    {
      var target := if next.Some? && next.value != "" then next.value else last;
      var q := p.(state := Escalated, targets := p.targets + [target]);
      q := q.(targets := q.targets + [target]);
      assert q.targets == p.targets + [target, target];
      pending := pending[rid := q];
      var ok := store.Append(p.incident, ApprovalEscalated(rid, last, target));
      return if ok then Outcome(Escalated, Some(rid)) else ValueErrorRaised;
    }

    /** Nobody is left to ask: the request goes, and its trail is logged. */
    method Abandon(rid: string, p: PendingApproval) returns (r: GateResult)
      requires store.Valid()
      modifies this, store
      ensures store.Valid()
      ensures var w1 := old(View()).(pending := Without(old(pending), rid));
              (View(), r) == if p.incident !in old(store.incidents) then (w1, ValueErrorRaised)
                             else (Log(w1, p.incident, ApprovalAbandoned(rid, p.targets, p.timeouts)), Outcome(Abandoned, Some(rid)))
    {
      pending := map r | r in pending && r != rid :: pending[r];
      var ok := store.Append(p.incident, ApprovalAbandoned(rid, p.targets, p.timeouts));
      return if ok then Outcome(Abandoned, Some(rid)) else ValueErrorRaised;
    }

    method Timeout(rid: string) returns (r: GateResult)
      requires store.Valid()
      modifies this, store
      ensures store.Valid() && (View(), r) == OnTimeout(old(View()), chain, rid)
    {
      if rid !in pending || (pending[rid].state != Pending && pending[rid].state != Escalated) {
        return UNKNOWN;
      }
      var p := pending[rid];
      p := p.(timeouts := p.timeouts + 1);
      var last := if p.targets != [] then p.targets[|p.targets| - 1] else chain.initial;
      var next := chain.next(last);
      if p.timeouts == 1 || next.Some? {
        r := Escalate(rid, p, last, next);
        return;
      }
      r := Abandon(rid, p);
    }
  }
}
