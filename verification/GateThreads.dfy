// runbook/approval.py and approval_flow.py under threads: callbacks and the timeout scheduler share the gate's
// dictionary, its request objects and the stored rows, with no lock. A step is one access to one of them.

module GateThreads {
  import opened Prelude
  import Gate = ApprovalGate

  datatype Verb = Approve | Reject | Timeout

  /** One callback, or one row of a scheduler round: on_approve, on_reject or on_timeout and what follows it. */
  datatype Job = Job(verb: Verb, rid: string)

  /** Where a call stands; each constructor names its next access. */
  datatype Pc =
    | Gets                        // the dictionary: is the request there?
    | Checks                      // pending.state
    | Deletes                     // del: a KeyError if somebody else was first
    | Marks                       // pending.state = APPROVED
    | Logs                        // granted, rejected or abandoned
    | Counts                      // timeout_count += 1: it is read ...
    | Adds(n: nat)                // ... and written
    | Asks                        // notified_targets[-1]
    | Tests(last: string)         // timeout_count == 1, or a next target
    | Escalates(target: string)   // pending.state = ESCALATED
    | Notes(target: string)       // notified_targets
    | LogsEscalation
    | Abandons                    // pending.state = ABANDONED
    | Fetches                     // get_pending_report, once a request is granted
    | Closes                      // mark_approval_done, once it is rejected (refused or not) or abandoned
    | Left

  /** A request object; it outlives its place in the dictionary. */
  datatype Entry = Entry(state: Gate.State, timeouts: nat, last: string)

  /** Called and Missing: the granted request finds its report, or does not. Closed: the row stops being pending. */
  datatype Ev =
    | Found(t: nat) | Removed(t: nat) | Decided(t: nat) | Escalated(t: nat)
    | Called(t: nat) | Missing(t: nat) | Closed(t: nat)

  /**
   * held: the dictionary's keys. rows: the requests whose stored row is pending. remover, a history: which
   * call deleted a request.
   */
  datatype Sys = Sys(
    entries: map<string, Entry>,
    held: set<string>,
    rows: set<string>,
    jobs: map<nat, Job>,
    pc: map<nat, Pc>,
    remover: map<string, nat>,
    trace: seq<Ev>)

  datatype Act = Submit(rid: string) | Spawn(t: nat, job: Job) | Turn(t: nat)

  const START := Sys(map[], {}, {}, map[], map[], map[], [])

  predicate Waits(e: Entry) {
    e.state.Pending? || e.state.Escalated?
  }

  /** The timeout after this many goes on to another target, or reminds the last one. */
  predicate GoesOn(c: Gate.Chain, last: string, timeouts: nat) {
    timeouts == 1 || c.next(last).Some?
  }

  /** Past the decision, whatever it was. */
  predicate Past(pc: Pc) {
    pc.Fetches? || pc.Closes? || pc.Left?
  }

  /** With the request object in hand. */
  predicate Middle(pc: Pc) {
    !pc.Gets? && !Past(pc)
  }

  predicate Ready(s: Sys, t: nat) {
    t in s.jobs && t in s.pc && (Middle(s.pc[t]) || s.pc[t].Fetches? ==> s.jobs[t].rid in s.entries)
  }

  /** Where a call goes that the gate refuses: a refused rejection closes the row all the same. */
  function Refused(verb: Verb): Pc {
    if verb.Reject? then Closes else Left
  }

  /** The step a call takes next: where it goes, ... */
  function PcAfter(s: Sys, t: nat, c: Gate.Chain): Pc
    requires Ready(s, t)
  {
    var j := s.jobs[t];
    match s.pc[t]
    case Gets => if j.rid in s.held then Checks else Refused(j.verb)
    case Checks =>
      if j.verb.Timeout? then if Waits(s.entries[j.rid]) then Counts else Left
      else if s.entries[j.rid].state.Pending? then Deletes else Refused(j.verb)
    case Deletes => if j.rid !in s.held then Left else if j.verb.Approve? then Marks else Logs
    case Marks => Logs
    case Logs => if j.verb.Approve? then Fetches else Closes
    case Counts => Adds(s.entries[j.rid].timeouts)
    case Adds(_) => Asks
    case Asks => Tests(s.entries[j.rid].last)
    case Tests(last) =>
      if GoesOn(c, last, s.entries[j.rid].timeouts) then Escalates(Gate.TargetFor(c, last)) else Abandons
    case Escalates(target) => Notes(target)
    case Notes(_) => LogsEscalation
    case LogsEscalation => Left
    case Abandons => Deletes
    case Fetches => Left
    case Closes => Left
    case Left => Left
  }

  /** ... what it writes to the request object, ... */
  function EntryAfter(e: Entry, pc: Pc): Entry {
    match pc
    case Marks => e.(state := Gate.Approved)
    case Adds(n) => e.(timeouts := n + 1)
    case Escalates(_) => e.(state := Gate.Escalated)
    case Notes(target) => e.(last := target)
    case Abandons => e.(state := Gate.Abandoned)
    case _ => e
  }

  /** ... whether it deletes the request, ... */
  predicate DeletesIt(s: Sys, t: nat)
    requires Ready(s, t)
  {
    s.pc[t].Deletes? && s.jobs[t].rid in s.held
  }

  /** ... and what is seen of it. */
  function Emits(s: Sys, t: nat): Option<Ev>
    requires Ready(s, t)
  {
    var rid := s.jobs[t].rid;
    match s.pc[t]
    case Gets => if rid in s.held then Some(Found(t)) else None
    case Deletes => if rid in s.held then Some(Removed(t)) else None
    case Logs => Some(Decided(t))
    case LogsEscalation => Some(Escalated(t))
    case Fetches => Some(if rid in s.rows then Called(t) else Missing(t))
    case Closes => if rid in s.entries then Some(Closed(t)) else None
    case _ => None
  }

  function TakeTurn(s: Sys, t: nat, c: Gate.Chain): Sys
    requires Ready(s, t)
  {
    var rid, e := s.jobs[t].rid, Emits(s, t);
    s.(pc := s.pc[t := PcAfter(s, t, c)],
       entries := if rid in s.entries then s.entries[rid := EntryAfter(s.entries[rid], s.pc[t])] else s.entries,
       held := if DeletesIt(s, t) then s.held - {rid} else s.held,
       remover := if DeletesIt(s, t) then s.remover[rid := t] else s.remover,
       rows := if s.pc[t].Closes? then s.rows - {rid} else s.rows,
       trace := if e.Some? then s.trace + [e.value] else s.trace)
  }

  /** Request ids are fresh; a request is known to nobody else before its row is stored. */
  function Next(s: Sys, a: Act, c: Gate.Chain): Sys {
    match a
    case Submit(rid) =>
      if rid in s.entries then s
      else s.(entries := s.entries[rid := Entry(Gate.Pending, 0, c.initial)], held := s.held + {rid}, rows := s.rows + {rid})
    case Spawn(t, job) => if t in s.jobs then s else s.(jobs := s.jobs[t := job], pc := s.pc[t := Gets])
    case Turn(t) => if Ready(s, t) then TakeTurn(s, t, c) else s
  }

  function ReachFrom(s: Sys, acts: seq<Act>, c: Gate.Chain): Sys {
    if acts == [] then s else Next(ReachFrom(s, acts[..|acts| - 1], c), acts[|acts| - 1], c)
  }

  function Reach(acts: seq<Act>, c: Gate.Chain): Sys {
    ReachFrom(START, acts, c)
  }

  lemma ReachSnoc(s: Sys, acts: seq<Act>, a: Act, c: Gate.Chain)
    ensures ReachFrom(s, acts + [a], c) == Next(ReachFrom(s, acts, c), a, c)
  {
    assert (acts + [a])[..|acts|] == acts;
  }

  // ---------------------------------------------------------------- invariant

  predicate HasRemoved(pc: Pc) {
    pc.Marks? || pc.Logs?
  }

  predicate OnlyTimeout(pc: Pc) {
    pc.Counts? || pc.Adds? || pc.Asks? || pc.Tests? || pc.Escalates? || pc.Notes? || pc.LogsEscalation? || pc.Abandons?
  }

  /** Each place belongs to the calls that can come to it. */
  predicate Fits(pc: Pc, verb: Verb) {
    && (OnlyTimeout(pc) ==> verb.Timeout?) && (pc.Marks? || pc.Fetches? ==> verb.Approve?) && (pc.Closes? ==> !verb.Approve?)
  }

  /** The call has decided its request: granted, or abandoned by a timeout. */
  predicate HasDecided(pc: Pc, verb: Verb) {
    pc.Fetches? || (pc.Closes? && verb.Timeout?)
  }

  ghost predicate CallOk(s: Sys, t: nat) {
    && Ready(s, t) && Fits(s.pc[t], s.jobs[t].verb)
    && (HasRemoved(s.pc[t]) ==> s.jobs[t].rid in s.remover && s.remover[s.jobs[t].rid] == t)
  }

  ghost predicate TableOk(s: Sys) {
    && s.held <= s.entries.Keys && s.remover.Keys <= s.entries.Keys && s.rows <= s.entries.Keys
    && (forall rid | rid in s.remover :: rid !in s.held)
  }

  ghost predicate EventOk(s: Sys, e: Ev) {
    && e.t in s.jobs && e.t in s.pc && !s.pc[e.t].Gets? && s.jobs[e.t].rid in s.entries
    && (e.Removed? ==> s.jobs[e.t].rid in s.remover)
    && (e.Decided? ==> Past(s.pc[e.t]) && s.jobs[e.t].rid in s.remover && s.remover[s.jobs[e.t].rid] == e.t)
    && (e.Called? || e.Missing? ==> s.jobs[e.t].verb.Approve?) && (e.Closed? ==> !s.jobs[e.t].verb.Approve?)
  }

  predicate PairOk(jobs: map<nat, Job>, a: Ev, b: Ev) {
    a.t in jobs && b.t in jobs ==>
      && !(a.Decided? && b.Decided? && a.t == b.t)
      && !(a.Removed? && b.Found? && jobs[a.t].rid == jobs[b.t].rid)
  }

  /** The event lies before n. */
  ghost predicate Seen(trace: seq<Ev>, e: Ev, n: nat) {
    exists f | 0 <= f < n && f < |trace| :: trace[f] == e
  }

  /** What a call in this place has done before. */
  ghost predicate CallSeen(s: Sys, t: nat) {
    t in s.jobs && t in s.pc ==>
      && (Middle(s.pc[t]) ==> Seen(s.trace, Found(t), |s.trace|))
      && (HasDecided(s.pc[t], s.jobs[t].verb) ==> Seen(s.trace, Decided(t), |s.trace|))
  }

  /** What has happened before the i-th event. */
  ghost predicate EventSeen(jobs: map<nat, Job>, trace: seq<Ev>, i: nat)
    requires i < |trace|
  {
    var e := trace[i];
    && (e.Escalated? ==> Seen(trace, Found(e.t), i))
    && (e.Called? || e.Missing? || (e.Closed? && e.t in jobs && jobs[e.t].verb.Timeout?) ==> Seen(trace, Decided(e.t), i))
  }

  ghost predicate Inv(s: Sys) {
    && TableOk(s)
    && (forall t | t in s.jobs :: CallOk(s, t))
    && (forall t | t in s.jobs :: CallSeen(s, t))
    && (forall i | 0 <= i < |s.trace| :: EventOk(s, s.trace[i]))
    && (forall i | 0 <= i < |s.trace| :: EventSeen(s.jobs, s.trace, i))
    && (forall i, j | 0 <= i < j < |s.trace| :: PairOk(s.jobs, s.trace[i], s.trace[j]))
  }

  /** What a turn does to the tables. */
  ghost predicate TableEffect(s: Sys, t: nat, after: Sys, e: Option<Ev>)
    requires t in s.jobs
  {
    var rid := s.jobs[t].rid;
    && after.jobs == s.jobs && after.entries.Keys == s.entries.Keys
    && after.rows == (if e == Some(Closed(t)) then s.rows - {rid} else s.rows)
    && (if e == Some(Removed(t)) then rid in s.held && after.held == s.held - {rid} && after.remover == s.remover[rid := t]
        else after.held == s.held && after.remover == s.remover)
  }

  /** What it does to the history. */
  ghost predicate EventEffect(s: Sys, t: nat, after: Sys, e: Option<Ev>)
    requires t in s.jobs && t in s.pc && t in after.pc
  {
    var rid, pc := s.jobs[t].rid, s.pc[t];
    && after.trace == (if e.Some? then s.trace + [e.value] else s.trace)
    && (e.Some? ==> e.value.t == t && rid in s.entries)
    && (e == Some(Found(t)) ==> rid in s.held)
    && (e == Some(Decided(t)) ==> HasRemoved(pc) && Past(after.pc[t]))
    && (e == Some(Escalated(t)) ==> pc.LogsEscalation?)
    && (e == Some(Called(t)) ==> pc.Fetches? && rid in s.rows) && (e == Some(Missing(t)) ==> pc.Fetches? && rid !in s.rows)
    && (e == Some(Closed(t)) ==> pc.Closes?)
  }

  /** What it does to the call. */
  ghost predicate CallEffect(s: Sys, t: nat, after: Sys, e: Option<Ev>)
    requires t in s.jobs && t in s.pc && t in after.pc
  {
    var rid, pc, to := s.jobs[t].rid, s.pc[t], after.pc[t];
    && after.pc == s.pc[t := to] && !to.Gets? && Fits(to, s.jobs[t].verb) && (Past(pc) ==> Past(to))
    && (Middle(to) || to.Fetches? ==> rid in s.entries)
    && (Middle(to) ==> Middle(pc) || e == Some(Found(t)))
    && (HasRemoved(to) ==> e == Some(Removed(t)) || HasRemoved(pc))
    && (HasDecided(to, s.jobs[t].verb) ==> e == Some(Decided(t)))
  }

  ghost predicate Effect(s: Sys, t: nat, after: Sys, e: Option<Ev>)
    requires t in s.jobs && t in s.pc
  {
    t in after.pc && TableEffect(s, t, after, e) && EventEffect(s, t, after, e) && CallEffect(s, t, after, e)
  }

  lemma TurnHasTableEffect(s: Sys, t: nat, c: Gate.Chain)
    requires TableOk(s) && CallOk(s, t)
    ensures TableEffect(s, t, TakeTurn(s, t, c), Emits(s, t))
  {
    hide PcAfter, EntryAfter, Fits;
    assert s.jobs[t].rid !in s.entries ==> s.rows - {s.jobs[t].rid} == s.rows;
  }

  lemma TurnHasEventEffect(s: Sys, t: nat, c: Gate.Chain)
    requires TableOk(s) && CallOk(s, t)
    ensures EventEffect(s, t, TakeTurn(s, t, c), Emits(s, t))
  {
    hide EntryAfter, GoesOn, Fits;
  }

  lemma TurnHasCallEffect(s: Sys, t: nat, c: Gate.Chain)
    requires TableOk(s) && CallOk(s, t)
    ensures CallEffect(s, t, TakeTurn(s, t, c), Emits(s, t))
  {
    hide EntryAfter, GoesOn;
  }

  lemma TurnHasEffect(s: Sys, t: nat, c: Gate.Chain)
    requires TableOk(s) && CallOk(s, t)
    ensures Effect(s, t, TakeTurn(s, t, c), Emits(s, t))
  {
    TurnHasTableEffect(s, t, c);
    TurnHasEventEffect(s, t, c);
    TurnHasCallEffect(s, t, c);
    hide TakeTurn, Emits, TableEffect, EventEffect, CallEffect;
  }

  lemma CallsFit(s: Sys, t: nat, after: Sys, e: Option<Ev>, u: nat)
    requires TableOk(s) && CallOk(s, t) && CallOk(s, u) && Effect(s, t, after, e)
    ensures CallOk(after, u)
  {
    hide Fits, HasDecided;
  }

  lemma OldEventFits(s: Sys, t: nat, after: Sys, e: Option<Ev>, a: Ev)
    requires TableOk(s) && CallOk(s, t) && Effect(s, t, after, e) && EventOk(s, a)
    ensures EventOk(after, a)
  {
    hide Fits, HasDecided, HasRemoved;
  }

  lemma NewEventFits(s: Sys, t: nat, after: Sys, e: Ev)
    requires TableOk(s) && CallOk(s, t) && Effect(s, t, after, Some(e))
    ensures EventOk(after, e)
  {
    hide HasDecided;
  }

  lemma NewPairFits(s: Sys, t: nat, after: Sys, e: Ev, a: Ev)
    requires TableOk(s) && CallOk(s, t) && Effect(s, t, after, Some(e)) && EventOk(s, a)
    ensures PairOk(s.jobs, a, e)
  {
    hide Fits, HasDecided, CallEffect;
  }

  lemma SeenStays(trace: seq<Ev>, more: seq<Ev>, e: Ev, n: nat, m: nat)
    requires Seen(trace, e, n) && n <= m && trace <= more
    ensures Seen(more, e, m)
  {
    var f :| 0 <= f < n && f < |trace| && trace[f] == e;
    assert more[f] == e;
  }

  lemma SeenNow(trace: seq<Ev>, e: Ev)
    ensures Seen(trace + [e], e, |trace| + 1)
  {
    assert (trace + [e])[|trace|] == e;
  }

  lemma OtherCallsSeen(s: Sys, after: Sys, u: nat)
    requires CallSeen(s, u) && s.trace <= after.trace && u in s.jobs && u in s.pc
    requires after.jobs == s.jobs && u in after.pc && after.pc[u] == s.pc[u]
    ensures CallSeen(after, u)
  {
    hide Seen, HasDecided;
    if Middle(s.pc[u]) { SeenStays(s.trace, after.trace, Found(u), |s.trace|, |after.trace|); }
    if HasDecided(s.pc[u], s.jobs[u].verb) { SeenStays(s.trace, after.trace, Decided(u), |s.trace|, |after.trace|); }
  }

  lemma OwnCallSeen(s: Sys, t: nat, after: Sys, e: Option<Ev>)
    requires CallSeen(s, t) && t in s.jobs && t in s.pc && Effect(s, t, after, e)
    ensures CallSeen(after, t)
  {
    hide Seen, Fits, TableEffect;
    assert after.jobs == s.jobs by { JobsStay(s, t, after, e); }
    if e.Some? { SeenNow(s.trace, e.value); }
    if Middle(s.pc[t]) { SeenStays(s.trace, after.trace, Found(t), |s.trace|, |after.trace|); }
  }

  lemma JobsStay(s: Sys, t: nat, after: Sys, e: Option<Ev>)
    requires t in s.jobs && t in s.pc && Effect(s, t, after, e)
    ensures after.jobs == s.jobs && after.pc == s.pc[t := after.pc[t]] && s.trace <= after.trace
    ensures after.trace == (if e.Some? then s.trace + [e.value] else s.trace) && (e.Some? ==> e.value.t == t)
  {
  }

  lemma OldEventSeen(jobs: map<nat, Job>, trace: seq<Ev>, more: seq<Ev>, i: nat)
    requires i < |trace| && trace <= more && EventSeen(jobs, trace, i)
    ensures EventSeen(jobs, more, i)
  {
    var e := trace[i];
    assert more[i] == e;
    hide Seen;
    if Seen(trace, Found(e.t), i) { SeenStays(trace, more, Found(e.t), i, i); }
    if Seen(trace, Decided(e.t), i) { SeenStays(trace, more, Decided(e.t), i, i); }
  }

  lemma NewEventSeen(s: Sys, t: nat, after: Sys, e: Ev)
    requires CallSeen(s, t) && t in s.jobs && t in s.pc && Effect(s, t, after, Some(e))
    ensures EventSeen(s.jobs, after.trace, |s.trace|)
  {
    hide Seen, CallEffect, TableEffect;
    assert after.trace[|s.trace|] == e;
    if Middle(s.pc[t]) { SeenStays(s.trace, after.trace, Found(t), |s.trace|, |s.trace|); }
    if HasDecided(s.pc[t], s.jobs[t].verb) { SeenStays(s.trace, after.trace, Decided(t), |s.trace|, |s.trace|); }
  }

  lemma TableFits(s: Sys, t: nat, after: Sys, e: Option<Ev>)
    requires TableOk(s) && CallOk(s, t) && Effect(s, t, after, e)
    ensures TableOk(after)
  {
    hide CallEffect, Fits;
  }

  lemma EffectKeeps(s: Sys, t: nat, after: Sys, e: Option<Ev>)
    requires Inv(s) && t in s.jobs && t in s.pc && Effect(s, t, after, e)
    ensures Inv(after)
  {
    var n := |s.trace|;
    assert CallOk(s, t) && CallSeen(s, t);
    TableFits(s, t, after, e);
    JobsStay(s, t, after, e);
    assert forall i | 0 <= i < n :: after.trace[i] == s.trace[i];
    hide CallOk, CallSeen, EventOk, EventSeen, PairOk, Effect, TableOk;
    forall u | u in after.jobs ensures CallOk(after, u) && CallSeen(after, u) {
      assert CallOk(s, u) && CallSeen(s, u);
      CallsFit(s, t, after, e, u);
      CallsStand(s, u);
      if u == t { OwnCallSeen(s, t, after, e); } else { OtherCallsSeen(s, after, u); }
    }
    forall i | 0 <= i < |after.trace| ensures EventOk(after, after.trace[i]) && EventSeen(after.jobs, after.trace, i) {
      if i < n {
        OldEventFits(s, t, after, e, s.trace[i]);
        OldEventSeen(s.jobs, s.trace, after.trace, i);
      } else {
        NewEventFits(s, t, after, e.value);
        NewEventSeen(s, t, after, e.value);
      }
    }
    forall i, j | 0 <= i < j < |after.trace| ensures PairOk(after.jobs, after.trace[i], after.trace[j]) {
      if j < n { assert PairOk(s.jobs, s.trace[i], s.trace[j]); } else { NewPairFits(s, t, after, e.value, s.trace[i]); }
    }
  }

  lemma CallsStand(s: Sys, u: nat)
    requires CallOk(s, u)
    ensures u in s.jobs && u in s.pc
  {
  }

  /** A step that adds to the tables and takes no call anywhere. */
  lemma GrowthKeeps(s: Sys, after: Sys)
    requires Inv(s) && TableOk(after) && after.trace == s.trace && s.entries.Keys <= after.entries.Keys
    requires after.remover == s.remover
    requires forall t | t in s.jobs :: t in after.jobs && after.jobs[t] == s.jobs[t]
    requires forall t | t in s.jobs && t in s.pc :: t in after.pc && after.pc[t] == s.pc[t]
    requires forall t | t in after.jobs && t !in s.jobs :: t in after.pc && after.pc[t].Gets?
    ensures Inv(after)
  {
    forall t | t in after.jobs ensures CallOk(after, t) && CallSeen(after, t) {
      if t in s.jobs { assert CallOk(s, t) && CallSeen(s, t); }
    }
    forall i | 0 <= i < |s.trace| ensures EventOk(after, s.trace[i]) && EventSeen(after.jobs, s.trace, i) {
      assert EventOk(s, s.trace[i]) && EventSeen(s.jobs, s.trace, i);
    }
    forall i, j | 0 <= i < j < |s.trace| ensures PairOk(after.jobs, s.trace[i], s.trace[j]) {
      assert EventOk(s, s.trace[i]) && EventOk(s, s.trace[j]) && PairOk(s.jobs, s.trace[i], s.trace[j]);
    }
  }

  lemma NextKeeps(s: Sys, a: Act, c: Gate.Chain)
    requires Inv(s)
    ensures Inv(Next(s, a, c))
  {
    hide CallSeen, EventOk, EventSeen, PairOk;
    match a
    case Submit(rid) => if rid !in s.entries { GrowthKeeps(s, Next(s, a, c)); }
    case Spawn(t, job) => if t !in s.jobs { GrowthKeeps(s, Next(s, a, c)); }
    case Turn(t) =>
      if Ready(s, t) {
        assert CallOk(s, t);
        TurnHasEffect(s, t, c);
        hide TakeTurn, Effect, CallOk, TableOk;
        EffectKeeps(s, t, TakeTurn(s, t, c), Emits(s, t));
      }
  }

  lemma {:induction false} ReachKeeps(s: Sys, acts: seq<Act>, c: Gate.Chain)
    requires Inv(s)
    ensures Inv(ReachFrom(s, acts, c))
  {
    hide Inv, Next;
    if acts != [] {
      ReachKeeps(s, acts[..|acts| - 1], c);
      NextKeeps(ReachFrom(s, acts[..|acts| - 1], c), acts[|acts| - 1], c);
    }
  }

  lemma StartIsSound()
    ensures Inv(START)
  {
  }

  /** Every reachable state is sound. */
  lemma Reached(acts: seq<Act>, c: Gate.Chain)
    ensures Inv(Reach(acts, c))
  {
    StartIsSound();
    ReachKeeps(START, acts, c);
  }

  // ---------------------------------------------------------------- what holds without a lock

  /** The request an event is about. */
  function RidOf(s: Sys, e: Ev): Option<string> {
    if e.t in s.jobs then Some(s.jobs[e.t].rid) else None
  }

  /** In any interleaving of callbacks and timeouts a request is granted, rejected or abandoned at most once. */
  lemma AtMostOneDecision(acts: seq<Act>, c: Gate.Chain, i: nat, j: nat)
    requires var s := Reach(acts, c);
             i < |s.trace| && j < |s.trace| && s.trace[i].Decided? && s.trace[j].Decided?
             && RidOf(s, s.trace[i]) == RidOf(s, s.trace[j])
    ensures i == j
  {
    Reached(acts, c);
    OneDecision(Reach(acts, c), i, j);
  }

  lemma OneDecision(s: Sys, i: nat, j: nat)
    requires Inv(s) && i < |s.trace| && j < |s.trace| && s.trace[i].Decided? && s.trace[j].Decided?
    requires RidOf(s, s.trace[i]) == RidOf(s, s.trace[j])
    ensures i == j
  {
    assert EventOk(s, s.trace[i]) && EventOk(s, s.trace[j]);
    assert i < j ==> PairOk(s.jobs, s.trace[i], s.trace[j]);
    assert j < i ==> PairOk(s.jobs, s.trace[j], s.trace[i]);
    hide Inv;
    assert s.trace[i].t == s.trace[j].t;
  }

  /** Every escalation was logged by a call that took its request from the dictionary before it was deleted. */
  lemma EscalationsFoundTheirRequest(acts: seq<Act>, c: Gate.Chain, k: nat, d: nat)
    requires var s := Reach(acts, c);
             k < |s.trace| && d < |s.trace| && s.trace[k].Escalated? && s.trace[d].Removed?
             && RidOf(s, s.trace[k]) == RidOf(s, s.trace[d])
    ensures exists f | 0 <= f < k && f < d :: Reach(acts, c).trace[f] == Found(Reach(acts, c).trace[k].t)
  {
    Reached(acts, c);
    FoundBeforeRemoval(Reach(acts, c), k, d);
  }

  lemma FoundBeforeRemoval(s: Sys, k: nat, d: nat)
    requires Inv(s) && k < |s.trace| && d < |s.trace| && s.trace[k].Escalated? && s.trace[d].Removed?
    requires RidOf(s, s.trace[k]) == RidOf(s, s.trace[d])
    ensures exists f | 0 <= f < k && f < d :: s.trace[f] == Found(s.trace[k].t)
  {
    assert EventOk(s, s.trace[k]) && EventOk(s, s.trace[d]) && EventSeen(s.jobs, s.trace, k);
    assert forall f | d < f < |s.trace| :: PairOk(s.jobs, s.trace[d], s.trace[f]);
    hide Inv, EventOk;
    var f :| 0 <= f < k && s.trace[f] == Found(s.trace[k].t);
    assert f != d;
  }

  lemma EventsHaveJobs(s: Sys)
    requires Inv(s)
    ensures forall i | 0 <= i < |s.trace| :: s.trace[i].t in s.jobs
  {
    forall i | 0 <= i < |s.trace| ensures s.trace[i].t in s.jobs { assert EventOk(s, s.trace[i]); }
  }

  lemma {:induction false} TurnFirst(s: Sys, t: nat, rest: seq<Act>, c: Gate.Chain)
    ensures ReachFrom(s, [Turn(t)] + rest, c) == ReachFrom(Next(s, Turn(t), c), rest, c)
  {
    hide Next;
    if rest == [] {
      assert [Turn(t)] + rest == [Turn(t)] && [Turn(t)][..0] == [];
    } else {
      assert ([Turn(t)] + rest)[..|rest|] == [Turn(t)] + rest[..|rest| - 1];
      TurnFirst(s, t, rest[..|rest| - 1], c);
    }
  }

  lemma {:induction false} ReachConcat(a: seq<Act>, b: seq<Act>, c: Gate.Chain)
    ensures Reach(a + b, c) == ReachFrom(Reach(a, c), b, c)
  {
    hide Next;
    if b == [] {
      assert a + b == a;
    } else {
      assert (a + b)[..|a + b| - 1] == a + b[..|b| - 1];
      ReachConcat(a, b[..|b| - 1], c);
    }
  }

  /** What a step leaves of the history and of the calls. */
  predicate Extends(s: Sys, after: Sys) {
    s.trace <= after.trace && forall t | t in s.jobs :: t in after.jobs && after.jobs[t] == s.jobs[t]
  }

  lemma NextExtends(s: Sys, a: Act, c: Gate.Chain)
    requires Inv(s)
    ensures Extends(s, Next(s, a, c)) && |Next(s, a, c).trace| <= |s.trace| + 1
    ensures |Next(s, a, c).trace| > |s.trace| ==>
              a.Turn? && Ready(s, a.t) && CallOk(s, a.t) && Emits(s, a.t) == Some(Next(s, a, c).trace[|s.trace|])
  {
    if a.Turn? && Ready(s, a.t) {
      assert CallOk(s, a.t);
      TurnHasEffect(s, a.t, c);
      hide TakeTurn, Inv, CallOk, Emits, CallEffect;
    }
  }

  // ---------------------------------------------------------------- when an escalation can follow a decision

  /** Left to itself, this timeout will log an escalation. */
  predicate WillEscalate(s: Sys, t: nat, c: Gate.Chain) {
    && Ready(s, t) && s.jobs[t].verb.Timeout? && s.jobs[t].rid in s.entries
    && var e := s.entries[s.jobs[t].rid];
       match s.pc[t]
       case Checks => Waits(e) && GoesOn(c, e.last, e.timeouts + 1)
       case Counts => GoesOn(c, e.last, e.timeouts + 1)
       case Adds(n) => GoesOn(c, e.last, n + 1)
       case Asks => GoesOn(c, e.last, e.timeouts)
       case Tests(last) => GoesOn(c, last, e.timeouts)
       case Escalates(_) => true
       case Notes(_) => true
       case LogsEscalation => true
       case _ => false
  }

  /** No call on the request will: it is deleted, and every call that still holds it is past escalating. */
  ghost predicate Quiet(s: Sys, rid: string, c: Gate.Chain) {
    && rid in s.entries && rid !in s.held
    && forall t | t in s.jobs && s.jobs[t].rid == rid :: !WillEscalate(s, t, c)
  }

  /** What a turn of a call that will not escalate does to its request. */
  predicate Calms(c: Gate.Chain, e: Entry, after: Entry) {
    || after == e
    || (after.last == e.last && after.timeouts == e.timeouts && !Waits(after))
    || (after == e.(timeouts := after.timeouts) && after.timeouts >= 2 && c.next(e.last).None?)
  }

  lemma TurnCalms(s: Sys, t: nat, rid: string, c: Gate.Chain)
    requires CallOk(s, t) && rid in s.entries && rid !in s.held && (s.jobs[t].rid == rid ==> !WillEscalate(s, t, c))
    ensures var after := TakeTurn(s, t, c);
            && after.jobs == s.jobs && rid in after.entries && rid !in after.held && Calms(c, s.entries[rid], after.entries[rid])
            && after.pc == s.pc[t := after.pc[t]]
  {
    hide PcAfter, Emits;
  }

  lemma OthersStayCalm(s: Sys, after: Sys, u: nat, rid: string, c: Gate.Chain)
    requires u in s.jobs && after.jobs == s.jobs && s.jobs[u].rid == rid && Ready(s, u) && u in after.pc && after.pc[u] == s.pc[u]
    requires rid in s.entries && rid in after.entries && Calms(c, s.entries[rid], after.entries[rid]) && !WillEscalate(s, u, c)
    ensures !WillEscalate(after, u, c)
  {
  }

  lemma OwnTurnStaysCalm(s: Sys, t: nat, rid: string, c: Gate.Chain)
    requires CallOk(s, t) && s.jobs[t].rid == rid && rid in s.entries && rid !in s.held && !WillEscalate(s, t, c)
    ensures !WillEscalate(TakeTurn(s, t, c), t, c)
  {
    hide Emits;
  }

  lemma QuietTurn(s: Sys, t: nat, rid: string, c: Gate.Chain)
    requires Inv(s) && Quiet(s, rid, c) && Ready(s, t)
    ensures Quiet(TakeTurn(s, t, c), rid, c)
    ensures s.jobs[t].rid == rid ==> !s.pc[t].LogsEscalation?
  {
    var after := TakeTurn(s, t, c);
    assert CallOk(s, t);
    TurnCalms(s, t, rid, c);
    if s.jobs[t].rid == rid { OwnTurnStaysCalm(s, t, rid, c); }
    hide TakeTurn, Calms;
    forall u | u in after.jobs && after.jobs[u].rid == rid ensures !WillEscalate(after, u, c) {
      assert CallOk(s, u) && !WillEscalate(s, u, c);
      hide WillEscalate;
      if u != t { OthersStayCalm(s, after, u, rid, c); }
    }
    assert s.jobs[t].rid == rid ==> !WillEscalate(s, t, c);
  }

  predicate Escalation(s: Sys, e: Ev, rid: string) {
    e.Escalated? && RidOf(s, e) == Some(rid)
  }

  lemma QuietNext(s: Sys, a: Act, rid: string, c: Gate.Chain)
    requires Inv(s) && Quiet(s, rid, c)
    ensures var after := Next(s, a, c);
            Quiet(after, rid, c) && forall k | |s.trace| <= k < |after.trace| :: !Escalation(after, after.trace[k], rid)
  {
    NextExtends(s, a, c);
    if a.Turn? && Ready(s, a.t) {
      QuietTurn(s, a.t, rid, c);
      hide TakeTurn, Quiet, Inv;
    } else {
      hide Inv;
    }
  }

  lemma {:induction false} QuietStays(s: Sys, acts: seq<Act>, rid: string, c: Gate.Chain)
    requires Inv(s) && Quiet(s, rid, c)
    ensures var after := ReachFrom(s, acts, c);
            && Quiet(after, rid, c) && Extends(s, after)
            && forall k | |s.trace| <= k < |after.trace| :: !Escalation(after, after.trace[k], rid)
  {
    if acts != [] {
      var front, a := acts[..|acts| - 1], acts[|acts| - 1];
      QuietStays(s, front, rid, c);
      ReachKeeps(s, front, c);
      var was, after := ReachFrom(s, front, c), ReachFrom(s, acts, c);
      hide Quiet, Next, Inv;
      assert after == Next(was, a, c);
      NextExtends(was, a, c);
      QuietNext(was, a, rid, c);
      EventsHaveJobs(was);
      forall k | |s.trace| <= k < |after.trace| ensures !Escalation(after, after.trace[k], rid) {
        if k < |was.trace| { assert after.trace[k] == was.trace[k] && !Escalation(was, was.trace[k], rid); }
      }
    }
  }

  /** The turns that call t has left before its escalation is logged. */
  function TurnsLeft(pc: Pc): nat {
    match pc
    case Checks => 8
    case Counts => 7
    case Adds(_) => 6
    case Asks => 5
    case Tests(_) => 4
    case Escalates(_) => 3
    case Notes(_) => 2
    case LogsEscalation => 1
    case _ => 0
  }

  /** Everything but this call's place and its request is as before. */
  predicate OnlyMoved(s: Sys, t: nat, after: Sys) {
    && after.jobs == s.jobs && after.rows == s.rows && after.entries.Keys == s.entries.Keys
    && t in s.pc && t in after.pc && after.pc == s.pc[t := after.pc[t]]
  }

  lemma MovedTwice(s: Sys, t: nat, mid: Sys, after: Sys)
    requires OnlyMoved(s, t, mid) && OnlyMoved(mid, t, after)
    ensures OnlyMoved(s, t, after)
  {
  }

  lemma TowardsEscalation(s: Sys, t: nat, c: Gate.Chain)
    requires WillEscalate(s, t, c)
    ensures var next := Next(s, Turn(t), c);
            && OnlyMoved(s, t, next) && next.held == s.held && TurnsLeft(next.pc[t]) == TurnsLeft(s.pc[t]) - 1
            && next.trace == (if s.pc[t].LogsEscalation? then s.trace + [Escalated(t)] else s.trace)
            && (!s.pc[t].LogsEscalation? ==> WillEscalate(next, t, c))
  {
  }

  lemma {:induction false} EscalatesAlone(s: Sys, t: nat, c: Gate.Chain) returns (acts: seq<Act>)
    requires WillEscalate(s, t, c)
    ensures var after := ReachFrom(s, acts, c);
            after.trace == s.trace + [Escalated(t)] && OnlyMoved(s, t, after) && after.held == s.held
    decreases TurnsLeft(s.pc[t])
  {
    hide Next;
    var next := Next(s, Turn(t), c);
    TowardsEscalation(s, t, c);
    if s.pc[t].LogsEscalation? {
      acts := [Turn(t)];
      ReachSnoc(s, [], Turn(t), c);
    } else {
      hide WillEscalate;
      var rest := EscalatesAlone(next, t, c);
      acts := [Turn(t)] + rest;
      TurnFirst(s, t, rest, c);
      MovedTwice(s, t, next, ReachFrom(s, acts, c));
    }
  }

  /** From here some run logs an escalation of the request. */
  ghost predicate CanStillEscalate(s: Sys, rid: string, c: Gate.Chain) {
    exists acts, k :: EscalatesLater(s, acts, k, rid, c)
  }

  predicate EscalatesLater(s: Sys, acts: seq<Act>, k: nat, rid: string, c: Gate.Chain) {
    var after := ReachFrom(s, acts, c);
    |s.trace| <= k < |after.trace| && Escalation(after, after.trace[k], rid)
  }

  /**
   * Once a request is deleted, by a decision or on the way to one, an escalation of it can still be logged
   * exactly when some timeout that found it before has yet to log the one it is going to.
   */
  lemma EscalationCanFollowIff(acts: seq<Act>, c: Gate.Chain, rid: string)
    requires rid in Reach(acts, c).remover
    ensures var s := Reach(acts, c);
            CanStillEscalate(s, rid, c) <==> exists t | t in s.jobs && s.jobs[t].rid == rid :: WillEscalate(s, t, c)
  {
    Reached(acts, c);
    var s := Reach(acts, c);
    hide Reach, WillEscalate;
    if t :| t in s.jobs && s.jobs[t].rid == rid && WillEscalate(s, t, c) {
      var more := EscalatesAlone(s, t, c);
      assert EscalatesLater(s, more, |s.trace|, rid, c);
    } else {
      assert Quiet(s, rid, c);
      forall more, k ensures !EscalatesLater(s, more, k, rid, c) {
        QuietStays(s, more, rid, c);
      }
    }
  }

  // ---------------------------------------------------------------- when an answer can follow an escalation

  /** Left to itself, this callback will log a grant or a rejection. */
  predicate WillAnswer(s: Sys, t: nat) {
    && Ready(s, t) && !s.jobs[t].verb.Timeout?
    && (s.pc[t].Marks? || s.pc[t].Logs? || (s.pc[t].Deletes? && s.jobs[t].rid in s.held))
  }

  /** No call on the request will: it is past PENDING, and nobody who saw it PENDING is still to answer. */
  ghost predicate Unanswerable(s: Sys, rid: string) {
    && rid in s.entries && !s.entries[rid].state.Pending?
    && forall t | t in s.jobs && s.jobs[t].rid == rid :: !WillAnswer(s, t)
  }

  predicate Answer(s: Sys, e: Ev, rid: string) {
    e.Decided? && RidOf(s, e) == Some(rid) && !s.jobs[e.t].verb.Timeout?
  }

  lemma UnanswerableTurn(s: Sys, t: nat, rid: string, c: Gate.Chain)
    requires Inv(s) && Unanswerable(s, rid) && Ready(s, t)
    ensures Unanswerable(TakeTurn(s, t, c), rid)
    ensures s.jobs[t].rid == rid && !s.jobs[t].verb.Timeout? ==> !s.pc[t].Logs?
  {
    assert CallOk(s, t);
    assert s.jobs[t].rid == rid ==> !WillAnswer(s, t);
    OwnTurnUnanswered(s, t, rid, c);
    var after := TakeTurn(s, t, c);
    forall u | u in after.jobs && after.jobs[u].rid == rid ensures !WillAnswer(after, u) {
      assert CallOk(s, u) && !WillAnswer(s, u);
      hide PcAfter, EntryAfter, Emits;
    }
  }

  lemma OwnTurnUnanswered(s: Sys, t: nat, rid: string, c: Gate.Chain)
    requires CallOk(s, t) && rid in s.entries && !s.entries[rid].state.Pending? && (s.jobs[t].rid == rid ==> !WillAnswer(s, t))
    ensures rid in TakeTurn(s, t, c).entries && !TakeTurn(s, t, c).entries[rid].state.Pending?
    ensures s.jobs[t].rid == rid ==> !WillAnswer(TakeTurn(s, t, c), t)
  {
    hide Emits, GoesOn;
  }

  lemma UnanswerableNext(s: Sys, a: Act, rid: string, c: Gate.Chain)
    requires Inv(s) && Unanswerable(s, rid)
    ensures var after := Next(s, a, c);
            Unanswerable(after, rid) && forall k | |s.trace| <= k < |after.trace| :: !Answer(after, after.trace[k], rid)
  {
    NextExtends(s, a, c);
    if a.Turn? && Ready(s, a.t) {
      UnanswerableTurn(s, a.t, rid, c);
      hide TakeTurn, Unanswerable, Inv;
    } else {
      hide Inv;
    }
  }

  lemma {:induction false} UnanswerableStays(s: Sys, acts: seq<Act>, rid: string, c: Gate.Chain)
    requires Inv(s) && Unanswerable(s, rid)
    ensures var after := ReachFrom(s, acts, c);
            && Unanswerable(after, rid) && Extends(s, after)
            && forall k | |s.trace| <= k < |after.trace| :: !Answer(after, after.trace[k], rid)
  {
    if acts != [] {
      var front, a := acts[..|acts| - 1], acts[|acts| - 1];
      UnanswerableStays(s, front, rid, c);
      ReachKeeps(s, front, c);
      var was, after := ReachFrom(s, front, c), ReachFrom(s, acts, c);
      hide Unanswerable, Next, Inv;
      assert after == Next(was, a, c);
      NextExtends(was, a, c);
      UnanswerableNext(was, a, rid, c);
      EventsHaveJobs(was);
      forall k | |s.trace| <= k < |after.trace| ensures !Answer(after, after.trace[k], rid) {
        if k < |was.trace| { assert after.trace[k] == was.trace[k] && !Answer(was, was.trace[k], rid); }
      }
    }
  }

  function AnswersLeft(pc: Pc): nat {
    match pc
    case Deletes => 3
    case Marks => 2
    case Logs => 1
    case _ => 0
  }

  /** What a call adds to the history until its answer is logged. */
  function AnswerEvents(pc: Pc, t: nat): seq<Ev> {
    if pc.Deletes? then [Removed(t), Decided(t)] else [Decided(t)]
  }

  /** Its request is as before, but for the mark that it is approved. */
  predicate SameTimeouts(s: Sys, after: Sys) {
    after.entries.Keys == s.entries.Keys
    && forall r | r in s.entries :: after.entries[r].timeouts == s.entries[r].timeouts && after.entries[r].last == s.entries[r].last
  }

  lemma TowardsAnswer(s: Sys, t: nat, c: Gate.Chain)
    requires WillAnswer(s, t)
    ensures var next := Next(s, Turn(t), c);
            && OnlyMoved(s, t, next) && SameTimeouts(s, next) && AnswersLeft(next.pc[t]) < AnswersLeft(s.pc[t])
            && (if s.pc[t].Logs? then
                  next.trace == s.trace + [Decided(t)] && next.pc[t] == (if s.jobs[t].verb.Approve? then Fetches else Closes)
                else
                  WillAnswer(next, t) && next.trace + AnswerEvents(next.pc[t], t) == s.trace + AnswerEvents(s.pc[t], t))
  {
    if s.pc[t].Deletes? {
      assert s.trace + [Removed(t)] + [Decided(t)] == s.trace + [Removed(t), Decided(t)];
    }
  }

  lemma {:induction false} AnswersAlone(s: Sys, t: nat, c: Gate.Chain) returns (acts: seq<Act>)
    requires WillAnswer(s, t)
    ensures var after := ReachFrom(s, acts, c);
            && after.trace == s.trace + AnswerEvents(s.pc[t], t) && OnlyMoved(s, t, after) && SameTimeouts(s, after)
            && after.pc[t] == (if s.jobs[t].verb.Approve? then Fetches else Closes)
    decreases AnswersLeft(s.pc[t])
  {
    hide Next;
    var next := Next(s, Turn(t), c);
    TowardsAnswer(s, t, c);
    if s.pc[t].Logs? {
      acts := [Turn(t)];
      ReachSnoc(s, [], Turn(t), c);
    } else {
      hide WillAnswer;
      var rest := AnswersAlone(next, t, c);
      acts := [Turn(t)] + rest;
      TurnFirst(s, t, rest, c);
      MovedTwice(s, t, next, ReachFrom(s, acts, c));
    }
  }

  /** From here some run logs a grant or a rejection of the request. */
  ghost predicate CanStillBeAnswered(s: Sys, rid: string, c: Gate.Chain) {
    exists acts, k :: AnsweredLater(s, acts, k, rid, c)
  }

  predicate AnsweredLater(s: Sys, acts: seq<Act>, k: nat, rid: string, c: Gate.Chain) {
    var after := ReachFrom(s, acts, c);
    |s.trace| <= k < |after.trace| && Answer(after, after.trace[k], rid)
  }

  /**
   * Once a request is past PENDING, escalated above all, a grant or a rejection of it can still be logged exactly
   * when some callback that saw it PENDING before has deleted it, or is about to and will be the first to.
   */
  lemma AnswerCanFollowIff(acts: seq<Act>, c: Gate.Chain, rid: string)
    requires var s := Reach(acts, c); rid in s.entries && !s.entries[rid].state.Pending?
    ensures var s := Reach(acts, c);
            CanStillBeAnswered(s, rid, c) <==> exists t | t in s.jobs && s.jobs[t].rid == rid :: WillAnswer(s, t)
  {
    Reached(acts, c);
    var s := Reach(acts, c);
    hide Reach, WillAnswer;
    if t :| t in s.jobs && s.jobs[t].rid == rid && WillAnswer(s, t) {
      CallbackOfAnswer(s, t);
      var more := AnswersAlone(s, t, c);
      var after := ReachFrom(s, more, c);
      assert Answer(after, after.trace[|after.trace| - 1], rid);
      assert AnsweredLater(s, more, |after.trace| - 1, rid, c);
    } else {
      assert Unanswerable(s, rid);
      forall more, k ensures !AnsweredLater(s, more, k, rid, c) {
        UnanswerableStays(s, more, rid, c);
      }
    }
  }

  lemma CallbackOfAnswer(s: Sys, t: nat)
    requires WillAnswer(s, t)
    ensures !s.jobs[t].verb.Timeout?
  {
  }

  // ---------------------------------------------------------------- whether a granted request finds its report

  /** Somebody closed the request's row before the n-th event. */
  ghost predicate ClosedBefore(s: Sys, rid: string, n: nat) {
    exists d | 0 <= d < n && d < |s.trace| :: Closing(s, s.trace[d], rid)
  }

  predicate Closing(s: Sys, e: Ev, rid: string) {
    e.Closed? && RidOf(s, e) == Some(rid)
  }

  predicate Fetching(e: Ev) {
    e.Called? || e.Missing?
  }

  ghost predicate RowsOk(s: Sys) {
    && (forall rid | rid in s.entries :: rid in s.rows <==> !ClosedBefore(s, rid, |s.trace|))
    && (forall k | 0 <= k < |s.trace| && Fetching(s.trace[k]) && s.trace[k].t in s.jobs ::
          s.trace[k].Called? <==> !ClosedBefore(s, s.jobs[s.trace[k].t].rid, k))
  }

  lemma ClosedStays(s: Sys, after: Sys, rid: string, n: nat)
    requires Inv(s) && Extends(s, after) && n <= |s.trace|
    ensures ClosedBefore(s, rid, n) <==> ClosedBefore(after, rid, n)
  {
    EventsHaveJobs(s);
    hide Inv;
    assert forall d | 0 <= d < n :: after.trace[d] == s.trace[d];
    assert forall d | 0 <= d < n :: Closing(s, s.trace[d], rid) <==> Closing(after, after.trace[d], rid);
  }

  lemma ClosedSnoc(s: Sys, after: Sys, rid: string)
    requires Inv(s) && Extends(s, after) && |after.trace| == |s.trace| + 1
    ensures ClosedBefore(after, rid, |after.trace|) <==>
              ClosedBefore(s, rid, |s.trace|) || Closing(after, after.trace[|s.trace|], rid)
  {
    ClosedStays(s, after, rid, |s.trace|);
    hide Inv, Closing, Extends;
  }

  lemma RowsFollow(s: Sys, a: Act, c: Gate.Chain)
    requires Inv(s) && RowsOk(s)
    ensures RowsOk(Next(s, a, c))
  {
    var after := Next(s, a, c);
    NextExtends(s, a, c);
    RowChange(s, a, c);
    EventsHaveJobs(s);
    hide Next, Inv, ClosedBefore, CallOk, Emits;
    forall rid | rid in after.entries ensures rid in after.rows <==> !ClosedBefore(after, rid, |after.trace|) {
      if |after.trace| > |s.trace| {
        ClosedSnoc(s, after, rid);
      } else {
        ClosedStays(s, after, rid, |s.trace|);
        if rid !in s.entries { NothingClosed(s, rid); }
      }
    }
    forall k | 0 <= k < |after.trace| && Fetching(after.trace[k]) && after.trace[k].t in after.jobs
      ensures after.trace[k].Called? <==> !ClosedBefore(after, after.jobs[after.trace[k].t].rid, k)
    {
      ClosedStays(s, after, after.jobs[after.trace[k].t].rid, k);
      if k < |s.trace| { assert after.trace[k] == s.trace[k] && s.trace[k].t in s.jobs; }
    }
  }

  /** Rows change with the event that says so, and with a new request. */
  lemma RowChange(s: Sys, a: Act, c: Gate.Chain)
    requires Inv(s)
    ensures var after := Next(s, a, c);
            if |after.trace| > |s.trace| then
              && after.entries.Keys == s.entries.Keys && a.Turn? && a.t in s.jobs && after.jobs == s.jobs
              && var e := after.trace[|s.trace|];
                 && (forall rid | rid in s.entries :: rid in after.rows <==> rid in s.rows && !Closing(after, e, rid))
                 && (Fetching(e) ==> e.t == a.t && s.jobs[a.t].rid in s.entries && (e.Called? <==> s.jobs[a.t].rid in s.rows))
            else
              && after.rows == s.rows + (after.entries.Keys - s.entries.Keys) && s.entries.Keys <= after.entries.Keys
  {
    if a.Turn? && Ready(s, a.t) {
      assert CallOk(s, a.t);
      TurnHasEffect(s, a.t, c);
      hide TakeTurn, Inv, CallOk, CallEffect, Emits;
    }
  }

  lemma NothingClosed(s: Sys, rid: string)
    requires Inv(s) && rid !in s.entries
    ensures !ClosedBefore(s, rid, |s.trace|)
  {
    forall d | 0 <= d < |s.trace| ensures !Closing(s, s.trace[d], rid) { assert EventOk(s, s.trace[d]); }
  }

  lemma {:induction false} RowsKeep(acts: seq<Act>, c: Gate.Chain)
    ensures RowsOk(Reach(acts, c))
  {
    if acts != [] {
      RowsKeep(acts[..|acts| - 1], c);
      Reached(acts[..|acts| - 1], c);
      hide RowsOk, Inv, Next;
      RowsFollow(Reach(acts[..|acts| - 1], c), acts[|acts| - 1], c);
    }
  }

  /** The call is a rejection that the gate refused. */
  ghost predicate RefusedRejection(s: Sys, t: nat) {
    t in s.jobs && s.jobs[t].verb.Reject? && !Seen(s.trace, Decided(t), |s.trace|)
  }

  /**
   * A granted request finds its report exactly when nobody closed its row before it looked; and those who can
   * have are rejections that the gate refused.
   */
  lemma ReportIsFoundIff(acts: seq<Act>, c: Gate.Chain, k: nat)
    requires k < |Reach(acts, c).trace| && Fetching(Reach(acts, c).trace[k])
    ensures var s := Reach(acts, c);
            && s.trace[k].t in s.jobs && s.jobs[s.trace[k].t].verb.Approve? && Seen(s.trace, Decided(s.trace[k].t), k)
            && var rid := s.jobs[s.trace[k].t].rid;
               && (s.trace[k].Called? <==> !ClosedBefore(s, rid, k))
               && (forall d | 0 <= d < |s.trace| && Closing(s, s.trace[d], rid) :: RefusedRejection(s, s.trace[d].t))
  {
    Reached(acts, c);
    RowsKeep(acts, c);
    var s := Reach(acts, c);
    assert EventOk(s, s.trace[k]) && EventSeen(s.jobs, s.trace, k);
    hide Reach, RowsOk, ClosedBefore;
    assert s.trace[k].Called? <==> !ClosedBefore(s, s.jobs[s.trace[k].t].rid, k) by { RowsSay(s, k); }
    hide Inv;
    forall d | 0 <= d < |s.trace| && Closing(s, s.trace[d], s.jobs[s.trace[k].t].rid) ensures RefusedRejection(s, s.trace[d].t) {
      ClosersWereRefused(s, k, d);
    }
  }

  lemma RowsSay(s: Sys, k: nat)
    requires RowsOk(s) && k < |s.trace| && Fetching(s.trace[k]) && s.trace[k].t in s.jobs
    ensures s.trace[k].Called? <==> !ClosedBefore(s, s.jobs[s.trace[k].t].rid, k)
  {
  }

  lemma ClosersWereRefused(s: Sys, k: nat, d: nat)
    requires Inv(s) && k < |s.trace| && d < |s.trace| && Fetching(s.trace[k]) && s.trace[k].t in s.jobs
    requires Closing(s, s.trace[d], s.jobs[s.trace[k].t].rid)
    ensures RefusedRejection(s, s.trace[d].t)
  {
    var t, u := s.trace[k].t, s.trace[d].t;
    assert EventOk(s, s.trace[k]) && EventSeen(s.jobs, s.trace, k) && EventOk(s, s.trace[d]) && EventSeen(s.jobs, s.trace, d);
    hide Inv, EventOk;
    var g :| 0 <= g < k && s.trace[g] == Decided(t);
    if Seen(s.trace, Decided(u), |s.trace|) {
      var h :| 0 <= h < |s.trace| && s.trace[h] == Decided(u);
      OneDecision(s, g, h);
      assert false;
    }
    if s.jobs[u].verb.Timeout? { SeenStays(s.trace, s.trace, Decided(u), d, |s.trace|); }
  }

  // ---------------------------------------------------------------- schedules

  lemma Do(acts: seq<Act>, a: Act, c: Gate.Chain) returns (more: seq<Act>)
    ensures Reach(more, c) == Next(Reach(acts, c), a, c)
  {
    more := acts + [a];
    ReachSnoc(START, acts, a, c);
  }

  /** A timeout, call 0, and an approval, call 1, of one request, each where it stands. */
  function TwoCalls(rid: string, c: Gate.Chain, first: Pc, second: Pc, trace: seq<Ev>): Sys {
    Sys(map[rid := Entry(Gate.Pending, 0, c.initial)], {rid}, {rid},
        map[0 := Job(Timeout, rid), 1 := Job(Approve, rid)], map[0 := first, 1 := second], map[], trace)
  }

  lemma BothArrive(rid: string, c: Gate.Chain) returns (acts: seq<Act>)
    ensures Reach(acts, c) == TwoCalls(rid, c, Gets, Gets, [])
  {
    acts := [];
    assert Reach(acts, c) == START by { NothingYet(c); }
    hide Reach;
    acts := Do(acts, Submit(rid), c);
    acts := Do(acts, Spawn(0, Job(Timeout, rid)), c);
    acts := Do(acts, Spawn(1, Job(Approve, rid)), c);
    assert Reach(acts, c).pc == map[0 := Gets, 1 := Gets];
  }

  lemma NothingYet(c: Gate.Chain)
    ensures Reach([], c) == START
  {
  }

  lemma TimeoutLooks(rid: string, c: Gate.Chain, second: Pc, trace: seq<Ev>)
    ensures var s := TwoCalls(rid, c, Gets, second, trace);
            Next(Next(s, Turn(0), c), Turn(0), c) == TwoCalls(rid, c, Counts, second, trace + [Found(0)])
  {
    var s := TwoCalls(rid, c, Gets, second, trace);
    var s1 := TwoCalls(rid, c, Checks, second, trace + [Found(0)]);
    assert Next(s, Turn(0), c) == s1 by { assert s.entries[rid := s.entries[rid]] == s.entries && s.pc[0 := Checks] == s1.pc; }
    assert s1.entries[rid := s1.entries[rid]] == s1.entries && s1.pc[0 := Counts] == map[0 := Counts, 1 := second];
  }

  lemma ApprovalLooks(rid: string, c: Gate.Chain, first: Pc, trace: seq<Ev>)
    ensures var s := TwoCalls(rid, c, first, Gets, trace);
            Next(Next(s, Turn(1), c), Turn(1), c) == TwoCalls(rid, c, first, Deletes, trace + [Found(1)])
  {
    var s := TwoCalls(rid, c, first, Gets, trace);
    var s1 := TwoCalls(rid, c, first, Checks, trace + [Found(1)]);
    assert Next(s, Turn(1), c) == s1 by { assert s.entries[rid := s.entries[rid]] == s.entries && s.pc[1 := Checks] == s1.pc; }
    assert s1.entries[rid := s1.entries[rid]] == s1.entries && s1.pc[1 := Deletes] == map[0 := first, 1 := Deletes];
  }

  /** It does happen: a grant, then an escalation by a timeout that was already under way. */
  lemma EscalationAfterGrant(rid: string, c: Gate.Chain) returns (acts: seq<Act>)
    ensures Reach(acts, c).jobs == map[0 := Job(Timeout, rid), 1 := Job(Approve, rid)]
    ensures Reach(acts, c).trace == [Found(0), Found(1), Removed(1), Decided(1), Escalated(0)]
  {
    acts := BothArrive(rid, c);
    hide Reach, Next;
    TimeoutLooks(rid, c, Gets, []);
    acts := Do(acts, Turn(0), c);
    acts := Do(acts, Turn(0), c);
    ApprovalLooks(rid, c, Counts, [Found(0)]);
    acts := Do(acts, Turn(1), c);
    acts := Do(acts, Turn(1), c);
    var s := Reach(acts, c);
    assert [] + [Found(0)] == [Found(0)] && [Found(0)] + [Found(1)] == [Found(0), Found(1)];
    assert s == TwoCalls(rid, c, Counts, Deletes, [Found(0), Found(1)]);
    var answer := AnswersAlone(s, 1, c);
    ReachConcat(acts, answer, c);
    var granted := Reach(acts + answer, c);
    assert granted.trace == [Found(0), Found(1), Removed(1), Decided(1)];
    assert WillEscalate(granted, 0, c);
    var more := EscalatesAlone(granted, 0, c);
    ReachConcat(acts + answer, more, c);
    acts := acts + answer + more;
  }

  /** The approval has looked, and then the timeout. */
  lemma BothLooked(rid: string, c: Gate.Chain) returns (acts: seq<Act>)
    ensures Reach(acts, c) == TwoCalls(rid, c, Counts, Deletes, [Found(1), Found(0)])
  {
    acts := BothArrive(rid, c);
    hide Reach, Next;
    ApprovalLooks(rid, c, Gets, []);
    acts := Do(acts, Turn(1), c);
    acts := Do(acts, Turn(1), c);
    TimeoutLooks(rid, c, Deletes, [Found(1)]);
    acts := Do(acts, Turn(0), c);
    acts := Do(acts, Turn(0), c);
    assert [] + [Found(1)] == [Found(1)] && [Found(1)] + [Found(0)] == [Found(1), Found(0)];
  }

  /**
   * And the other way about, with the commands behind it: an approval that saw its request PENDING grants and
   * calls the executor after a timeout has escalated the request.
   */
  lemma GrantAfterEscalation(rid: string, c: Gate.Chain) returns (acts: seq<Act>)
    ensures Reach(acts, c).jobs == map[0 := Job(Timeout, rid), 1 := Job(Approve, rid)]
    ensures Reach(acts, c).trace == [Found(1), Found(0), Escalated(0), Removed(1), Decided(1), Called(1)]
  {
    acts := BothLooked(rid, c);
    hide Reach, Next;
    var s := Reach(acts, c);
    var escalation := EscalatesAlone(s, 0, c);
    ReachConcat(acts, escalation, c);
    var escalated := Reach(acts + escalation, c);
    assert escalated.trace == [Found(1), Found(0), Escalated(0)];
    assert WillAnswer(escalated, 1);
    var answer := AnswersAlone(escalated, 1, c);
    ReachConcat(acts + escalation, answer, c);
    acts := acts + escalation + answer;
    Fetched(Reach(acts, c), 1, c);
    acts := Do(acts, Turn(1), c);
  }

  lemma Fetched(s: Sys, t: nat, c: Gate.Chain)
    requires t in s.jobs && t in s.pc && s.pc[t].Fetches? && s.jobs[t].rid in s.entries
    ensures var after := Next(s, Turn(t), c);
            after.trace == s.trace + [if s.jobs[t].rid in s.rows then Called(t) else Missing(t)] && after.jobs == s.jobs
  {
  }

  /** A rejection that comes too late, and is refused, makes a granted request lose its report. */
  lemma RefusedRejectionHidesTheReport(rid: string, c: Gate.Chain) returns (acts: seq<Act>)
    ensures 1 in Reach(acts, c).jobs && Reach(acts, c).jobs[1] == Job(Approve, rid)
    ensures 2 in Reach(acts, c).jobs && Reach(acts, c).jobs[2] == Job(Reject, rid)
    ensures Reach(acts, c).trace == [Found(1), Removed(1), Decided(1), Closed(2), Missing(1)]
  {
    acts := BothArrive(rid, c);
    hide Reach, Next;
    ApprovalLooks(rid, c, Gets, []);
    acts := Do(acts, Turn(1), c);
    acts := Do(acts, Turn(1), c);
    var s := Reach(acts, c);
    assert s == TwoCalls(rid, c, Gets, Deletes, [Found(1)]);
    var answer := AnswersAlone(s, 1, c);
    ReachConcat(acts, answer, c);
    acts := acts + answer;
    var granted := Reach(acts, c);
    assert granted.trace == [Found(1), Removed(1), Decided(1)];
    assert rid !in granted.held by { DecidedIsGone(acts, c, rid); }
    LateRejection(granted, rid, c);
    acts := Do(acts, Spawn(2, Job(Reject, rid)), c);
    acts := Do(acts, Turn(2), c);
    acts := Do(acts, Turn(2), c);
    Fetched(Reach(acts, c), 1, c);
    acts := Do(acts, Turn(1), c);
  }

  lemma DecidedIsGone(acts: seq<Act>, c: Gate.Chain, rid: string)
    requires var s := Reach(acts, c); |s.trace| == 3 && s.trace[2] == Decided(1) && 1 in s.jobs && s.jobs[1].rid == rid
    ensures rid !in Reach(acts, c).held
  {
    Reached(acts, c);
    assert EventOk(Reach(acts, c), Reach(acts, c).trace[2]);
  }

  lemma LateRejection(s: Sys, rid: string, c: Gate.Chain)
    requires 2 !in s.jobs && rid in s.entries && rid !in s.held
    ensures var after := Next(Next(Next(s, Spawn(2, Job(Reject, rid)), c), Turn(2), c), Turn(2), c);
            && after.trace == s.trace + [Closed(2)] && after.rows == s.rows - {rid} && after.entries.Keys == s.entries.Keys
            && after.jobs == s.jobs[2 := Job(Reject, rid)] && forall t | t in s.pc && t != 2 :: t in after.pc && after.pc[t] == s.pc[t]
  {
  }
}
