// executor/runner.py under threads: any number of execute calls, any interleaving of their steps.

module ExecutorThreads {
  import opened Prelude
  import opened ReportSchema
  import opened Database
  import opened Executor
  import TextOrder

  /** One execute call. */
  datatype Job = Job(incident: string, report: TriageReport)

  /** Where a call stands; each constructor names the next access to shared state. */
  datatype Pc =
    | WantsLock
    | ReadsKey
    | ReadsStatus
    | ReadsGrant
    | RecordsStart
    | LogsStart
    | Runs(issued: nat)      // the next command of the script, or the end of the loop
    | LogsFinish
    | Releases
    | Left

  /** What is seen of the calls, in order. */
  datatype Ev =
    | Looked(t: nat, status: string)
    | Began(t: nat)
    | Issued(t: nat, command: Command, reply: Reply)
    | Completed(t: nat)
    | Ended(t: nat)
    | Changed(incident: string, status: string)

  datatype Sys = Sys(
    jobs: map<nat, Job>,
    pc: map<nat, Pc>,
    holder: map<string, nat>,          // incident -> the call inside its lock
    executed: map<string, bool>,
    status: map<string, string>,
    granted: set<string>,
    trace: seq<Ev>)

  /** One atomic step: a new call, a turn of a call, or somebody else changing the shared tables. */
  datatype Act =
    | Spawn(t: nat, job: Job)
    | Turn(t: nat, reply: Reply)
    | SetStatus(incident: string, to: string)
    | Grant(incident: string)

  const START := Sys(map[], map[], map[], map[], map[], {}, [])

  function KeyOf(j: Job): string {
    FullKey(j.incident, j.report.suggestedActions)
  }

  function ScriptOf(j: Job): seq<Command> {
    Script(j.report.suggestedActions)
  }

  function See(s: Sys, e: Ev): Sys {
    s.(trace := s.trace + [e])
  }

  function Released(holder: map<string, nat>, incident: string): map<string, nat> {
    map i | i in holder && i != incident :: holder[i]
  }

  /** The step a call takes next: where it goes, ... */
  function PcAfter(s: Sys, t: nat, reply: Reply): Pc
    requires t in s.jobs && t in s.pc
  {
    var j := s.jobs[t];
    match s.pc[t]
    case WantsLock => if j.incident in s.holder then WantsLock else ReadsKey
    case ReadsKey => if Done(s.executed, KeyOf(j)) then Releases else ReadsStatus
    case ReadsStatus =>
      if j.incident !in s.status || s.status[j.incident] in {MITIGATED, RESOLVED} then Releases else ReadsGrant
    case ReadsGrant => if AnyMutating(j.report.suggestedActions) && j.incident !in s.granted then Releases else RecordsStart
    case RecordsStart => LogsStart
    case LogsStart => Runs(0)
    case Runs(n) => if n >= |ScriptOf(j)| then LogsFinish else if reply.Output? then Runs(n + 1) else Releases
    case LogsFinish => Releases
    case Releases => Left
    case Left => Left
  }

  /** ... who holds the locks, and what the table of executions says, ... */
  function HolderAfter(s: Sys, t: nat): map<string, nat>
    requires t in s.jobs && t in s.pc
  {
    var incident := s.jobs[t].incident;
    if s.pc[t].WantsLock? && incident !in s.holder then s.holder[incident := t]
    else if s.pc[t].Releases? then Released(s.holder, incident)
    else s.holder
  }

  function ExecutedAfter(s: Sys, t: nat): map<string, bool>
    requires t in s.jobs && t in s.pc
  {
    var j := s.jobs[t];
    if s.pc[t].RecordsStart? then Started(s.executed, KeyOf(j))
    else if s.pc[t].Runs? && s.pc[t].issued >= |ScriptOf(j)| then Finished(s.executed, KeyOf(j))
    else s.executed
  }

  function Moves(s: Sys, t: nat, reply: Reply): Sys
    requires t in s.jobs && t in s.pc
  {
    s.(pc := s.pc[t := PcAfter(s, t, reply)], holder := HolderAfter(s, t), executed := ExecutedAfter(s, t))
  }

  /** ... and what is seen of it. */
  function Emits(s: Sys, t: nat, reply: Reply): Option<Ev>
    requires t in s.jobs && t in s.pc
  {
    var j := s.jobs[t];
    match s.pc[t]
    case ReadsStatus => if j.incident in s.status then Some(Looked(t, s.status[j.incident])) else None
    case LogsStart => Some(Began(t))
    case Runs(n) => Some(if n < |ScriptOf(j)| then Issued(t, ScriptOf(j)[n], reply) else Completed(t))
    case LogsFinish => Some(Ended(t))
    case _ => None
  }

  function TakeTurn(s: Sys, t: nat, reply: Reply): Sys
    requires t in s.jobs && t in s.pc
  {
    var e := Emits(s, t, reply);
    var moved := Moves(s, t, reply);
    if e.Some? then See(moved, e.value) else moved
  }

  function Next(s: Sys, a: Act): Sys {
    match a
    case Spawn(t, job) =>
      if t in s.jobs then s
      else s.(jobs := s.jobs[t := job], pc := s.pc[t := if job.report.validated then WantsLock else Left])
    case Turn(t, reply) => if t in s.jobs && t in s.pc then TakeTurn(s, t, reply) else s
    case SetStatus(i, to) => See(s.(status := s.status[i := to]), Changed(i, to))
    case Grant(i) => s.(granted := s.granted + {i})
  }

  function Reach(acts: seq<Act>): Sys {
    if acts == [] then START else Next(Reach(acts[..|acts| - 1]), acts[|acts| - 1])
  }

  // ---------------------------------------------------------------- invariant

  predicate Inside(pc: Pc) {
    !pc.WantsLock? && !pc.Left?
  }

  /** Past the check of the key, before the key is marked done. */
  predicate Working(pc: Pc) {
    pc.ReadsStatus? || pc.ReadsGrant? || pc.RecordsStart? || pc.LogsStart? || pc.Runs?
  }

  ghost predicate CallOk(s: Sys, t: nat) {
    && t in s.jobs && t in s.pc
    && (Inside(s.pc[t]) <==> s.jobs[t].incident in s.holder && s.holder[s.jobs[t].incident] == t)
    && (s.pc[t].Runs? || s.pc[t].LogsStart? ==> KeyOf(s.jobs[t]) in s.executed)
  }

  predicate Acts(e: Ev) {
    e.Began? || e.Issued? || e.Completed? || e.Ended?
  }

  /** Two events of calls on one incident: either the same call, or the earlier call has left. */
  ghost predicate PairOk(s: Sys, a: Ev, b: Ev) {
    Acts(a) && Acts(b) && a.t in s.jobs && b.t in s.jobs && a.t in s.pc ==>
      && (a.t != b.t && s.jobs[a.t].incident == s.jobs[b.t].incident ==> s.pc[a.t].Left?)
      && (s.jobs[a.t].incident == s.jobs[b.t].incident && a.Completed? && (b.Issued? || b.Completed?) ==>
            KeyOf(s.jobs[a.t]) != KeyOf(s.jobs[b.t]))
  }

  /** While a call works on its key, no call on its incident has completed that key. */
  ghost predicate WorkOk(s: Sys, t: nat, e: Ev) {
    t in s.jobs && t in s.pc && Working(s.pc[t]) && e.Completed? && e.t in s.jobs
    && s.jobs[e.t].incident == s.jobs[t].incident ==>
      KeyOf(s.jobs[e.t]) != KeyOf(s.jobs[t])
  }

  ghost predicate EventOk(s: Sys, e: Ev) {
    Acts(e) ==> e.t in s.jobs && e.t in s.pc && !s.pc[e.t].WantsLock?
                && (e.Completed? ==> Done(s.executed, KeyOf(s.jobs[e.t])))
  }

  ghost predicate Inv(s: Sys) {
    && (forall i | i in s.holder :: s.holder[i] in s.jobs)
    && (forall t | t in s.jobs :: CallOk(s, t))
    && (forall i | 0 <= i < |s.trace| :: EventOk(s, s.trace[i]))
    && (forall t, i | t in s.jobs && 0 <= i < |s.trace| :: WorkOk(s, t, s.trace[i]))
    && (forall i, j | 0 <= i < j < |s.trace| :: PairOk(s, s.trace[i], s.trace[j]))
    && (forall i, j, k | 0 <= i < j < k < |s.trace| :: !Interleaved(s.jobs, s.trace[i], s.trace[j], s.trace[k]))
  }

  /** Another call acts on the incident between two events of one call. */
  predicate Interleaved(jobs: map<nat, Job>, a: Ev, b: Ev, c: Ev) {
    && Acts(a) && Acts(b) && Acts(c) && a.t == c.t && a.t != b.t
    && a.t in jobs && b.t in jobs && jobs[a.t].incident == jobs[b.t].incident
  }

  /** Only the call inside an incident's lock can be working on one of its keys. */
  lemma OthersNotWorking(s: Sys, t: nat, u: nat)
    requires Inv(s) && t in s.jobs && u in s.jobs && t != u && Inside(s.pc[t])
    ensures s.jobs[t].incident == s.jobs[u].incident ==> !Inside(s.pc[u])
  {
    assert CallOk(s, t) && CallOk(s, u);
  }

  ghost predicate LockEffect(s: Sys, t: nat, after: Sys)
    requires t in s.jobs && t in s.pc && t in after.pc
  {
    && after.jobs == s.jobs && after.pc == s.pc[t := after.pc[t]]
    && (s.pc[t].Left? ==> after.pc[t].Left?) && (!s.pc[t].WantsLock? ==> !after.pc[t].WantsLock?)
    && (Inside(s.pc[t]) == Inside(after.pc[t]) ==> after.holder == s.holder)
    && (!Inside(s.pc[t]) && Inside(after.pc[t]) ==>
          s.jobs[t].incident !in s.holder && after.holder == s.holder[s.jobs[t].incident := t])
    && (Inside(s.pc[t]) && !Inside(after.pc[t]) ==>
          after.holder == Released(s.holder, s.jobs[t].incident))
  }

  ghost predicate KeyEffect(s: Sys, t: nat, after: Sys)
    requires t in s.jobs && t in s.pc && t in after.pc
  {
    && (forall k :: Done(s.executed, k) ==> Done(after.executed, k))
    && s.executed.Keys <= after.executed.Keys
    && (Working(after.pc[t]) && !Working(s.pc[t]) ==> !Done(s.executed, KeyOf(s.jobs[t])))
    && (after.pc[t].Runs? || after.pc[t].LogsStart? ==> KeyOf(s.jobs[t]) in after.executed || s.pc[t].Runs? || s.pc[t].LogsStart?)
  }

  ghost predicate EventEffect(s: Sys, t: nat, after: Sys, e: Option<Ev>)
    requires t in s.jobs && t in s.pc
  {
    && after.trace == (if e.Some? then s.trace + [e.value] else s.trace)
    && (e.Some? && Acts(e.value) ==> e.value.t == t && Inside(s.pc[t]))
    && (e.Some? && (e.value.Issued? || e.value.Completed?) ==> s.pc[t].Runs?)
    && (e.Some? && e.value.Completed? ==> t in after.pc && !Working(after.pc[t]))
    && (e.Some? && e.value.Completed? && KeyOf(s.jobs[t]) in s.executed ==> Done(after.executed, KeyOf(s.jobs[t])))
  }

  /** All that the invariant needs to know about a turn of call t. */
  ghost predicate Effect(s: Sys, t: nat, after: Sys, e: Option<Ev>)
    requires t in s.jobs && t in s.pc && t in after.pc
  {
    LockEffect(s, t, after) && KeyEffect(s, t, after) && EventEffect(s, t, after, e)
  }

  lemma MoveAndLock(s: Sys, t: nat, reply: Reply)
    requires t in s.jobs && t in s.pc
    ensures t in Moves(s, t, reply).pc && LockEffect(s, t, Moves(s, t, reply))
  {
    hide KeyOf, ScriptOf, AnyMutating, Done, Started, Finished, Released;
    assert s.pc == s.pc[t := s.pc[t]];
    match s.pc[t]
    case WantsLock =>
    case Releases =>
    case _ => assert Moves(s, t, reply).holder == s.holder;
  }

  lemma MoveAndKey(s: Sys, t: nat, reply: Reply)
    requires t in s.jobs && t in s.pc
    ensures t in Moves(s, t, reply).pc && KeyEffect(s, t, Moves(s, t, reply))
  {
    hide KeyOf, ScriptOf, AnyMutating;
    match s.pc[t]
    case RecordsStart =>
    case Runs(n) =>
    case _ => assert Moves(s, t, reply).executed == s.executed;
  }

  lemma EffectsIgnoreTheTrace(s: Sys, t: nat, after: Sys, e: Ev)
    requires t in s.jobs && t in s.pc && t in after.pc && LockEffect(s, t, after) && KeyEffect(s, t, after)
    ensures LockEffect(s, t, See(after, e)) && KeyEffect(s, t, See(after, e))
  {
    hide KeyOf, Done;
  }

  lemma TurnAndEvent(s: Sys, t: nat, reply: Reply)
    requires t in s.jobs && t in s.pc
    ensures EventEffect(s, t, TakeTurn(s, t, reply), Emits(s, t, reply))
  {
    hide KeyOf, ScriptOf, AnyMutating;
  }

  lemma TurnHasEffect(s: Sys, t: nat, reply: Reply)
    requires t in s.jobs && t in s.pc
    ensures t in TakeTurn(s, t, reply).pc && Effect(s, t, TakeTurn(s, t, reply), Emits(s, t, reply))
  {
    MoveAndLock(s, t, reply);
    MoveAndKey(s, t, reply);
    TurnAndEvent(s, t, reply);
    var e := Emits(s, t, reply);
    hide LockEffect, KeyEffect, EventEffect, Moves, Emits;
    if e.Some? { EffectsIgnoreTheTrace(s, t, Moves(s, t, reply), e.value); }
  }

  lemma CallsFit(s: Sys, t: nat, after: Sys, e: Option<Ev>, u: nat)
    requires Inv(s) && t in s.jobs && t in s.pc && t in after.pc && u in s.jobs && Effect(s, t, after, e)
    ensures CallOk(after, u)
  {
    hide KeyOf;
    assert CallOk(s, t) && CallOk(s, u);
    if t != u && Inside(s.pc[t]) {
      OthersNotWorking(s, t, u);
    }
  }

  lemma OldEventFits(s: Sys, t: nat, after: Sys, e: Option<Ev>, a: Ev)
    requires t in s.jobs && t in s.pc && t in after.pc && Effect(s, t, after, e) && EventOk(s, a)
    ensures EventOk(after, a)
  {
    hide KeyOf;
  }

  lemma WorkFits(s: Sys, t: nat, after: Sys, e: Option<Ev>, u: nat, a: Ev)
    requires t in s.jobs && t in s.pc && t in after.pc && Effect(s, t, after, e) && EventOk(s, a) && WorkOk(s, u, a)
    ensures WorkOk(after, u, a)
  {
    hide KeyOf;
  }

  lemma NewWorkFits(s: Sys, t: nat, after: Sys, e: Ev, u: nat)
    requires Inv(s) && t in s.jobs && t in s.pc && t in after.pc && u in s.jobs && Effect(s, t, after, Some(e))
    ensures WorkOk(after, u, e)
  {
    hide KeyOf;
    assert CallOk(s, t) && CallOk(s, u);
    if t != u && Inside(s.pc[t]) { OthersNotWorking(s, t, u); }
  }

  lemma OldPairFits(s: Sys, t: nat, after: Sys, e: Option<Ev>, a: Ev, b: Ev)
    requires t in s.jobs && t in s.pc && t in after.pc && Effect(s, t, after, e) && EventOk(s, a) && PairOk(s, a, b)
    ensures PairOk(after, a, b)
  {
    hide KeyOf;
  }

  /** A new event fits with an earlier one: its call is inside the lock, so other calls have left. */
  lemma NewPairFits(s: Sys, t: nat, after: Sys, e: Ev, a: Ev)
    requires Inv(s) && t in s.jobs && t in s.pc && t in after.pc && Effect(s, t, after, Some(e)) && EventOk(s, a)
    requires WorkOk(s, t, a)
    ensures PairOk(after, a, e)
  {
    hide KeyOf;
    assert CallOk(s, t);
    if Acts(a) && Acts(e) && a.t != t {
      OthersNotWorking(s, t, a.t);
    }
  }

  lemma NewEventFits(s: Sys, t: nat, after: Sys, e: Ev)
    requires Inv(s) && t in s.jobs && t in s.pc && t in after.pc && Effect(s, t, after, Some(e))
    ensures EventOk(after, e)
  {
    hide KeyOf;
    assert CallOk(s, t);
  }

  lemma NoInterleaving(s: Sys, t: nat, after: Sys, e: Ev, a: Ev, b: Ev)
    requires t in s.jobs && t in s.pc && t in after.pc && Effect(s, t, after, Some(e))
    requires EventOk(s, a) && PairOk(s, a, b)
    ensures !Interleaved(s.jobs, a, b, e)
  {
    hide KeyOf;
  }

  lemma TurnKeeps(s: Sys, t: nat, reply: Reply)
    requires Inv(s) && t in s.jobs && t in s.pc
    ensures Inv(TakeTurn(s, t, reply))
  {
    var after, e := TakeTurn(s, t, reply), Emits(s, t, reply);
    TurnHasEffect(s, t, reply);
    EffectKeeps(s, t, after, e);
  }

  lemma EffectKeeps(s: Sys, t: nat, after: Sys, e: Option<Ev>)
    requires Inv(s) && t in s.jobs && t in s.pc && t in after.pc && Effect(s, t, after, e)
    ensures Inv(after)
  {
    var n := |s.trace|;
    assert after.jobs == s.jobs && forall i | i in after.holder :: after.holder[i] in s.jobs;
    assert forall i | 0 <= i < n :: after.trace[i] == s.trace[i];
    assert |after.trace| == if e.Some? then n + 1 else n;
    assert e.Some? ==> after.trace[n] == e.value;
    hide CallOk, EventOk, PairOk, WorkOk, Interleaved, Effect;
    forall u | u in s.jobs { CallsFit(s, t, after, e, u); }
    forall i | 0 <= i < |after.trace| ensures EventOk(after, after.trace[i]) {
      if i < n { OldEventFits(s, t, after, e, s.trace[i]); } else { NewEventFits(s, t, after, e.value); }
    }
    forall u, i | u in after.jobs && 0 <= i < |after.trace| ensures WorkOk(after, u, after.trace[i]) {
      if i < n {
        assert EventOk(s, s.trace[i]) && WorkOk(s, u, s.trace[i]);
        WorkFits(s, t, after, e, u, s.trace[i]);
      } else {
        NewWorkFits(s, t, after, e.value, u);
      }
    }
    forall i, j | 0 <= i < j < |after.trace| ensures PairOk(after, after.trace[i], after.trace[j]) {
      assert EventOk(s, s.trace[i]) && WorkOk(s, t, s.trace[i]);
      if j < n { OldPairFits(s, t, after, e, s.trace[i], s.trace[j]); } else { NewPairFits(s, t, after, e.value, s.trace[i]); }
    }
    forall i, j, k | 0 <= i < j < k < |after.trace|
      ensures !Interleaved(after.jobs, after.trace[i], after.trace[j], after.trace[k])
    {
      assert EventOk(s, s.trace[i]) && PairOk(s, s.trace[i], s.trace[j]);
      if k >= n { NoInterleaving(s, t, after, e.value, s.trace[i], s.trace[j]); }
    }
  }

  lemma PassiveFits(s: Sys, e: Ev)
    requires !Acts(e)
    ensures EventOk(s, e) && (forall t :: WorkOk(s, t, e)) && (forall a :: PairOk(s, a, e)) && forall a, b :: !Interleaved(s.jobs, a, b, e)
  {
  }

  lemma NextKeeps(s: Sys, a: Act)
    requires Inv(s)
    ensures Inv(Next(s, a))
  {
    match a
    case Turn(t, reply) => if t in s.jobs && t in s.pc { TurnKeeps(s, t, reply); }
    case Spawn(t, job) => SpawnKeeps(s, t, job);
    case SetStatus(i, to) =>
      OthersSeeNothing(s, s.(status := s.status[i := to]));
      PassiveKeeps(s.(status := s.status[i := to]), Changed(i, to));
    case Grant(i) => OthersSeeNothing(s, s.(granted := s.granted + {i}));
  }

  /** Statuses and grants play no part in the invariant. */
  lemma OthersSeeNothing(s: Sys, after: Sys)
    requires Inv(s) && after == s.(status := after.status, granted := after.granted)
    ensures Inv(after)
  {
    hide KeyOf;
    forall t | t in after.jobs ensures CallOk(after, t) { assert CallOk(s, t); }
    forall i | 0 <= i < |after.trace| ensures EventOk(after, after.trace[i]) { assert EventOk(s, s.trace[i]); }
    forall t, i | t in after.jobs && 0 <= i < |after.trace| ensures WorkOk(after, t, after.trace[i]) {
      assert WorkOk(s, t, s.trace[i]);
    }
    forall i, j | 0 <= i < j < |after.trace| ensures PairOk(after, after.trace[i], after.trace[j]) {
      assert PairOk(s, s.trace[i], s.trace[j]);
    }
  }

  lemma PassiveKeeps(s: Sys, e: Ev)
    requires Inv(s) && !Acts(e)
    ensures Inv(See(s, e))
  {
    var after, n := See(s, e), |s.trace|;
    assert forall i | 0 <= i < n :: after.trace[i] == s.trace[i];
    assert after.trace[n] == e;
    PassiveFits(after, e);
    IgnoresTrace(s, after);
    hide CallOk, EventOk, PairOk, WorkOk, Interleaved;
    forall t | t in after.jobs ensures CallOk(after, t) { assert CallOk(s, t); }
    forall i | 0 <= i < |after.trace| ensures EventOk(after, after.trace[i]) {
      if i < n { assert EventOk(s, s.trace[i]); }
    }
    forall t, i | t in after.jobs && 0 <= i < |after.trace| ensures WorkOk(after, t, after.trace[i]) {
      if i < n { assert WorkOk(s, t, s.trace[i]); }
    }
    forall i, j | 0 <= i < j < |after.trace| ensures PairOk(after, after.trace[i], after.trace[j]) {
      if j < n { assert PairOk(s, s.trace[i], s.trace[j]); }
    }
  }

  lemma IgnoresTrace(s: Sys, after: Sys)
    requires after == s.(trace := after.trace)
    ensures forall t :: CallOk(after, t) <==> CallOk(s, t)
    ensures forall e :: EventOk(after, e) <==> EventOk(s, e)
    ensures forall t, e :: WorkOk(after, t, e) <==> WorkOk(s, t, e)
    ensures forall a, b :: PairOk(after, a, b) <==> PairOk(s, a, b)
  {
    hide KeyOf;
  }

  lemma SpawnKeeps(s: Sys, t: nat, job: Job)
    requires Inv(s)
    ensures Inv(Next(s, Spawn(t, job)))
  {
    var after := Next(s, Spawn(t, job));
    if t !in s.jobs {
      assert after.trace == s.trace && after.holder == s.holder;
      forall u | u in after.jobs ensures CallOk(after, u) {
        if u in s.jobs { assert CallOk(s, u); }
      }
      hide CallOk, EventOk, PairOk, WorkOk, Interleaved, Next;
      forall i | 0 <= i < |s.trace| ensures EventOk(after, s.trace[i]) {
        SpawnedAround(s, t, job, s.trace[i], s.trace[i]);
      }
      forall u, i | u in after.jobs && 0 <= i < |s.trace| ensures WorkOk(after, u, s.trace[i]) {
        assert EventOk(s, s.trace[i]) && (u in s.jobs ==> WorkOk(s, u, s.trace[i]));
        SpawnedWork(s, t, job, u, s.trace[i]);
      }
      forall i, j | 0 <= i < j < |s.trace| ensures PairOk(after, s.trace[i], s.trace[j]) {
        assert EventOk(s, s.trace[i]) && EventOk(s, s.trace[j]);
        SpawnedAround(s, t, job, s.trace[i], s.trace[j]);
      }
      forall i, j, k | 0 <= i < j < k < |s.trace| ensures !Interleaved(after.jobs, s.trace[i], s.trace[j], s.trace[k]) {
        assert EventOk(s, s.trace[i]) && EventOk(s, s.trace[j]);
        SpawnedAround(s, t, job, s.trace[i], s.trace[j]);
        assert !Interleaved(s.jobs, s.trace[i], s.trace[j], s.trace[k]);
      }
    }
  }

  lemma SpawnedWork(s: Sys, t: nat, job: Job, u: nat, e: Ev)
    requires t !in s.jobs && EventOk(s, e) && (u in s.jobs ==> WorkOk(s, u, e)) && (u in s.jobs || u == t)
    ensures WorkOk(Next(s, Spawn(t, job)), u, e)
  {
    hide KeyOf;
  }

  lemma SpawnedAround(s: Sys, t: nat, job: Job, a: Ev, b: Ev)
    requires t !in s.jobs && EventOk(s, a) && EventOk(s, b)
    ensures EventOk(Next(s, Spawn(t, job)), a)
    ensures PairOk(s, a, b) ==> PairOk(Next(s, Spawn(t, job)), a, b)
    ensures forall c :: Interleaved(Next(s, Spawn(t, job)).jobs, a, b, c) ==> Interleaved(s.jobs, a, b, c)
  {
    hide KeyOf;
  }

  lemma {:induction false} ReachKeeps(acts: seq<Act>)
    ensures Inv(Reach(acts))
  {
    hide Next, Inv;
    if acts == [] {
      assert Inv(START) by { NothingYet(); }
    } else {
      ReachKeeps(acts[..|acts| - 1]);
      NextKeeps(Reach(acts[..|acts| - 1]), acts[|acts| - 1]);
    }
  }

  lemma NothingYet()
    ensures Inv(START)
  {
  }

  // ---------------------------------------------------------------- what the interleavings guarantee

  /** Executions of one incident never overlap: between two events of a call, no other call of its incident acts. */
  lemma ExecutionsDoNotOverlap(acts: seq<Act>, i: nat, j: nat, k: nat)
    requires var trace := Reach(acts).trace;
             i < j < k < |trace| && Acts(trace[i]) && Acts(trace[j]) && Acts(trace[k])
             && trace[i].t == trace[k].t && trace[j].t != trace[i].t
    ensures var s := Reach(acts);
            && s.trace[i].t in s.jobs && s.trace[j].t in s.jobs
            && s.jobs[s.trace[i].t].incident != s.jobs[s.trace[j].t].incident
  {
    ReachKeeps(acts);
    var s := Reach(acts);
    assert EventOk(s, s.trace[i]) && EventOk(s, s.trace[j]);
    assert !Interleaved(s.jobs, s.trace[i], s.trace[j], s.trace[k]);
  }

  /**
   * Once a call has completed its key, no command is ever issued under that key again, and nobody completes
   * it again, except by calls on another incident whose id is nested in this one's, or the reverse.
   */
  lemma CompletedKeysStayQuiet(acts: seq<Act>, i: nat, j: nat)
    requires var trace := Reach(acts).trace;
             i < j < |trace| && trace[i].Completed? && (trace[j].Issued? || trace[j].Completed?)
    ensures var s := Reach(acts);
            && s.trace[i].t in s.jobs && s.trace[j].t in s.jobs
            && var a, b := s.jobs[s.trace[i].t], s.jobs[s.trace[j].t];
               KeyOf(a) == KeyOf(b) ==> Nested(a.incident, b.incident) || Nested(b.incident, a.incident)
  {
    ReachKeeps(acts);
    var s := Reach(acts);
    assert EventOk(s, s.trace[i]) && EventOk(s, s.trace[j]) && PairOk(s, s.trace[i], s.trace[j]);
    var a, b := s.jobs[s.trace[i].t], s.jobs[s.trace[j].t];
    if KeyOf(a) == KeyOf(b) && !Nested(a.incident, b.incident) && !Nested(b.incident, a.incident) {
      KeyNamesItsIncident(a.incident, a.report.suggestedActions, b.incident, b.report.suggestedActions);
    }
  }

  // ---------------------------------------------------------------- commands of one call

  function IssuedBy(trace: seq<Ev>, t: nat): seq<Command> {
    if trace == [] then []
    else
      var e := trace[|trace| - 1];
      IssuedBy(trace[..|trace| - 1], t) + if e.Issued? && e.t == t then [e.command] else []
  }

  predicate NotYetRunning(pc: Pc) {
    pc.WantsLock? || pc.ReadsKey? || pc.ReadsStatus? || pc.ReadsGrant? || pc.RecordsStart? || pc.LogsStart?
  }

  /** The call's commands so far are the first of its script; all of them once it completed. */
  ghost predicate ScriptOk(s: Sys, t: nat) {
    && t in s.jobs && t in s.pc
    && var script, done := ScriptOf(s.jobs[t]), IssuedBy(s.trace, t);
       && done <= script
       && (s.pc[t].Runs? ==> s.pc[t].issued <= |script| && done == script[..s.pc[t].issued])
       && (NotYetRunning(s.pc[t]) ==> done == [])
       && (s.pc[t].LogsFinish? ==> done == script)
  }

  lemma IssuedBySnoc(trace: seq<Ev>, e: Ev, t: nat)
    ensures IssuedBy(trace + [e], t) == IssuedBy(trace, t) + if e.Issued? && e.t == t then [e.command] else []
  {
    assert (trace + [e])[..|trace|] == trace;
  }

  lemma OtherScripts(s: Sys, t: nat, after: Sys, e: Option<Ev>, u: nat)
    requires t in s.jobs && t in s.pc && t in after.pc && Effect(s, t, after, e) && ScriptOk(s, u) && u != t
    requires e.Some? && e.value.Issued? ==> e.value.t == t
    ensures ScriptOk(after, u)
  {
    hide KeyOf, ScriptOf, IssuedBy;
    if e.Some? { IssuedBySnoc(s.trace, e.value, u); }
  }

  lemma RunningScript(s: Sys, t: nat, reply: Reply)
    requires t in s.jobs && t in s.pc && s.pc[t].Runs? && ScriptOk(s, t)
    ensures ScriptOk(TakeTurn(s, t, reply), t)
  {
    hide KeyOf, ScriptOf, IssuedBy, Finished;
    IssuedBySnoc(s.trace, Emits(s, t, reply).value, t);
    var script, n := ScriptOf(s.jobs[t]), s.pc[t].issued;
    if n < |script| { TakeSnoc(script, n); } else { assert script[..n] == script; }
  }

  lemma OwnScript(s: Sys, t: nat, reply: Reply)
    requires t in s.jobs && t in s.pc && ScriptOk(s, t) && !s.pc[t].Runs?
    ensures ScriptOk(TakeTurn(s, t, reply), t)
  {
    hide KeyOf, ScriptOf, IssuedBy, AnyMutating, Started, Released, Done, TakeTurn;
    var after, e := TakeTurn(s, t, reply), Emits(s, t, reply);
    QuietTurn(s, t, reply);
    if e.Some? { IssuedBySnoc(s.trace, e.value, t); }
    assert IssuedBy(after.trace, t) == IssuedBy(s.trace, t);
  }

  /** A turn that is not one of the loop issues nothing; only LogsStart enters the loop, at its first command. */
  lemma QuietTurn(s: Sys, t: nat, reply: Reply)
    requires t in s.jobs && t in s.pc && !s.pc[t].Runs?
    ensures var after, e := TakeTurn(s, t, reply), Emits(s, t, reply);
            && t in after.pc && after.jobs == s.jobs && (e.Some? ==> !e.value.Issued?)
            && after.trace == (if e.Some? then s.trace + [e.value] else s.trace)
            && !after.pc[t].LogsFinish?
            && (after.pc[t].Runs? ==> after.pc[t].issued == 0 && s.pc[t].LogsStart?)
            && (NotYetRunning(after.pc[t]) ==> NotYetRunning(s.pc[t]))
  {
    hide KeyOf, ScriptOf, AnyMutating, Started, Finished, Released, Done;
  }

  lemma TurnKeepsScripts(s: Sys, t: nat, reply: Reply, u: nat)
    requires t in s.jobs && t in s.pc && ScriptOk(s, u)
    ensures ScriptOk(TakeTurn(s, t, reply), u)
  {
    hide ScriptOk, TakeTurn;
    TurnHasEffect(s, t, reply);
    if u == t && s.pc[t].Runs? {
      RunningScript(s, t, reply);
    } else if u == t {
      OwnScript(s, t, reply);
    } else {
       OtherScripts(s, t, TakeTurn(s, t, reply), Emits(s, t, reply), u);
    }
  }

  lemma {:induction false} NothingIssuedBefore(s: Sys, t: nat, k: nat)
    requires k <= |s.trace| && t !in s.jobs && forall i | 0 <= i < |s.trace| :: EventOk(s, s.trace[i])
    ensures IssuedBy(s.trace[..k], t) == []
  {
    if k > 0 {
      NothingIssuedBefore(s, t, k - 1);
      assert s.trace[..k][..k - 1] == s.trace[..k - 1];
      assert EventOk(s, s.trace[k - 1]);
    }
  }

  /** Whatever the interleaving, each call issues the commands of its own script, in order and without gaps. */
  lemma {:induction false} CallsFollowTheirScripts(acts: seq<Act>, t: nat)
    requires t in Reach(acts).jobs
    ensures ScriptOk(Reach(acts), t)
  {
    hide ScriptOk, TakeTurn, EventOk, CallOk, PairOk, WorkOk, Interleaved, IssuedBy;
    if acts != [] {
      var front, a := acts[..|acts| - 1], acts[|acts| - 1];
      var s := Reach(front);
      ReachKeeps(front);
      if t in s.jobs {
        CallsFollowTheirScripts(front, t);
        if a.Turn? && a.t in s.jobs && a.t in s.pc {
          TurnKeepsScripts(s, a.t, a.reply, t);
        } else {
          ScriptsElsewhere(s, a, t);
        }
      } else if a.Spawn? && a.t == t {
        NothingIssuedBefore(s, t, |s.trace|);
        assert s.trace[..|s.trace|] == s.trace;
        FreshScript(s, t, a.job);
      } else if a.Turn? && a.t in s.jobs && a.t in s.pc {
        TurnHasEffect(s, a.t, a.reply);
      }
    }
  }

  lemma FreshScript(s: Sys, t: nat, job: Job)
    requires t !in s.jobs && IssuedBy(s.trace, t) == []
    ensures ScriptOk(Next(s, Spawn(t, job)), t)
  {
    hide ScriptOf, IssuedBy;
  }

  lemma ScriptsElsewhere(s: Sys, a: Act, t: nat)
    requires ScriptOk(s, t) && (a.Turn? ==> !(a.t in s.jobs && a.t in s.pc))
    ensures ScriptOk(Next(s, a), t)
  {
    hide ScriptOf, IssuedBy;
    if a.SetStatus? { IssuedBySnoc(s.trace, Changed(a.incident, a.to), t); }
  }

  // ---------------------------------------------------------------- mitigation during an execution

  /** The status the last change before this point gave the incident. */
  function StatusThen(trace: seq<Ev>, incident: string): Option<string> {
    if trace == [] then None
    else
      var e := trace[|trace| - 1];
      if e.Changed? && e.incident == incident then Some(e.status) else StatusThen(trace[..|trace| - 1], incident)
  }

  lemma StatusSnoc(trace: seq<Ev>, e: Ev, incident: string)
    ensures StatusThen(trace + [e], incident) ==
            if e.Changed? && e.incident == incident then Some(e.status) else StatusThen(trace, incident)
  {
    assert (trace + [e])[..|trace|] == trace;
  }

  /** At r the call read, truthfully, that its incident was not yet mitigated or resolved. */
  ghost predicate LookedWell(s: Sys, t: nat, r: nat) {
    && r < |s.trace| && t in s.jobs && s.trace[r].Looked? && s.trace[r].t == t && s.trace[r].status !in {MITIGATED, RESOLVED}
    && StatusThen(s.trace[..r], s.jobs[t].incident) == Some(s.trace[r].status)
  }

  ghost predicate StatusOk(s: Sys) {
    && (forall i :: StatusThen(s.trace, i) == if i in s.status then Some(s.status[i]) else None)
    && (forall t | t in s.jobs && t in s.pc && AboutToStart(s.pc[t]) ::
          exists r: nat :: LookedWell(s, t, r))
    && (forall j | 0 <= j < |s.trace| && s.trace[j].Began? ::
          exists r: nat :: r < j && LookedWell(s, s.trace[j].t, r))
  }

  lemma LooksLast(s: Sys, after: Sys, t: nat, r: nat)
    requires LookedWell(s, t, r) && s.trace <= after.trace && t in after.jobs && after.jobs[t] == s.jobs[t]
    ensures LookedWell(after, t, r)
  {
    assert after.trace[..r] == s.trace[..r];
  }

  lemma StatusesFollow(s: Sys, a: Act)
    requires StatusOk(s)
    ensures forall i :: StatusThen(Next(s, a).trace, i) == if i in Next(s, a).status then Some(Next(s, a).status[i]) else None
  {
    hide StatusThen, TakeTurn;
    var after := Next(s, a);
    if a.Turn? && a.t in s.jobs && a.t in s.pc { TurnLeavesStatuses(s, a.t, a.reply); }
    forall i ensures StatusThen(after.trace, i) == if i in after.status then Some(after.status[i]) else None {
      if after.trace != s.trace {
        StatusSnoc(s.trace, after.trace[|s.trace|], i);
        assert after.trace == s.trace + [after.trace[|s.trace|]];
      }
    }
  }

  lemma TurnLeavesStatuses(s: Sys, t: nat, reply: Reply)
    requires t in s.jobs && t in s.pc
    ensures var after, e := TakeTurn(s, t, reply), Emits(s, t, reply);
            && after.status == s.status && (e.Some? ==> !e.value.Changed?)
            && after.trace == (if e.Some? then s.trace + [e.value] else s.trace)
  {
    hide KeyOf, ScriptOf, AnyMutating, Started, Finished, Released, Done;
  }

  predicate AboutToStart(pc: Pc) {
    pc.ReadsGrant? || pc.RecordsStart? || pc.LogsStart?
  }

  /** Only a call that reads an active status comes to be about to start; only such a call starts. */
  predicate TowardsStart(s: Sys, t: nat, pc: Pc, e: Option<Ev>)
    requires t in s.jobs && t in s.pc
  {
    var incident := s.jobs[t].incident;
    && (AboutToStart(pc) && !AboutToStart(s.pc[t]) ==>
          incident in s.status && s.status[incident] != MITIGATED && s.status[incident] != RESOLVED
          && e == Some(Looked(t, s.status[incident])))
    && (e.Some? && e.value.Began? ==> AboutToStart(s.pc[t]) && e.value.t == t)
  }

  lemma TurnTowardsStart(s: Sys, t: nat, reply: Reply)
    requires t in s.jobs && t in s.pc
    ensures t in TakeTurn(s, t, reply).pc && TowardsStart(s, t, TakeTurn(s, t, reply).pc[t], Emits(s, t, reply))
  {
    hide KeyOf, ScriptOf, AnyMutating, Started, Finished, Released, Done;
  }

  /** What one act does to the history and to the standing of a call. */
  lemma ActGrows(s: Sys, a: Act)
    ensures s.trace <= Next(s, a).trace && |Next(s, a).trace| <= |s.trace| + 1
    ensures forall t | t in s.jobs :: t in Next(s, a).jobs && Next(s, a).jobs[t] == s.jobs[t]
  {
    hide Moves, Emits;
    if a.Turn? && a.t in s.jobs && a.t in s.pc {
      TurnHasEffect(s, a.t, a.reply);
    }
  }

  lemma LooksFollow(s: Sys, a: Act, t: nat)
    requires StatusOk(s) && t in Next(s, a).jobs && t in Next(s, a).pc && AboutToStart(Next(s, a).pc[t])
    ensures exists r: nat :: LookedWell(Next(s, a), t, r)
  {
    var after := Next(s, a);
    ActGrows(s, a);
    if a.Turn? && a.t in s.jobs && a.t in s.pc { TurnTowardsStart(s, a.t, a.reply); TurnHasEffect(s, a.t, a.reply); }
    hide TakeTurn, Moves, Emits, StatusThen;
    if t in s.jobs && t in s.pc && AboutToStart(s.pc[t]) {
      var r: nat :| LookedWell(s, t, r);
      LooksLast(s, after, t, r);
    } else {
      assert a.Turn? && a.t == t;
      assert after.trace[..|s.trace|] == s.trace;
      assert LookedWell(after, t, |s.trace|);
    }
  }

  lemma StartsFollow(s: Sys, a: Act, j: nat)
    requires StatusOk(s) && j < |Next(s, a).trace| && Next(s, a).trace[j].Began?
    requires forall i | 0 <= i < |s.trace| :: EventOk(s, s.trace[i])
    ensures exists r: nat :: r < j && LookedWell(Next(s, a), Next(s, a).trace[j].t, r)
  {
    var after := Next(s, a);
    ActGrows(s, a);
    if a.Turn? && a.t in s.jobs && a.t in s.pc { TurnTowardsStart(s, a.t, a.reply); TurnHasEffect(s, a.t, a.reply); }
    hide TakeTurn, Moves, Emits, StatusThen;
    if j < |s.trace| {
      assert EventOk(s, s.trace[j]);
      var r: nat :| r < j && LookedWell(s, s.trace[j].t, r);
      LooksLast(s, after, s.trace[j].t, r);
    } else {
      var r: nat :| LookedWell(s, a.t, r);
      LooksLast(s, after, a.t, r);
    }
  }

  lemma {:induction false} StatusKeeps(acts: seq<Act>)
    ensures StatusOk(Reach(acts))
  {
    hide Next, LookedWell, EventOk, CallOk, PairOk, WorkOk, Interleaved;
    if acts != [] {
      var front, a := acts[..|acts| - 1], acts[|acts| - 1];
      var s, after := Reach(front), Reach(acts);
      StatusKeeps(front);
      ReachKeeps(front);
      StatusesFollow(s, a);
      forall t | t in after.jobs && t in after.pc && AboutToStart(after.pc[t])
        ensures exists r: nat :: LookedWell(after, t, r)
      {
        LooksFollow(s, a, t);
      }
      forall j | 0 <= j < |after.trace| && after.trace[j].Began?
        ensures exists r: nat :: r < j && LookedWell(after, after.trace[j].t, r)
      {
        StartsFollow(s, a, j);
      }
    }
  }

  /** Every start was preceded by the call's own look at a status that was then current and still active. */
  lemma StartsLookedFirst(acts: seq<Act>, j: nat) returns (r: nat)
    requires j < |Reach(acts).trace| && Reach(acts).trace[j].Began?
    ensures r < j && LookedWell(Reach(acts), Reach(acts).trace[j].t, r)
  {
    StatusKeeps(acts);
    r :| r < j && LookedWell(Reach(acts), Reach(acts).trace[j].t, r);
  }
}
