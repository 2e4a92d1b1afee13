// The steps of module ExecutorThreads, taken without interruption, are one execute of module Executor.

module ExecutorRefines {
  import opened Prelude
  import opened ReportSchema
  import opened Database
  import opened Executor
  import opened ExecutorThreads

  /** The next turn of call t; the n-th command of a call is answered by replies(n). */
  function OneMore(s: Sys, t: nat, replies: nat -> Reply): Sys {
    Next(s, Turn(t, if t in s.pc && s.pc[t].Runs? then replies(s.pc[t].issued) else Output("")))
  }

  function Alone(s: Sys, t: nat, replies: nat -> Reply, k: nat): Sys {
    if k == 0 then s else OneMore(Alone(s, t, replies, k - 1), t, replies)
  }

  lemma {:induction false} AloneTwice(s: Sys, t: nat, replies: nat -> Reply, a: nat, b: nat)
    ensures Alone(s, t, replies, a + b) == Alone(Alone(s, t, replies, a), t, replies, b)
  {
    hide OneMore;
    if b > 0 { AloneTwice(s, t, replies, a, b - 1); }
  }

  predicate At(s: Sys, t: nat, pc: Pc) {
    t in s.jobs && t in s.pc && s.pc[t] == pc
  }

  /** s once call t stands at pc, with these locks and keys, and these events added. */
  function Moved(s: Sys, t: nat, pc: Pc, holder: map<string, nat>, executed: map<string, bool>, more: seq<Ev>): Sys {
    s.(pc := s.pc[t := pc], holder := holder, executed := executed, trace := s.trace + more)
  }

  lemma MovedTwice(s: Sys, t: nat, pc: Pc, h: map<string, nat>, x: map<string, bool>, more: seq<Ev>,
                   pc': Pc, h': map<string, nat>, x': map<string, bool>, more': seq<Ev>)
    ensures Moved(Moved(s, t, pc, h, x, more), t, pc', h', x', more') == Moved(s, t, pc', h', x', more + more')
  {
    assert s.trace + more + more' == s.trace + (more + more');
    assert s.pc[t := pc][t := pc'] == s.pc[t := pc'];
  }

  function Added(s: Sys, t: nat, reply: Reply): seq<Ev>
    requires t in s.jobs && t in s.pc
  {
    if Emits(s, t, reply).Some? then [Emits(s, t, reply).value] else []
  }

  lemma OneTurn(s: Sys, t: nat, reply: Reply)
    requires t in s.jobs && t in s.pc
    ensures Next(s, Turn(t, reply)) == Moved(s, t, PcAfter(s, t, reply), HolderAfter(s, t), ExecutedAfter(s, t), Added(s, t, reply))
  {
    assert s.trace + [] == s.trace;
  }

  /** The commands that call t issued among these events. */
  function Seen(more: seq<Ev>, t: nat): seq<Command> {
    if more == [] then []
    else
      var e := more[|more| - 1];
      Seen(more[..|more| - 1], t) + if e.Issued? && e.t == t then [e.command] else []
  }

  lemma SeenSnoc(more: seq<Ev>, e: Ev, t: nat)
    ensures Seen(more + [e], t) == Seen(more, t) + if e.Issued? && e.t == t then [e.command] else []
  {
    assert (more + [e])[..|more|] == more;
  }

  /** Call t, left alone, comes from s to this state. */
  ghost predicate Comes(s: Sys, t: nat, replies: nat -> Reply, to: Sys) {
    exists k: nat :: Alone(s, t, replies, k) == to
  }

  lemma Then(s: Sys, t: nat, replies: nat -> Reply, mid: Sys, to: Sys)
    requires Comes(s, t, replies, mid) && Comes(mid, t, replies, to)
    ensures Comes(s, t, replies, to)
  {
    hide OneMore;
    var a: nat :| Alone(s, t, replies, a) == mid;
    var b: nat :| Alone(mid, t, replies, b) == to;
    AloneTwice(s, t, replies, a, b);
    assert Alone(s, t, replies, a + b) == to;
  }

  /** One turn more. */
  lemma ThenTurn(s: Sys, t: nat, replies: nat -> Reply, mid: Sys, reply: Reply)
    requires Comes(s, t, replies, mid) && t in mid.jobs && t in mid.pc
    requires reply == if mid.pc[t].Runs? then replies(mid.pc[t].issued) else Output("")
    ensures Comes(s, t, replies, Moved(mid, t, PcAfter(mid, t, reply), HolderAfter(mid, t), ExecutedAfter(mid, t), Added(mid, t, reply)))
  {
    OneTurn(mid, t, reply);
    hide Next, PcAfter, HolderAfter, ExecutedAfter, Added, Moved;
    assert Alone(mid, t, replies, 1) == OneMore(Alone(mid, t, replies, 0), t, replies) == Next(mid, Turn(t, reply));
    Then(s, t, replies, mid, Next(mid, Turn(t, reply)));
  }

  // ---------------------------------------------------------------- up to the loop, through it, and out

  /** Call t waits, its lock is free, and the tables say what the database says. */
  ghost predicate Agree(s: Sys, t: nat, db: Db) {
    && At(s, t, WantsLock) && s.jobs[t].incident !in s.holder
    && db.executed == s.executed && db.incidents == s.status
    && (HasGrant(db.trace, s.jobs[t].incident) <==> s.jobs[t].incident in s.granted)
  }

  /** Inside the lock, with nothing done yet but these events. */
  function InLock(s: Sys, t: nat, pc: Pc, more: seq<Ev>): Sys
    requires t in s.jobs
  {
    Moved(s, t, pc, s.holder[s.jobs[t].incident := t], s.executed, more)
  }

  function Look(s: Sys, t: nat): seq<Ev>
    requires t in s.jobs
  {
    var i := s.jobs[t].incident;
    if i in s.status then [Looked(t, s.status[i])] else []
  }

  lemma TakesLock(s: Sys, t: nat, replies: nat -> Reply)
    requires At(s, t, WantsLock) && s.jobs[t].incident !in s.holder
    ensures Comes(s, t, replies, InLock(s, t, ReadsKey, []))
  {
    assert Alone(s, t, replies, 0) == s;
    ThenTurn(s, t, replies, s, Output(""));
  }

  lemma NothingAdded(more: seq<Ev>)
    ensures more + [] == more && [] + more == more
  {
  }

  /** Another turn inside the lock. */
  lemma InsideTurn(s: Sys, t: nat, replies: nat -> Reply, pc: Pc, more: seq<Ev>, to: Pc, e: seq<Ev>)
    requires t in s.jobs && !pc.Runs? && !pc.RecordsStart? && !pc.WantsLock? && !pc.Releases?
    requires Comes(s, t, replies, InLock(s, t, pc, more))
    requires PcAfter(InLock(s, t, pc, more), t, Output("")) == to && Added(InLock(s, t, pc, more), t, Output("")) == e
    ensures Comes(s, t, replies, InLock(s, t, to, more + e))
  {
    var mid := InLock(s, t, pc, more);
    ThenTurn(s, t, replies, mid, Output(""));
    hide PcAfter, Added, Comes;
    MovedTwice(s, t, pc, mid.holder, s.executed, more, to, mid.holder, s.executed, e);
  }

  /** From Releases a call leaves, and its lock is as it was. */
  lemma Leaves(s: Sys, t: nat, replies: nat -> Reply, executed: map<string, bool>, more: seq<Ev>)
    requires t in s.jobs && s.jobs[t].incident !in s.holder
    requires Comes(s, t, replies, Moved(s, t, Releases, s.holder[s.jobs[t].incident := t], executed, more))
    ensures Comes(s, t, replies, Moved(s, t, Left, s.holder, executed, more))
  {
    var i := s.jobs[t].incident;
    var mid := Moved(s, t, Releases, s.holder[i := t], executed, more);
    ThenTurn(s, t, replies, mid, Output(""));
    assert Released(s.holder[i := t], i) == s.holder;
    MovedTwice(s, t, Releases, s.holder[i := t], executed, more, Left, s.holder, executed, []);
    assert more + [] == more;
  }

  /** The first n commands of a script, with their replies. */
  function IssuedUpTo(t: nat, script: seq<Command>, replies: nat -> Reply, n: nat): seq<Ev>
    requires n <= |script|
  {
    if n == 0 then [] else IssuedUpTo(t, script, replies, n - 1) + [Issued(t, script[n - 1], replies(n - 1))]
  }

  lemma {:induction false} SeenUpTo(t: nat, script: seq<Command>, replies: nat -> Reply, n: nat)
    requires n <= |script|
    ensures Seen(IssuedUpTo(t, script, replies, n), t) == script[..n]
  {
    if n > 0 {
      SeenUpTo(t, script, replies, n - 1);
      SeenSnoc(IssuedUpTo(t, script, replies, n - 1), Issued(t, script[n - 1], replies(n - 1)), t);
    }
  }

  /** In the loop, with n commands issued. */
  function InLoop(s: Sys, t: nat, replies: nat -> Reply, n: nat): Sys
    requires t in s.jobs && n <= |ScriptOf(s.jobs[t])|
  {
    var j := s.jobs[t];
    Moved(s, t, Runs(n), s.holder[j.incident := t], Started(s.executed, KeyOf(j)),
          Look(s, t) + [Began(t)] + IssuedUpTo(t, ScriptOf(j), replies, n))
  }

  lemma OneMoreIssued(a: seq<Ev>, t: nat, script: seq<Command>, replies: nat -> Reply, n: nat)
    requires n < |script|
    ensures a + IssuedUpTo(t, script, replies, n) + [Issued(t, script[n], replies(n))] == a + IssuedUpTo(t, script, replies, n + 1)
  {
  }

  lemma LoopTurn(s: Sys, t: nat, replies: nat -> Reply, n: nat)
    requires t in s.jobs && n < |ScriptOf(s.jobs[t])| && replies(n).Output?
    requires Comes(s, t, replies, InLoop(s, t, replies, n))
    ensures Comes(s, t, replies, InLoop(s, t, replies, n + 1))
  {
    hide Comes, KeyOf, ScriptOf, Started, IssuedUpTo;
    var j, mid := s.jobs[t], InLoop(s, t, replies, n);
    ThenTurn(s, t, replies, mid, replies(n));
    var e := Issued(t, ScriptOf(j)[n], replies(n));
    MovedTwice(s, t, Runs(n), mid.holder, mid.executed, Look(s, t) + [Began(t)] + IssuedUpTo(t, ScriptOf(j), replies, n),
               Runs(n + 1), mid.holder, mid.executed, [e]);
    OneMoreIssued(Look(s, t) + [Began(t)], t, ScriptOf(j), replies, n);
  }

  lemma {:induction false} Loops(s: Sys, t: nat, replies: nat -> Reply, n: nat)
    requires t in s.jobs && n <= |ScriptOf(s.jobs[t])| && forall m: nat | m < n :: replies(m).Output?
    requires Comes(s, t, replies, InLoop(s, t, replies, 0))
    ensures Comes(s, t, replies, InLoop(s, t, replies, n))
  {
    hide *;
    if n > 0 {
      Loops(s, t, replies, n - 1);
      LoopTurn(s, t, replies, n - 1);
    }
  }

  /** What a call adds to the events that gets into the loop and issues n commands. */
  function LoopEvents(s: Sys, t: nat, replies: nat -> Reply, n: nat): seq<Ev>
    requires t in s.jobs && n <= |ScriptOf(s.jobs[t])|
  {
    Look(s, t) + [Began(t)] + IssuedUpTo(t, ScriptOf(s.jobs[t]), replies, n)
  }

  /** The loop ends after its last command ... */
  lemma LoopEnds(s: Sys, t: nat, replies: nat -> Reply)
    requires t in s.jobs && s.jobs[t].incident !in s.holder && forall m: nat | m < |ScriptOf(s.jobs[t])| :: replies(m).Output?
    requires Comes(s, t, replies, InLoop(s, t, replies, 0))
    ensures var j := s.jobs[t];
            Comes(s, t, replies, Moved(s, t, Left, s.holder, Finished(Started(s.executed, KeyOf(j)), KeyOf(j)),
                                       LoopEvents(s, t, replies, |ScriptOf(j)|) + [Completed(t)] + [Ended(t)]))
  {
    hide Comes, KeyOf, ScriptOf, Started, Finished;
    var j, n := s.jobs[t], |ScriptOf(s.jobs[t])|;
    Loops(s, t, replies, n);
    var h, mid, more := s.holder[j.incident := t], InLoop(s, t, replies, n), LoopEvents(s, t, replies, n);
    ThenTurn(s, t, replies, mid, replies(n));
    var x := Finished(mid.executed, KeyOf(j));
    MovedTwice(s, t, Runs(n), h, mid.executed, more, LogsFinish, h, x, [Completed(t)]);
    var logs := Moved(s, t, LogsFinish, h, x, more + [Completed(t)]);
    ThenTurn(s, t, replies, logs, Output(""));
    MovedTwice(s, t, LogsFinish, h, x, more + [Completed(t)], Releases, h, x, [Ended(t)]);
    Leaves(s, t, replies, x, more + [Completed(t)] + [Ended(t)]);
  }

  /** ... or at the first that fails. */
  lemma LoopStops(s: Sys, t: nat, replies: nat -> Reply, n: nat)
    requires t in s.jobs && s.jobs[t].incident !in s.holder && n < |ScriptOf(s.jobs[t])|
    requires replies(n).Raised? && forall m: nat | m < n :: replies(m).Output?
    requires Comes(s, t, replies, InLoop(s, t, replies, 0))
    ensures var j := s.jobs[t];
            Comes(s, t, replies, Moved(s, t, Left, s.holder, Started(s.executed, KeyOf(j)), LoopEvents(s, t, replies, n + 1)))
  {
    hide Comes, KeyOf, ScriptOf, Started;
    var j := s.jobs[t];
    Loops(s, t, replies, n);
    var h, mid, more := s.holder[j.incident := t], InLoop(s, t, replies, n), LoopEvents(s, t, replies, n);
    ThenTurn(s, t, replies, mid, replies(n));
    var e := Issued(t, ScriptOf(j)[n], replies(n));
    MovedTwice(s, t, Runs(n), h, mid.executed, more, Releases, h, mid.executed, [e]);
    assert more + [e] == LoopEvents(s, t, replies, n + 1);
    Leaves(s, t, replies, mid.executed, LoopEvents(s, t, replies, n + 1));
  }

  lemma GetsToTheGrant(s: Sys, t: nat, replies: nat -> Reply)
    requires At(s, t, WantsLock) && s.jobs[t].incident !in s.holder
    requires var j := s.jobs[t];
             !Done(s.executed, KeyOf(j)) && j.incident in s.status && s.status[j.incident] !in {MITIGATED, RESOLVED}
    ensures Comes(s, t, replies, InLock(s, t, ReadsGrant, Look(s, t)))
  {
    hide Comes, KeyOf, ScriptOf, Done;
    TakesLock(s, t, replies);
    NothingAdded([]);
    NothingAdded(Look(s, t));
    InsideTurn(s, t, replies, ReadsKey, [], ReadsStatus, []);
    InsideTurn(s, t, replies, ReadsStatus, [], ReadsGrant, Look(s, t));
  }

  lemma GetsToTheLoop(s: Sys, t: nat, replies: nat -> Reply)
    requires t in s.jobs && Comes(s, t, replies, InLock(s, t, ReadsGrant, Look(s, t)))
    requires AnyMutating(s.jobs[t].report.suggestedActions) ==> s.jobs[t].incident in s.granted
    ensures Comes(s, t, replies, InLoop(s, t, replies, 0))
  {
    hide Comes, KeyOf, ScriptOf, Done, AnyMutating, Started;
    var j, h := s.jobs[t], s.holder[s.jobs[t].incident := t];
    InsideTurn(s, t, replies, ReadsGrant, Look(s, t), RecordsStart, []);
    assert Look(s, t) + [] == Look(s, t);
    var mid := InLock(s, t, RecordsStart, Look(s, t));
    ThenTurn(s, t, replies, mid, Output(""));
    var x := Started(s.executed, KeyOf(j));
    MovedTwice(s, t, RecordsStart, h, s.executed, Look(s, t), LogsStart, h, x, []);
    var logs := Moved(s, t, LogsStart, h, x, Look(s, t));
    ThenTurn(s, t, replies, logs, Output(""));
    MovedTwice(s, t, LogsStart, h, x, Look(s, t), Runs(0), h, x, [Began(t)]);
    assert Look(s, t) + [Began(t)] + [] == Look(s, t) + [Began(t)];
  }

  // ---------------------------------------------------------------- one execute

  /** The tables and commands that execute leaves. */
  ghost predicate SameAsExecute(s: Sys, t: nat, db: Db, env: Env, executed: map<string, bool>, more: seq<Ev>)
    requires t in s.jobs
  {
    var j := s.jobs[t];
    var after := ExecuteSpec(db, j.incident, j.report, env).0;
    && db.trace <= after.trace && executed == after.executed && Seen(more, t) == Commands(after.trace[|db.trace|..])
    && (Began(t) in more <==> Cleared(db, j.incident, j.report))
  }

  lemma StopsAtTheKey(s: Sys, t: nat, replies: nat -> Reply)
    requires At(s, t, WantsLock) && s.jobs[t].incident !in s.holder && Done(s.executed, KeyOf(s.jobs[t]))
    ensures Comes(s, t, replies, Moved(s, t, Left, s.holder, s.executed, []))
  {
    hide Comes, KeyOf, ScriptOf, Done;
    NothingAdded([]);
    TakesLock(s, t, replies);
    InsideTurn(s, t, replies, ReadsKey, [], Releases, []);
    Leaves(s, t, replies, s.executed, []);
  }

  lemma StopsAtTheStatus(s: Sys, t: nat, replies: nat -> Reply)
    requires At(s, t, WantsLock) && s.jobs[t].incident !in s.holder && !Done(s.executed, KeyOf(s.jobs[t]))
    requires s.jobs[t].incident in s.status ==> s.status[s.jobs[t].incident] in {MITIGATED, RESOLVED}
    ensures Comes(s, t, replies, Moved(s, t, Left, s.holder, s.executed, Look(s, t)))
  {
    hide Comes, KeyOf, ScriptOf, Done;
    NothingAdded([]);
    NothingAdded(Look(s, t));
    TakesLock(s, t, replies);
    InsideTurn(s, t, replies, ReadsKey, [], ReadsStatus, []);
    InsideTurn(s, t, replies, ReadsStatus, [], Releases, Look(s, t));
    Leaves(s, t, replies, s.executed, Look(s, t));
  }

  lemma StopsAtTheGrant(s: Sys, t: nat, replies: nat -> Reply)
    requires t in s.jobs && s.jobs[t].incident !in s.holder && Comes(s, t, replies, InLock(s, t, ReadsGrant, Look(s, t)))
    requires AnyMutating(s.jobs[t].report.suggestedActions) && s.jobs[t].incident !in s.granted
    ensures Comes(s, t, replies, Moved(s, t, Left, s.holder, s.executed, Look(s, t)))
  {
    hide Comes, KeyOf, ScriptOf, Done, AnyMutating;
    NothingAdded(Look(s, t));
    InsideTurn(s, t, replies, ReadsGrant, Look(s, t), Releases, []);
    Leaves(s, t, replies, s.executed, Look(s, t));
  }

  lemma StopsShort(s: Sys, t: nat, db: Db, env: Env) returns (more: seq<Ev>)
    requires Agree(s, t, db) && s.jobs[t].report.validated && !Cleared(db, s.jobs[t].incident, s.jobs[t].report)
    ensures Comes(s, t, env.replies, Moved(s, t, Left, s.holder, s.executed, more)) && Seen(more, t) == [] && Began(t) !in more
  {
    hide Comes, KeyOf, Done, AnyMutating, HasGrant, FullKey, Moved, InLock;
    var j, replies := s.jobs[t], env.replies;
    KeyIs(j);
    NoneSeen([], t);
    NoneSeen(Look(s, t), t);
    if Done(s.executed, KeyOf(j)) {
      more := [];
      StopsAtTheKey(s, t, replies);
    } else {
      more := Look(s, t);
      if j.incident in s.status && s.status[j.incident] !in {MITIGATED, RESOLVED} {
        GetsToTheGrant(s, t, replies);
        StopsAtTheGrant(s, t, replies);
      } else {
        StopsAtTheStatus(s, t, replies);
      }
    }
  }

  lemma {:induction false} SeenAfter(a: seq<Ev>, b: seq<Ev>, t: nat)
    ensures Seen(a + b, t) == Seen(a, t) + Seen(b, t)
  {
    if b == [] {
      assert a + b == a;
    } else {
      assert (a + b)[..|a + b| - 1] == a + b[..|b| - 1];
      SeenAfter(a, b[..|b| - 1], t);
    }
  }

  lemma LoopSeen(s: Sys, t: nat, replies: nat -> Reply, n: nat, tail: seq<Ev>)
    requires t in s.jobs && n <= |ScriptOf(s.jobs[t])| && forall e | e in tail :: !e.Issued?
    ensures var more := LoopEvents(s, t, replies, n) + tail;
            Seen(more, t) == ScriptOf(s.jobs[t])[..n] && Began(t) in more
  {
    hide ScriptOf, Seen;
    var script := ScriptOf(s.jobs[t]);
    SeenUpTo(t, script, replies, n);
    NoneSeen(Look(s, t) + [Began(t)], t);
    NoneSeen(tail, t);
    SeenAfter(Look(s, t) + [Began(t)], IssuedUpTo(t, script, replies, n), t);
    SeenAfter(LoopEvents(s, t, replies, n), tail, t);
    assert LoopEvents(s, t, replies, n)[|Look(s, t)|] == Began(t);
  }

  lemma {:induction false} NoneSeen(more: seq<Ev>, t: nat)
    requires forall e | e in more :: !e.Issued?
    ensures Seen(more, t) == []
  {
    if more != [] { NoneSeen(more[..|more| - 1], t); }
  }

  lemma RunsThrough(s: Sys, t: nat, db: Db, env: Env) returns (executed: map<string, bool>, more: seq<Ev>)
    requires Agree(s, t, db) && Cleared(db, s.jobs[t].incident, s.jobs[t].report)
    ensures Comes(s, t, env.replies, Moved(s, t, Left, s.holder, executed, more))
    ensures SameAsExecute(s, t, db, env, executed, more)
  {
    hide Comes, KeyOf, Done, HasGrant, RunUpTo, RunTrace, Commands, Script, Started, Finished, Seen, AnyMutating, StepEvents, FullKey;
    var j, replies := s.jobs[t], env.replies;
    var actions := j.report.suggestedActions;
    assert KeyOf(j) == FullKey(j.incident, actions) by { KeyIs(j); }
    GetsToTheGrant(s, t, replies);
    GetsToTheLoop(s, t, replies);
    ClearedCallIssues(db, j.incident, j.report, env);
    var p := RunUpTo(j.incident, actions, |actions|, env);
    if p.ok {
      executed, more := Finished(Started(s.executed, KeyOf(j)), KeyOf(j)), LoopEvents(s, t, replies, p.issued) + ([Completed(t)] + [Ended(t)]);
      LoopEnds(s, t, replies);
      assert more == LoopEvents(s, t, replies, p.issued) + [Completed(t)] + [Ended(t)];
      LoopSeen(s, t, replies, p.issued, [Completed(t)] + [Ended(t)]);
    } else {
      executed, more := Started(s.executed, KeyOf(j)), LoopEvents(s, t, replies, p.issued);
      LoopStops(s, t, replies, p.issued - 1);
      LoopSeen(s, t, replies, p.issued, []);
      assert more + [] == more;
    }
  }

  lemma KeyIs(j: Job)
    ensures KeyOf(j) == FullKey(j.incident, j.report.suggestedActions)
  {
  }

  /**
   * A call that gets its lock and takes all its turns without interruption leaves the table of executions, and has
   * issued the commands, that execute leaves and issues; and every lock is as it was.
   */
  lemma AloneIsExecute(s: Sys, t: nat, db: Db, env: Env) returns (executed: map<string, bool>, more: seq<Ev>)
    requires Agree(s, t, db) && s.jobs[t].report.validated
    ensures Comes(s, t, env.replies, Moved(s, t, Left, s.holder, executed, more))
    ensures SameAsExecute(s, t, db, env, executed, more)
  {
    var j := s.jobs[t];
    if Cleared(db, j.incident, j.report) {
      executed, more := RunsThrough(s, t, db, env);
    } else {
      executed := s.executed;
      more := StopsShort(s, t, db, env);
      hide *;
      UnclearedCallIssuesNothing(db, j.incident, j.report, env);
      SameShort(s, t, db, env, more);
    }
  }

  lemma SameShort(s: Sys, t: nat, db: Db, env: Env, more: seq<Ev>)
    requires Agree(s, t, db) && !Cleared(db, s.jobs[t].incident, s.jobs[t].report) && Seen(more, t) == [] && Began(t) !in more
    requires var after := ExecuteSpec(db, s.jobs[t].incident, s.jobs[t].report, env).0;
             db.trace <= after.trace && Commands(after.trace[|db.trace|..]) == [] && after.executed == db.executed
    ensures SameAsExecute(s, t, db, env, s.executed, more)
  {
    hide ExecuteSpec, Cleared, HasGrant;
  }
}
