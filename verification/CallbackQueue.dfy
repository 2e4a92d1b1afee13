// callback.go: dispatch, enqueue and FlushPending, with a flush and incoming callbacks interleaved in any
// way. A callback is named by its place in the order of receipt.

module CallbackQueue {
  import opened Prelude
  import opened Callbacks

  const MAX_PENDING: Capacity := 1000

  type Capacity = n: nat | n > 0 witness 1

  /**
   * acked: the core answered. dispatching: in its first call. pending: r.pending. While a flush runs, queue is
   * what it has yet to send and remaining what failed again.
   */
  datatype State = State(
    received: seq<Request>,
    acked: seq<nat>,
    dropped: seq<nat>,
    pending: seq<nat>,
    dispatching: Option<nat>,
    flushing: bool,
    queue: seq<nat>,
    remaining: seq<nat>)

  const START := State([], [], [], [], None, false, [], [])

  datatype Act =
    | Receive(request: Request)   // dispatch begins
    | Delivered                   // its call succeeds
    | Undelivered                 // its call fails: enqueue
    | FlushBegin
    | Sent                        // the flush's next call succeeds
    | NotSent                     // it fails, or the context is done
    | FlushEnd

  predicate Can(s: State, a: Act) {
    match a
    case Receive(_) => s.dispatching.None?
    case Delivered => s.dispatching.Some?
    case Undelivered => s.dispatching.Some?
    case FlushBegin => !s.flushing
    case Sent => s.flushing && s.queue != []
    case NotSent => s.flushing && s.queue != []
    case FlushEnd => s.flushing && s.queue == []
  }

  function Enqueue(s: State, n: nat, max: Capacity): State {
    var t := if |s.pending| >= max then s.(pending := s.pending[1..], dropped := s.dropped + [s.pending[0]]) else s;
    t.(pending := t.pending + [n])
  }

  function Next(s: State, a: Act, max: Capacity): State
    requires Can(s, a)
  {
    match a
    case Receive(r) => s.(received := s.received + [r], dispatching := Some(|s.received|))
    case Delivered => s.(acked := s.acked + [s.dispatching.value], dispatching := None)
    case Undelivered => Enqueue(s, s.dispatching.value, max).(dispatching := None)
    case FlushBegin => s.(flushing := true, queue := s.pending, pending := [], remaining := [])
    case Sent => s.(acked := s.acked + [s.queue[0]], queue := s.queue[1..])
    case NotSent => s.(remaining := s.remaining + [s.queue[0]], queue := s.queue[1..])
    case FlushEnd => s.(flushing := false, pending := s.remaining + s.pending, remaining := [])
  }

  function Step(s: State, a: Act, max: Capacity): State {
    if Can(s, a) then Next(s, a, max) else s
  }

  function RunFrom(s: State, acts: seq<Act>, max: Capacity): State {
    if acts == [] then s else Step(RunFrom(s, acts[..|acts| - 1], max), acts[|acts| - 1], max)
  }

  function Run(acts: seq<Act>, max: Capacity): State {
    RunFrom(START, acts, max)
  }

  // ---------------------------------------------------------------- conservation and order

  /** Callbacks on their way, the ones that go out first in front. */
  function Line(s: State): seq<nat> {
    s.remaining + s.queue + s.pending + Calling(s)
  }

  ghost predicate Increasing(q: seq<nat>) {
    forall i, j | 0 <= i < j < |q| :: q[i] < q[j]
  }

  function Serials(n: nat): multiset<nat> {
    if n == 0 then multiset{} else Serials(n - 1) + multiset{n - 1}
  }

  lemma {:induction false} EachSerialOnce(n: nat, k: nat)
    ensures Serials(n)[k] == if k < n then 1 else 0
  {
    if n > 0 { EachSerialOnce(n - 1, k); }
  }

  ghost predicate Conserved(acked: seq<nat>, dropped: seq<nat>, line: seq<nat>, n: nat) {
    multiset(acked) + multiset(dropped) + multiset(line) == Serials(n)
  }

  ghost predicate InOrder(line: seq<nat>, n: nat) {
    Increasing(line) && forall i | 0 <= i < |line| :: line[i] < n
  }

  ghost predicate Inv(s: State) {
    && Conserved(s.acked, s.dropped, Line(s), |s.received|)
    && InOrder(Line(s), |s.received|)
    && (!s.flushing ==> s.queue == [] && s.remaining == [])
  }

  lemma LeaveLine(acked: seq<nat>, dropped: seq<nat>, a: seq<nat>, x: nat, b: seq<nat>, n: nat)
    requires Conserved(acked, dropped, a + [x] + b, n)
    ensures Conserved(acked + [x], dropped, a + b, n) && Conserved(acked, dropped + [x], a + b, n)
  {
    assert multiset(a + [x] + b) == multiset(a) + multiset{x} + multiset(b);
    assert multiset(a + b) == multiset(a) + multiset(b);
    assert multiset(acked + [x]) == multiset(acked) + multiset{x};
    assert multiset(dropped + [x]) == multiset(dropped) + multiset{x};
  }

  lemma LineCloses(a: seq<nat>, x: nat, b: seq<nat>, n: nat)
    requires InOrder(a + [x] + b, n)
    ensures InOrder(a + b, n)
  {
    var s := a + [x] + b;
    forall i | 0 <= i < |a + b| ensures (a + b)[i] == s[if i < |a| then i else i + 1] {
    }
  }

  lemma JoinLine(acked: seq<nat>, dropped: seq<nat>, line: seq<nat>, n: nat)
    requires Conserved(acked, dropped, line, n) && InOrder(line, n)
    ensures Conserved(acked, dropped, line + [n], n + 1) && InOrder(line + [n], n + 1)
  {
    assert multiset(line + [n]) == multiset(line) + multiset{n};
  }

  function Calling(s: State): seq<nat> {
    match s.dispatching
    case None => []
    case Some(n) => [n]
  }

  /** A callback that leaves the line for acked or dropped. */
  lemma LeaveKeeps(s: State, t: State, a: seq<nat>, x: nat, b: seq<nat>)
    requires Inv(s) && Line(s) == a + [x] + b && Line(t) == a + b && t.received == s.received
    requires (t.acked == s.acked + [x] && t.dropped == s.dropped) || (t.acked == s.acked && t.dropped == s.dropped + [x])
    requires !t.flushing ==> t.queue == [] && t.remaining == []
    ensures Inv(t)
  {
    LeaveLine(s.acked, s.dropped, a, x, b, |s.received|);
    LineCloses(a, x, b, |s.received|);
  }

  lemma ReceiveKeeps(s: State, r: Request, max: Capacity)
    requires Inv(s) && s.dispatching.None?
    ensures Inv(Next(s, Receive(r), max))
  {
    hide Conserved, InOrder;
    assert Line(Next(s, Receive(r), max)) == Line(s) + [|s.received|];
    JoinLine(s.acked, s.dropped, Line(s), |s.received|);
  }

  lemma DeliveredKeeps(s: State, max: Capacity)
    requires Inv(s) && s.dispatching.Some?
    ensures Inv(Next(s, Delivered, max))
  {
    hide Conserved, InOrder;
    var t, n := Next(s, Delivered, max), s.dispatching.value;
    assert Line(s) == Line(t) + [n] + [];
    LeaveKeeps(s, t, Line(t), n, []);
  }

  lemma UndeliveredKeeps(s: State, max: Capacity)
    requires Inv(s) && s.dispatching.Some?
    ensures Inv(Next(s, Undelivered, max))
  {
    hide Conserved, InOrder;
    var t := Next(s, Undelivered, max);
    if |s.pending| >= max {
      var before, after := s.remaining + s.queue, s.pending[1..] + [s.dispatching.value];
      assert s.pending == [s.pending[0]] + s.pending[1..];
      Regroup(before, s.pending[0], s.pending[1..], [s.dispatching.value]);
      assert Line(t) == before + after;
      LeaveKeeps(s, t, before, s.pending[0], after);
    } else {
      assert Line(t) == Line(s);
    }
  }

  lemma Regroup(a: seq<nat>, x: nat, b: seq<nat>, c: seq<nat>)
    ensures a + ([x] + b) + c == a + [x] + (b + c)
  {
  }

  /** Beginning or ending a flush, or failing to send, moves callbacks within the line. */
  lemma FlushMovesWithin(s: State, a: Act, max: Capacity)
    requires Can(s, a) && (a.FlushBegin? || a.FlushEnd? || a.NotSent?)
    requires !s.flushing ==> s.queue == [] && s.remaining == []
    ensures Line(Next(s, a, max)) == Line(s)
  {
    var t := Next(s, a, max);
    match a
    case FlushBegin => assert t.remaining + t.queue + t.pending == s.remaining + s.queue + s.pending;
    case FlushEnd => assert t.remaining + t.queue + t.pending == s.remaining + s.queue + s.pending;
    case NotSent =>
      assert s.queue == [s.queue[0]] + s.queue[1..];
      assert t.remaining + t.queue == s.remaining + s.queue;
  }

  lemma SameLine(s: State, t: State)
    requires Inv(s) && Line(t) == Line(s) && t.acked == s.acked && t.dropped == s.dropped && t.received == s.received
    requires !t.flushing ==> t.queue == [] && t.remaining == []
    ensures Inv(t)
  {
    hide Conserved, InOrder, Line;
  }

  lemma FlushKeeps(s: State, a: Act, max: Capacity)
    requires Inv(s) && Can(s, a) && (a.FlushBegin? || a.FlushEnd? || a.NotSent?)
    ensures Inv(Next(s, a, max))
  {
    hide Conserved, InOrder, Line;
    FlushMovesWithin(s, a, max);
    SameLine(s, Next(s, a, max));
  }

  lemma SentKeeps(s: State, max: Capacity)
    requires Inv(s) && Can(s, Sent)
    ensures Inv(Next(s, Sent, max))
  {
    hide Conserved, InOrder;
    var t, n := Next(s, Sent, max), s.queue[0];
    var after := s.queue[1..] + (s.pending + Calling(s));
    assert s.queue == [n] + s.queue[1..];
    Regroup(s.remaining, n, s.queue[1..], s.pending + Calling(s));
    assert Line(s) == s.remaining + s.queue + (s.pending + Calling(s));
    assert Line(t) == s.remaining + after;
    LeaveKeeps(s, t, s.remaining, n, after);
  }

  lemma NextKeeps(s: State, a: Act, max: Capacity)
    requires Inv(s) && Can(s, a)
    ensures Inv(Next(s, a, max))
  {
    hide Inv, Next;
    match a
    case Receive(r) => ReceiveKeeps(s, r, max);
    case Delivered => DeliveredKeeps(s, max);
    case Undelivered => UndeliveredKeeps(s, max);
    case FlushBegin => FlushKeeps(s, a, max);
    case Sent => SentKeeps(s, max);
    case NotSent => FlushKeeps(s, a, max);
    case FlushEnd => FlushKeeps(s, a, max);
  }

  lemma {:induction false} RunKeeps(s: State, acts: seq<Act>, max: Capacity)
    requires Inv(s)
    ensures Inv(RunFrom(s, acts, max))
  {
    hide Inv, Next, Can;
    if acts != [] {
      RunKeeps(s, acts[..|acts| - 1], max);
      var t := RunFrom(s, acts[..|acts| - 1], max);
      if Can(t, acts[|acts| - 1]) { NextKeeps(t, acts[|acts| - 1], max); }
    }
  }

  /**
   * At every moment of every interleaving each received callback is exactly one of acknowledged, dropped,
   * pending, held by the flush, or in its first call; and the pending ones are in order of receipt.
   */
  lemma CallbacksAreConserved(acts: seq<Act>, max: Capacity, n: nat)
    requires n < |Run(acts, max).received|
    ensures var s := Run(acts, max);
            && multiset(s.acked)[n] + multiset(s.dropped)[n] + multiset(s.pending)[n]
               + multiset(s.queue)[n] + multiset(s.remaining)[n]
               + (if s.dispatching == Some(n) then 1 else 0) == 1
            && Increasing(s.pending)
  {
    RunKeeps(START, acts, max);
    var s := Run(acts, max);
    hide *;
    EachSerialOnce(|s.received|, n);
    LineParts(s, n);
    WholeIsOne(s, n);
    PendingOrder(s);
  }

  lemma LineParts(s: State, n: nat)
    ensures multiset(Line(s))[n]
         == multiset(s.remaining)[n] + multiset(s.queue)[n] + multiset(s.pending)[n] + (if s.dispatching == Some(n) then 1 else 0)
  {
    assert multiset(Line(s)) == multiset(s.remaining) + multiset(s.queue) + multiset(s.pending) + multiset(Calling(s));
  }

  lemma WholeIsOne(s: State, n: nat)
    requires Inv(s) && Serials(|s.received|)[n] == 1
    ensures multiset(s.acked)[n] + multiset(s.dropped)[n] + multiset(Line(s))[n] == 1
  {
    hide Line;
    assert (multiset(s.acked) + multiset(s.dropped) + multiset(Line(s)))[n] == 1;
  }

  /** Pending callbacks are in order, and all older than the one in its first call. */
  lemma PendingOrder(s: State)
    requires Inv(s)
    ensures Increasing(s.pending + Calling(s)) && Increasing(s.pending)
  {
    var tail := s.pending + Calling(s);
    assert Line(s) == (s.remaining + s.queue) + tail;
    hide Line, Calling, Conserved;
    SuffixIncreasing(s.remaining + s.queue, tail);
    PrefixIncreasing(s.pending, Calling(s));
  }

  lemma SuffixIncreasing(a: seq<nat>, b: seq<nat>)
    requires Increasing(a + b)
    ensures Increasing(b)
  {
    forall i, j | 0 <= i < j < |b| ensures b[i] < b[j] {
      assert (a + b)[|a| + i] == b[i] && (a + b)[|a| + j] == b[j];
    }
  }

  lemma PrefixIncreasing(a: seq<nat>, b: seq<nat>)
    requires Increasing(a + b)
    ensures Increasing(a)
  {
    forall i, j | 0 <= i < j < |a| ensures a[i] < a[j] {
      assert (a + b)[i] == a[i] && (a + b)[j] == a[j];
    }
  }

  /** What is dropped is the oldest of a full queue, to make room for a newer callback. */
  lemma OnlyTheOldestIsDropped(acts: seq<Act>, max: Capacity, a: Act)
    requires Can(Run(acts, max), a)
    ensures var s, t := Run(acts, max), Next(Run(acts, max), a, max);
            t.dropped != s.dropped ==>
              && |s.pending| >= max && t.dropped == s.dropped + [s.pending[0]]
              && s.dispatching.Some? && t.pending == s.pending[1..] + [s.dispatching.value]
              && (forall i | 0 <= i < |t.pending| :: s.pending[0] < t.pending[i])
  {
    RunKeeps(START, acts, max);
    hide Run, RunFrom, Inv;
    if a.Undelivered? && |Run(acts, max).pending| >= max {
      FirstIsOldest(Run(acts, max));
    }
  }

  lemma FirstIsOldest(s: State)
    requires Inv(s) && s.pending != []
    ensures forall i | 0 <= i < |s.pending[1..] + Calling(s)| :: s.pending[0] < (s.pending[1..] + Calling(s))[i]
  {
    PendingOrder(s);
    hide Inv, Calling;
    var tail, left := s.pending + Calling(s), s.pending[1..] + Calling(s);
    forall i | 0 <= i < |left| ensures s.pending[0] < left[i] {
      assert left[i] == tail[i + 1] && tail[0] == s.pending[0];
    }
  }

  // ---------------------------------------------------------------- the bound on pending

  /** Nothing is queued while a flush runs, as when Run alternates FetchOnce and FlushPending. */
  ghost predicate NoneQueuedInFlush(acts: seq<Act>, max: Capacity) {
    forall i | 0 <= i < |acts| && Run(acts[..i], max).flushing :: !acts[i].Undelivered?
  }

  lemma {:induction false} PendingIsBounded(acts: seq<Act>, max: Capacity)
    requires NoneQueuedInFlush(acts, max)
    ensures var s := Run(acts, max);
            |s.pending| + |s.queue| + |s.remaining| <= max && (s.flushing ==> s.pending == [])
    ensures !Run(acts, max).flushing ==> Run(acts, max).queue == [] && Run(acts, max).remaining == []
  {
    if acts != [] {
      var front, a := acts[..|acts| - 1], acts[|acts| - 1];
      forall i | 0 <= i < |front| && Run(front[..i], max).flushing ensures !front[i].Undelivered? {
        assert front[..i] == acts[..i];
      }
      PendingIsBounded(front, max);
      assert acts[..|front|] == front;
    }
  }

  lemma RunFromSnoc(s: State, acts: seq<Act>, a: Act, max: Capacity)
    ensures RunFrom(s, acts + [a], max) == Step(RunFrom(s, acts, max), a, max)
  {
    assert (acts + [a])[..|acts|] == acts;
  }

  function Fails(n: nat): seq<Act> {
    if n == 0 then [] else Fails(n - 1) + [NotSent]
  }

  lemma {:induction false} FailsMoveAll(s: State, n: nat, max: Capacity)
    requires s.flushing && n <= |s.queue|
    ensures RunFrom(s, Fails(n), max) == s.(queue := s.queue[n..], remaining := s.remaining + s.queue[..n])
  {
    if n == 0 {
      assert s.queue[0..] == s.queue && s.remaining + s.queue[..0] == s.remaining;
    } else {
      FailsMoveAll(s, n - 1, max);
      RunFromSnoc(s, Fails(n - 1), NotSent, max);
      TakeOneMore(s.queue, s.remaining, n - 1);
      hide RunFrom;
    }
  }

  lemma TakeOneMore(queue: seq<nat>, remaining: seq<nat>, n: nat)
    requires n < |queue|
    ensures queue[n..][0] == queue[n] && queue[n..][1..] == queue[n + 1..]
    ensures remaining + queue[..n] + [queue[n]] == remaining + queue[..n + 1]
  {
  }

  lemma {:induction false} RunConcat(s: State, a: seq<Act>, b: seq<Act>, max: Capacity)
    ensures RunFrom(s, a + b, max) == RunFrom(RunFrom(s, a, max), b, max)
  {
    if b == [] {
      assert a + b == a;
    } else {
      assert (a + b)[..|a + b| - 1] == a + b[..|b| - 1];
      RunConcat(s, a, b[..|b| - 1], max);
    }
  }

  predicate Quiet(s: State) {
    !s.flushing && s.dispatching.None? && s.queue == [] && s.remaining == []
  }

  function GrowthSpurt(n: nat, r: Request): seq<Act> {
    [FlushBegin, Receive(r), Undelivered] + Fails(n) + [FlushEnd]
  }

  lemma FailingFlushGrows(s: State, r: Request, max: Capacity)
    requires Quiet(s)
    ensures var t := RunFrom(s, GrowthSpurt(|s.pending|, r), max);
            Quiet(t) && t.pending == s.pending + [|s.received|]
  {
    var n := |s.pending|;
    var s1 := Step(s, FlushBegin, max);
    var s2 := Step(s1, Receive(r), max);
    var s3 := Step(s2, Undelivered, max);
    assert s3.pending == [|s.received|];
    RunFromSnoc(s, [], FlushBegin, max);
    RunFromSnoc(s, [FlushBegin], Receive(r), max);
    RunFromSnoc(s, [FlushBegin, Receive(r)], Undelivered, max);
    assert [FlushBegin] + [Receive(r)] == [FlushBegin, Receive(r)];
    assert [FlushBegin, Receive(r)] + [Undelivered] == [FlushBegin, Receive(r), Undelivered];
    hide RunFrom;
    RunConcat(s, [FlushBegin, Receive(r), Undelivered], Fails(n), max);
    FailsMoveAll(s3, n, max);
    assert s.pending[n..] == [] && s.pending[..n] == s.pending;
    RunFromSnoc(s, [FlushBegin, Receive(r), Undelivered] + Fails(n), FlushEnd, max);
  }

  /** When callbacks do arrive while a flush runs, pending can grow to any length, however small the capacity. */
  lemma {:induction false} PendingCanOutgrowTheBound(k: nat, r: Request, max: Capacity) returns (acts: seq<Act>)
    ensures Quiet(Run(acts, max)) && |Run(acts, max).pending| == k
  {
    if k == 0 {
      acts := [];
    } else {
      var before := PendingCanOutgrowTheBound(k - 1, r, max);
      hide RunFrom, GrowthSpurt;
      FailingFlushGrows(Run(before, max), r, max);
      RunConcat(START, before, GrowthSpurt(k - 1, r), max);
      acts := before + GrowthSpurt(k - 1, r);
    }
  }
}
