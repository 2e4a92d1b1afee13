// callback.go's Router, with FetchOnce and FlushPending as Run calls them: one after the other.

module Router {
  import opened Prelude
  import opened Callbacks
  import opened CallbackQueue

  /** A Telegram update; those without a callback query only move the offset. */
  datatype Update = Update(id: int, query: Option<Query>)

  datatype Query = Query(id: string, user: string, data: string)

  ghost predicate Reads(q: Query, r: Request) {
    && r.callbackId == q.id && r.user == q.user && KindOf(q.data, r.kind)
    && r.reason == After(':', q.data) && r.requestId == UpTo(':', After(':', q.data))
  }

  /** What a fetch amounts to in module CallbackQueue: one call for each callback, in order. */
  function FetchActs(requests: seq<Request>, answered: seq<bool>): seq<Act>
    requires |requests| <= |answered|
  {
    if requests == [] then []
    else
      var n := |requests| - 1;
      FetchActs(requests[..n], answered) + [Receive(requests[n]), if answered[n] then Delivered else Undelivered]
  }

  /** What a flush amounts to: one call, or none once the context is done, for each callback it took. */
  function FlushActs(answered: seq<bool>): seq<Act> {
    [FlushBegin] + SendActs(answered) + [FlushEnd]
  }

  function SendActs(answered: seq<bool>): seq<Act> {
    if answered == [] then []
    else SendActs(answered[..|answered| - 1]) + [if answered[|answered| - 1] then Sent else NotSent]
  }

  class Router {
    var offset: int
    var received: seq<Request>   // every request made so far; pending holds places in it
    var pending: seq<nat>
    const maxPending: Capacity
    ghost var acked: seq<nat>
    ghost var dropped: seq<nat>

    constructor ()
      ensures View() == START && offset == 0 && maxPending == MAX_PENDING
    {
      offset, received, pending, maxPending, acked, dropped := 0, [], [], MAX_PENDING, [], [];
    }

    ghost function View(): State reads this {
      State(received, acked, dropped, pending, None, false, [], [])
    }

    method Enqueue(n: nat)
      modifies this`pending, this`dropped
      ensures View() == CallbackQueue.Enqueue(old(View()), n, maxPending)
    {
      if |pending| >= maxPending {
        dropped := dropped + [pending[0]];
        pending := pending[1..];
      }
      pending := pending + [n];
    }

    /** answered: whether the core answers the call */
    method Dispatch(request: Request, answered: bool)
      modifies this`received, this`pending, this`acked, this`dropped
      ensures var s := Step(old(View()), Receive(request), maxPending);
              View() == Step(s, if answered then Delivered else Undelivered, maxPending)
    {
      var n := |received|;
      received := received + [request];
      if answered {
        acked := acked + [n];
      } else {
        Enqueue(n);
      }
    }

    method RequestOf(q: Query) returns (r: Request)
      ensures Reads(q, r)
    {
      var kind := ParseKind(q.data);
      var reason := ParseReason(q.data);
      var requestId := ParseRequestId(q.data);
      return Request(q.id, kind, reason, requestId, q.user);
    }

    /** Every callback among the updates is sent to the core once, or queued; the offset moves past the last update. */
    method FetchOnce(updates: seq<Update>, answered: seq<bool>) returns (ghost requests: seq<Request>, ghost queries: seq<Query>)
      requires |answered| >= |updates|
      modifies this
      ensures offset == if updates == [] then old(offset) else updates[|updates| - 1].id + 1
      ensures queries == Queries(updates) && |requests| == |queries| <= |updates|
      ensures forall i | 0 <= i < |requests| :: Reads(queries[i], requests[i])
      ensures View() == RunFrom(old(View()), FetchActs(requests, answered), maxPending)
      ensures old(|pending|) <= maxPending ==> |pending| <= maxPending
    {
      hide RunFrom, FetchActs, Step, Reads, Queries;
      FetchNothing(View(), answered, maxPending);
      requests, queries := [], [];
      var calls := 0;
      for i := 0 to |updates|
        invariant offset == if i == 0 then old(offset) else updates[i - 1].id + 1
        invariant queries == Queries(updates[..i]) && calls == |requests| == |queries| <= i
        invariant forall k | 0 <= k < |requests| :: Reads(queries[k], requests[k])
        invariant View() == RunFrom(old(View()), FetchActs(requests, answered), maxPending)
      {
        var u := updates[i];
        QueriesSnoc(updates, i);
        offset := u.id + 1;
        if u.query.Some? {
          var q := u.query.value;
          var request := RequestOf(q);
          FetchOneMore(old(View()), requests, request, answered, maxPending);
          Dispatch(request, answered[calls]);
          calls, requests, queries := calls + 1, requests + [request], queries + [q];
        }
      }
      assert updates[..|updates|] == updates;
      FetchStaysBounded(old(View()), requests, answered, maxPending);
    }

    /** answered: for each callback taken, whether it is sent and the core answers */
    method FlushPending(answered: seq<bool>) returns (n: nat)
      requires |answered| == |pending|
      modifies this`pending, this`acked
      ensures View() == RunFrom(old(View()), FlushActs(answered), maxPending)
      ensures n == |pending| <= old(|pending|)
    {
      var remaining, queue := [], pending;
      pending := [];
      ghost var s := Step(old(View()), FlushBegin, maxPending);
      for i := 0 to |queue|
        invariant |remaining| <= i && pending == [] && offset == old(offset)
        invariant received == old(received) && dropped == old(dropped)
        invariant RunFrom(s, SendActs(answered[..i]), maxPending)
               == State(received, acked, dropped, [], None, true, queue[i..], remaining)
      {
        SendOneMore(s, answered, i, maxPending);
        SendIs(View().(pending := [], flushing := true, queue := queue[i..], remaining := remaining), answered[i], maxPending);
        assert queue[i..][1..] == queue[i + 1..];
        hide RunFrom, SendActs, Step;
        if answered[i] {
          acked := acked + [queue[i]];
        } else {
          remaining := remaining + [queue[i]];
        }
      }
      assert answered[..|queue|] == answered;
      FlushInThree(old(View()), answered, maxPending);
      hide RunFrom;
      pending := remaining + pending;
      return |pending|;
    }
  }

  function Queries(updates: seq<Update>): seq<Query> {
    if updates == [] then []
    else
      var last := updates[|updates| - 1].query;
      Queries(updates[..|updates| - 1]) + if last.Some? then [last.value] else []
  }

  // ---------------------------------------------------------------- what a fetch and a flush leave

  /** The callbacks of q whose calls went this way, in order. */
  function Picked(q: seq<nat>, answered: seq<bool>, way: bool): seq<nat>
    requires |q| <= |answered|
  {
    if q == [] then []
    else
      var n := |q| - 1;
      Picked(q[..n], answered, way) + if answered[n] == way then [q[n]] else []
  }

  /** The places of the next n callbacks to be received. */
  function Next(received: seq<Request>, n: nat): seq<nat> {
    seq(n, i requires 0 <= i < n => |received| + i)
  }

  lemma PickedSnoc(q: seq<nat>, x: nat, answered: seq<bool>, way: bool)
    requires |q| < |answered|
    ensures Picked(q + [x], answered, way) == Picked(q, answered, way) + if answered[|q|] == way then [x] else []
  {
    assert (q + [x])[..|q|] == q;
  }

  /** As much as fits, the newest of it; and what is in its way. */
  predicate Fits(whole: seq<nat>, pending: seq<nat>, lost: seq<nat>, max: Capacity) {
    whole == lost + pending && |pending| <= max && (lost != [] ==> |pending| == max)
  }

  /** Queueing one more keeps the newest. */
  lemma EnqueueFits(s: State, n: nat, max: Capacity, whole: seq<nat>, lost: seq<nat>)
    requires Fits(whole, s.pending, lost, max)
    ensures var t := CallbackQueue.Enqueue(s, n, max);
            && (t.dropped == s.dropped || (s.pending != [] && t.dropped == s.dropped + [s.pending[0]]))
            && Fits(whole + [n], t.pending, if t.dropped == s.dropped then lost else lost + [s.pending[0]], max)
  {
    if |s.pending| >= max {
      assert s.pending == [s.pending[0]] + s.pending[1..];
      assert lost + [s.pending[0]] + (s.pending[1..] + [n]) == whole + [n];
    }
  }

  /** What a fetch leaves: the state t, and what it dropped. */
  ghost predicate Fetched(s: State, requests: seq<Request>, answered: seq<bool>, max: Capacity, t: State, lost: seq<nat>)
    requires |requests| <= |answered|
  {
    var calls := Next(s.received, |requests|);
    && t.received == s.received + requests && t.acked == s.acked + Picked(calls, answered, true)
    && t.dropped == s.dropped + lost && Fits(s.pending + Picked(calls, answered, false), t.pending, lost, max)
    && !t.flushing && t.dispatching == None && t.queue == s.queue && t.remaining == s.remaining
  }

  lemma OneMoreFetched(s: State, requests: seq<Request>, r: Request, answered: seq<bool>, max: Capacity, t: State, lost: seq<nat>)
    returns (more: seq<nat>)
    requires |requests| < |answered| && Fetched(s, requests, answered, max, t, lost)
    ensures Fetched(s, requests + [r], answered, max,
                    Step(Step(t, Receive(r), max), if answered[|requests|] then Delivered else Undelivered, max), more)
  {
    var n := |requests|;
    var calls := Next(s.received, n);
    assert Next(s.received, n + 1) == calls + [|t.received|];
    PickedSnoc(calls, |t.received|, answered, true);
    PickedSnoc(calls, |t.received|, answered, false);
    var t1 := Step(t, Receive(r), max);
    more := lost;
    if !answered[n] {
      EnqueueFits(t1, |t.received|, max, s.pending + Picked(calls, answered, false), lost);
      var u := CallbackQueue.Enqueue(t1, |t.received|, max);
      if u.dropped != t1.dropped { more := lost + [t1.pending[0]]; }
      assert s.pending + Picked(calls, answered, false) + [|t.received|]
          == s.pending + Picked(calls + [|t.received|], answered, false);
    }
  }

  /**
   * A fetch acknowledges exactly the callbacks that the core answered, and queues the others behind what was
   * pending; where they do not all fit, the oldest are dropped.
   */
  lemma {:induction false} FetchSorts(s: State, requests: seq<Request>, answered: seq<bool>, max: Capacity) returns (lost: seq<nat>)
    requires !s.flushing && s.dispatching == None && |requests| <= |answered| && |s.pending| <= max
    ensures Fetched(s, requests, answered, max, RunFrom(s, FetchActs(requests, answered), max), lost)
  {
    if requests == [] {
      lost := [];
      FetchNothing(s, answered, max);
      assert s.pending + Picked([], answered, false) == [] + s.pending;
    } else {
      var n := |requests| - 1;
      var before := FetchSorts(s, requests[..n], answered, max);
      hide RunFrom, Fetched;
      FetchOneMore(s, requests[..n], requests[n], answered, max);
      assert requests[..n] + [requests[n]] == requests;
      lost := OneMoreFetched(s, requests[..n], requests[n], answered, max,
                             RunFrom(s, FetchActs(requests[..n], answered), max), before);
    }
  }

  /** The flush once i of its calls are made. */
  function SentUpTo(s: State, answered: seq<bool>, i: nat): State
    requires i <= |answered| == |s.queue|
  {
    s.(acked := s.acked + Picked(s.queue[..i], answered, true), queue := s.queue[i..],
       remaining := s.remaining + Picked(s.queue[..i], answered, false))
  }

  lemma OneMoreSent(s: State, answered: seq<bool>, i: nat, max: Capacity)
    requires s.flushing && i < |answered| == |s.queue|
    ensures Step(SentUpTo(s, answered, i), if answered[i] then Sent else NotSent, max) == SentUpTo(s, answered, i + 1)
  {
    hide Picked;
    var t := SentUpTo(s, answered, i);
    TakeSnoc(s.queue, i);
    PickedSnoc(s.queue[..i], s.queue[i], answered, true);
    PickedSnoc(s.queue[..i], s.queue[i], answered, false);
    assert t.queue[0] == s.queue[i] && t.queue[1..] == s.queue[i + 1..];
    var p := if answered[i] then s.acked + Picked(s.queue[..i], answered, true) + [s.queue[i]]
             else s.remaining + Picked(s.queue[..i], answered, false) + [s.queue[i]];
    assert p == if answered[i] then s.acked + Picked(s.queue[..i + 1], answered, true)
                else s.remaining + Picked(s.queue[..i + 1], answered, false);
  }

  lemma {:induction false} SendsSort(s: State, answered: seq<bool>, i: nat, max: Capacity)
    requires s.flushing && i <= |answered| == |s.queue|
    ensures RunFrom(s, SendActs(answered[..i]), max) == SentUpTo(s, answered, i)
  {
    if i == 0 {
      assert answered[..0] == [] && s.queue[..0] == [] && s.queue[0..] == s.queue;
    } else {
      hide RunFrom, SendActs, SentUpTo, Step;
      SendsSort(s, answered, i - 1, max);
      SendOneMore(s, answered, i - 1, max);
      OneMoreSent(s, answered, i - 1, max);
    }
  }

  /** A flush acknowledges exactly the callbacks that the core answers, and leaves the others as they were, in order. */
  lemma FlushSorts(s: State, answered: seq<bool>, max: Capacity)
    requires !s.flushing && |answered| == |s.pending|
    ensures RunFrom(s, FlushActs(answered), max)
         == s.(acked := s.acked + Picked(s.pending, answered, true), pending := Picked(s.pending, answered, false),
               queue := [], remaining := [])
  {
    FlushInThree(s, answered, max);
    hide RunFrom;
    var s1 := Step(s, FlushBegin, max);
    SendsSort(s1, answered, |answered|, max);
    assert answered[..|answered|] == answered && s.pending[..|s.pending|] == s.pending && s.pending[|s.pending|..] == [];
  }

  /** A fetch never takes pending over its capacity. */
  lemma {:induction false} FetchStaysBounded(s: State, requests: seq<Request>, answered: seq<bool>, max: Capacity)
    requires !s.flushing && s.dispatching == None && |requests| <= |answered|
    ensures var t := RunFrom(s, FetchActs(requests, answered), max);
            !t.flushing && t.dispatching == None && (|s.pending| <= max ==> |t.pending| <= max)
  {
    if requests != [] {
      var n := |requests| - 1;
      FetchStaysBounded(s, requests[..n], answered, max);
      hide RunFrom;
      FetchOneMore(s, requests[..n], requests[n], answered, max);
      assert requests[..n] + [requests[n]] == requests;
    }
  }

  lemma QueriesSnoc(updates: seq<Update>, i: nat)
    requires i < |updates|
    ensures Queries(updates[..i + 1])
         == Queries(updates[..i]) + if updates[i].query.Some? then [updates[i].query.value] else []
  {
    assert updates[..i + 1][..i] == updates[..i];
  }

  lemma FetchNothing(s: State, answered: seq<bool>, max: Capacity)
    ensures RunFrom(s, FetchActs([], answered), max) == s && Queries([]) == []
  {
  }

  lemma FetchOneMore(s: State, requests: seq<Request>, r: Request, answered: seq<bool>, max: Capacity)
    requires |requests| < |answered|
    ensures RunFrom(s, FetchActs(requests + [r], answered), max)
         == Step(Step(RunFrom(s, FetchActs(requests, answered), max), Receive(r), max),
                 if answered[|requests|] then Delivered else Undelivered, max)
  {
    assert (requests + [r])[..|requests|] == requests;
    var acts, last := FetchActs(requests, answered), if answered[|requests|] then Delivered else Undelivered;
    assert acts + [Receive(r), last] == acts + [Receive(r)] + [last];
    RunFromSnoc(s, acts + [Receive(r)], last, max);
    RunFromSnoc(s, acts, Receive(r), max);
  }

  lemma SendOneMore(s: State, answered: seq<bool>, i: nat, max: Capacity)
    requires i < |answered|
    ensures RunFrom(s, SendActs(answered[..i + 1]), max)
         == Step(RunFrom(s, SendActs(answered[..i]), max), if answered[i] then Sent else NotSent, max)
  {
    assert answered[..i + 1][..i] == answered[..i];
    RunFromSnoc(s, SendActs(answered[..i]), if answered[i] then Sent else NotSent, max);
  }

  /** One send, answered or not. */
  lemma SendIs(s: State, answered: bool, max: Capacity)
    requires s.flushing && s.queue != []
    ensures Step(s, if answered then Sent else NotSent, max) ==
            if answered then s.(acked := s.acked + [s.queue[0]], queue := s.queue[1..])
            else s.(remaining := s.remaining + [s.queue[0]], queue := s.queue[1..])
  {
  }

  lemma FlushInThree(s: State, answered: seq<bool>, max: Capacity)
    ensures RunFrom(s, FlushActs(answered), max)
         == Step(RunFrom(Step(s, FlushBegin, max), SendActs(answered), max), FlushEnd, max)
  {
    RunFromSnoc(s, [FlushBegin] + SendActs(answered), FlushEnd, max);
    RunConcat(s, [FlushBegin], SendActs(answered), max);
    RunFromSnoc(s, [], FlushBegin, max);
  }
}
