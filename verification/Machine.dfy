// incident/machine.py: the incident status machine.

module Machine {
  import opened Prelude
  import opened Database

  const TRANSITIONS: map<string, set<string>> :=
    map[OPEN := {INVESTIGATING}, INVESTIGATING := {MITIGATED, INVESTIGATING}, MITIGATED := {RESOLVED}]

  predicate CanTransition(current: string, target: string) {
    current in TRANSITIONS && target in TRANSITIONS[current]
  }

  function TransitionSpec(db: Db, incident: string, target: string): (Db, bool) {
    if incident !in db.incidents then (db, false)
    else
      var current := db.incidents[incident];
      if CanTransition(current, target) then
        (After(db, incident, StatusChanged(current, target)).(incidents := db.incidents[incident := target]), true)
      else (After(db, incident, IllegalTransition(current, target)), false)
  }

  method Transition(store: Store, incident: string, target: string) returns (moved: bool)
    requires store.Valid()
    modifies store
    ensures store.Valid() && (store.View(), moved) == TransitionSpec(old(store.View()), incident, target)
  {
    if incident !in store.incidents {
      return false;
    }
    var current := store.incidents[incident];
    if !CanTransition(current, target) {
      var _ := store.Append(incident, IllegalTransition(current, target));
      return false;
    }
    store.UpdateStatus(incident, target);
    var _ := store.Append(incident, StatusChanged(current, target));
    return true;
  }

  // ---------------------------------------------------------------- replaying a history

  /**
   * The status an incident must have after one more event. None: the history is not one that the
   * machine and the executor can write (a `from` that is not the current status, a move outside the
   * table, or an execution that starts after mitigation).
   */
  function ReplayOne(status: Option<string>, incident: string, o: Obs): Option<string> {
    if status == None || !o.Logged? || o.incident != incident then status
    else if o.event.StatusChanged? then
      if o.event.source == status.value && CanTransition(o.event.source, o.event.target) then Some(o.event.target) else None
    else if o.event.ExecutionStarted? && status.value in {MITIGATED, RESOLVED} then None
    else status
  }

  function Replay(trace: seq<Obs>, incident: string): Option<string> {
    if trace == [] then Some(OPEN)
    else ReplayOne(Replay(trace[..|trace| - 1], incident), incident, trace[|trace| - 1])
  }

  lemma ReplaySnoc(trace: seq<Obs>, o: Obs, incident: string)
    ensures Replay(trace + [o], incident) == ReplayOne(Replay(trace, incident), incident, o)
  {
    assert (trace + [o])[..|trace|] == trace;
  }

  lemma {:induction false} ReplayPrefix(trace: seq<Obs>, incident: string, k: nat)
    requires k <= |trace| && Replay(trace, incident).Some?
    ensures Replay(trace[..k], incident).Some?
    decreases |trace|
  {
    if k < |trace| {
      assert trace[..|trace| - 1][..k] == trace[..k];
      ReplayPrefix(trace[..|trace| - 1], incident, k);
    } else {
      assert trace[..k] == trace;
    }
  }

  /** Statuses never come back: mitigated leads only to resolved, resolved to nothing. */
  lemma {:induction false} SettledStays(trace: seq<Obs>, incident: string, k: nat)
    requires k <= |trace| && Replay(trace, incident).Some?
    requires Replay(trace[..k], incident).Some? && Replay(trace[..k], incident).value in {MITIGATED, RESOLVED}
    ensures Replay(trace, incident).value in {MITIGATED, RESOLVED}
    decreases |trace|
  {
    if k < |trace| {
      assert trace[..|trace| - 1][..k] == trace[..k];
      ReplayPrefix(trace, incident, |trace| - 1);
      SettledStays(trace[..|trace| - 1], incident, k);
    } else {
      assert trace[..k] == trace;
    }
  }

  predicate MovesTo(o: Obs, incident: string, targets: set<string>) {
    o.Logged? && o.incident == incident && o.event.StatusChanged? && o.event.target in targets
  }

  predicate Starts(o: Obs, incident: string) {
    o.Logged? && o.incident == incident && o.event.ExecutionStarted?
  }

  predicate MovesOrStarts(o: Obs, incident: string) {
    o.Logged? && o.incident == incident && (o.event.StatusChanged? || o.event.ExecutionStarted?)
  }

  lemma PrefixReplays(trace: seq<Obs>, incident: string, j: nat)
    requires j < |trace| && Replay(trace, incident).Some?
    ensures Replay(trace[..j], incident).Some? && Replay(trace[..j + 1], incident).Some?
    ensures Replay(trace[..j + 1], incident) == ReplayOne(Replay(trace[..j], incident), incident, trace[j])
  {
    ReplayPrefix(trace, incident, j);
    ReplayPrefix(trace, incident, j + 1);
    assert trace[..j + 1] == trace[..j] + [trace[j]];
    ReplaySnoc(trace[..j], trace[j], incident);
  }

  /** In a history that replays, nothing starts after mitigation, and each move leaves the status the last one reached. */
  lemma ReplayableHistory(trace: seq<Obs>, incident: string)
    requires Replay(trace, incident).Some?
    ensures forall i, j | 0 <= i < j < |trace| ::
              MovesTo(trace[i], incident, {MITIGATED, RESOLVED}) ==> !Starts(trace[j], incident)
    ensures forall j | 0 <= j < |trace| :: trace[j].Logged? && trace[j].incident == incident && trace[j].event.StatusChanged? ==>
              && Replay(trace[..j], incident) == Some(trace[j].event.source)
              && CanTransition(trace[j].event.source, trace[j].event.target)
  {
    hide Replay;
    forall j | 0 <= j < |trace| && MovesOrStarts(trace[j], incident) {
      PrefixReplays(trace, incident, j);
    }
    forall i, j | 0 <= i < j < |trace| && MovesTo(trace[i], incident, {MITIGATED, RESOLVED})
      ensures !Starts(trace[j], incident)
    {
      NoStartAfter(trace, incident, i, j);
    }
  }

  lemma NoStartAfter(trace: seq<Obs>, incident: string, i: nat, j: nat)
    requires Replay(trace, incident).Some? && i < j < |trace| && MovesTo(trace[i], incident, {MITIGATED, RESOLVED})
    ensures !Starts(trace[j], incident)
  {
    hide Replay;
    PrefixReplays(trace, incident, i);
    PrefixReplays(trace, incident, j);
    assert trace[..j][..i + 1] == trace[..i + 1];
    SettledStays(trace[..j], incident, i + 1);
  }

  /** The moves there are: nothing skips a status, goes back, or leaves resolved. */
  lemma MovesAre(source: string, target: string)
    ensures CanTransition(source, target) <==>
              || (source == "open" && target == "investigating") || (source == "investigating" && target == "investigating")
              || (source == "investigating" && target == "mitigated") || (source == "mitigated" && target == "resolved")
  {
  }

  /** The statuses in the order in which an incident comes to them. */
  function Came(status: string): seq<string> {
    if status == "investigating" then ["investigating"]
    else if status == "mitigated" then ["investigating", "mitigated"]
    else if status == "resolved" then ["investigating", "mitigated", "resolved"]
    else []
  }

  /** The moves are in the history, in this order. */
  ghost predicate CameThrough(trace: seq<Obs>, incident: string, path: seq<string>)
    decreases |path|
  {
    path == [] || exists n | 0 <= n < |trace| ::
      MovesTo(trace[n], incident, {path[|path| - 1]}) && CameThrough(trace[..n], incident, path[..|path| - 1])
  }

  lemma CameThroughStays(trace: seq<Obs>, o: Obs, incident: string, path: seq<string>)
    requires CameThrough(trace, incident, path)
    ensures CameThrough(trace + [o], incident, path)
  {
    if path != [] {
      var n :| 0 <= n < |trace| && MovesTo(trace[n], incident, {path[|path| - 1]}) && CameThrough(trace[..n], incident, path[..|path| - 1]);
      assert (trace + [o])[n] == trace[n] && (trace + [o])[..n] == trace[..n];
    }
  }

  lemma CameToNext(trace: seq<Obs>, o: Obs, incident: string, was: string, now: string)
    requires CameThrough(trace, incident, Came(was)) && CanTransition(was, now) && was != now && MovesTo(o, incident, {now})
    ensures CameThrough(trace + [o], incident, Came(now))
  {
    MovesAre(was, now);
    hide CanTransition;
    assert Came(now)[..|Came(now)| - 1] == Came(was) && Came(now)[|Came(now)| - 1] == now;
    assert (trace + [o])[|trace|] == o && (trace + [o])[..|trace|] == trace;
  }

  /** No status is reached but through all those before it. */
  lemma {:induction false} StatusesInOrder(trace: seq<Obs>, incident: string)
    requires Replay(trace, incident).Some?
    ensures Replay(trace, incident).value in {"open", "investigating", "mitigated", "resolved"}
    ensures CameThrough(trace, incident, Came(Replay(trace, incident).value))
  {
    if trace != [] {
      var front, o := trace[..|trace| - 1], trace[|trace| - 1];
      assert trace == front + [o];
      assert Replay(trace, incident) == ReplayOne(Replay(front, incident), incident, o);
      hide Replay, CameThrough, Came;
      StatusesInOrder(front, incident);
      var was, now := Replay(front, incident).value, Replay(trace, incident).value;
      if now == was {
        CameThroughStays(front, o, incident, Came(was));
      } else {
        MovesAre(was, now);
        CameToNext(front, o, incident, was, now);
      }
    }
  }
}
