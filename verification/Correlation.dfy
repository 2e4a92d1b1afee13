// incident/correlate.py: alert storms are gathered into one incident.

module Correlation {
  import opened Prelude

  const CORRELATION_LABELS: seq<string> := ["cluster", "service", "severity"]
  const WINDOW_SECONDS: real := 300.0
  const RESOLVED := "resolved"
  const MITIGATED := "mitigated"

  type Labels = map<string, string>

  datatype Incident = Incident(id: string, fingerprint: string, status: string, labels: Labels, createdAt: real, updatedAt: real)

  datatype Alert = Alert(fingerprint: string, labels: Labels, summary: string)

  datatype Action = CREATED | MERGED | RECORDED

  /** An alert_merged event on the incident's timeline. */
  datatype Merge = Merge(incident: string, fingerprint: string, summary: string, matched: seq<string>)

  datatype State = State(incidents: seq<Incident>, merges: seq<Merge>)

  function Value(labels: Labels, key: string): string {
    if key in labels then labels[key] else ""
  }

  /** The correlation labels that both have, with one non-empty value. */
  function Common(a: Labels, b: Labels): set<string> {
    set k | k in CORRELATION_LABELS && Value(a, k) == Value(b, k) != ""
  }

  method LabelIntersection(a: Labels, b: Labels) returns (hits: nat)
    ensures hits == |Common(a, b)|
  {
    hits := 0;
    for i := 0 to |CORRELATION_LABELS|
      invariant hits == |CommonUpTo(a, b, i)|
    {
      var key := CORRELATION_LABELS[i];
      OneMoreLabel(a, b, i);
      if key in a && key in b && a[key] != "" && b[key] != "" && a[key] == b[key] {
        hits := hits + 1;
      }
    }
    assert CommonUpTo(a, b, |CORRELATION_LABELS|) == Common(a, b);
  }

  function CommonUpTo(a: Labels, b: Labels, n: nat): set<string>
    requires n <= |CORRELATION_LABELS|
  {
    set k | k in CORRELATION_LABELS[..n] && Value(a, k) == Value(b, k) != ""
  }

  lemma OneMoreLabel(a: Labels, b: Labels, i: nat)
    requires i < |CORRELATION_LABELS|
    ensures var key := CORRELATION_LABELS[i];
            |CommonUpTo(a, b, i + 1)| == |CommonUpTo(a, b, i)| + if Value(a, key) == Value(b, key) != "" then 1 else 0
  {
    var key := CORRELATION_LABELS[i];
    assert CORRELATION_LABELS[..i + 1] == CORRELATION_LABELS[..i] + [key];
    assert key !in CORRELATION_LABELS[..i];
    if Value(a, key) == Value(b, key) != "" {
      assert CommonUpTo(a, b, i + 1) == CommonUpTo(a, b, i) + {key};
    } else {
      assert CommonUpTo(a, b, i + 1) == CommonUpTo(a, b, i);
    }
  }

  predicate Matches(i: Incident, labels: Labels) {
    |Common(i.labels, labels)| >= 2
  }

  // ---------------------------------------------------------------- one alert

  predicate Recent(i: Incident, cutoff: real) {
    i.status != RESOLVED && i.updatedAt >= cutoff
  }

  /** What recent_unresolved_incidents may return: the rows it selects, newest first, ties in any order. */
  ghost predicate Lists(incidents: seq<Incident>, cutoff: real, listing: seq<nat>) {
    && (forall n | 0 <= n < |listing| :: listing[n] < |incidents|)
    && (forall k: nat | k < |incidents| :: Recent(incidents[k], cutoff) <==> k in listing)
    && (forall m, n | 0 <= m < n < |listing| ::
          incidents[listing[m]].createdAt >= incidents[listing[n]].createdAt && listing[m] != listing[n])
  }

  /** The first incident of the listing that shares two labels with the alert. */
  function FirstMatch(incidents: seq<Incident>, listing: seq<nat>, labels: Labels): (m: Option<nat>)
    ensures m.Some? ==> m.value in listing && m.value < |incidents| && Matches(incidents[m.value], labels)
    ensures m.None? ==> forall k | k in listing && k < |incidents| :: !Matches(incidents[k], labels)
  {
    if listing == [] then None
    else if listing[0] < |incidents| && Matches(incidents[listing[0]], labels) then Some(listing[0])
    else FirstMatch(incidents, listing[1..], labels)
  }

  function Touch(incidents: seq<Incident>, k: nat, now: real): seq<Incident>
    requires k < |incidents|
  {
    incidents[k := incidents[k].(updatedAt := now)]
  }

  /** SELECT * FROM incidents WHERE fingerprint = ? */
  function Holder(incidents: seq<Incident>, fingerprint: string): (h: Option<nat>)
    ensures h.Some? ==> h.value < |incidents| && incidents[h.value].fingerprint == fingerprint
    ensures h.None? ==> forall k | 0 <= k < |incidents| :: incidents[k].fingerprint != fingerprint
  {
    if incidents == [] then None
    else if incidents[|incidents| - 1].fingerprint == fingerprint then Some(|incidents| - 1)
    else Holder(incidents[..|incidents| - 1], fingerprint)
  }

  function MergeOf(i: Incident, a: Alert): Merge {
    Merge(i.id, a.fingerprint, a.summary,
          seq(|CORRELATION_LABELS|, n requires 0 <= n < |CORRELATION_LABELS| => Value(a.labels, CORRELATION_LABELS[n])))
  }

  /** New state, row of the incident the alert went to, and what happened. */
  function IngestSpec(s: State, listing: seq<nat>, a: Alert, writeAt: real, id: string): (State, nat, Action) {
    match FirstMatch(s.incidents, listing, a.labels)
    case Some(k) =>
      (State(Touch(s.incidents, k, writeAt), s.merges + [MergeOf(s.incidents[k], a)]), k,
       if s.incidents[k].status == MITIGATED then RECORDED else MERGED)
    case None =>
      match Holder(s.incidents, a.fingerprint)
      case Some(k) => (s, k, MERGED)
      case None =>
        var row := Incident(id, a.fingerprint, "open", a.labels, writeAt, writeAt);
        (s.(incidents := s.incidents + [row]), |s.incidents|, CREATED)
  }

  class Correlator {
    var incidents: seq<Incident>
    var merges: seq<Merge>

    constructor ()
      ensures View() == State([], [])
    {
      incidents, merges := [], [];
    }

    function View(): State reads this {
      State(incidents, merges)
    }

    method IngestAlert(listing: seq<nat>, a: Alert, lookAt: real, writeAt: real, id: string) returns (k: nat, action: Action)
      requires Lists(incidents, lookAt - WINDOW_SECONDS, listing)
      modifies this
      ensures (View(), k, action) == IngestSpec(old(View()), listing, a, writeAt, id)
    {
      for n := 0 to |listing|
        invariant View() == old(View())
        invariant FirstMatch(incidents, listing, a.labels) == FirstMatch(incidents, listing[n..], a.labels)
      {
        assert listing[n..][1..] == listing[n + 1..];
        var hits := LabelIntersection(incidents[listing[n]].labels, a.labels);
        if hits >= 2 {
          action := AddTo(listing[n], a, writeAt);
          return listing[n], action;
        }
      }
      k, action := Create(a, writeAt, id);
    }

    method AddTo(k: nat, a: Alert, now: real) returns (action: Action)
      requires k < |incidents|
      modifies this
      ensures View() == State(Touch(old(incidents), k, now), old(merges) + [MergeOf(old(incidents)[k], a)])
      ensures action == if old(incidents)[k].status == MITIGATED then RECORDED else MERGED
    {
      var candidate := incidents[k];
      merges := merges + [MergeOf(candidate, a)];
      incidents := incidents[k := candidate.(updatedAt := now)];
      if candidate.status == MITIGATED {
        return RECORDED;
      }
      return MERGED;
    }

    method Create(a: Alert, now: real, id: string) returns (k: nat, action: Action)
      modifies this
      ensures merges == old(merges)
      ensures match Holder(old(incidents), a.fingerprint)
              case Some(h) => incidents == old(incidents) && k == h && action == MERGED
              case None => incidents == old(incidents) + [Incident(id, a.fingerprint, "open", a.labels, now, now)]
                           && k == |old(incidents)| && action == CREATED
    {
      var found := Holder(incidents, a.fingerprint);
      if found.Some? {
        return found.value, MERGED;
      }
      incidents := incidents + [Incident(id, a.fingerprint, "open", a.labels, now, now)];
      return |incidents| - 1, CREATED;
    }
  }

  // ---------------------------------------------------------------- many alerts

  /** An alert, or a status change by whatever else uses the table. */
  datatype Op =
    | Ingest(alert: Alert, lookAt: real, writeAt: real, listing: seq<nat>, id: string)
    | SetStatus(row: nat, status: string, at: real)

  function Apply(s: State, op: Op): State {
    match op
    case Ingest(a, _, writeAt, listing, id) => IngestSpec(s, listing, a, writeAt, id).0
    case SetStatus(k, status, at) =>
      if k < |s.incidents| then s.(incidents := s.incidents[k := s.incidents[k].(status := status, updatedAt := at)]) else s
  }

  function RunFrom(s: State, ops: seq<Op>): State {
    if ops == [] then s else Apply(RunFrom(s, ops[..|ops| - 1]), ops[|ops| - 1])
  }

  /** What became of the n-th operation, an alert. */
  function Became(s: State, ops: seq<Op>, n: nat): Action
    requires n < |ops| && ops[n].Ingest?
  {
    IngestSpec(RunFrom(s, ops[..n]), ops[n].listing, ops[n].alert, ops[n].writeAt, ops[n].id).2
  }

  lemma RunStep(s: State, ops: seq<Op>, n: nat)
    requires n < |ops|
    ensures RunFrom(s, ops[..n + 1]) == Apply(RunFrom(s, ops[..n]), ops[n])
  {
    assert ops[..n + 1][..n] == ops[..n];
  }

  function Begins(op: Op): real {
    if op.Ingest? then op.lookAt else op.at
  }

  function Ends(op: Op): real {
    if op.Ingest? then op.writeAt else op.at
  }

  /** A run as the database can serve it, under a clock that does not run backwards. */
  ghost predicate Proper(s: State, ops: seq<Op>) {
    && (forall n | 0 <= n < |ops| :: Begins(ops[n]) <= Ends(ops[n]))
    && (forall m, n | 0 <= m < n < |ops| :: Ends(ops[m]) <= Begins(ops[n]))
    && (forall n | 0 <= n < |ops| && ops[n].Ingest? ::
          Lists(RunFrom(s, ops[..n]).incidents, ops[n].lookAt - WINDOW_SECONDS, ops[n].listing))
  }

  ghost predicate NothingResolved(ops: seq<Op>) {
    forall n | 0 <= n < |ops| && ops[n].SetStatus? :: ops[n].status != RESOLVED
  }

  /** An alert of the storm: the same three values as labels. */
  predicate OfStorm(op: Op, labels: Labels) {
    op.Ingest? && forall k | k in CORRELATION_LABELS :: Value(op.alert.labels, k) == Value(labels, k)
  }

  /** The last alert of the storm before position n. */
  function LastOfStorm(ops: seq<Op>, n: nat, labels: Labels): (m: Option<nat>)
    requires n <= |ops|
    ensures m.Some? ==> m.value < n && OfStorm(ops[m.value], labels)
  {
    if n == 0 then None else if OfStorm(ops[n - 1], labels) then Some(n - 1) else LastOfStorm(ops, n - 1, labels)
  }

  /** No five minutes without an alert of the storm. */
  ghost predicate NoLull(ops: seq<Op>, labels: Labels) {
    forall n | 0 <= n < |ops| && OfStorm(ops[n], labels) && LastOfStorm(ops, n, labels).Some? ::
      ops[n].lookAt - ops[LastOfStorm(ops, n, labels).value].lookAt <= WINDOW_SECONDS
  }

  /** Some unresolved incident, touched at t or later, takes the storm's alerts. */
  ghost predicate Open(incidents: seq<Incident>, labels: Labels, t: real) {
    exists k: nat :: k < |incidents| && TakesStorm(incidents[k], labels, t)
  }

  predicate TakesStorm(i: Incident, labels: Labels, t: real) {
    Matches(i, labels) && i.status != RESOLVED && i.updatedAt >= t
  }

  lemma SameCommon(a: Labels, op: Op, labels: Labels)
    requires OfStorm(op, labels)
    ensures Common(a, op.alert.labels) == Common(a, labels)
  {
  }

  /** Other alerts and status changes leave the storm's incident open. */
  lemma OpenStays(s: State, op: Op, labels: Labels, t: real)
    requires Open(s.incidents, labels, t) && t <= Begins(op) <= Ends(op) && (op.SetStatus? ==> op.status != RESOLVED)
    ensures Open(Apply(s, op).incidents, labels, t)
  {
    hide Common, Holder;
    var k: nat :| k < |s.incidents| && TakesStorm(s.incidents[k], labels, t);
    assert TakesStorm(Apply(s, op).incidents[k], labels, t);
  }

  /** An alert of the storm that finds its incident open is added to an incident, which it keeps open. */
  lemma StormAlertIsAdded(s: State, op: Op, labels: Labels, t: real)
    requires OfStorm(op, labels) && op.lookAt <= op.writeAt && op.lookAt - WINDOW_SECONDS <= t && Open(s.incidents, labels, t)
    requires Lists(s.incidents, op.lookAt - WINDOW_SECONDS, op.listing)
    ensures IngestSpec(s, op.listing, op.alert, op.writeAt, op.id).2 != CREATED
    ensures Open(Apply(s, op).incidents, labels, op.lookAt)
  {
    hide Common, Holder;
    var k: nat :| k < |s.incidents| && TakesStorm(s.incidents[k], labels, t);
    assert Recent(s.incidents[k], op.lookAt - WINDOW_SECONDS);
    SameCommon(s.incidents[k].labels, op, labels);
    var m := FirstMatch(s.incidents, op.listing, op.alert.labels);
    SameCommon(s.incidents[m.value].labels, op, labels);
    assert Recent(s.incidents[m.value], op.lookAt - WINDOW_SECONDS);
    assert TakesStorm(Apply(s, op).incidents[m.value], labels, op.lookAt);
  }

  lemma CreatedIsOpen(s: State, op: Op, labels: Labels)
    requires OfStorm(op, labels) && op.lookAt <= op.writeAt && |Common(labels, labels)| >= 2
    requires IngestSpec(s, op.listing, op.alert, op.writeAt, op.id).2 == CREATED
    ensures Open(Apply(s, op).incidents, labels, op.lookAt)
  {
    hide FirstMatch, Holder;
    var now := Apply(s, op).incidents;
    assert Common(op.alert.labels, labels) == Common(labels, labels);
    assert TakesStorm(now[|now| - 1], labels, op.lookAt);
  }

  /** What the hypotheses on a run say of its n-th operation, given the storm's last alert, m, before it. */
  lemma RunSays(s: State, ops: seq<Op>, labels: Labels, m: nat, n: nat)
    requires Proper(s, ops) && NothingResolved(ops) && NoLull(ops, labels) && m < n < |ops| && OfStorm(ops[m], labels)
    requires LastOfStorm(ops, n, labels) == Some(m)
    ensures ops[m].Ingest? && ops[m].lookAt <= Begins(ops[n]) <= Ends(ops[n])
    ensures ops[n].SetStatus? ==> ops[n].status != RESOLVED
    ensures ops[n].Ingest? ==> Lists(RunFrom(s, ops[..n]).incidents, ops[n].lookAt - WINDOW_SECONDS, ops[n].listing)
    ensures OfStorm(ops[n], labels) ==> ops[n].lookAt - WINDOW_SECONDS <= ops[m].lookAt
  {
    hide RunFrom, Lists, LastOfStorm, Value;
    assert Begins(ops[m]) <= Ends(ops[m]) <= Begins(ops[n]);
  }

  /** One operation keeps an incident open, an alert of the storm for longer. */
  lemma StepStaysOpen(s: State, op: Op, labels: Labels, t: real)
    requires Open(s.incidents, labels, t) && t <= Begins(op) <= Ends(op) && (op.SetStatus? ==> op.status != RESOLVED)
    requires op.Ingest? ==> Lists(s.incidents, op.lookAt - WINDOW_SECONDS, op.listing)
    requires OfStorm(op, labels) ==> op.lookAt - WINDOW_SECONDS <= t
    ensures Open(Apply(s, op).incidents, labels, if OfStorm(op, labels) then op.lookAt else t)
  {
    hide Open, Apply, Lists, Common, IngestSpec, Value;
    if OfStorm(op, labels) { StormAlertIsAdded(s, op, labels, t); } else { OpenStays(s, op, labels, t); }
  }

  lemma LastStep(ops: seq<Op>, n: nat, labels: Labels)
    requires n < |ops|
    ensures LastOfStorm(ops, n + 1, labels) == if OfStorm(ops[n], labels) then Some(n) else LastOfStorm(ops, n, labels)
    ensures LastOfStorm(ops, n + 1, labels).Some? ==> ops[LastOfStorm(ops, n + 1, labels).value].Ingest?
    ensures LastOfStorm(ops, n, labels).Some? ==> OfStorm(ops[LastOfStorm(ops, n, labels).value], labels)
    ensures OfStorm(ops[n], labels) ==> ops[n].Ingest?
  {
    hide Value;
  }

  lemma FirstIsOpen(s: State, ops: seq<Op>, labels: Labels, i: nat)
    requires Proper(s, ops) && |Common(labels, labels)| >= 2
    requires i < |ops| && OfStorm(ops[i], labels) && Became(s, ops, i) == CREATED
    ensures ops[i].Ingest? && Open(RunFrom(s, ops[..i + 1]).incidents, labels, ops[i].lookAt)
  {
    hide RunFrom, Lists, Open, Common, Apply, IngestSpec, Value;
    RunStep(s, ops, i);
    assert Begins(ops[i]) <= Ends(ops[i]);
    CreatedIsOpen(RunFrom(s, ops[..i]), ops[i], labels);
  }

  /** From the storm's first CREATED on, an incident is open for it. */
  lemma {:induction false} StaysOpen(s: State, ops: seq<Op>, labels: Labels, i: nat, n: nat)
    requires Proper(s, ops) && NothingResolved(ops) && NoLull(ops, labels) && |Common(labels, labels)| >= 2
    requires i < n <= |ops| && OfStorm(ops[i], labels) && Became(s, ops, i) == CREATED
    ensures LastOfStorm(ops, n, labels).Some? && i <= LastOfStorm(ops, n, labels).value
    ensures Open(RunFrom(s, ops[..n]).incidents, labels, ops[LastOfStorm(ops, n, labels).value].lookAt)
    decreases n
  {
    hide *;
    LastStep(ops, n - 1, labels);
    if n == i + 1 {
      FirstIsOpen(s, ops, labels, i);
    } else {
      StaysOpen(s, ops, labels, i, n - 1);
      var m := LastOfStorm(ops, n - 1, labels).value;
      RunSays(s, ops, labels, m, n - 1);
      StepStaysOpen(RunFrom(s, ops[..n - 1]), ops[n - 1], labels, ops[m].lookAt);
      RunStep(s, ops, n - 1);
    }
  }

  /**
   * However long a storm lasts, and whatever else happens to the table meanwhile, it creates at most one
   * incident, as long as its labels have two values, it never pauses for five minutes and nothing is resolved.
   */
  lemma StormMakesOneIncident(s: State, ops: seq<Op>, labels: Labels, i: nat, j: nat)
    requires Proper(s, ops) && NothingResolved(ops) && NoLull(ops, labels) && |Common(labels, labels)| >= 2
    requires i < j < |ops| && OfStorm(ops[i], labels) && OfStorm(ops[j], labels) && Became(s, ops, i) == CREATED
    ensures Became(s, ops, j) != CREATED
  {
    hide RunFrom, Open, Common, IngestSpec, Value, Apply, Lists, NothingResolved;
    StaysOpen(s, ops, labels, i, j);
    StormAlertIsAdded(RunFrom(s, ops[..j]), ops[j], labels, ops[LastOfStorm(ops, j, labels).value].lookAt);
  }

  /** Both carry the label, with one non-empty value. */
  predicate Share(a: Labels, b: Labels, key: string) {
    key in a && key in b && a[key] == b[key] && a[key] != ""
  }

  /** Two of cluster, service and severity agree. */
  predicate Alike(a: Labels, b: Labels) {
    || (Share(a, b, "cluster") && Share(a, b, "service"))
    || (Share(a, b, "cluster") && Share(a, b, "severity"))
    || (Share(a, b, "service") && Share(a, b, "severity"))
  }

  lemma MatchesIffAlike(i: Incident, labels: Labels)
    ensures Matches(i, labels) <==> Alike(i.labels, labels)
  {
    OneMoreLabel(i.labels, labels, 0);
    OneMoreLabel(i.labels, labels, 1);
    OneMoreLabel(i.labels, labels, 2);
    assert CommonUpTo(i.labels, labels, 0) == {} && CommonUpTo(i.labels, labels, 3) == Common(i.labels, labels);
  }

  /** An unresolved incident, touched in the last five minutes, that agrees with the alert in two labels. */
  predicate Candidate(i: Incident, a: Alert, lookAt: real) {
    i.status != "resolved" && i.updatedAt >= lookAt - 300.0 && Alike(i.labels, a.labels)
  }

  lemma {:induction false} FirstMatchIsFirst(incidents: seq<Incident>, listing: seq<nat>, labels: Labels) returns (n: nat)
    requires FirstMatch(incidents, listing, labels).Some?
    ensures n < |listing| && FirstMatch(incidents, listing, labels) == Some(listing[n])
    ensures forall m | 0 <= m < n && listing[m] < |incidents| :: !Matches(incidents[listing[m]], labels)
  {
    hide Matches;
    if listing[0] < |incidents| && Matches(incidents[listing[0]], labels) {
      n := 0;
    } else {
      var m := FirstMatchIsFirst(incidents, listing[1..], labels);
      n := m + 1;
    }
  }

  /**
   * An alert creates an incident exactly when it has no candidate and its fingerprint is new. Otherwise it goes to
   * the newest candidate, which is touched and whose timeline tells of it, recorded only if that incident is mitigated,
   * or else to the incident with its fingerprint, of which nothing is changed.
   */
  lemma CreatesIff(s: State, listing: seq<nat>, a: Alert, lookAt: real, writeAt: real, id: string)
    requires Lists(s.incidents, lookAt - WINDOW_SECONDS, listing)
    ensures var (t, k, action) := IngestSpec(s, listing, a, writeAt, id);
            var taken := exists n | 0 <= n < |s.incidents| :: Candidate(s.incidents[n], a, lookAt);
            && (action == CREATED <==> !taken && forall n | 0 <= n < |s.incidents| :: s.incidents[n].fingerprint != a.fingerprint)
            && (action == CREATED ==>
                  t == State(s.incidents + [Incident(id, a.fingerprint, "open", a.labels, writeAt, writeAt)], s.merges))
            && (action != CREATED ==> k < |s.incidents|)
            && (taken ==>
                  && Candidate(s.incidents[k], a, lookAt) && t.incidents == s.incidents[k := s.incidents[k].(updatedAt := writeAt)]
                  && (forall n | 0 <= n < |s.incidents| && Candidate(s.incidents[n], a, lookAt) ::
                        s.incidents[n].createdAt <= s.incidents[k].createdAt)
                  && |t.merges| == |s.merges| + 1 && t.merges[..|s.merges|] == s.merges
                  && t.merges[|s.merges|].incident == s.incidents[k].id
                  && t.merges[|s.merges|].fingerprint == a.fingerprint && t.merges[|s.merges|].summary == a.summary
                  && t.merges[|s.merges|].matched == [Value(a.labels, "cluster"), Value(a.labels, "service"), Value(a.labels, "severity")]
                  && (action == RECORDED <==> s.incidents[k].status == "mitigated"))
            && (action != CREATED && !taken ==> t == s && s.incidents[k].fingerprint == a.fingerprint && action == MERGED)
  {
    hide Matches, Alike, Holder, FirstMatch;
    forall n | 0 <= n < |s.incidents| { MatchesIffAlike(s.incidents[n], a.labels); }
    assert forall n | 0 <= n < |s.incidents| ::
        Candidate(s.incidents[n], a, lookAt) <==> n in listing && Matches(s.incidents[n], a.labels);
    if FirstMatch(s.incidents, listing, a.labels).Some? {
      var first := FirstMatchIsFirst(s.incidents, listing, a.labels);
      forall n | 0 <= n < |s.incidents| && Candidate(s.incidents[n], a, lookAt)
        ensures s.incidents[n].createdAt <= s.incidents[listing[first]].createdAt
      {
        var m :| 0 <= m < |listing| && listing[m] == n;
        assert first <= m;
      }
    }
  }

  /** No alert changes the status of any incident; it only ever adds one, open. */
  lemma IngestChangesNoStatus(s: State, listing: seq<nat>, a: Alert, writeAt: real, id: string)
    ensures var t := IngestSpec(s, listing, a, writeAt, id).0;
            && |s.incidents| <= |t.incidents|
            && (forall k | 0 <= k < |s.incidents| ::
                  t.incidents[k].status == s.incidents[k].status && t.incidents[k].id == s.incidents[k].id)
            && (forall k | |s.incidents| <= k < |t.incidents| :: t.incidents[k].status == "open")
  {
    hide FirstMatch, Holder;
  }

  /** Once any incident has the fingerprint, resolved or not, no alert with it ever creates another. */
  lemma {:induction false} FingerprintIsUsedUp(s: State, ops: seq<Op>, n: nat, k: nat)
    requires k < |s.incidents| && n < |ops| && ops[n].Ingest? && ops[n].alert.fingerprint == s.incidents[k].fingerprint
    ensures Became(s, ops, n) != CREATED
  {
    FingerprintStays(s, ops[..n], k);
    hide FirstMatch, RunFrom;
  }

  lemma {:induction false} FingerprintStays(s: State, ops: seq<Op>, k: nat)
    requires k < |s.incidents|
    ensures k < |RunFrom(s, ops).incidents| && RunFrom(s, ops).incidents[k].fingerprint == s.incidents[k].fingerprint
  {
    if ops != [] {
      FingerprintStays(s, ops[..|ops| - 1], k);
      hide FirstMatch, Holder;
    }
  }
}
