// incident/hashchain.py: the tamper-evident timeline. SHA-256 is a parameter; where a result needs
// it, the hypothesis is that it does not collide on the strings hashed in the timelines at hand.

module HashChain {
  import opened Prelude

  type Sha = string -> string

  /** A timeline row; prev and hash are NULL in rows written outside HashChain.append. */
  datatype Row = Row(id: nat, incident: string, kind: string, payload: string, prev: Option<string>, hash: Option<string>)

  /** genesis_hash hashes the id and repr(created_at). */
  function GenesisInput(incident: string, created: string): string {
    incident + ":" + created
  }

  function EventInput(kind: string, payload: string, prev: string): string {
    kind + ":" + payload + ":" + prev
  }

  function Genesis(sha: Sha, incident: string, created: string): string {
    sha(GenesisInput(incident, created))
  }

  function EventHash(sha: Sha, prev: string, kind: string, payload: string): string {
    sha(EventInput(kind, payload, prev))
  }

  // ---------------------------------------------------------------- what verify checks

  /** The hash the k-th row must continue from. */
  function Before(g: string, rows: seq<Row>, k: nat): Option<string>
    requires k <= |rows|
  {
    if k == 0 then Some(g) else rows[k - 1].hash
  }

  predicate LinkOk(sha: Sha, g: string, rows: seq<Row>, k: nat)
    requires k < |rows|
  {
    var r := rows[k];
    r.prev.Some? && r.prev == Before(g, rows, k) && r.hash == Some(EventHash(sha, r.prev.value, r.kind, r.payload))
  }

  ghost predicate ChainOk(sha: Sha, g: string, rows: seq<Row>) {
    forall k | 0 <= k < |rows| :: LinkOk(sha, g, rows, k)
  }

  ghost predicate FirstBad(sha: Sha, g: string, rows: seq<Row>, k: nat) {
    k < |rows| && !LinkOk(sha, g, rows, k) && forall j | 0 <= j < k :: LinkOk(sha, g, rows, j)
  }

  /** ok, or the id of the corrupt row */
  datatype Verdict = Ok | Corrupt(id: nat)

  ghost predicate Names(sha: Sha, g: string, rows: seq<Row>, v: Verdict) {
    match v
    case Ok => ChainOk(sha, g, rows)
    case Corrupt(id) => exists k: nat :: FirstBad(sha, g, rows, k) && rows[k].id == id
  }

  lemma NamesOnlyTheFirst(sha: Sha, g: string, rows: seq<Row>, v: Verdict)
    requires Names(sha, g, rows, v)
    ensures v.Ok? <==> ChainOk(sha, g, rows)
    ensures forall k: nat :: FirstBad(sha, g, rows, k) ==> v == Corrupt(rows[k].id)
  {
  }

  method Verify(sha: Sha, g: string, rows: seq<Row>) returns (v: Verdict)
    ensures Names(sha, g, rows, v)
  {
    var expected := Some(g);
    for k := 0 to |rows|
      invariant expected == Before(g, rows, k) && expected.Some?
      invariant forall j | 0 <= j < k :: LinkOk(sha, g, rows, j)
    {
      var row := rows[k];
      if row.prev != expected {
        assert FirstBad(sha, g, rows, k);
        return Corrupt(row.id);
      }
      var recomputed := EventHash(sha, row.prev.value, row.kind, row.payload);
      if Some(recomputed) != row.hash {
        assert FirstBad(sha, g, rows, k);
        return Corrupt(row.id);
      }
      expected := row.hash;
    }
    return Ok;
  }

  // ---------------------------------------------------------------- the tables

  /** incidents (id -> repr(created_at)) and timeline. */
  datatype Tables = Tables(incidents: map<string, string>, timeline: seq<Row>)

  /** SELECT * FROM timeline WHERE incident_id = ? ORDER BY id */
  function RowsOf(timeline: seq<Row>, incident: string): seq<Row> {
    if timeline == [] then []
    else
      var last := timeline[|timeline| - 1];
      RowsOf(timeline[..|timeline| - 1], incident) + if last.incident == incident then [last] else []
  }

  /** The hash of the last chained row, if there is one. */
  function LastHash(rows: seq<Row>): Option<string> {
    if rows == [] then None
    else if rows[|rows| - 1].hash.Some? then rows[|rows| - 1].hash
    else LastHash(rows[..|rows| - 1])
  }

  /** What HashChain.append continues from. */
  function Tip(sha: Sha, incident: string, created: string, rows: seq<Row>): string {
    match LastHash(rows)
    case Some(h) => h
    case None => Genesis(sha, incident, created)
  }

  function NextId(timeline: seq<Row>): nat {
    |timeline| + 1
  }

  function ChainedRow(sha: Sha, t: Tables, incident: string, kind: string, payload: string): Row
    requires incident in t.incidents
  {
    var prev := Tip(sha, incident, t.incidents[incident], RowsOf(t.timeline, incident));
    Row(NextId(t.timeline), incident, kind, payload, Some(prev), Some(EventHash(sha, prev, kind, payload)))
  }

  function RawRow(t: Tables, incident: string, kind: string, payload: string): Row {
    Row(NextId(t.timeline), incident, kind, payload, None, None)
  }

  class HashChain {
    const sha: Sha
    var incidents: map<string, string>
    var timeline: seq<Row>

    constructor (sha: Sha)
      ensures this.sha == sha && View() == Tables(map[], [])
    {
      this.sha, incidents, timeline := sha, map[], [];
    }

    function View(): Tables reads this {
      Tables(incidents, timeline)
    }

    method CreateIncident(incident: string, created: string)
      requires incident !in incidents
      modifies this
      ensures View() == old(View()).(incidents := old(incidents)[incident := created])
    {
      incidents := incidents[incident := created];
    }

    /** append; false is the ValueError for an unknown incident */
    method Append(incident: string, kind: string, payload: string) returns (ok: bool)
      modifies this
      ensures ok == (incident in old(incidents))
      ensures View() == if !ok then old(View())
        else old(View()).(timeline := old(timeline) + [ChainedRow(sha, old(View()), incident, kind, payload)])
      ensures ok && LastHash(RowsOf(old(timeline), incident)) == None ==>
                timeline[|old(timeline)|].prev == Some(sha(incident + ":" + old(incidents)[incident]))
    {
      if incident !in incidents {
        return false;
      }
      var last := LastHash(RowsOf(timeline, incident));
      var prev := if last.Some? then last.value else Genesis(sha, incident, incidents[incident]);
      var hash := EventHash(sha, prev, kind, payload);
      timeline := timeline + [Row(NextId(timeline), incident, kind, payload, Some(prev), Some(hash))];
      return true;
    }

    /** append_timeline, and append_chained_event without hashes */
    method AppendRaw(incident: string, kind: string, payload: string)
      requires incident in incidents
      modifies this
      ensures View() == old(View()).(timeline := old(timeline) + [RawRow(old(View()), incident, kind, payload)])
    {
      timeline := timeline + [Row(NextId(timeline), incident, kind, payload, None, None)];
    }

    /** verify_chain; None is the ValueError for an unknown incident */
    method VerifyIncident(incident: string) returns (r: Option<Verdict>)
      ensures r.Some? <==> incident in incidents
      ensures r.Some? ==> Names(sha, sha(incident + ":" + incidents[incident]), RowsOf(timeline, incident), r.value)
    {
      if incident !in incidents {
        return None;
      }
      var v := Verify(sha, Genesis(sha, incident, incidents[incident]), RowsOf(timeline, incident));
      return Some(v);
    }
  }

  // ---------------------------------------------------------------- any interleaving of writers

  datatype Op =
    | Create(incident: string, created: string)
    | Chained(incident: string, kind: string, payload: string)
    | Unchained(incident: string, kind: string, payload: string)

  function Apply(sha: Sha, t: Tables, op: Op): Tables {
    match op
    case Create(i, created) => if i in t.incidents then t else t.(incidents := t.incidents[i := created])
    case Chained(i, kind, payload) =>
      if i in t.incidents then t.(timeline := t.timeline + [ChainedRow(sha, t, i, kind, payload)]) else t
    case Unchained(i, kind, payload) =>
      if i in t.incidents then t.(timeline := t.timeline + [RawRow(t, i, kind, payload)]) else t
  }

  function After(sha: Sha, ops: seq<Op>): Tables {
    if ops == [] then Tables(map[], []) else Apply(sha, After(sha, ops[..|ops| - 1]), ops[|ops| - 1])
  }

  /** What a row records: its kind, its payload and whether it was chained. */
  datatype Content = Content(kind: string, payload: string, chained: bool)

  function Contents(rows: seq<Row>): seq<Content> {
    seq(|rows|, i requires 0 <= i < |rows| => Content(rows[i].kind, rows[i].payload, rows[i].hash.Some?))
  }

  predicate Created(ops: seq<Op>, incident: string) {
    exists k | 0 <= k < |ops| :: ops[k].Create? && ops[k].incident == incident
  }

  /** The writes to an incident once it was created, in order. */
  function Writes(ops: seq<Op>, incident: string): seq<Content> {
    if ops == [] then []
    else
      var front, op := ops[..|ops| - 1], ops[|ops| - 1];
      Writes(front, incident) + Write(op, incident, Created(front, incident))
  }

  /** What one operation writes to an incident. */
  function Write(op: Op, incident: string, created: bool): seq<Content> {
    if op.Create? || op.incident != incident || !created then [] else [Content(op.kind, op.payload, op.Chained?)]
  }

  lemma ApplyWrites(sha: Sha, t: Tables, op: Op, incident: string)
    ensures var u := Apply(sha, t, op);
            && (incident in u.incidents <==> incident in t.incidents || (op.Create? && op.incident == incident))
            && Contents(RowsOf(u.timeline, incident)) == Contents(RowsOf(t.timeline, incident)) + Write(op, incident, incident in t.incidents)
  {
    hide EventHash, Tip, Contents;
    if !op.Create? && op.incident in t.incidents {
      var r := if op.Chained? then ChainedRow(sha, t, op.incident, op.kind, op.payload)
               else RawRow(t, op.incident, op.kind, op.payload);
      RowsOfSnoc(t.timeline, r, incident);
      ContentsSnoc(RowsOf(t.timeline, incident), r);
    }
  }

  lemma ContentsSnoc(rows: seq<Row>, r: Row)
    ensures Contents(rows + [r]) == Contents(rows) + [Content(r.kind, r.payload, r.hash.Some?)]
  {
  }

  /** Ids grow with the table, so that an id names one row. */
  lemma {:induction false} IdsNameRows(sha: Sha, ops: seq<Op>)
    ensures forall i | 0 <= i < |After(sha, ops).timeline| :: After(sha, ops).timeline[i].id == i + 1
  {
    hide EventHash, Tip;
    if ops != [] { IdsNameRows(sha, ops[..|ops| - 1]); }
  }

  /**
   * Any interleaving of writers leaves each incident's rows in the order they were written, with the kinds and
   * payloads that were given, none lost and none added.
   */
  lemma {:induction false} WritesAreKept(sha: Sha, ops: seq<Op>, incident: string)
    ensures var t := After(sha, ops);
            && (incident in t.incidents <==> Created(ops, incident))
            && Contents(RowsOf(t.timeline, incident)) == Writes(ops, incident)
  {
    if ops == [] {
      assert RowsOf([], incident) == [];
    } else {
      var front, op := ops[..|ops| - 1], ops[|ops| - 1];
      assert After(sha, ops) == Apply(sha, After(sha, front), op);
      assert Writes(ops, incident) == Writes(front, incident) + Write(op, incident, Created(front, incident));
      hide *;
      WritesAreKept(sha, front, incident);
      CreatedSnoc(front, op, incident);
      assert front + [op] == ops;
      ApplyWrites(sha, After(sha, front), op, incident);
    }
  }

  lemma CreatedSnoc(ops: seq<Op>, op: Op, incident: string)
    ensures Created(ops + [op], incident) <==> Created(ops, incident) || (op.Create? && op.incident == incident)
  {
    if Created(ops, incident) {
      var k :| 0 <= k < |ops| && ops[k].Create? && ops[k].incident == incident;
      assert (ops + [op])[k] == ops[k];
    }
    if op.Create? { assert (ops + [op])[|ops|] == op; }
  }

  predicate Raw(r: Row) {
    r.prev == None && r.hash == None
  }

  predicate Linked(r: Row) {
    r.prev.Some? && r.hash.Some?
  }

  /** The rows that carry a hash. */
  function HashedRows(rows: seq<Row>): (r: seq<Row>)
    ensures forall x | x in r :: x.hash.Some?
  {
    if rows == [] then []
    else HashedRows(rows[..|rows| - 1]) + if rows[|rows| - 1].hash.Some? then [rows[|rows| - 1]] else []
  }

  /** One incident's rows: each raw or linked, and the linked ones alone a valid chain. */
  ghost predicate WellWoven(sha: Sha, g: string, rows: seq<Row>) {
    (forall i | 0 <= i < |rows| :: Raw(rows[i]) || Linked(rows[i])) && ChainOk(sha, g, HashedRows(rows))
  }

  lemma {:induction false} LastHashIsChainEnd(rows: seq<Row>)
    ensures LastHash(rows) == if HashedRows(rows) == [] then None else HashedRows(rows)[|HashedRows(rows)| - 1].hash
  {
    if rows != [] && rows[|rows| - 1].hash == None { LastHashIsChainEnd(rows[..|rows| - 1]); }
  }

  /** r is chained onto the last hash among rows, or onto g where there is none. */
  predicate Continues(sha: Sha, g: string, rows: seq<Row>, r: Row) {
    && r.prev == (if LastHash(rows) == None then Some(g) else LastHash(rows))
    && r.hash == Some(EventHash(sha, r.prev.value, r.kind, r.payload))
  }

  lemma WeaveOne(sha: Sha, g: string, rows: seq<Row>, r: Row)
    requires WellWoven(sha, g, rows)
    requires Raw(r) || Continues(sha, g, rows, r)
    ensures WellWoven(sha, g, rows + [r])
  {
    assert (rows + [r])[..|rows|] == rows;
    LastHashIsChainEnd(rows);
    var was, now := HashedRows(rows), HashedRows(rows + [r]);
    if r.hash.Some? {
      assert now == was + [r];
      assert Before(g, now, |was|) == r.prev;
      forall k | 0 <= k < |now| ensures LinkOk(sha, g, now, k) {
        if k < |was| { assert LinkOk(sha, g, was, k); }
      }
    } else {
      assert now == was;
    }
  }

  lemma RowsOfSnoc(timeline: seq<Row>, r: Row, incident: string)
    ensures RowsOf(timeline + [r], incident)
         == if r.incident == incident then RowsOf(timeline, incident) + [r] else RowsOf(timeline, incident)
  {
    assert (timeline + [r])[..|timeline|] == timeline;
  }

  lemma {:induction false} RunsWeaveWell(sha: Sha, ops: seq<Op>, incident: string)
    ensures var t := After(sha, ops);
            && (incident !in t.incidents ==> RowsOf(t.timeline, incident) == [])
            && (incident in t.incidents ==>
                  WellWoven(sha, Genesis(sha, incident, t.incidents[incident]), RowsOf(t.timeline, incident)))
  {
    hide WellWoven, EventHash, LastHash;
    if ops != [] {
      var t, op := After(sha, ops[..|ops| - 1]), ops[|ops| - 1];
      RunsWeaveWell(sha, ops[..|ops| - 1], incident);
      if op.Create? {
        NoRowsWeaveWell(sha, Genesis(sha, incident, op.created));
      } else if op.incident in t.incidents {
        var rows := RowsOf(t.timeline, incident);
        var r := if op.Chained? then ChainedRow(sha, t, op.incident, op.kind, op.payload)
                 else RawRow(t, op.incident, op.kind, op.payload);
        RowsOfSnoc(t.timeline, r, incident);
        if op.incident == incident {
          var g := Genesis(sha, incident, t.incidents[incident]);
          assert Raw(r) || Continues(sha, g, rows, r);
          WeaveOne(sha, g, rows, r);
        }
      }
    }
  }

  lemma NoRowsWeaveWell(sha: Sha, g: string)
    ensures WellWoven(sha, g, [])
  {
  }

  lemma {:induction false} AllLinked(rows: seq<Row>, k: nat)
    requires k <= |rows| && forall i | 0 <= i < k :: Linked(rows[i])
    ensures rows[..k] <= HashedRows(rows) && (k == |rows| ==> HashedRows(rows) == rows)
    decreases |rows|
  {
    if rows != [] {
      var m := |rows| - 1;
      if k < |rows| {
        AllLinked(rows[..m], k);
        assert rows[..m][..k] == rows[..k];
      } else {
        AllLinked(rows[..m], m);
        assert rows[..m] + [rows[m]] == rows;
      }
    }
  }

  /** Up to the first raw row everything links; that row does not. */
  lemma RawRowsBreakTheChain(sha: Sha, g: string, rows: seq<Row>, k: nat)
    requires WellWoven(sha, g, rows) && k <= |rows|
    requires forall i | 0 <= i < k :: Linked(rows[i])
    ensures forall i | 0 <= i < k :: LinkOk(sha, g, rows, i)
    ensures k < |rows| && Raw(rows[k]) ==> FirstBad(sha, g, rows, k)
  {
    AllLinked(rows, k);
    var hashed := HashedRows(rows);
    forall i | 0 <= i < k ensures LinkOk(sha, g, rows, i) {
      assert LinkOk(sha, g, hashed, i);
      assert rows[..k][i] == hashed[i] && (i > 0 ==> rows[..k][i - 1] == hashed[i - 1]);
    }
  }

  /**
   * After any interleaving of chained and raw writes over any incidents: an incident's hashed rows
   * alone form a valid chain, and verify answers ok exactly when the incident has no raw row,
   * otherwise it names the first raw row.
   */
  lemma VerifyFindsTheFirstRawRow(sha: Sha, ops: seq<Op>, incident: string, v: Verdict)
    requires incident in After(sha, ops).incidents
    requires var t := After(sha, ops);
             Names(sha, Genesis(sha, incident, t.incidents[incident]), RowsOf(t.timeline, incident), v)
    ensures var rows := RowsOf(After(sha, ops).timeline, incident);
            && ChainOk(sha, Genesis(sha, incident, After(sha, ops).incidents[incident]), HashedRows(rows))
            && (v == Ok <==> forall i | 0 <= i < |rows| :: !Raw(rows[i]))
            && (forall k: nat | k < |rows| && Raw(rows[k]) && (forall i | 0 <= i < k :: !Raw(rows[i])) ::
                  v == Corrupt(rows[k].id))
  {
    var t := After(sha, ops);
    var g, rows := Genesis(sha, incident, t.incidents[incident]), RowsOf(t.timeline, incident);
    RunsWeaveWell(sha, ops, incident);
    hide After, RowsOf, EventHash, Genesis, HashedRows, LinkOk;
    NamesOnlyTheFirst(sha, g, rows, v);
    forall k: nat | k < |rows| && Raw(rows[k]) && (forall i | 0 <= i < k :: !Raw(rows[i]))
      ensures FirstBad(sha, g, rows, k)
    {
      RawRowsBreakTheChain(sha, g, rows, k);
    }
    if forall i | 0 <= i < |rows| :: !Raw(rows[i]) {
      RawRowsBreakTheChain(sha, g, rows, |rows|);
    } else {
      var k := FirstRaw(rows, 0);
      RawRowsBreakTheChain(sha, g, rows, k);
    }
  }

  lemma {:induction false} FirstRaw(rows: seq<Row>, from: nat) returns (k: nat)
    requires from <= |rows| && (forall i | 0 <= i < from :: !Raw(rows[i])) && exists i | 0 <= i < |rows| :: Raw(rows[i])
    ensures k < |rows| && Raw(rows[k]) && forall i | 0 <= i < k :: !Raw(rows[i])
    decreases |rows| - from
  {
    if Raw(rows[from]) { k := from; } else { k := FirstRaw(rows, from + 1); }
  }
}
