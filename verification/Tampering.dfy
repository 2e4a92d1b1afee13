// What the hash chain proves about a timeline that verifies: order, completeness up to the last hash,
// and where an edit is. The hypothesis on the digest is only ever about the strings that were hashed.

module Tampering {
  import opened Prelude
  import opened HashChain

  // ---------------------------------------------------------------- reading the hashed strings back

  predicate Plain(s: string) {
    ':' !in s
  }

  /** The previous hash can be read back from the end, whatever the kind and the payload are. */
  lemma EventInputEndsWithPrev(k1: string, p1: string, h1: string, k2: string, p2: string, h2: string)
    requires Plain(h1) && Plain(h2) && EventInput(k1, p1, h1) == EventInput(k2, p2, h2)
    ensures h1 == h2 && k1 + ":" + p1 == k2 + ":" + p2
  {
    LastSeparator(':', k1 + ":" + p1, h1, k2 + ":" + p2, h2);
  }

  lemma EventInputIsInjective(k1: string, p1: string, h1: string, k2: string, p2: string, h2: string)
    requires Plain(k1) && Plain(k2) && Plain(h1) && Plain(h2) && EventInput(k1, p1, h1) == EventInput(k2, p2, h2)
    ensures k1 == k2 && p1 == p2 && h1 == h2
  {
    EventInputEndsWithPrev(k1, p1, h1, k2, p2, h2);
    FirstSeparator(':', k1, p1, k2, p2);
  }

  lemma GenesisHasOneColon(incident: string, created: string)
    requires Plain(incident) && Plain(created)
    ensures var s := GenesisInput(incident, created); forall k | 0 <= k < |s| && s[k] == ':' :: k == |incident|
  {
  }

  lemma EventHasTwoColons(kind: string, payload: string, prev: string)
    ensures var t := EventInput(kind, payload, prev);
            |kind| + |payload| + 1 < |t| && t[|kind|] == ':' && t[|kind| + |payload| + 1] == ':'
  {
  }

  lemma GenesisIsNoEvent(incident: string, created: string, kind: string, payload: string, prev: string)
    requires Plain(incident) && Plain(created)
    ensures GenesisInput(incident, created) != EventInput(kind, payload, prev)
  {
    GenesisHasOneColon(incident, created);
    EventHasTwoColons(kind, payload, prev);
  }

  lemma GenesisTexts(i: string, c: string, j: string, d: string)
    requires (Plain(i) && Plain(j)) || (Plain(c) && Plain(d))
    ensures i + ":" + c == j + ":" + d <==> i == j && c == d
  {
    if i + ":" + c == j + ":" + d {
      if Plain(i) && Plain(j) { FirstSeparator(':', i, c, j, d); } else { LastSeparator(':', i, c, j, d); }
    }
  }

  /**
   * Id and creation time decide the genesis hash together: rows that verify for one incident verify for another,
   * or under another creation time, only if both are the same; otherwise verify names the first row. The digest
   * need only tell the two genesis strings apart, and the ids or the times be free of colons.
   */
  lemma GenesisSealsTheIncident(sha: Sha, i: string, c: string, j: string, d: string, rows: seq<Row>, v: Verdict)
    requires (Plain(i) && Plain(j)) || (Plain(c) && Plain(d))
    requires sha(i + ":" + c) == sha(j + ":" + d) ==> i + ":" + c == j + ":" + d
    requires rows != [] && ChainOk(sha, Genesis(sha, i, c), rows) && Names(sha, Genesis(sha, j, d), rows, v)
    ensures v == if i == j && c == d then Ok else Corrupt(rows[0].id)
  {
    GenesisTexts(i, c, j, d);
    assert LinkOk(sha, Genesis(sha, i, c), rows, 0);
    NamesOnlyTheFirst(sha, Genesis(sha, j, d), rows, v);
    if i == j && c == d {
    } else {
      assert FirstBad(sha, Genesis(sha, j, d), rows, 0);
    }
  }

  /** So whatever was written, a creation time changed afterwards makes verify name the incident's first row. */
  lemma CreationTimeIsSealed(sha: Sha, ops: seq<Op>, incident: string, other: string, v: Verdict)
    requires var t := After(sha, ops); incident in t.incidents && other != t.incidents[incident]
    requires RowsOf(After(sha, ops).timeline, incident) != []
    requires sha(incident + ":" + other) != sha(incident + ":" + After(sha, ops).incidents[incident])
    requires Names(sha, Genesis(sha, incident, other), RowsOf(After(sha, ops).timeline, incident), v)
    ensures v == Corrupt(RowsOf(After(sha, ops).timeline, incident)[0].id)
  {
    var rows := RowsOf(After(sha, ops).timeline, incident);
    var g := Genesis(sha, incident, After(sha, ops).incidents[incident]);
    RunsWeaveWell(sha, ops, incident);
    hide After, RowsOf;
    FirstRowContinues(sha, g, rows);
    assert FirstBad(sha, Genesis(sha, incident, other), rows, 0);
    NamesOnlyTheFirst(sha, Genesis(sha, incident, other), rows, v);
  }

  lemma FirstRowContinues(sha: Sha, g: string, rows: seq<Row>)
    requires WellWoven(sha, g, rows) && rows != []
    ensures Raw(rows[0]) || rows[0].prev == Some(g)
  {
    if Linked(rows[0]) {
      AllLinked(rows, 1);
      assert rows[..1][0] == HashedRows(rows)[0];
      assert LinkOk(sha, g, HashedRows(rows), 0);
    }
  }

  // ---------------------------------------------------------------- hypotheses on the digest

  predicate CollisionFree(sha: Sha, hashed: set<string>) {
    forall a, b | a in hashed && b in hashed && sha(a) == sha(b) :: a == b
  }

  /** The string whose digest a row claims to be. */
  function RowInput(r: Row): string
    requires r.prev.Some?
  {
    EventInput(r.kind, r.payload, r.prev.value)
  }

  function RowInputs(rows: seq<Row>): set<string> {
    set i | 0 <= i < |rows| && rows[i].prev.Some? :: RowInput(rows[i])
  }

  /** A timeline that verify accepts, of an incident whose id has no colon. */
  ghost predicate Verified(sha: Sha, incident: string, created: string, rows: seq<Row>) {
    Plain(incident) && Plain(created) && ChainOk(sha, Genesis(sha, incident, created), rows)
  }

  /** Every string hashed for the timeline. */
  function Hashed(incident: string, created: string, rows: seq<Row>): set<string> {
    {GenesisInput(incident, created)} + RowInputs(rows)
  }

  /** No collision among the hashed strings, and hex digests: no colon in any of their hashes. */
  predicate GoodDigest(sha: Sha, hashed: set<string>) {
    CollisionFree(sha, hashed) && forall s | s in hashed :: Plain(sha(s))
  }

  lemma Inputs(incident: string, created: string, rows: seq<Row>, k: nat)
    requires k < |rows| && rows[k].prev.Some?
    ensures RowInput(rows[k]) in Hashed(incident, created, rows)
  {
  }

  /** The k-th hash of the chain, the genesis hash being the 0-th. */
  function HashAt(g: string, rows: seq<Row>, k: nat): string
    requires k <= |rows|
  {
    match Before(g, rows, k)
    case Some(h) => h
    case None => ""
  }

  lemma VerifiedLink(sha: Sha, incident: string, created: string, rows: seq<Row>, k: nat)
    requires Verified(sha, incident, created, rows) && k < |rows|
    ensures rows[k].prev == Some(HashAt(Genesis(sha, incident, created), rows, k))
    ensures rows[k].hash == Some(HashAt(Genesis(sha, incident, created), rows, k + 1))
    ensures HashAt(Genesis(sha, incident, created), rows, k + 1) == sha(RowInput(rows[k]))
  {
    assert LinkOk(sha, Genesis(sha, incident, created), rows, k);
  }

  lemma VerifiedHashIsPlain(sha: Sha, incident: string, created: string, rows: seq<Row>, k: nat, hashed: set<string>)
    requires Verified(sha, incident, created, rows) && k <= |rows|
    requires Hashed(incident, created, rows) <= hashed && GoodDigest(sha, hashed)
    ensures Plain(HashAt(Genesis(sha, incident, created), rows, k))
  {
    if k > 0 {
      VerifiedLink(sha, incident, created, rows, k - 1);
      Inputs(incident, created, rows, k - 1);
    }
  }

  // ---------------------------------------------------------------- equal hashes, equal pasts

  /** The parts of a row that its hash covers. */
  predicate SameContent(a: Row, b: Row) {
    a.kind + ":" + a.payload == b.kind + ":" + b.payload && a.prev == b.prev && a.hash == b.hash
  }

  /**
   * Two verified timelines of one incident that share a hash, at position i of one and j of the other,
   * have that position in common and the same content up to it.
   */
  lemma {:induction false} EqualHashesEqualPasts(sha: Sha, incident: string, created: string,
                                                 a: seq<Row>, i: nat, b: seq<Row>, j: nat, hashed: set<string>)
    requires Verified(sha, incident, created, a) && i <= |a|
    requires Verified(sha, incident, created, b) && j <= |b|
    requires Hashed(incident, created, a) <= hashed && Hashed(incident, created, b) <= hashed && GoodDigest(sha, hashed)
    requires HashAt(Genesis(sha, incident, created), a, i) == HashAt(Genesis(sha, incident, created), b, j)
    ensures i == j && forall n | 0 <= n < i :: SameContent(a[n], b[n])
  {
    hide Verified, Hashed, RowInput, EventInput, GenesisInput, Plain;
    if i == 0 && j == 0 {
    } else if i == 0 {
      NoHashIsGenesis(sha, incident, created, b, j - 1, hashed);
    } else if j == 0 {
      NoHashIsGenesis(sha, incident, created, a, i - 1, hashed);
    } else {
      SameHashSamePrev(sha, incident, created, a, i - 1, b, j - 1, hashed);
      EqualHashesEqualPasts(sha, incident, created, a, i - 1, b, j - 1, hashed);
    }
  }

  lemma NoHashIsGenesis(sha: Sha, incident: string, created: string, rows: seq<Row>, k: nat, hashed: set<string>)
    requires Verified(sha, incident, created, rows) && k < |rows|
    requires Hashed(incident, created, rows) <= hashed && GoodDigest(sha, hashed)
    ensures HashAt(Genesis(sha, incident, created), rows, k + 1) != HashAt(Genesis(sha, incident, created), rows, 0)
  {
    VerifiedLink(sha, incident, created, rows, k);
    Inputs(incident, created, rows, k);
    GenesisIsNoEvent(incident, created, rows[k].kind, rows[k].payload, rows[k].prev.value);
  }

  lemma SameHashSamePrev(sha: Sha, incident: string, created: string,
                         a: seq<Row>, i: nat, b: seq<Row>, j: nat, hashed: set<string>)
    requires Verified(sha, incident, created, a) && i < |a|
    requires Verified(sha, incident, created, b) && j < |b|
    requires Hashed(incident, created, a) <= hashed && Hashed(incident, created, b) <= hashed && GoodDigest(sha, hashed)
    requires HashAt(Genesis(sha, incident, created), a, i + 1) == HashAt(Genesis(sha, incident, created), b, j + 1)
    ensures HashAt(Genesis(sha, incident, created), a, i) == HashAt(Genesis(sha, incident, created), b, j)
    ensures SameContent(a[i], b[j])
  {
    hide Hashed, EventInput, Verified, HashAt;
    VerifiedLink(sha, incident, created, a, i);
    VerifiedLink(sha, incident, created, b, j);
    Inputs(incident, created, a, i);
    Inputs(incident, created, b, j);
    VerifiedHashIsPlain(sha, incident, created, a, i, hashed);
    VerifiedHashIsPlain(sha, incident, created, b, j, hashed);
    EventInputEndsWithPrev(a[i].kind, a[i].payload, a[i].prev.value, b[j].kind, b[j].payload, b[j].prev.value);
  }

  /** No hash repeats along a verified timeline, the genesis hash included. */
  lemma HashesAreDistinct(sha: Sha, incident: string, created: string, rows: seq<Row>)
    requires Verified(sha, incident, created, rows)
    requires GoodDigest(sha, Hashed(incident, created, rows))
    ensures forall i, j | 0 <= i < j <= |rows| ::
              HashAt(Genesis(sha, incident, created), rows, i) != HashAt(Genesis(sha, incident, created), rows, j)
  {
    hide *;
    forall i, j | 0 <= i < j <= |rows|
      ensures HashAt(Genesis(sha, incident, created), rows, i) != HashAt(Genesis(sha, incident, created), rows, j)
    {
      if HashAt(Genesis(sha, incident, created), rows, i) == HashAt(Genesis(sha, incident, created), rows, j) {
        EqualHashesEqualPasts(sha, incident, created, rows, i, rows, j, Hashed(incident, created, rows));
      }
    }
  }

  /** The last hash determines the whole timeline, row by row; with plain kinds, kinds and payloads too. */
  lemma LastHashDeterminesTimeline(sha: Sha, incident: string, created: string, a: seq<Row>, b: seq<Row>)
    requires Verified(sha, incident, created, a) && Verified(sha, incident, created, b)
    requires GoodDigest(sha, Hashed(incident, created, a) + Hashed(incident, created, b))
    requires HashAt(Genesis(sha, incident, created), a, |a|) == HashAt(Genesis(sha, incident, created), b, |b|)
    requires (forall n | 0 <= n < |a| :: Plain(a[n].kind)) && forall n | 0 <= n < |b| :: Plain(b[n].kind)
    ensures |a| == |b|
    ensures forall n | 0 <= n < |a| ::
              a[n].kind == b[n].kind && a[n].payload == b[n].payload && a[n].prev == b[n].prev && a[n].hash == b[n].hash
  {
    hide Verified, Hashed, HashAt, GoodDigest;
    EqualHashesEqualPasts(sha, incident, created, a, |a|, b, |b|, Hashed(incident, created, a) + Hashed(incident, created, b));
    forall n | 0 <= n < |a| ensures a[n].kind == b[n].kind && a[n].payload == b[n].payload {
      assert SameContent(a[n], b[n]);
      FirstSeparator(':', a[n].kind, a[n].payload, b[n].kind, b[n].payload);
    }
  }

  // ---------------------------------------------------------------- removing, reordering, repeating rows

  function Select(rows: seq<Row>, idx: seq<nat>): seq<Row>
    requires forall i | 0 <= i < |idx| :: idx[i] < |rows|
  {
    seq(|idx|, i requires 0 <= i < |idx| => rows[idx[i]])
  }

  /**
   * Rows left out, moved or repeated: if what remains still verifies, it is the timeline cut at its end.
   */
  lemma {:induction false} OnlyPrefixesVerify(sha: Sha, incident: string, created: string, rows: seq<Row>, idx: seq<nat>)
    requires Verified(sha, incident, created, rows) && forall i | 0 <= i < |idx| :: idx[i] < |rows|
    requires GoodDigest(sha, Hashed(incident, created, rows))
    requires Verified(sha, incident, created, Select(rows, idx))
    ensures |idx| <= |rows| && (forall i | 0 <= i < |idx| :: idx[i] == i) && Select(rows, idx) == rows[..|idx|]
  {
    var picked := Select(rows, idx);
    HashesAreDistinct(sha, incident, created, rows);
    hide Verified, Hashed, GoodDigest, Plain, RowInput, ChainOk, LinkOk;
    var g := Genesis(sha, incident, created);
    for i := 0 to |idx|
      invariant i <= |rows| && forall n | 0 <= n < i :: idx[n] == n
    {
      VerifiedLink(sha, incident, created, picked, i);
      VerifiedLink(sha, incident, created, rows, idx[i]);
      assert i > 0 ==> picked[i - 1] == rows[i - 1];
      assert HashAt(g, rows, i) == HashAt(g, rows, idx[i]);
    }
  }

  // ---------------------------------------------------------------- edits

  /** b is a with some kinds and payloads changed. */
  predicate Edited(a: seq<Row>, b: seq<Row>) {
    |a| == |b| && forall n | 0 <= n < |a| :: a[n].prev == b[n].prev && a[n].hash == b[n].hash && a[n].id == b[n].id
  }

  predicate Touched(a: Row, b: Row) {
    a.kind + ":" + a.payload != b.kind + ":" + b.payload
  }

  lemma EditedLink(sha: Sha, incident: string, created: string, a: seq<Row>, b: seq<Row>, k: nat)
    requires Verified(sha, incident, created, a) && Edited(a, b) && k < |a|
    requires GoodDigest(sha, Hashed(incident, created, a) + RowInputs(b))
    ensures LinkOk(sha, Genesis(sha, incident, created), b, k) <==> !Touched(a[k], b[k])
  {
    var g, all := Genesis(sha, incident, created), Hashed(incident, created, a) + RowInputs(b);
    assert LinkOk(sha, g, a, k);
    VerifiedHashIsPlain(sha, incident, created, a, k, all);
    VerifiedLink(sha, incident, created, a, k);
    Inputs(incident, created, a, k);
    assert RowInput(b[k]) in all;
    hide Hashed, GenesisInput, RowInputs, Verified;
    assert a[k].prev == b[k].prev && a[k].hash == b[k].hash;
    assert Before(g, b, k) == Before(g, a, k) by {
      assert k > 0 ==> a[k - 1].hash == b[k - 1].hash;
    }
    if RowInput(a[k]) == RowInput(b[k]) {
      EventInputEndsWithPrev(a[k].kind, a[k].payload, a[k].prev.value, b[k].kind, b[k].payload, b[k].prev.value);
      assert LinkOk(sha, g, b, k);
    } else {
      assert sha(RowInput(a[k])) != sha(RowInput(b[k]));
    }
  }

  /**
   * Editing kinds and payloads of a verified timeline: verify stays ok exactly when no row's
   * "kind:payload" text changed, and otherwise names the first row where it did.
   */
  lemma VerifyNamesFirstEdit(sha: Sha, incident: string, created: string, a: seq<Row>, b: seq<Row>, v: Verdict)
    requires Verified(sha, incident, created, a) && Edited(a, b)
    requires GoodDigest(sha, Hashed(incident, created, a) + RowInputs(b))
    requires Names(sha, Genesis(sha, incident, created), b, v)
    ensures v == Ok <==> forall n | 0 <= n < |a| :: !Touched(a[n], b[n])
    ensures forall k: nat | k < |a| && Touched(a[k], b[k]) && (forall n | 0 <= n < k :: !Touched(a[n], b[n])) ::
              v == Corrupt(a[k].id)
  {
    hide LinkOk, Verified, GoodDigest, Hashed, RowInputs, Touched;
    var g := Genesis(sha, incident, created);
    forall n: nat | n < |a| ensures LinkOk(sha, g, b, n) <==> !Touched(a[n], b[n]) {
      EditedLink(sha, incident, created, a, b, n);
    }
    NamesOnlyTheFirst(sha, g, b, v);
    forall k: nat | k < |a| && Touched(a[k], b[k]) && (forall n | 0 <= n < k :: !Touched(a[n], b[n]))
      ensures FirstBad(sha, g, b, k)
    {
    }
  }

  /** With plain kinds every change to a kind or a payload is a change of the "kind:payload" text. */
  lemma PlainEditsAreSeen(a: Row, b: Row)
    requires Plain(a.kind) && Plain(b.kind)
    ensures Touched(a, b) <==> a.kind != b.kind || a.payload != b.payload
  {
    if !Touched(a, b) { FirstSeparator(':', a.kind, a.payload, b.kind, b.payload); }
  }

  /** A row whose kind contains a colon always has an edit that verify does not see: its tail moves into the payload. */
  lemma ColonKindsHideAnEdit(sha: Sha, g: string, rows: seq<Row>, k: nat) returns (edited: Row)
    requires k < |rows| && ChainOk(sha, g, rows) && !Plain(rows[k].kind)
    ensures edited == rows[k].(kind := edited.kind, payload := edited.payload)
    ensures edited.kind != rows[k].kind && edited.payload != rows[k].payload
    ensures ChainOk(sha, g, rows[k := edited])
  {
    var r := rows[k];
    var i := IndexOf(':', r.kind);
    var head, tail := r.kind[..i], r.kind[i + 1..];
    edited := r.(kind := head, payload := tail + ":" + r.payload);
    assert r.kind == head + ":" + tail;
    assert r.kind + ":" + r.payload == head + ":" + (tail + ":" + r.payload);
    hide ChainOk;
    UnseenEditVerifies(sha, g, rows, k, edited);
  }

  lemma UnseenEditVerifies(sha: Sha, g: string, rows: seq<Row>, k: nat, edited: Row)
    requires k < |rows| && ChainOk(sha, g, rows) && !Touched(rows[k], edited)
    requires edited == rows[k].(kind := edited.kind, payload := edited.payload)
    ensures ChainOk(sha, g, rows[k := edited])
  {
    var more := rows[k := edited];
    forall j | 0 <= j < |more| ensures LinkOk(sha, g, more, j) {
      assert LinkOk(sha, g, rows, j);
    }
  }
}
