// gate/internal/ingest/idempotency.go: the gate's first-writer-wins cache of accepted answers.
// Times are nanoseconds; every clock reading is a parameter.

module AlertCache {
  import opened Prelude

  const DEFAULT_TTL: int := 24 * 3600 * 1_000_000_000
  const MAX_ENTRIES: nat := 100_000

  /** What the core answers to ReportIncident. */
  datatype Response = Response(accepted: bool, deduplicated: bool, incident: string, message: string)

  datatype Entry = Entry(response: Response, expires: int)

  datatype AlertStatus = Unspecified | Firing | Resolved

  function StatusName(s: AlertStatus): string {
    match s
    case Unspecified => "ALERT_STATUS_UNSPECIFIED"
    case Firing => "ALERT_STATUS_FIRING"
    case Resolved => "ALERT_STATUS_RESOLVED"
  }

  function IdempotencyKey(fingerprint: string, status: AlertStatus): string {
    fingerprint + ['\0'] + StatusName(status)
  }

  /** One key, one (fingerprint, status), whatever bytes the fingerprint holds. */
  lemma KeyIsInjective(f1: string, s1: AlertStatus, f2: string, s2: AlertStatus)
    requires IdempotencyKey(f1, s1) == IdempotencyKey(f2, s2)
    ensures f1 == f2 && s1 == s2
  {
    LastSeparator('\0', f1, StatusName(s1), f2, StatusName(s2));
    StatusNamesDiffer(s1, s2);
  }

  lemma StatusNamesDiffer(s1: AlertStatus, s2: AlertStatus)
    requires StatusName(s1) == StatusName(s2)
    ensures s1 == s2
  {
    assert |StatusName(Unspecified)| == 24 && |StatusName(Firing)| == 19 && |StatusName(Resolved)| == 21;
  }

  // ---------------------------------------------------------------- contents

  datatype State = State(m: map<string, Entry>, full: bool)

  const EMPTY := State(map[], false)

  predicate Expired(e: Entry, now: int) {
    now > e.expires
  }

  function Lookup(s: State, key: string, now: int): Option<Response> {
    if key in s.m && !Expired(s.m[key], now) then Some(s.m[key].response) else None
  }

  function Live(m: map<string, Entry>, now: int): map<string, Entry> {
    map k | k in m && !Expired(m[k], now) :: m[k]
  }

  /** What Put leaves: the clock is read once if it evicts and once if it writes. */
  function PutSpec(s: State, key: string, response: Response, evictAt: int, writeAt: int, ttl: int): State {
    if key in s.m then s
    else
      var m := if |s.m| >= MAX_ENTRIES then Live(s.m, evictAt) else s.m;
      if |m| >= MAX_ENTRIES then State(m, true)
      else State(m[key := Entry(response, writeAt + ttl)], s.full)
  }

  class Store {
    var m: map<string, Entry>
    var full: bool
    const ttl: int

    constructor ()
      ensures View() == EMPTY && ttl == DEFAULT_TTL
    {
      m, full, ttl := map[], false, DEFAULT_TTL;
    }

    function View(): State reads this {
      State(m, full)
    }

    method Get(key: string, now: int) returns (r: Option<Response>)
      ensures r == Lookup(View(), key, now)
    {
      if key !in m || now > m[key].expires {
        return None;
      }
      return Some(m[key].response);
    }

    method EvictLocked(now: int)
      modifies this`m
      ensures m == Live(old(m), now)
    {
      var keys := m.Keys;
      while keys != {}
        invariant m.Keys <= old(m).Keys && forall k | k in m :: m[k] == old(m)[k]
        invariant forall k | k in old(m) :: k in m <==> k in keys || !Expired(old(m)[k], now)
        invariant keys <= old(m).Keys
        decreases |keys|
      {
        var k :| k in keys;
        keys := keys - {k};
        if now > m[k].expires {
          m := m - {k};
        }
      }
    }

    method Put(key: string, response: Response, evictAt: int, writeAt: int)
      modifies this
      ensures View() == PutSpec(old(View()), key, response, evictAt, writeAt, ttl)
    {
      if key in m {
        return;
      }
      if |m| >= MAX_ENTRIES {
        EvictLocked(evictAt);
      }
      if |m| >= MAX_ENTRIES {
        full := true;
        return;
      }
      m := m[key := Entry(response, writeAt + ttl)];
    }
  }

  // ---------------------------------------------------------------- runs

  datatype Op =
    | Get(key: string, now: int)
    | Put(key: string, response: Response, evictAt: int, writeAt: int)

  function Apply(s: State, op: Op, ttl: int): State {
    match op
    case Get(_, _) => s
    case Put(key, response, evictAt, writeAt) => PutSpec(s, key, response, evictAt, writeAt, ttl)
  }

  function Run(ops: seq<Op>, ttl: int): State {
    if ops == [] then EMPTY else Apply(Run(ops[..|ops| - 1], ttl), ops[|ops| - 1], ttl)
  }

  lemma RunStep(ops: seq<Op>, n: nat, ttl: int)
    requires n < |ops|
    ensures Run(ops[..n + 1], ttl) == Apply(Run(ops[..n], ttl), ops[n], ttl)
  {
    assert ops[..n + 1][..n] == ops[..n];
  }

  function FirstReading(op: Op): int {
    if op.Get? then op.now else op.evictAt
  }

  function LastReading(op: Op): int {
    if op.Get? then op.now else op.writeAt
  }

  /** The clock never runs backwards, within an operation or between two. */
  ghost predicate MonotoneClock(ops: seq<Op>) {
    && (forall i | 0 <= i < |ops| :: FirstReading(ops[i]) <= LastReading(ops[i]))
    && forall i, j | 0 <= i < j < |ops| :: LastReading(ops[i]) <= FirstReading(ops[j])
  }

  lemma LiveIsSmaller(m: map<string, Entry>, now: int)
    ensures |Live(m, now)| <= |m|
  {
    var live := Live(m, now);
    assert live.Keys <= m.Keys;
    SubsetSize(live.Keys, m.Keys);
  }

  lemma {:induction false} SubsetSize<T>(a: set<T>, b: set<T>)
    requires a <= b
    ensures |a| <= |b|
    decreases |b|
  {
    assert b == a + (b - a);
  }

  /** The cache never holds more than MAX_ENTRIES answers. */
  lemma {:induction false} CacheIsBounded(ops: seq<Op>, ttl: int)
    ensures |Run(ops, ttl).m| <= MAX_ENTRIES
  {
    if ops != [] {
      var s, op := Run(ops[..|ops| - 1], ttl), ops[|ops| - 1];
      CacheIsBounded(ops[..|ops| - 1], ttl);
      if op.Put? { LiveIsSmaller(s.m, op.evictAt); }
    }
  }

  /** An entry stays, untouched, at least until it has expired. */
  lemma {:induction false} EntryStays(ops: seq<Op>, i: nat, j: nat, key: string, ttl: int)
    requires MonotoneClock(ops) && i <= j < |ops|
    requires key in Run(ops[..i], ttl).m && FirstReading(ops[j]) <= Run(ops[..i], ttl).m[key].expires
    ensures key in Run(ops[..j], ttl).m && Run(ops[..j], ttl).m[key] == Run(ops[..i], ttl).m[key]
    decreases j
  {
    if i < j {
      assert LastReading(ops[j - 1]) <= FirstReading(ops[j]) && FirstReading(ops[j - 1]) <= LastReading(ops[j - 1]);
      EntryStays(ops, i, j - 1, key, ttl);
      RunStep(ops, j - 1, ttl);
    }
  }

  /** Once Get hits, every Get of that key answers the same until the entry expires, whatever is put or evicted between. */
  lemma HitsAgree(ops: seq<Op>, i: nat, j: nat, ttl: int)
    requires MonotoneClock(ops) && i <= j < |ops| && ops[i].Get? && ops[j].Get? && ops[i].key == ops[j].key
    requires Lookup(Run(ops[..i], ttl), ops[i].key, ops[i].now).Some?
    requires ops[j].now <= Run(ops[..i], ttl).m[ops[i].key].expires
    ensures Lookup(Run(ops[..j], ttl), ops[j].key, ops[j].now) == Lookup(Run(ops[..i], ttl), ops[i].key, ops[i].now)
  {
    EntryStays(ops, i, j, ops[i].key, ttl);
  }

  /** An answer put under a new key, where fewer than 100,000 are held, is what every Get of the key answers for 24 hours. */
  lemma PutIsRemembered(ops: seq<Op>, i: nat, j: nat)
    requires MonotoneClock(ops) && i < j < |ops| && ops[i].Put? && ops[j] == Get(ops[i].key, FirstReading(ops[j]))
    requires ops[i].key !in Run(ops[..i], DEFAULT_TTL).m && |Run(ops[..i], DEFAULT_TTL).m| < 100_000
    requires ops[j].now <= ops[i].writeAt + 86_400_000_000_000
    ensures Lookup(Run(ops[..j], DEFAULT_TTL), ops[j].key, ops[j].now) == Some(ops[i].response)
  {
    RunStep(ops, i, DEFAULT_TTL);
    EntryStays(ops, i + 1, j, ops[i].key, DEFAULT_TTL);
  }

  /** The operation throws expired entries out: only a Put of a new key into a full cache does. */
  predicate Evicts(s: State, op: Op) {
    op.Put? && op.key !in s.m && |s.m| >= MAX_ENTRIES
  }

  lemma KeptByStep(s: State, op: Op, key: string, ttl: int)
    requires key in s.m && !Evicts(s, op)
    ensures key in Apply(s, op, ttl).m && Apply(s, op, ttl).m[key] == s.m[key]
  {
  }

  lemma {:induction false} ExpiredEntryStays(ops: seq<Op>, i: nat, j: nat, key: string, ttl: int)
    requires i <= j <= |ops| && key in Run(ops[..i], ttl).m
    requires forall n | i <= n < j :: !Evicts(Run(ops[..n], ttl), ops[n])
    ensures key in Run(ops[..j], ttl).m && Run(ops[..j], ttl).m[key] == Run(ops[..i], ttl).m[key]
    decreases j
  {
    hide Apply, Evicts, Run;
    if i < j {
      ExpiredEntryStays(ops, i, j - 1, key, ttl);
      RunStep(ops, j - 1, ttl);
      KeptByStep(Run(ops[..j - 1], ttl), ops[j - 1], key, ttl);
    }
  }

  /**
   * An expired entry answers nothing and still keeps Put out: until the cache is full enough to evict,
   * every later Get of the key misses, however often the key is put again.
   */
  lemma ExpiredEntryBlocksPut(ops: seq<Op>, i: nat, j: nat, key: string, ttl: int)
    requires MonotoneClock(ops) && i <= j < |ops| && ops[j] == Get(key, FirstReading(ops[j]))
    requires key in Run(ops[..i], ttl).m && Expired(Run(ops[..i], ttl).m[key], FirstReading(ops[i]))
    requires forall n | i <= n < j :: !Evicts(Run(ops[..n], ttl), ops[n])
    ensures Lookup(Run(ops[..j], ttl), key, ops[j].now) == None
  {
    ExpiredEntryStays(ops, i, j, key, ttl);
    assert i < j ==> FirstReading(ops[i]) <= LastReading(ops[i]) <= FirstReading(ops[j]);
  }

  /** An expired entry is gone after an eviction, and nothing puts it back. */
  lemma {:induction false} EvictedStaysOut(ops: seq<Op>, n: nat, j: nat, key: string, ttl: int)
    requires MonotoneClock(ops) && n < j <= |ops| && key in Run(ops[..n], ttl).m && Evicts(Run(ops[..n], ttl), ops[n])
    requires Expired(Run(ops[..n], ttl).m[key], FirstReading(ops[n]))
    requires forall m | n < m < j :: !(ops[m].Put? && ops[m].key == key)
    ensures key !in Run(ops[..j], ttl).m
    decreases j
  {
    RunStep(ops, j - 1, ttl);
    if j > n + 1 { EvictedStaysOut(ops, n, j - 1, key, ttl); }
  }

  /** Some operation in [i, j) evicts. */
  ghost predicate Evicted(ops: seq<Op>, i: nat, j: nat, ttl: int)
    requires j <= |ops|
  {
    exists n | i <= n < j :: Evicts(Run(ops[..n], ttl), ops[n])
  }

  /** Nobody has put the key since an eviction in [i, j). */
  ghost predicate NotPutSince(ops: seq<Op>, i: nat, j: nat, key: string, ttl: int)
    requires j <= |ops|
  {
    forall n, m | i <= n < m < j && Evicts(Run(ops[..n], ttl), ops[n]) :: !(ops[m].Put? && ops[m].key == key)
  }

  /**
   * A Put of a key whose entry has expired is stored, where the cache has room, exactly when an eviction came
   * before it; here the first Put of the key after the eviction.
   */
  lemma PutIsStoredIffEvicted(ops: seq<Op>, i: nat, j: nat, key: string, ttl: int)
    requires MonotoneClock(ops) && i <= j < |ops| && ops[j].Put? && ops[j].key == key && ttl >= 0
    requires key in Run(ops[..i], ttl).m && Expired(Run(ops[..i], ttl).m[key], FirstReading(ops[i]))
    requires |Run(ops[..j], ttl).m| < MAX_ENTRIES && NotPutSince(ops, i, j, key, ttl)
    ensures key in Run(ops[..j + 1], ttl).m
    ensures Run(ops[..j + 1], ttl).m[key] == Entry(ops[j].response, ops[j].writeAt + ttl) <==> Evicted(ops, i, j, ttl)
  {
    RunStep(ops, j, ttl);
    ClockAdvances(ops, i, j);
    hide Run, Live, NotPutSince, MonotoneClock;
    if Evicted(ops, i, j, ttl) {
      hide Evicted;
      EvictedByThen(ops, i, j, key, ttl);
    } else {
      ExpiredEntryStays(ops, i, j, key, ttl);
    }
  }

  lemma ClockAdvances(ops: seq<Op>, i: nat, j: nat)
    requires MonotoneClock(ops) && i <= j < |ops|
    ensures FirstReading(ops[i]) <= FirstReading(ops[j]) <= LastReading(ops[j])
  {
    assert i < j ==> FirstReading(ops[i]) <= LastReading(ops[i]) <= FirstReading(ops[j]);
  }

  lemma EvictedByThen(ops: seq<Op>, i: nat, j: nat, key: string, ttl: int)
    requires MonotoneClock(ops) && i <= j < |ops|
    requires key in Run(ops[..i], ttl).m && Expired(Run(ops[..i], ttl).m[key], FirstReading(ops[i]))
    requires Evicted(ops, i, j, ttl) && NotPutSince(ops, i, j, key, ttl)
    ensures key !in Run(ops[..j], ttl).m
  {
    hide Run, Evicts;
    var n := FirstEviction(ops, i, i, j, ttl);
    ExpiredEntryStays(ops, i, n, key, ttl);
    ClockAdvances(ops, i, n);
    EvictedStaysOut(ops, n, j, key, ttl);
  }

  lemma {:induction false} FirstEviction(ops: seq<Op>, i: nat, k: nat, j: nat, ttl: int) returns (n: nat)
    requires i <= k <= j <= |ops| && forall m | i <= m < k :: !Evicts(Run(ops[..m], ttl), ops[m])
    requires exists m | i <= m < j :: Evicts(Run(ops[..m], ttl), ops[m])
    ensures i <= n < j && Evicts(Run(ops[..n], ttl), ops[n]) && forall m | i <= m < n :: !Evicts(Run(ops[..m], ttl), ops[m])
    decreases j - k
  {
    if Evicts(Run(ops[..k], ttl), ops[k]) { n := k; } else { n := FirstEviction(ops, i, k + 1, j, ttl); }
  }
}
