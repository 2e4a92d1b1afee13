// gate/internal/ingest/alertmanager.go: what identifies an alert that comes without a fingerprint.

module Fingerprint {
  import opened Prelude
  import opened TextOrder
  import opened AlertCache
  import opened Ingest

  /** SHA-256 of a text, first eight bytes in hex. */
  type Digest = string -> string

  function Label(key: string, value: string): string {
    key + "=" + value + ";"
  }

  /** The labels written one after the other, in the order of keys. */
  function Encode(keys: seq<string>, labels: map<string, string>): string
    requires forall k | k in keys :: k in labels
  {
    if keys == [] then ""
    else
      assert forall k | k in keys[1..] :: k in keys;
      Label(keys[0], labels[keys[0]]) + Encode(keys[1..], labels)
  }

  /** An order in which a range over the map may visit it. */
  ghost predicate Order(keys: seq<string>, labels: map<string, string>) {
    multiset(keys) == multiset(labels.Keys)
  }

  lemma OrderLists(keys: seq<string>, labels: map<string, string>)
    requires Order(keys, labels)
    ensures forall k :: k in keys <==> k in labels
  {
    forall k ensures k in keys <==> k in labels {
      assert k in multiset(keys) <==> k in multiset(labels.Keys);
    }
  }

  lemma SortedOrder(keys: seq<string>, labels: map<string, string>)
    requires Order(keys, labels)
    ensures Order(Sort(keys), labels)
  {
  }

  /** text is what deriveFingerprint hashes, whichever order the map is visited in. */
  ghost predicate TextOf(text: string, labels: map<string, string>) {
    forall keys | Order(keys, labels) :: (forall k | k in Sort(keys) :: k in labels) && text == Encode(Sort(keys), labels)
  }

  /** The text does not depend on the order in which the map was visited. */
  lemma VisitingOrderIsIrrelevant(labels: map<string, string>, keys: seq<string>)
    requires Order(keys, labels)
    ensures forall k | k in Sort(keys) :: k in labels
    ensures TextOf(Encode(Sort(keys), labels), labels)
  {
    SortedOrder(keys, labels);
    OrderLists(Sort(keys), labels);
    forall other | Order(other, labels) ensures Sort(other) == Sort(keys) {
      SortIsCanonical(other, keys);
    }
  }

  lemma {:induction false} EncodeSnoc(keys: seq<string>, k: string, labels: map<string, string>)
    requires k in labels && forall x | x in keys :: x in labels
    ensures Encode(keys + [k], labels) == Encode(keys, labels) + Label(k, labels[k])
  {
    if keys == [] {
      assert Encode([], labels) == "" && [k][1..] == [];
    } else {
      assert (keys + [k])[1..] == keys[1..] + [k];
      EncodeSnoc(keys[1..], k, labels);
    }
  }

  lemma LabelInPieces(b: string, key: string, value: string)
    ensures b + key + "=" + value + ";" == b + Label(key, value)
  {
  }

  /** The keys, in whatever order the range over the map yields them. */
  method KeysOf(labels: map<string, string>) returns (keys: seq<string>)
    ensures Order(keys, labels)
  {
    keys := [];
    var left := labels.Keys;
    while left != {}
      invariant left <= labels.Keys && multiset(keys) == multiset(labels.Keys - left)
      decreases |left|
    {
      var k :| k in left;
      assert labels.Keys - (left - {k}) == (labels.Keys - left) + {k};
      keys := keys + [k];
      left := left - {k};
    }
    assert labels.Keys - left == labels.Keys;
  }

  method Write(keys: seq<string>, labels: map<string, string>) returns (b: string)
    requires forall k | k in keys :: k in labels
    ensures b == Encode(keys, labels)
  {
    b := "";
    for i := 0 to |keys|
      invariant b == Encode(keys[..i], labels)
    {
      hide Encode, Label;
      EncodeSnoc(keys[..i], keys[i], labels);
      TakeSnoc(keys, i);
      LabelInPieces(b, keys[i], labels[keys[i]]);
      b := b + keys[i];
      b := b + "=";
      b := b + labels[keys[i]];
      b := b + ";";
    }
    assert keys[..|keys|] == keys;
  }

  /** Some text is hashed, and only one. */
  lemma TextIsUnique(text: string, other: string, labels: map<string, string>, keys: seq<string>)
    requires Order(keys, labels) && TextOf(text, labels) && TextOf(other, labels)
    ensures text == other
  {
  }

  /** The fingerprint is the digest of the text of the labels. */
  ghost predicate Derived(digest: Digest, labels: map<string, string>, fingerprint: string) {
    && (exists text :: TextOf(text, labels))
    && (forall text :: TextOf(text, labels) ==> fingerprint == "derived-" + digest(text))
  }

  method DeriveFingerprint(digest: Digest, labels: map<string, string>) returns (fingerprint: string)
    ensures Derived(digest, labels, fingerprint)
  {
    var keys := KeysOf(labels);
    VisitingOrderIsIrrelevant(labels, keys);
    var b := Write(Sort(keys), labels);
    hide TextOf;
    forall text | TextOf(text, labels) ensures text == b {
      TextIsUnique(text, b, labels, keys);
    }
    return "derived-" + digest(b);
  }

  // ---------------------------------------------------------------- reading the labels back

  /** key up to the first '=', value up to the next ';', and so on. */
  function Decode(text: string): map<string, string>
    decreases |text|
  {
    var i := IndexOf('=', text);
    if i == |text| then map[]
    else
      var rest := text[i + 1..];
      var j := IndexOf(';', rest);
      if j == |rest| then map[] else Decode(rest[j + 1..])[text[..i] := rest[..j]]
  }

  /** No key holds a '=', no value a ';'. */
  predicate Unambiguous(labels: map<string, string>) {
    forall k | k in labels :: '=' !in k && ';' !in labels[k]
  }

  lemma DecodeLabel(key: string, value: string, more: string)
    requires '=' !in key && ';' !in value
    ensures Decode(Label(key, value) + more) == Decode(more)[key := value]
  {
    var text, rest := Label(key, value) + more, value + ";" + more;
    LabelSplits(key, value, more);
    IndexAfter('=', key, rest);
    IndexAfter(';', value, more);
  }

  lemma LabelSplits(key: string, value: string, more: string)
    ensures Label(key, value) + more == key + "=" + (value + ";" + more)
  {
  }

  lemma IndexAfter(c: char, a: string, b: string)
    requires c !in a
    ensures var s := a + [c] + b; IndexOf(c, s) == |a| && |a| < |s| && s[..|a|] == a && s[|a| + 1..] == b
  {
    var s := a + [c] + b;
    assert s[|a|] == c && forall k | 0 <= k < |a| :: s[k] != c;
  }

  function Only(keys: seq<string>, labels: map<string, string>): map<string, string> {
    map k | k in labels && k in keys :: labels[k]
  }

  lemma DecodeNothing()
    ensures Decode("") == map[]
  {
  }

  lemma {:induction false} DecodeEncode(keys: seq<string>, labels: map<string, string>)
    requires Unambiguous(labels) && forall k | k in keys :: k in labels
    ensures Decode(Encode(keys, labels)) == Only(keys, labels)
  {
    hide Decode, Label;
    if keys == [] {
      assert Decode("") == map[] by { DecodeNothing(); }
    } else {
      assert forall k | k in keys[1..] :: k in keys;
      DecodeLabel(keys[0], labels[keys[0]], Encode(keys[1..], labels));
      DecodeEncode(keys[1..], labels);
      assert forall k | k in keys :: k == keys[0] || k in keys[1..];
    }
  }

  lemma {:induction false} SomeOrder(s: set<string>) returns (keys: seq<string>)
    ensures multiset(keys) == multiset(s)
    decreases |s|
  {
    if s == {} {
      keys := [];
    } else {
      var k :| k in s;
      keys := SomeOrder(s - {k});
      assert s == (s - {k}) + {k};
      keys := keys + [k];
    }
  }

  lemma SortedKeys(text: string, labels: map<string, string>) returns (sorted: seq<string>)
    requires TextOf(text, labels)
    ensures forall k :: k in sorted <==> k in labels
    ensures text == Encode(sorted, labels)
  {
    hide Encode, Sort;
    var keys := SomeOrder(labels.Keys);
    assert Order(keys, labels);
    SortedOrder(keys, labels);
    sorted := Sort(keys);
    OrderLists(sorted, labels);
  }

  /** The hashed text determines the labels. */
  lemma LabelsReadBack(text: string, labels: map<string, string>)
    requires TextOf(text, labels) && Unambiguous(labels)
    ensures Decode(text) == labels
  {
    hide TextOf, Encode, Decode;
    var sorted := SortedKeys(text, labels);
    DecodeEncode(sorted, labels);
    assert Only(sorted, labels) == labels;
  }

  /** Two unambiguous alerts hash the same text only if they have the same labels. */
  lemma TextIsInjective(text: string, a: map<string, string>, b: map<string, string>)
    requires TextOf(text, a) && TextOf(text, b) && Unambiguous(a) && Unambiguous(b)
    ensures a == b
  {
    LabelsReadBack(text, a);
    LabelsReadBack(text, b);
  }

  lemma TextOfOneLabel(key: string, value: string)
    ensures TextOf(Label(key, value), map[key := value])
  {
    var labels := map[key := value];
    assert multiset([key]) == multiset(labels.Keys);
    assert Sort([key]) == [key] && [key][1..] == [];
    assert Encode([key], labels) == Label(key, value) + Encode([], labels);
    VisitingOrderIsIrrelevant(labels, [key]);
  }

  /**
   * Without that restriction nothing with two labels is safe: the text of any non-empty set of labels
   * is also the text of a single label.
   */
  lemma EveryTextIsOneLabel(text: string, labels: map<string, string>)
    requires TextOf(text, labels) && labels != map[]
    ensures exists k, v :: TextOf(text, map[k := v])
  {
    hide *;
    var sorted := SortedKeys(text, labels);
    var some :| some in labels;
    assert some in sorted;
    EncodeEnds(sorted, labels);
    var k := sorted[0];
    var v := text[|k| + 1..|text| - 1];
    OneLabel(text, k);
    TextOfOneLabel(k, v);
  }

  lemma OneLabel(text: string, k: string)
    requires |k| + 2 <= |text| && text[..|k|] == k && text[|k|] == '=' && text[|text| - 1] == ';'
    ensures text == Label(k, text[|k| + 1..|text| - 1])
  {
  }

  lemma {:induction false} EncodeEnds(keys: seq<string>, labels: map<string, string>)
    requires keys != [] && forall k | k in keys :: k in labels
    ensures var t := Encode(keys, labels);
            |keys[0]| + 2 <= |t| && t[..|keys[0]|] == keys[0] && t[|keys[0]|] == '=' && t[|t| - 1] == ';'
  {
    if |keys| > 1 {
      assert forall k | k in keys[1..] :: k in keys;
      EncodeEnds(keys[1..], labels);
    }
  }

  // ---------------------------------------------------------------- normalizeOne

  /** unicode.IsSpace */
  predicate IsSpace(c: char) {
    c in "\t\n\U{b}\U{c}\r \U{85}\U{a0}\U{1680}\U{2028}\U{2029}\U{202f}\U{205f}\U{3000}" || '\U{2000}' <= c <= '\U{200a}'
  }

  function TrimLeft(s: string): string {
    if s != "" && IsSpace(s[0]) then TrimLeft(s[1..]) else s
  }

  function TrimRight(s: string): string {
    if s != "" && IsSpace(s[|s| - 1]) then TrimRight(s[..|s| - 1]) else s
  }

  function TrimSpace(s: string): string {
    TrimRight(TrimLeft(s))
  }

  /** strings.EqualFold(s, "resolved"): the long s folds to s */
  predicate SaysResolved(s: string) {
    |s| == 8 && forall i | 0 <= i < 8 :: s[i] == "resolved"[i] || s[i] == "RESOLVED"[i] || (i == 2 && s[i] == '\U{17f}')
  }

  /** Blank text around what is left, and none at its ends. */
  predicate Blank(s: string) {
    forall i | 0 <= i < |s| :: IsSpace(s[i])
  }

  lemma {:induction false} TrimLeftIs(s: string) returns (front: string)
    ensures s == front + TrimLeft(s) && Blank(front)
    ensures TrimLeft(s) != "" ==> !IsSpace(TrimLeft(s)[0])
  {
    hide IsSpace;
    if s != "" && IsSpace(s[0]) {
      var rest := TrimLeftIs(s[1..]);
      front := [s[0]] + rest;
    } else {
      front := "";
    }
  }

  lemma {:induction false} TrimRightIs(s: string) returns (back: string)
    ensures s == TrimRight(s) + back && Blank(back)
    ensures TrimRight(s) != "" ==> !IsSpace(TrimRight(s)[|TrimRight(s)| - 1])
  {
    hide IsSpace;
    if s != "" && IsSpace(s[|s| - 1]) {
      var rest := TrimRightIs(s[..|s| - 1]);
      back := rest + [s[|s| - 1]];
      assert s == s[..|s| - 1] + [s[|s| - 1]];
    } else {
      back := "";
    }
  }

  /** strings.TrimSpace cuts blanks off both ends and nothing else. */
  lemma TrimSpaceIs(s: string) returns (front: string, back: string)
    ensures s == front + TrimSpace(s) + back && Blank(front) && Blank(back)
    ensures var t := TrimSpace(s); t != "" ==> !IsSpace(t[0]) && !IsSpace(t[|t| - 1])
  {
    hide IsSpace;
    front := TrimLeftIs(s);
    back := TrimRightIs(TrimLeft(s));
    assert TrimSpace(s) != "" ==> TrimLeft(s)[0] == TrimSpace(s)[0];
  }

  function Lower(c: char): char {
    if 'A' <= c <= 'Z' then c + ('a' - 'A') else c
  }

  /** In ASCII, a status reads resolved in any mixture of cases, and no other does. */
  lemma ResolvedInAnyCase(s: string)
    requires forall i | 0 <= i < |s| :: s[i] < '\U{80}'
    ensures SaysResolved(s) <==> seq(|s|, i requires 0 <= i < |s| => Lower(s[i])) == "resolved"
  {
    var low := seq(|s|, i requires 0 <= i < |s| => Lower(s[i]));
    if |s| == 8 {
      forall i | 0 <= i < 8 ensures Lower(s[i]) == "resolved"[i] <==> s[i] == "resolved"[i] || s[i] == "RESOLVED"[i] {
        CaseOf(i);
      }
      assert low == "resolved" <==> forall i | 0 <= i < 8 :: low[i] == "resolved"[i];
    }
  }

  lemma CaseOf(i: nat)
    requires i < 8
    ensures 'A' <= "RESOLVED"[i] <= 'Z' && "RESOLVED"[i] + ('a' - 'A') == "resolved"[i] && 'a' <= "resolved"[i] <= 'z'
  {
  }

  method NormalizeOne(digest: Digest, status: string, labels: map<string, string>, fingerprint: string)
    returns (event: AlertEvent)
    ensures event.fingerprint != ""
    ensures event.status == if SaysResolved(status) then Resolved else Firing
    ensures TrimSpace(fingerprint) != "" ==> event.fingerprint == TrimSpace(fingerprint)
    ensures TrimSpace(fingerprint) == "" ==> Derived(digest, labels, event.fingerprint)
  {
    var s, f := Firing, TrimSpace(fingerprint);
    if SaysResolved(status) {
      s := Resolved;
    }
    if f == "" {
      f := DeriveFingerprint(digest, labels);
    }
    return AlertEvent(f, s);
  }

  /** So no normalised alert is ever refused by the core. */
  lemma NormalisedAlertsAreAccepted(acts: seq<Act>, h: nat, i: nat)
    requires h in Ingest.Run(acts).handlers && i < |Ingest.Run(acts).handlers[h].answers|
    requires forall n | 0 <= n < |Ingest.Run(acts).handlers[h].batch| :: Ingest.Run(acts).handlers[h].batch[n].fingerprint != ""
    ensures Ingest.Run(acts).handlers[h].answers[i].accepted
  {
    ExactlyOnceIngest(acts);
    assert RightlyAnswered(Ingest.Run(acts).rows, Ingest.Run(acts).handlers[h], i);
  }
}
