// gate/internal/tgtransport/callback.go: button presses on their way from Telegram to the core.

module Callbacks {
  import opened Prelude

  datatype Kind = KindUnspecified | KindApprove | KindReject | KindSnooze

  datatype Request = Request(callbackId: string, kind: Kind, reason: string, requestId: string, user: string)

  // ---------------------------------------------------------------- callback data

  /** Everything after the first c; nothing where there is none. */
  function After(c: char, s: string): string {
    if IndexOf(c, s) == |s| then "" else s[IndexOf(c, s) + 1..]
  }

  function UpTo(c: char, s: string): string {
    s[..IndexOf(c, s)]
  }

  method ParseReason(data: string) returns (r: string)
    ensures r == After(':', data)
  {
    for i := 0 to |data|
      invariant forall k | 0 <= k < i :: data[k] != ':'
    {
      if data[i] == ':' {
        IndexIs(':', data, i);
        return data[i + 1..];
      }
    }
    IndexIs(':', data, |data|);
    return "";
  }

  method ParseRequestId(data: string) returns (r: string)
    ensures r == UpTo(':', After(':', data))
  {
    var first := -1;
    for i := 0 to |data|
      invariant -1 <= first < i
      invariant first == -1 ==> forall k | 0 <= k < i :: data[k] != ':'
      invariant first >= 0 ==> data[first] == ':' && forall k | 0 <= k < i && k != first :: data[k] != ':'
    {
      if data[i] == ':' {
        if first == -1 {
          first := i;
        } else {
          IndexIs(':', data, first);
          IndexIs(':', data[first + 1..], i - first - 1);
          assert data[first + 1..][..i - first - 1] == data[first + 1..i];
          return data[first + 1..i];
        }
      }
    }
    if first != -1 {
      IndexIs(':', data, first);
      IndexIs(':', data[first + 1..], |data| - first - 1);
      if first + 1 < |data| {
        return data[first + 1..];
      }
    } else {
      IndexIs(':', data, |data|);
    }
    return "";
  }

  function FoldByte(c: char): char {
    if 'A' <= c <= 'Z' then c + ('a' - 'A') else c
  }

  /** s starts with prefix, in any mixture of ASCII cases. */
  ghost predicate StartsWithFold(s: string, prefix: string) {
    |prefix| <= |s| && forall i | 0 <= i < |prefix| :: FoldByte(s[i]) == prefix[i]
  }

  method HasPrefixFold(s: string, prefix: string) returns (yes: bool)
    ensures yes == StartsWithFold(s, prefix)
  {
    if |s| < |prefix| {
      return false;
    }
    for i := 0 to |prefix|
      invariant forall k | 0 <= k < i :: FoldByte(s[k]) == prefix[k]
    {
      var a, b := s[i], prefix[i];
      if 'A' <= a <= 'Z' {
        a := a + ('a' - 'A');
      }
      if a != b {
        return false;
      }
    }
    return true;
  }

  ghost predicate KindOf(data: string, k: Kind) {
    && (k.KindApprove? <==> StartsWithFold(data, "approve"))
    && (k.KindReject? <==> StartsWithFold(data, "reject"))
    && (k.KindSnooze? <==> StartsWithFold(data, "snooze"))
  }

  method ParseKind(data: string) returns (k: Kind)
    ensures KindOf(data, k)
  {
    PrefixesExclude(data);
    var approve := HasPrefixFold(data, "approve");
    if approve { return KindApprove; }
    var reject := HasPrefixFold(data, "reject");
    if reject { return KindReject; }
    var snooze := HasPrefixFold(data, "snooze");
    if snooze { return KindSnooze; }
    return KindUnspecified;
  }

  lemma PrefixesExclude(data: string)
    ensures StartsWithFold(data, "approve") ==> FoldByte(data[0]) == 'a'
    ensures StartsWithFold(data, "reject") ==> FoldByte(data[0]) == 'r'
    ensures StartsWithFold(data, "snooze") ==> FoldByte(data[0]) == 's'
  {
    assert "approve"[0] == 'a' && "reject"[0] == 'r' && "snooze"[0] == 's';
  }

  /** The button approve:{rid} comes back as an approval of rid. */
  lemma ApproveButtonReadsBack(rid: string, k: Kind)
    requires ':' !in rid && KindOf("approve:" + rid, k)
    ensures k == KindApprove && UpTo(':', After(':', "approve:" + rid)) == rid
  {
    var data := "approve:" + rid;
    assert forall i | 0 <= i < 7 :: FoldByte(data[i]) == "approve"[i];
    IndexIs(':', data, 7);
    assert data[8..] == rid;
    IndexIs(':', rid, |rid|);
    assert rid[..|rid|] == rid;
  }

  /**
   * reject:{rid}:{reason} comes back as a rejection of rid whatever the reason contains; the reason that is
   * passed on is the request id and the reason together, so it is never the reason given.
   */
  lemma RejectDataReadsBack(rid: string, reason: string, k: Kind)
    requires ':' !in rid && KindOf("reject:" + rid + ":" + reason, k)
    ensures var data := "reject:" + rid + ":" + reason;
            k == KindReject && UpTo(':', After(':', data)) == rid && After(':', data) == rid + ":" + reason != reason
  {
    var data := "reject:" + rid + ":" + reason;
    assert forall i | 0 <= i < 6 :: FoldByte(data[i]) == "reject"[i];
    assert data[6] == ':';
    IndexIs(':', data, 6);
    var rest := rid + ":" + reason;
    assert data[7..] == rest;
    assert rest[|rid|] == ':' && forall i | 0 <= i < |rid| :: rest[i] == rid[i];
    IndexIs(':', rest, |rid|);
    assert rest[..|rid|] == rid;
    assert |rest| > |reason|;
  }
}
