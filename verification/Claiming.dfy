/** Which rows one claim statement takes: ORDER BY priority rank, created_at
    LIMIT k over the due rows nobody has locked. Equal ranks break freely. */
module Claiming {
  import opened Domain
  import opened Tables

  function PriorityRank(p: Priority): int {
    match p
    case High => 0
    case Normal => 1
    case _ => 2
  }

  /** `a` may come before `b` in the claim order. */
  predicate NoLater(a: Notification, b: Notification) {
    || PriorityRank(a.priority) < PriorityRank(b.priority)
    || (PriorityRank(a.priority) == PriorityRank(b.priority) && a.createdAt <= b.createdAt)
  }

  /** The rows the WHERE clause admits and SKIP LOCKED does not skip. */
  function Candidates(rows: map<string, Notification>, channel: Channel, at: Time, locked: set<string>): set<string> {
    set id | id in rows && rows[id].channel == channel && Queued(rows[id].status) && Due(rows[id], at) && id !in locked
  }

  /** `s` is a possible result of taking the first `k` of `d` in claim order. */
  predicate FirstOf(rows: map<string, Notification>, d: set<string>, k: nat, s: set<string>) {
    && s <= d <= rows.Keys
    && |s| <= k
    && (|s| < k ==> s == d)
    && forall x, y | x in s && y in d - s :: NoLater(rows[x], rows[y])
  }

  predicate ValidClaim(
    rows: map<string, Notification>, channel: Channel, at: Time, locked: set<string>, k: nat, picked: set<string>)
  {
    FirstOf(rows, Candidates(rows, channel, at, locked), k, picked)
  }

  /** A claim, said row by row: it takes rows that wait on the channel, are due and are
      not locked, and it leaves such a row only when it is full and of rows at least as
      urgent: high before normal before any other priority, older before younger. */
  lemma ClaimMeaning(
    rows: map<string, Notification>, channel: Channel, at: Time, locked: set<string>, k: nat, s: set<string>,
    x: string, y: string)
    requires ValidClaim(rows, channel, at, locked, k, s) && x in s
    ensures x in rows && x !in locked && rows[x].channel == channel
    ensures rows[x].status == Pending || rows[x].status == Scheduled
    ensures rows[x].scheduledAt == None || rows[x].scheduledAt.value <= at
    ensures y in rows && y !in s && y !in locked && rows[y].channel == channel
            && (rows[y].status == Pending || rows[y].status == Scheduled)
            && (rows[y].scheduledAt == None || rows[y].scheduledAt.value <= at) ==>
              && |s| == k
              && (rows[y].priority == High ==> rows[x].priority == High && rows[x].createdAt <= rows[y].createdAt)
              && (rows[y].priority == Normal ==>
                    rows[x].priority == High || (rows[x].priority == Normal && rows[x].createdAt <= rows[y].createdAt))
              && (rows[y].priority != High && rows[y].priority != Normal ==>
                    || rows[x].priority == High || rows[x].priority == Normal
                    || rows[x].createdAt <= rows[y].createdAt)
  {
    var d := Candidates(rows, channel, at, locked);
    assert y in d - s ==> NoLater(rows[x], rows[y]);
  }

  // ---------------------------------------------------------- composition

  /** Claiming makes the claimed rows, and no others, stop being candidates. */
  lemma CandidatesAfterClaim(
    rows: map<string, Notification>, channel: Channel, at: Time, locked: set<string>, s: set<string>, now: Time)
    ensures Candidates(ClaimRows(rows, s, now), channel, at, locked) ==
            Candidates(rows, channel, at, locked) - s
  {
  }

  lemma DisjointSize(a: set<string>, b: set<string>)
    requires a !! b
    ensures |a + b| == |a| + |b|
  {
  }

  lemma SubsetSize(a: set<string>, b: set<string>)
    requires a <= b
    ensures |a| <= |b|
    ensures |b - a| == |b| - |a|
    ensures |a| == |b| ==> a == b
  {
    assert b == a + (b - a);
    DisjointSize(a, b - a);
  }

  /** A claim of `a` rows followed by a claim of `b` rows at the same moment, with
      nothing new due, is together a claim of `a + b` rows. */
  lemma ClaimsCompose(
    rows: map<string, Notification>, channel: Channel, at: Time, locked: set<string>,
    a: nat, first: set<string>, b: nat, second: set<string>, now: Time)
    requires ValidClaim(rows, channel, at, locked, a, first)
    requires ValidClaim(ClaimRows(rows, first, now), channel, at, locked, b, second)
    ensures ValidClaim(rows, channel, at, locked, a + b, first + second)
  {
    CandidatesAfterClaim(rows, channel, at, locked, first, now);
    var d := Candidates(rows, channel, at, locked);
    DisjointSize(first, second);
    if |first + second| < a + b && |first| == a {
      assert second == d - first;
    }
    forall x, y | x in first + second && y in d - (first + second)
      ensures NoLater(rows[x], rows[y])
    {
      if x in second {
        assert y in (d - first) - second;
        assert NoLater(ClaimRows(rows, first, now)[x], ClaimRows(rows, first, now)[y]);
      }
    }
  }

  // ------------------------------------------------------------- existence

  lemma Earliest(rows: map<string, Notification>, d: set<string>) returns (e: string)
    requires d != {} && d <= rows.Keys
    ensures e in d && forall y | y in d :: NoLater(rows[e], rows[y])
  {
    var noLater := (x: string, y: string) => x in rows && y in rows && NoLater(rows[x], rows[y]);
    e := Least(d, noLater);
    assert forall y | y in d :: noLater(e, y);
  }

  /** A claim is always possible. */
  lemma {:induction false} FirstExists(rows: map<string, Notification>, d: set<string>, k: nat)
    returns (s: set<string>)
    requires d <= rows.Keys
    ensures FirstOf(rows, d, k, s)
  {
    if k == 0 {
      s := {};
    } else {
      var r := FirstExists(rows, d, k - 1);
      if d == r {
        s := r;
      } else {
        assert d - r != {};
        var e := Earliest(rows, d - r);
        s := r + {e};
        DisjointSize(r, {e});
      }
    }
  }

  /** A first-`a` selection of a first-`a + b` selection is one of the whole set,
      and leaves a first-`b` selection of the rest. */
  lemma FirstOfFirst(
    rows: map<string, Notification>, d: set<string>, a: nat, b: nat, s: set<string>, first: set<string>)
    requires FirstOf(rows, d, a + b, s) && FirstOf(rows, s, a, first)
    ensures FirstOf(rows, d, a, first)
    ensures FirstOf(rows, d - first, b, s - first)
  {
    SubsetSize(first, s);
    forall x, y | x in first && y in d - first
      ensures NoLater(rows[x], rows[y])
    {
      if y in s {
        assert y in s - first;
      } else {
        assert y in d - s;
      }
    }
    if |first| < a {
      assert first == s && |s| < a + b;
    }
    if |s - first| < b {
      if |first| == a {
        assert |s| < a + b;
      }
      assert s == d;
    }
  }

  /** Conversely, every claim of `a + b` rows can be made by a claim of `a` rows
      and then a claim of `b` rows: composing claims loses no outcome. */
  lemma ClaimsDecompose(
    rows: map<string, Notification>, channel: Channel, at: Time, locked: set<string>,
    a: nat, b: nat, s: set<string>, now: Time)
    returns (first: set<string>)
    requires ValidClaim(rows, channel, at, locked, a + b, s)
    ensures first <= s && ValidClaim(rows, channel, at, locked, a, first)
    ensures ValidClaim(ClaimRows(rows, first, now), channel, at, locked, b, s - first)
  {
    var d := Candidates(rows, channel, at, locked);
    first := FirstExists(rows, s, a);
    FirstOfFirst(rows, d, a, b, s, first);
    CandidatesAfterClaim(rows, channel, at, locked, first, now);
    var rows' := ClaimRows(rows, first, now);
    forall x, y | x in s - first && y in (d - first) - (s - first)
      ensures NoLater(rows'[x], rows'[y])
    {
      assert NoLater(rows[x], rows[y]);
    }
  }

  /** The size of a claim is fixed even where its contents are not. */
  lemma ClaimSize(
    rows: map<string, Notification>, channel: Channel, at: Time, locked: set<string>, k: nat, s: set<string>)
    requires ValidClaim(rows, channel, at, locked, k, s)
    ensures |s| == Min(k, |Candidates(rows, channel, at, locked)|)
  {
    SubsetSize(s, Candidates(rows, channel, at, locked));
  }
}
