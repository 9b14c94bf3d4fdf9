/** Listing the events of a notification page by page. */
module Paging {
  import opened Domain
  import opened Text
  import opened Tables
  import P = Protocol
  import G = Guarantees
  import O = Ownership
  import V = Preservation

  // --------------------------------------------------------------- parameters

  function ParseIntDefault(value: string, fallback: int): int {
    if value == "" then fallback
    else match Atoi(value)
      case None => fallback
      case Some(n) => n
  }

  /** The page size a request gets for its `limit` parameter. */
  function BoundedLimit(value: string, max: int): int {
    var limit := ParseIntDefault(value, 50);
    if limit <= 0 then 50
    else if limit > max then max
    else limit
  }

  /** Every request gets a positive page size of at most `max`: the one it asked for when
      that is in range, and 50 when it asked for none, or for nothing that is a number. */
  lemma BoundedLimitRange(value: string, max: int, n: int)
    requires 50 <= max <= 0x7FFF_FFFF_FFFF_FFFF
    ensures value == "" || Atoi(value).None? ==> BoundedLimit(value, max) == 50
    ensures (exists i | 0 <= i < |value| ::
               !('0' <= value[i] <= '9') && !(i == 0 && (value[i] == '-' || value[i] == '+'))) ==>
              BoundedLimit(value, max) == 50
    ensures 1 <= BoundedLimit(value, max) <= max
    ensures 1 <= n <= max ==> BoundedLimit(Decimal(n), max) == n
    ensures max < n <= 0x7FFF_FFFF_FFFF_FFFF ==> BoundedLimit(Decimal(n), max) == max
    ensures n <= 0 || n > 0x7FFF_FFFF_FFFF_FFFF ==> BoundedLimit(Decimal(n), max) == 50
  {
    forall i | 0 <= i < |value| && !('0' <= value[i] <= '9') && !(i == 0 && (value[i] == '-' || value[i] == '+'))
      ensures Atoi(value) == None
    {
      AtoiRejects(value, i);
    }
    AtoiDecimal(n);
    assert Decimal(n) != "";
  }

  // -------------------------------------------------------------------- pages

  /** ORDER BY id LIMIT limit OFFSET offset over the events in id order. */
  function Page<T>(log: seq<T>, limit: nat, offset: nat): seq<T> {
    var from := if offset > |log| then |log| else offset;
    var to := if from + limit > |log| then |log| else from + limit;
    log[from..to]
  }

  predicate HasMore<T>(page: seq<T>, limit: nat) {
    |page| == limit
  }

  /** All a client gets that steps its offset by `limit` until no more is announced,
      from `offset` on, and the number of pages it took. */
  function ReadAll<T>(log: seq<T>, limit: nat, offset: nat): (seq<T>, nat)
    requires limit > 0
    decreases |log| - offset
  {
    var page := Page(log, limit, offset);
    if HasMore(page, limit) then
      var (rest, pages) := ReadAll(log, limit, offset + limit);
      (page + rest, pages + 1)
    else (page, 1)
  }

  lemma Multiples(limit: int, d: int)
    requires limit > 0
    ensures d >= 1 ==> limit * d >= limit
    ensures d <= -1 ==> limit * d <= -limit
  {
  }

  lemma Quotient(n: nat, limit: nat, q: int)
    requires limit > 0 && limit * q <= n < limit * q + limit
    ensures n / limit == q
  {
    var d := n / limit - q;
    assert limit * (n / limit) == limit * q + limit * d;
    Multiples(limit, d);
  }

  lemma DivStep(n: nat, limit: nat)
    requires limit > 0 && n >= limit
    ensures n / limit == (n - limit) / limit + 1
  {
    var q := (n - limit) / limit;
    assert limit * (q + 1) == limit * q + limit;
    Quotient(n, limit, q + 1);
  }

  lemma {:induction false} ReadAllFrom<T>(log: seq<T>, limit: nat, offset: nat)
    requires limit > 0 && offset <= |log|
    ensures ReadAll(log, limit, offset).0 == log[offset..]
    ensures ReadAll(log, limit, offset).1 == (|log| - offset) / limit + 1
    decreases |log| - offset
  {
    if offset + limit <= |log| {
      ReadAllFrom(log, limit, offset + limit);
      DivStep(|log| - offset, limit);
      assert log[offset..] == log[offset..offset + limit] + log[offset + limit..];
    } else {
      Quotient(|log| - offset, limit, 0);
    }
  }

  /** On a log that does not change, paging ends after floor(n / limit) + 1 pages and
      returns every event once, in id order. */
  lemma PagingComplete<T>(log: seq<T>, limit: nat)
    requires limit > 0
    ensures ReadAll(log, limit, 0).0 == log
    ensures ReadAll(log, limit, 0).1 == |log| / limit + 1
  {
    ReadAllFrom(log, limit, 0);
  }

  // ----------------------------------------------------------- a growing log

  /** A client reads page i from `logs[i]` and stops at the page that announces no more. */
  predicate Stepped<T>(logs: seq<seq<T>>, limit: nat, offset: nat) {
    && logs != []
    && (HasMore(Page(logs[0], limit, offset), limit) <==> |logs| > 1)
    && (|logs| > 1 ==> Stepped(logs[1..], limit, offset + limit))
  }

  /** Later logs extend earlier ones. */
  predicate Growing<T(==)>(logs: seq<seq<T>>) {
    |logs| > 1 ==> logs[0] <= logs[1] && Growing(logs[1..])
  }

  /** What it gathers. */
  function Gathered<T>(logs: seq<seq<T>>, limit: nat, offset: nat): seq<T> {
    if logs == [] then [] else Page(logs[0], limit, offset) + Gathered(logs[1..], limit, offset + limit)
  }

  lemma {:induction false} GatheredFrom<T>(logs: seq<seq<T>>, limit: nat, offset: nat)
    requires limit > 0 && Stepped(logs, limit, offset) && Growing(logs) && offset <= |logs[0]|
    ensures var last := logs[|logs| - 1];
            && logs[0] <= last
            && Gathered(logs, limit, offset) == last[offset..]
  {
    var last := logs[|logs| - 1];
    if |logs| > 1 {
      GatheredFrom(logs[1..], limit, offset + limit);
      assert logs[0] == last[..|logs[0]|];
      assert Page(logs[0], limit, offset) == last[offset..offset + limit];
      assert last[offset..] == last[offset..offset + limit] + last[offset + limit..];
    } else {
      assert Page(logs[0], limit, offset) == last[offset..];
      assert Gathered(logs[1..], limit, offset + limit) == [];
    }
  }

  /** If events are appended while a client pages, what it gathered when it stops is
      the log as it was at the last page, so every event present at the start is there
      exactly once, at its place in the id order. */
  lemma PagingWhileGrowing<T>(logs: seq<seq<T>>, limit: nat)
    requires limit > 0 && Stepped(logs, limit, 0) && Growing(logs)
    ensures Gathered(logs, limit, 0) == logs[|logs| - 1]
    ensures logs[0] <= Gathered(logs, limit, 0)
  {
    GatheredFrom(logs, limit, 0);
  }

  /** The rows `ListEvents` pages over: one notification's events for one tenant. */
  function Visible(events: seq<DeliveryEvent>, id: string, tenant: string): seq<DeliveryEvent> {
    if events == [] then []
    else
      var last := events[|events| - 1];
      Visible(events[..|events| - 1], id, tenant) +
      (if last.notificationId == id && last.tenantId == TenantId(tenant) then [last] else [])
  }

  /** Appending to the table appends to what is paged over. */
  lemma {:induction false} VisibleGrows(
    events: seq<DeliveryEvent>, events': seq<DeliveryEvent>, id: string, tenant: string)
    requires events <= events'
    ensures Visible(events, id, tenant) <= Visible(events', id, tenant)
    decreases |events'|
  {
    if |events| < |events'| {
      var front := events'[..|events'| - 1];
      VisibleGrows(events, front, id, tenant);
    } else {
      assert events == events';
    }
  }

  // ------------------------------------------------------------ a running system

  /** A run in pieces: what happens between one page and the next. */
  predicate ValidRuns(w: P.World, pieces: seq<seq<P.Step>>)
    decreases |pieces|
  {
    pieces == [] || (P.ValidRun(w, pieces[0]) && ValidRuns(P.Run(w, pieces[0]), pieces[1..]))
  }

  /** What the notification's events are before, between and after the pieces. */
  function LogsOver(w: P.World, pieces: seq<seq<P.Step>>, id: string, tenant: string): seq<seq<DeliveryEvent>>
    requires ValidRuns(w, pieces)
    decreases |pieces|
  {
    [Visible(w.db.events, id, tenant)] +
    (if pieces == [] then [] else LogsOver(P.Run(w, pieces[0]), pieces[1..], id, tenant))
  }

  lemma {:induction false} RunsGrow(w: P.World, pieces: seq<seq<P.Step>>, id: string, tenant: string)
    requires O.Inv(w) && ValidRuns(w, pieces)
    ensures Growing(LogsOver(w, pieces, id, tenant))
    decreases |pieces|
  {
    hide O.Inv;
    if pieces != [] {
      var w' := P.Run(w, pieces[0]);
      V.RunKeepsInv(w, pieces[0]);
      RunsGrow(w', pieces[1..], id, tenant);
      G.EventsAppendOnly(w, pieces[0]);
      VisibleGrows(w.db.events, w'.db.events, id, tenant);
      var logs := LogsOver(w, pieces, id, tenant);
      assert logs[1..] == LogsOver(w', pieces[1..], id, tenant);
    }
  }

  /** Whatever workers and clients do between the pages, a client that reads until no
      more is announced gets exactly the events there are at its last page, in id order,
      and all those there were at its first. */
  lemma PagingOverRuns(w: P.World, pieces: seq<seq<P.Step>>, id: string, tenant: string, limit: nat)
    requires G.Reachable(w) && ValidRuns(w, pieces) && limit > 0
    requires Stepped(LogsOver(w, pieces, id, tenant), limit, 0)
    ensures var logs := LogsOver(w, pieces, id, tenant);
            && Gathered(logs, limit, 0) == logs[|logs| - 1]
            && Visible(w.db.events, id, tenant) <= Gathered(logs, limit, 0)
  {
    hide G.Reachable, O.Inv;
    G.ReachableInv(w);
    RunsGrow(w, pieces, id, tenant);
    PagingWhileGrowing(LogsOver(w, pieces, id, tenant), limit);
  }

  /** What is paged over, by positions: exactly the tenant's events of the notification,
      in the order they were written. */
  lemma {:induction false} VisibleMeaning(events: seq<DeliveryEvent>, id: string, tenant: string)
    returns (at: seq<nat>)
    ensures |at| == |Visible(events, id, tenant)|
    ensures forall i | 0 <= i < |at| :: at[i] < |events| && Visible(events, id, tenant)[i] == events[at[i]]
    ensures forall i, j | 0 <= i < j < |at| :: at[i] < at[j]
    ensures forall k | 0 <= k < |events| ::
              k in at <==> events[k].notificationId == id && events[k].tenantId == TenantId(tenant)
  {
    hide TenantId;
    if events == [] {
      at := [];
    } else {
      var front, last := events[..|events| - 1], events[|events| - 1];
      at := VisibleMeaning(front, id, tenant);
      if last.notificationId == id && last.tenantId == TenantId(tenant) {
        at := at + [|front|];
      }
    }
  }
}
