/** The measure by which a channel's queue empties: the attempts its rows have left. */
module Draining {
  import opened Domain
  import opened Tables
  import opened Claiming
  import opened Protocol
  import opened SendRate

  type Rows = map<string, Notification>

  /** The attempts a queued or claimed row of the channel has left. */
  function AttemptsLeft(n: Notification, channel: Channel): nat {
    if n.channel == channel && (Queued(n.status) || n.status.Processing?) && n.attempts < n.maxAttempts
    then n.maxAttempts - n.attempts
    else 0
  }

  ghost function Sum(rows: Rows, ids: set<string>, channel: Channel): nat
    requires ids <= rows.Keys
    decreases |ids|
  {
    if ids == {} then 0
    else
      var id :| id in ids;
      AttemptsLeft(rows[id], channel) + Sum(rows, ids - {id}, channel)
  }

  ghost function TotalLeft(rows: Rows, channel: Channel): nat {
    Sum(rows, rows.Keys, channel)
  }

  /** The sum does not depend on the order in which it is taken. */
  lemma {:induction false} SumTake(rows: Rows, ids: set<string>, channel: Channel, id: string)
    requires ids <= rows.Keys && id in ids
    ensures Sum(rows, ids, channel) == AttemptsLeft(rows[id], channel) + Sum(rows, ids - {id}, channel)
    decreases |ids|
  {
    var first :|
      first in ids
      && Sum(rows, ids, channel) == AttemptsLeft(rows[first], channel) + Sum(rows, ids - {first}, channel);
    if first != id {
      SumTake(rows, ids - {first}, channel, id);
      SumTake(rows, ids - {id}, channel, first);
      assert ids - {first} - {id} == ids - {id} - {first};
    }
  }

  lemma {:induction false} SumSame(rows: Rows, rows': Rows, ids: set<string>, channel: Channel)
    requires ids <= rows.Keys && ids <= rows'.Keys
    requires forall id | id in ids :: AttemptsLeft(rows[id], channel) == AttemptsLeft(rows'[id], channel)
    ensures Sum(rows, ids, channel) == Sum(rows', ids, channel)
    decreases |ids|
  {
    if ids != {} {
      var id :| id in ids;
      SumTake(rows, ids, channel, id);
      SumTake(rows', ids, channel, id);
      SumSame(rows, rows', ids - {id}, channel);
    }
  }

  /** Changing one row changes the total by what that row's attempts change by. */
  lemma UpdateChangesTotal(rows: Rows, id: string, row: Notification, channel: Channel)
    requires id in rows
    ensures TotalLeft(rows[id := row], channel) + AttemptsLeft(rows[id], channel) ==
            TotalLeft(rows, channel) + AttemptsLeft(row, channel)
  {
    var rows' := rows[id := row];
    assert rows'.Keys == rows.Keys;
    SumTake(rows, rows.Keys, channel, id);
    SumTake(rows', rows.Keys, channel, id);
    SumSame(rows, rows', rows.Keys - {id}, channel);
  }

  /** The rows of the channel in processing. */
  function Stuck(rows: Rows, channel: Channel): set<string> {
    set id | id in rows && rows[id].channel == channel && rows[id].status.Processing?
  }

  /** The queued rows of the channel. */
  function Waiting(rows: Rows, channel: Channel): set<string> {
    set id | id in rows && rows[id].channel == channel && Queued(rows[id].status)
  }

  /** Only rows of the channel that are on their way change, and none is cancelled. */
  predicate Onward(rows: Rows, rows': Rows, channel: Channel) {
    && rows'.Keys == rows.Keys
    && forall id | id in rows ::
         if rows[id].channel == channel && (Queued(rows[id].status) || rows[id].status.Processing?)
         then rows'[id].channel == channel && !rows'[id].status.Cancelled?
         else rows'[id] == rows[id]
  }

  lemma OnwardTwice(a: Rows, b: Rows, c: Rows, channel: Channel)
    requires Onward(a, b, channel) && Onward(b, c, channel)
    ensures Onward(a, c, channel)
  {
  }

  lemma ClaimedWaited(rows: Rows, channel: Channel, at: Time, locked: set<string>, k: nat, picked: set<string>)
    requires ValidClaim(rows, channel, at, locked, k, picked)
    ensures picked <= Waiting(rows, channel)
  {
    assert picked <= Candidates(rows, channel, at, locked) <= Waiting(rows, channel);
  }

  lemma ProcessingCounts(rows: Rows, channel: Channel, picked: set<string>, now: Time)
    requires picked <= Waiting(rows, channel)
    ensures TotalLeft(ClaimRows(rows, picked, now), channel) == TotalLeft(rows, channel)
  {
    var rows' := ClaimRows(rows, picked, now);
    assert rows'.Keys == rows.Keys;
    SumSame(rows, rows', rows.Keys, channel);
  }

  /** A claim moves rows from waiting to processing and leaves every attempt count. */
  lemma ClaimKeepsTotal(
    rows: Rows, channel: Channel, at: Time, locked: set<string>, k: nat, picked: set<string>, now: Time)
    requires ValidClaim(rows, channel, at, locked, k, picked)
    ensures var rows' := ClaimRows(rows, picked, now);
            && TotalLeft(rows', channel) == TotalLeft(rows, channel)
            && Stuck(rows', channel) == Stuck(rows, channel) + picked
            && Onward(rows, rows', channel)
  {
    hide ValidClaim, TotalLeft;
    ClaimedWaited(rows, channel, at, locked, k, picked);
    ProcessingCounts(rows, channel, picked, now);
  }

  /** A result written to a claimed row takes at least one attempt off the total and
      the row out of processing. */
  lemma MarkLowersTotal(rows: Rows, n: Notification, r: Response, next: Time, now: Time)
    requires n.id in rows && rows[n.id] == n && n.status.Processing? && n.attempts < n.maxAttempts
    ensures var rows' := rows[n.id := MarkedRow(rows[n.id], n, r, next, now)];
            && TotalLeft(rows', n.channel) + 1 <= TotalLeft(rows, n.channel)
            && Stuck(rows', n.channel) == Stuck(rows, n.channel) - {n.id}
            && Onward(rows, rows', n.channel)
  {
    UpdateChangesTotal(rows, n.id, MarkedRow(rows[n.id], n, r, next, now), n.channel);
  }

  // -------------------------------------------------------------- one cycle

  function IdsFrom(claimed: seq<Notification>, i: nat): set<string> {
    set j | i <= j < |claimed| :: claimed[j].id
  }

  /** The claimed rows from `i` on are as they were claimed. */
  predicate Kept(rows: Rows, claimed: seq<Notification>, i: nat, channel: Channel) {
    && (forall j | i <= j < |claimed| ::
          && claimed[j].id in rows && rows[claimed[j].id] == claimed[j]
          && claimed[j].channel == channel && claimed[j].status.Processing?
          && claimed[j].attempts < claimed[j].maxAttempts)
    && (forall j, k | i <= j < k < |claimed| :: claimed[j].id != claimed[k].id)
  }

  /** A cycle that began with `before` has handled `i` of the rows it claimed. */
  ghost predicate Underway(before: Rows, rows: Rows, claimed: seq<Notification>, i: nat, channel: Channel) {
    && Kept(rows, claimed, i, channel)
    && Stuck(rows, channel) == Stuck(before, channel) + IdsFrom(claimed, i)
    && Stuck(before, channel) !! IdsFrom(claimed, i)
    && Onward(before, rows, channel)
    && i + TotalLeft(rows, channel) <= TotalLeft(before, channel)
  }

  lemma ClaimKept(
    before: Rows, rows: Rows, claimed: seq<Notification>, picked: seq<string>, channel: Channel, now: Time)
    requires Distinct(picked) && SetOf(picked) <= Waiting(before, channel)
    requires rows == ClaimRows(before, SetOf(picked), now) && |claimed| == |picked|
    requires forall i | 0 <= i < |picked| :: picked[i] in rows && claimed[i] == rows[picked[i]]
    requires forall i | 0 <= i < |picked| :: claimed[i].id == picked[i]
    requires forall i | 0 <= i < |picked| :: claimed[i].attempts < claimed[i].maxAttempts
    ensures Kept(rows, claimed, 0, channel) && SetOf(picked) !! Stuck(before, channel)
  {
    forall j | 0 <= j < |claimed|
      ensures claimed[j].channel == channel && claimed[j].status.Processing?
    {
      assert picked[j] in SetOf(picked);
    }
  }

  lemma ClaimStarts(
    before: Rows, rows: Rows, claimed: seq<Notification>, picked: seq<string>,
    channel: Channel, at: Time, locked: set<string>, k: nat, now: Time)
    requires Distinct(picked) && ValidClaim(before, channel, at, locked, k, SetOf(picked))
    requires rows == ClaimRows(before, SetOf(picked), now) && |claimed| == |picked|
    requires forall i | 0 <= i < |picked| :: picked[i] in rows && claimed[i] == rows[picked[i]]
    requires forall i | 0 <= i < |picked| :: claimed[i].id == picked[i]
    requires forall i | 0 <= i < |picked| :: claimed[i].attempts < claimed[i].maxAttempts
    ensures Underway(before, rows, claimed, 0, channel)
    ensures |claimed| == Min(k, |Candidates(before, channel, at, locked)|)
  {
    hide ValidClaim, TotalLeft, Candidates, Kept, Onward, Waiting;
    ClaimKeepsTotal(before, channel, at, locked, k, SetOf(picked), now);
    ClaimedWaited(before, channel, at, locked, k, SetOf(picked));
    ClaimSize(before, channel, at, locked, k, SetOf(picked));
    DistinctSize(picked);
    assert IdsFrom(claimed, 0) == SetOf(picked);
    ClaimKept(before, rows, claimed, picked, channel, now);
  }

  lemma MarkGoesOn(
    before: Rows, rows: Rows, claimed: seq<Notification>, i: nat, channel: Channel, r: Response, next: Time, now: Time)
    requires Underway(before, rows, claimed, i, channel) && i < |claimed|
    ensures claimed[i].id in rows
    ensures var rows' := rows[claimed[i].id := MarkedRow(rows[claimed[i].id], claimed[i], r, next, now)];
            Underway(before, rows', claimed, i + 1, channel)
  {
    hide TotalLeft, MarkedRow;
    MarkLowersTotal(rows, claimed[i], r, next, now);
    assert IdsFrom(claimed, i) == IdsFrom(claimed, i + 1) + {claimed[i].id};
  }

  /** When every claimed row is handled, nothing is left in processing but what was
      before, and every row handled has cost the total an attempt. */
  lemma AllHandled(before: Rows, rows: Rows, claimed: seq<Notification>, channel: Channel)
    requires Underway(before, rows, claimed, |claimed|, channel)
    ensures Underway(before, rows, [], 0, channel)
    ensures |claimed| + TotalLeft(rows, channel) <= TotalLeft(before, channel)
  {
    hide TotalLeft;
  }

  lemma NothingClaimed(rows: Rows, channel: Channel)
    ensures Underway(rows, rows, [], 0, channel)
  {
    hide TotalLeft;
  }

  // ------------------------------------------------------------ rate windows

  /** No window from that of `at` on is used up. */
  ghost predicate SlotsAhead(windows: map<(string, int), Window>, channel: Channel, at: Time, limit: int) {
    forall v | WindowOf(at) <= v :: Used(windows, DeliveryKey(channel), v) < limit
  }

  /** The first moment from `now` on at which the row is due. */
  function Wake(n: Notification, now: Time): Time {
    if n.scheduledAt.None? || n.scheduledAt.value <= now then now else n.scheduledAt.value
  }

  /** `at`, or the start of the next window when that of `at` is used up. */
  function OpenWindow(windows: map<(string, int), Window>, channel: Channel, at: Time, limit: int): Time {
    if Used(windows, DeliveryKey(channel), WindowOf(at)) < limit then at else (WindowOf(at) + 1) * SECOND
  }

  lemma OpenWindowOpens(w: World, channel: Channel, at: Time)
    requires RateInv(w) && w.now <= at
    ensures w.config.rateLimit > 0 && w.config.claimLimit > 0
    ensures var t := OpenWindow(w.db.windows, channel, at, w.config.rateLimit);
            at <= t <= at + SECOND && SlotsAhead(w.db.windows, channel, t, w.config.rateLimit)
  {
    hide SlotsApart, WorkerRateOk, SentOk;
    var q := WindowOf(at);
    assert q * SECOND <= at < (q + 1) * SECOND;
    forall v | q < v
      ensures Used(w.db.windows, DeliveryKey(channel), v) == 0
    {
      assert (DeliveryKey(channel), v) in w.db.windows ==> WindowOk(w, (DeliveryKey(channel), v));
      assert (q + 1) * SECOND <= v * SECOND;
    }
  }

  lemma Soonest(rows: Rows, ids: set<string>, now: Time) returns (id: string)
    requires ids != {} && ids <= rows.Keys
    ensures id in ids && forall y | y in ids :: Wake(rows[id], now) <= Wake(rows[y], now)
  {
    var sooner := (x: string, y: string) => x in rows && y in rows && Wake(rows[x], now) <= Wake(rows[y], now);
    id := Least(ids, sooner);
    assert forall y | y in ids :: sooner(id, y);
  }

  /** A row due now and a free slot from now on make the next cycle send something. */
  lemma CycleSends(
    rows: Rows, windows: map<(string, int), Window>, channel: Channel, now: Time, id: string,
    window: int, dueAt: Time, limit: int, most: int)
    requires id in Waiting(rows, channel) && Due(rows[id], now) && now <= dueAt
    requires SlotsAhead(windows, channel, now, limit) && WindowOf(now) <= window
    requires limit > 0 && most > 0
    ensures 0 < Min(Grantable(Used(windows, DeliveryKey(channel), window), limit, most),
                    |Candidates(rows, channel, dueAt, {})|)
  {
    assert id in Candidates(rows, channel, dueAt, {});
  }

  lemma WakeIsDue(n: Notification, now: Time)
    ensures now <= Wake(n, now)
    ensures forall at :: Wake(n, now) <= at <==> now <= at && Due(n, at)
  {
  }

  lemma DrainedIsSettled(rows: Rows, rows': Rows, channel: Channel)
    requires Onward(rows, rows', channel) && Waiting(rows', channel) == {}
    requires Stuck(rows', channel) == Stuck(rows, channel)
    ensures forall id | id in Waiting(rows, channel) :: id in rows' && Settled(rows'[id].status)
  {
    forall id | id in Waiting(rows, channel)
      ensures id in rows' && Settled(rows'[id].status)
    {
      assert id !in Waiting(rows', channel) && id !in Stuck(rows', channel);
    }
  }

  lemma CycleIsOnward(rows: Rows, rows': Rows, channel: Channel)
    requires Underway(rows, rows', [], 0, channel)
    ensures Onward(rows, rows', channel) && Stuck(rows', channel) == Stuck(rows, channel)
  {
    hide TotalLeft;
  }
}
