/** The repository: tables updated in place, one method per database operation. A
    method's instants (`now`, `at`) are the values its `time.Now()` calls return. */
module Repository {
  import opened Domain
  import opened Tables
  import opened Claiming
  import opened Queries
  import P = Protocol
  import C = Creation

  class Repository {
    var notifications: map<string, Notification>
    var events: seq<DeliveryEvent>
    var requests: map<(string, string), string>
    var windows: map<(string, int), Window>

    /** From now on no statement fails and no other session holds a row lock. */
    var reliable: bool

    function Db(): Tables
      reads this
    {
      Tables(notifications, events, requests, windows)
    }

    constructor (reliable: bool)
      ensures Db() == Tables(map[], [], map[], map[]) && this.reliable == reliable
    {
      notifications, events, requests, windows := map[], [], map[], map[];
      this.reliable := reliable;
    }

    /** Whether the database or the connection fails now. */
    method Fails() returns (b: bool)
      ensures reliable ==> !b
    {
      b := *;
      if reliable {
        b := false;
      }
    }

    /** All rows or none: a rejected insert leaves the table as it was, and an insert is
        rejected when, but for failures only when, a row meets a unique index. */
    method InsertNotifications(ns: seq<Notification>) returns (commit: C.Commit)
      modifies this`notifications
      ensures commit.Rejected? ==> notifications == old(notifications)
      ensures !commit.Rejected? ==> Insertable(old(notifications), ns)
      ensures !commit.Rejected? ==> notifications == InsertRows(old(notifications), ns)
      ensures reliable ==> !commit.Unacknowledged? && (Insertable(old(notifications), ns) ==> commit.Committed?)
    {
      var tx := notifications;
      assert ns[..0] == [];
      for i := 0 to |ns|
        invariant Insertable(old(notifications), ns[..i]) && tx == InsertRows(old(notifications), ns[..i])
        invariant notifications == old(notifications)
      {
        var n := ns[i];
        assert ns[..i + 1][..i] == ns[..i];
        var broken := Fails();
        if broken || !NoConflict(tx, n) {
          if NoConflict(tx, n) {
            assert !reliable;
          } else {
            RejectedPrefix(old(notifications), ns, i + 1);
          }
          var message: string := *;
          return C.Rejected(message);
        }
        tx := tx[n.id := Stored(n)];
      }
      assert ns[..|ns|] == ns;
      var broken := Fails();
      if broken {
        var message: string := *;
        var stored: bool := *;
        if stored {
          notifications := tx;
          return C.Unacknowledged(message);
        }
        return C.Rejected(message);
      }
      notifications := tx;
      commit := C.Committed;
    }

    method RecordEvent(event: DeliveryEvent) returns (applied: bool)
      modifies this`events
      ensures events == if applied then old(events) + [event] else old(events)
      ensures applied ==> event.notificationId in notifications
      ensures reliable && event.notificationId in notifications ==> applied
    {
      var broken := Fails();
      applied := !broken && event.notificationId in notifications;
      if applied {
        events := events + [event];
      }
    }

    method UpsertRequestMapping(key: string, batchId: string, tenant: string) returns (applied: bool)
      modifies this`requests
      ensures requests == if applied then UpsertMapping(old(requests), tenant, key, batchId) else old(requests)
      ensures applied ==>
                && requests.Keys == old(requests).Keys + {(TenantId(tenant), key)}
                && forall k | k in requests :: requests[k] == if k in old(requests) then old(requests)[k] else batchId
      ensures reliable ==> applied
    {
      var broken := Fails();
      applied := !broken;
      if applied && (TenantId(tenant), key) !in requests {
        requests := requests[(TenantId(tenant), key) := batchId];
      }
    }

    method GetBatchIDByKey(key: string, tenant: string) returns (works: bool, batchId: Option<string>)
      ensures works && batchId.Some? <==> works && (TenantId(tenant), key) in requests
      ensures works && batchId.Some? ==> requests[(TenantId(tenant), key)] == batchId.value
      ensures reliable ==> works
    {
      var broken := Fails();
      works := !broken;
      batchId := if (TenantId(tenant), key) in requests then Some(requests[(TenantId(tenant), key)]) else None;
    }

    method GetByIdempotencyKey(key: string, tenant: string) returns (works: bool, hit: Option<string>)
      ensures works ==> C.KeyHit(notifications, tenant, key, hit)
      ensures reliable ==> works
    {
      var broken := Fails();
      works := !broken;
      if id :| id in notifications && C.Matches(notifications, id, tenant, key) {
        hit := Some(id);
      } else {
        hit := None;
      }
    }

    /** The rows of a batch, oldest first. */
    method GetByBatch(batchId: string, tenant: string) returns (works: bool, rows: seq<Notification>)
      requires forall id | id in notifications :: notifications[id].id == id
      ensures works ==> C.BatchRows(notifications, batchId, tenant, rows)
      ensures works ==>
                forall n :: n in rows <==>
                  && n.id in notifications && n == notifications[n.id]
                  && n.batchId == batchId && n.tenantId == TenantId(tenant)
      ensures works ==>
                forall i, j | 0 <= i < j < |rows| :: rows[i].id != rows[j].id && rows[i].createdAt <= rows[j].createdAt
      ensures reliable ==> works
    {
      var broken := Fails();
      works := !broken;
      var ids := set id | id in notifications && C.InBatch(notifications[id], batchId, tenant);
      rows := SelectOldest(notifications, ids);
    }

    /** The count is the number of distinct rows moved, however often an id is listed.
        The statement can take effect (`stored`) and its answer be lost. */
    method CancelPending(ids: seq<string>, tenant: string, now: Time)
      returns (works: bool, count: int, ghost stored: bool)
      requires |ids| + 6 <= 0x7FFF_FFFF_FFFF_FFFF
      modifies this`notifications
      ensures stored ==>
                notifications == CancelRows(old(notifications), CancelTargets(old(notifications), ids, tenant), now)
      ensures stored ==>
                OnlyCancels(old(notifications), notifications, ids, tenant, now)
      ensures !stored ==> notifications == old(notifications) && !works
      ensures works ==> count == |CancelTargets(old(notifications), ids, tenant)|
      ensures ids == [] || reliable ==> works
    {
      if |ids| == 0 {
        assert CancelTargets(notifications, ids, tenant) == {};
        return true, 0, true;
      }
      var q, args := BuildCancel(ids, tenant, now);
      var broken := Fails();
      if broken {
        return false, 0, false;
      }
      CancelMeansTargets(ids, tenant, now, q, args, notifications);
      var targets := CancelSelected(q, args, notifications);
      notifications := CancelRows(notifications, targets, now);
      stored := true;
      broken := Fails();
      works, count := !broken, |targets|;
    }

    /** A first-`limit` selection of the due rows nobody has locked, moved to processing
        and returned in no particular order. The statement can take effect (`stored`)
        and reading its answer still fail. */
    method ClaimDue(channel: Channel, limit: nat, at: Time, now: Time)
      returns (
        works: bool, items: seq<Notification>,
        ghost stored: bool, ghost picked: seq<string>, ghost locked: set<string>)
      modifies this`notifications
      ensures !stored ==> notifications == old(notifications) && !works
      ensures stored ==> P.Distinct(picked)
      ensures stored ==> ValidClaim(old(notifications), channel, at, locked, limit, P.SetOf(picked))
      ensures stored ==> notifications == ClaimRows(old(notifications), P.SetOf(picked), now)
      ensures stored ==> OnlyClaims(old(notifications), notifications, P.SetOf(picked), now)
      ensures works ==> |items| == |picked|
      ensures works ==>
                forall i | 0 <= i < |picked| :: picked[i] in notifications && items[i] == notifications[picked[i]]
      ensures reliable ==> works && locked == {}
    {
      var broken := Fails();
      if broken {
        return false, [], false, [], {};
      }
      var skip: set<string> := *;
      if reliable {
        skip := {};
      }
      locked := skip;
      var chosen := SelectCandidates(notifications, channel, limit, at, skip);
      picked := chosen;
      var table := ClaimRows(notifications, set i | 0 <= i < |chosen| :: chosen[i], now);
      items := seq(|chosen|, i requires 0 <= i < |chosen| && chosen[i] in table => table[chosen[i]]);
      notifications := table;
      stored := true;
      broken := Fails();
      works := !broken;
    }

    /** The result writes: one row by id, whatever its status, if it is there and the
        statement works. */
    method MarkDelivered(id: string, messageId: string, now: Time) returns (applied: bool)
      modifies this`notifications
      ensures applied && id in old(notifications) ==>
                notifications == old(notifications)[id := old(notifications)[id].(
                  status := Delivered, providerMessageId := messageId,
                  attempts := old(notifications)[id].attempts + 1, updatedAt := now)]
      ensures !applied || id !in old(notifications) ==> notifications == old(notifications)
      ensures reliable ==> applied
    {
      var broken := Fails();
      applied := !broken;
      if applied && id in notifications {
        notifications := notifications[id := DeliveredRow(notifications[id], messageId, now)];
      }
    }

    method MarkFailed(id: string, message: string, now: Time) returns (applied: bool)
      modifies this`notifications
      ensures applied && id in old(notifications) ==>
                notifications == old(notifications)[id := old(notifications)[id].(
                  status := Failed, attempts := old(notifications)[id].attempts + 1,
                  lastError := message, scheduledAt := None, updatedAt := now)]
      ensures !applied || id !in old(notifications) ==> notifications == old(notifications)
      ensures reliable ==> applied
    {
      var broken := Fails();
      applied := !broken;
      if applied && id in notifications {
        notifications := notifications[id := FailedRow(notifications[id], message, now)];
      }
    }

    method MarkDeadLetter(id: string, message: string, now: Time) returns (applied: bool)
      modifies this`notifications
      ensures applied && id in old(notifications) ==>
                notifications == old(notifications)[id := old(notifications)[id].(
                  status := DeadLetter, attempts := old(notifications)[id].attempts + 1,
                  lastError := message, scheduledAt := None, updatedAt := now)]
      ensures !applied || id !in old(notifications) ==> notifications == old(notifications)
      ensures reliable ==> applied
    {
      var broken := Fails();
      applied := !broken;
      if applied && id in notifications {
        notifications := notifications[id := DeadLetterRow(notifications[id], message, now)];
      }
    }

    method ScheduleRetry(id: string, message: string, nextAttemptAt: Time, now: Time) returns (applied: bool)
      modifies this`notifications
      ensures applied && id in old(notifications) ==>
                notifications == old(notifications)[id := old(notifications)[id].(
                  status := Scheduled, attempts := old(notifications)[id].attempts + 1,
                  lastError := message, scheduledAt := Some(nextAttemptAt), updatedAt := now)]
      ensures !applied || id !in old(notifications) ==> notifications == old(notifications)
      ensures reliable ==> applied
    {
      var broken := Fails();
      applied := !broken;
      if applied && id in notifications {
        notifications := notifications[id := RetryRow(notifications[id], message, nextAttemptAt, now)];
      }
    }

    method QueueDepthByChannel(channel: Channel) returns (works: bool, depth: int)
      ensures works ==> depth == |set id | id in notifications && notifications[id].channel == channel
                                           && Queued(notifications[id].status)|
      ensures reliable ==> works
    {
      var broken := Fails();
      works := !broken;
      depth := |set id | id in notifications && notifications[id].channel == channel
                         && Queued(notifications[id].status)|;
    }

    /** The limiter transaction, run while it holds the row lock. `stored` says whether
        it took effect, `acknowledged` whether the caller learns so. */
    method AcquireRateLimitSlots(key: string, limit: int, requested: int, at: Time)
      returns (acquired: nat, acknowledged: bool, ghost stored: bool)
      modifies this`windows
      ensures stored ==> windows == AcquireSlots(old(windows), key, WindowOf(at), limit, requested).0
      ensures stored && acknowledged ==> acquired == AcquireSlots(old(windows), key, WindowOf(at), limit, requested).1
      ensures stored && limit > 0 && requested > 0 ==>
                var k := (key, at / 1_000_000_000);
                var used := if k in old(windows) then old(windows)[k].usedCount else 0;
                var granted := if used >= limit then 0 else Min(requested, limit - used);
                windows == old(windows)[k := Window(limit, used + granted)] && (acknowledged ==> acquired == granted)
      ensures !stored ==> windows == old(windows) && !acknowledged
      ensures !acknowledged ==> acquired == 0
      ensures reliable ==> stored && acknowledged
    {
      if limit <= 0 || requested <= 0 {
        return 0, true, true;
      }
      var windowStart := WindowOf(at);
      var tx := windows;
      var broken := Fails();
      if broken {
        return 0, false, false;
      }
      tx := tx[(key, windowStart) :=
        if (key, windowStart) in tx then tx[(key, windowStart)].(limitCount := limit) else Window(limit, 0)];
      broken := Fails();
      if broken {
        return 0, false, false;
      }
      var used := tx[(key, windowStart)].usedCount;
      var remaining := limit - used;
      acquired := 0;
      if remaining > 0 {
        acquired := requested;
        if acquired > remaining {
          acquired := remaining;
        }
        var row := tx[(key, windowStart)];
        tx := tx[(key, windowStart) := row.(usedCount := row.usedCount + acquired)];
      }
      broken := Fails();
      if broken {
        var kept: bool := *;
        if kept {
          windows := tx;
        }
        return 0, false, kept;
      }
      windows := tx;
      acknowledged, stored := true, true;
    }
  }

  /** The picked rows are in processing from `now` on; nothing else has changed. */
  predicate OnlyClaims(
    before: map<string, Notification>, rows: map<string, Notification>, picked: set<string>, now: Time)
  {
    && rows.Keys == before.Keys
    && forall id | id in before ::
         rows[id] == if id in picked then before[id].(status := Processing, updatedAt := now) else before[id]
  }

  /** The tenant's listed rows that wait or are in processing are cancelled from `now` on;
      nothing else has changed. */
  predicate OnlyCancels(
    before: map<string, Notification>, rows: map<string, Notification>, ids: seq<string>, tenant: string, now: Time)
  {
    && rows.Keys == before.Keys
    && forall id | id in before ::
         var n := before[id];
         rows[id] ==
         if id in ids && n.tenantId == TenantId(tenant)
            && (n.status == Pending || n.status == Scheduled || n.status == Processing)
         then n.(status := Cancelled, updatedAt := now)
         else n
  }

  /** The chosen rows in order of creation, equal times in any order. */
  method SelectOldest(table: map<string, Notification>, ids: set<string>) returns (rows: seq<Notification>)
    requires ids <= table.Keys && forall id | id in ids :: table[id].id == id
    ensures forall i | 0 <= i < |rows| :: rows[i].id in ids && rows[i] == table[rows[i].id]
    ensures forall id | id in ids :: table[id] in rows
    ensures forall i, j | 0 <= i < j < |rows| :: rows[i].id != rows[j].id && rows[i].createdAt <= rows[j].createdAt
  {
    rows := [];
    var rest := ids;
    assert OldestFirst(table, ids - rest, rest, rows);
    hide OldestFirst;
    while rest != {}
      invariant rest <= ids && OldestFirst(table, ids - rest, rest, rows)
      decreases |rest|
    {
      ghost var e := Oldest(table, rest);
      var id :| id in rest && forall other | other in rest :: table[id].createdAt <= table[other].createdAt;
      TakeOldest(table, ids - rest, rest, rows, id);
      assert (ids - rest) + {id} == ids - (rest - {id});
      rows := rows + [table[id]];
      rest := rest - {id};
    }
    assert ids - rest == ids;
    AllOldestFirst(table, ids, rows);
  }

  lemma AllOldestFirst(table: map<string, Notification>, ids: set<string>, rows: seq<Notification>)
    requires ids <= table.Keys && OldestFirst(table, ids, {}, rows)
    ensures forall i | 0 <= i < |rows| :: rows[i].id in ids && rows[i] == table[rows[i].id]
    ensures forall id | id in ids :: table[id] in rows
    ensures forall i, j | 0 <= i < j < |rows| :: rows[i].id != rows[j].id && rows[i].createdAt <= rows[j].createdAt
  {
  }

  lemma Oldest(table: map<string, Notification>, ids: set<string>) returns (id: string)
    requires ids != {} && ids <= table.Keys
    ensures id in ids && forall other | other in ids :: table[id].createdAt <= table[other].createdAt
  {
    var older := (x: string, y: string) => x in table && y in table && table[x].createdAt <= table[y].createdAt;
    id := Least(ids, older);
    assert forall other | other in ids :: older(id, other);
  }

  /** The candidate query of the claim statement, as the database runs it. */
  method SelectCandidates(
    table: map<string, Notification>, channel: Channel, limit: nat, at: Time, locked: set<string>)
    returns (chosen: seq<string>)
    ensures P.Distinct(chosen) && P.SetOf(chosen) <= table.Keys
    ensures ValidClaim(table, channel, at, locked, limit, P.SetOf(chosen))
  {
    var rest := Candidates(table, channel, at, locked);
    ghost var all := rest;
    chosen := [];
    ChooseNone(table, all);
    hide P.SetOf, P.Distinct, Chosen, NoLater, ValidClaim;
    while |chosen| < limit && rest != {}
      invariant P.Distinct(chosen) && |chosen| <= limit && rest <= all <= table.Keys
      invariant Chosen(table, all, rest, P.SetOf(chosen))
      decreases |rest|
    {
      ghost var e := Earliest(table, rest);
      var id :| id in rest && forall y | y in rest :: NoLater(table[id], table[y]);
      P.SetOfAppend(chosen, id);
      Choose(table, all, rest, chosen, id);
      chosen := chosen + [id];
      rest := rest - {id};
    }
    ChosenIsClaim(table, channel, limit, at, locked, rest, chosen);
  }

  predicate Chosen(table: map<string, Notification>, all: set<string>, rest: set<string>, s: set<string>)
    requires all <= table.Keys
  {
    && s <= all && rest == all - s
    && forall x, y | x in s && y in rest :: NoLater(table[x], table[y])
  }

  lemma ChooseNone(table: map<string, Notification>, all: set<string>)
    requires all <= table.Keys
    ensures P.Distinct([]) && P.SetOf([]) == {} && Chosen(table, all, all, P.SetOf([]))
  {
  }

  lemma Choose(table: map<string, Notification>, all: set<string>, rest: set<string>, chosen: seq<string>, id: string)
    requires all <= table.Keys && P.Distinct(chosen) && Chosen(table, all, rest, P.SetOf(chosen))
    requires id in rest && forall y | y in rest :: NoLater(table[id], table[y])
    ensures P.Distinct(chosen + [id]) && Chosen(table, all, rest - {id}, P.SetOf(chosen + [id]))
  {
    P.SetOfAppend(chosen, id);
    assert forall i | 0 <= i < |chosen| :: chosen[i] in P.SetOf(chosen);
  }

  lemma ChosenIsClaim(
    table: map<string, Notification>, channel: Channel, limit: nat, at: Time, locked: set<string>,
    rest: set<string>, chosen: seq<string>)
    requires P.Distinct(chosen) && Chosen(table, Candidates(table, channel, at, locked), rest, P.SetOf(chosen))
    requires |chosen| == limit || (|chosen| < limit && rest == {})
    ensures P.SetOf(chosen) <= table.Keys
    ensures ValidClaim(table, channel, at, locked, limit, P.SetOf(chosen))
  {
    P.DistinctSize(chosen);
  }

  /** `rows` lists exactly `done`, oldest first, and nothing of `rest` is older. */
  ghost predicate OldestFirst(
    table: map<string, Notification>, done: set<string>, rest: set<string>, rows: seq<Notification>)
    requires done <= table.Keys && rest <= table.Keys
  {
    && (forall i | 0 <= i < |rows| :: rows[i].id in done && rows[i] == table[rows[i].id])
    && (forall id | id in done :: table[id] in rows)
    && (forall i, j | 0 <= i < j < |rows| :: rows[i].id != rows[j].id && rows[i].createdAt <= rows[j].createdAt)
    && (forall i, id | 0 <= i < |rows| && id in rest :: rows[i].createdAt <= table[id].createdAt)
  }

  lemma TakeOldest(
    table: map<string, Notification>, done: set<string>, rest: set<string>, rows: seq<Notification>, id: string)
    requires done <= table.Keys && rest <= table.Keys && done !! rest && OldestFirst(table, done, rest, rows)
    requires id in rest && table[id].id == id
    requires forall other | other in rest :: table[id].createdAt <= table[other].createdAt
    ensures OldestFirst(table, done + {id}, rest - {id}, rows + [table[id]])
  {
    var rows' := rows + [table[id]];
    assert rows'[|rows|] == table[id];
    assert forall i | 0 <= i < |rows| :: rows'[i] == rows[i];
    forall x | x in done + {id}
      ensures table[x] in rows'
    {
      if x in done {
        assert table[x] in rows;
      }
    }
  }

  lemma RejectedPrefix(rows: map<string, Notification>, ns: seq<Notification>, i: nat)
    requires i <= |ns| && !Insertable(rows, ns[..i])
    ensures !Insertable(rows, ns)
    decreases |ns| - i
  {
    if i == |ns| {
      assert ns[..i] == ns;
    } else {
      assert ns[..i + 1][..i] == ns[..i];
      RejectedPrefix(rows, ns, i + 1);
    }
  }
}
