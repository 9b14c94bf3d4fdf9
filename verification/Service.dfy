/** The service's own code. Between its database statements other workers and clients
    take any number of steps (`Interfere`); each statement is shown to be a step of
    `Protocol`, so that whatever holds in every run of the protocol holds of the code. */
module Service {
  import opened Domain
  import opened Delivery
  import opened Tables
  import opened Claiming
  import opened Protocol
  import opened Draining
  import O = Ownership
  import G = Guarantees
  import S = SendRate
  import C = Creation
  import R = Repository
  import M = Metrics

  datatype Actor = AsWorker(worker: WorkerId) | AsClient(client: ClientId)

  predicate By(s: Step, me: Actor) {
    match me
    case AsWorker(x) => s.Work? && s.worker == x
    case AsClient(c) => s.Call? && s.client == c
  }

  /** The result writes of `me` in a trace. */
  function Results(trace: seq<Step>, me: Actor): nat {
    if trace == [] then 0
    else
      var last := trace[|trace| - 1];
      Results(trace[..|trace| - 1], me) + if By(last, me) && last.Work? && last.act.Mark? then 1 else 0
  }

  /** What the worker `me` did in a trace, in order. */
  function ActsOf(trace: seq<Step>, me: Actor): seq<Act> {
    if trace == [] then []
    else
      var last := trace[|trace| - 1];
      ActsOf(trace[..|trace| - 1], me) + if By(last, me) && last.Work? then [last.act] else []
  }

  /** `acts` goes on from `before` with a send, its answer, a result write and an event
      write, in this order. */
  ghost predicate AddsDelivery(before: seq<Act>, acts: seq<Act>, answer: Response) {
    exists mark: Act, log: Act ::
      mark.Mark? && log.Log? && acts == before + [Send, Answer(answer), mark, log]
  }

  /** `trace` leads from empty tables to `w`. */
  ghost predicate Ran(start: World, trace: seq<Step>, w: World) {
    Initial(start) && ValidRun(start, trace) && Run(start, trace) == w
  }

  lemma RanStep(start: World, trace: seq<Step>, w: World, s: Step, me: Actor)
    requires Ran(start, trace, w) && Enabled(w, s)
    ensures Ran(start, trace + [s], Next(w, s))
    ensures Results(trace + [s], me) == Results(trace, me) + if By(s, me) && s.Work? && s.act.Mark? then 1 else 0
    ensures ActsOf(trace + [s], me) == ActsOf(trace, me) + if By(s, me) && s.Work? then [s.act] else []
  {
    hide Next, Enabled, Initial;
    assert (trace + [s])[..|trace|] == trace;
    RunSnoc(start, trace, s);
  }

  lemma NextParts(w: World, s: Step)
    requires Enabled(w, s) && !s.Tick?
    ensures Next(w, s).db == DbNext(w, s) && Next(w, s).now == w.now && Next(w, s).config == w.config
  {
    hide DbNext, LifeNext, ActNext, Enabled, C.OpNext, SentNext;
  }

  lemma RanIsReachable(start: World, trace: seq<Step>, w: World)
    requires Ran(start, trace, w)
    ensures G.Reachable(w) && O.Inv(w) && O.OwnInv(w) && S.RateInv(w)
  {
    hide Next, Enabled, Initial, O.OwnInv, S.RateInv, O.LifeInv, C.CreationInv;
    G.ReachableInv(w);
    S.InitialRateInv(start);
    S.RunKeepsRateInv(start, trace);
  }

  /** What `me` can rely on while others take steps. */
  predicate Undisturbed(w: World, w': World, me: Actor) {
    && w.now <= w'.now && w'.config == w.config
    && match me
       case AsWorker(x) => WorkerOf(w', x) == WorkerOf(w, x)
       case AsClient(c) => ClientOf(w', c) == ClientOf(w, c)
  }

  /** Only time passes, and not past the deadline of a cycle of `me`. */
  predicate OnlyTime(w: World, w': World, me: Actor) {
    && w'.db == w.db && w'.sent == w.sent
    && (me.AsWorker? && WorkerOf(w, me.worker).Busy? && w.now < WorkerOf(w, me.worker).started + JOB_TIMEOUT ==>
          w'.now < WorkerOf(w, me.worker).started + JOB_TIMEOUT)
  }

  lemma OtherStep(w: World, s: Step, me: Actor)
    requires Enabled(w, s) && !By(s, me)
    ensures Undisturbed(w, Next(w, s), me)
  {
    hide DbNext, LifeNext, SentNext, ActNext;
  }

  /** Whatever steps others take, they are a continuation of the run that leaves `me`
      undisturbed: the contract of `Interfere` allows every one of them. */
  lemma {:induction false} OthersMayStep(start: World, trace: seq<Step>, w: World, steps: seq<Step>, me: Actor)
    requires Ran(start, trace, w) && ValidRun(w, steps) && forall i | 0 <= i < |steps| :: !By(steps[i], me)
    ensures Ran(start, trace + steps, Run(w, steps))
    ensures Results(trace + steps, me) == Results(trace, me) && ActsOf(trace + steps, me) == ActsOf(trace, me)
    ensures Undisturbed(w, Run(w, steps), me)
    decreases |steps|
  {
    hide Results, ActsOf, WorkerOf, ClientOf, By, Initial, Ran, Next, Enabled;
    if steps == [] {
      assert trace + steps == trace;
    } else {
      RanStep(start, trace, w, steps[0], me);
      OtherStep(w, steps[0], me);
      OthersMayStep(start, trace + [steps[0]], Next(w, steps[0]), steps[1..], me);
      assert trace + [steps[0]] + steps[1..] == trace + steps;
    }
  }

  lemma EventIsAbout(n: Notification)
    ensures forall r, next, now ::
              && WorkerEvent(n, r, next, now).notificationId == n.id && WorkerEvent(n, r, next, now).createdAt == now
              && forall at :: Stamped(WorkerEvent(n, r, next, now), at) == WorkerEvent(n, r, next, at)
  {
  }

  /** In a reached state the list of a worker's claim has attempts left. */
  lemma ClaimedHaveAttempts(w: World, x: WorkerId)
    requires G.Reachable(w) && WorkerOf(w, x).Busy? && WorkerOf(w, x).phase.Ready?
    ensures forall i | 0 <= i < |WorkerOf(w, x).queue| ::
              WorkerOf(w, x).queue[i].attempts < WorkerOf(w, x).queue[i].maxAttempts
  {
    hide G.Reachable;
    forall i | 0 <= i < |WorkerOf(w, x).queue|
      ensures WorkerOf(w, x).queue[i].attempts < WorkerOf(w, x).queue[i].maxAttempts
    {
      G.SnapshotIsStored(w, x, i);
    }
  }

  lemma RowsUnderIds(w: World)
    requires O.OwnInv(w)
    ensures forall id | id in w.db.rows :: w.db.rows[id].id == id
  {
  }

  lemma ClaimFacts(w: World, k: Worker, picked: seq<string>, locked: set<string>, dueAt: Time, rows: Rows)
    requires k.Busy? && k.phase.Claiming? && k.started <= dueAt <= w.now && InTime(k, dueAt) && Distinct(picked)
    requires ValidClaim(w.db.rows, k.channel, dueAt, locked, k.grant.size, SetOf(picked))
    requires rows == ClaimRows(w.db.rows, SetOf(picked), w.now)
    ensures ActOk(w, k, Claim(picked, locked, dueAt))
    ensures var (db, k') := ActNext(w, k, Claim(picked, locked, dueAt));
            && db == w.db.(rows := rows) && k'.Busy? && |k'.queue| == |picked|
            && k' == k.(queue := k'.queue, phase := Ready)
            && forall i | 0 <= i < |picked| :: picked[i] in rows && k'.queue[i] == rows[picked[i]]
  {
    assert forall i | 0 <= i < |picked| :: picked[i] in SetOf(picked);
  }

  /** A create call has stored `n`, its mapping if it has a key, and its event. */
  predicate StoredOne(db: Tables, db': Tables, call: C.SingleCall, n: Notification, at: Time) {
    && Insertable(db.rows, [n])
    && db' == Tables(
         InsertRows(db.rows, [n]),
         db.events + [AcceptedEvent(n, at)],
         if call.key != "" then UpsertMapping(db.requests, call.tenant, call.key, call.batchId) else db.requests,
         db.windows)
  }

  /** What a create call has added: one row, which is what the request asks for, and one
      event, which says so. */
  predicate AddsRow(db: Tables, db': Tables, call: C.SingleCall, id: string) {
    && id !in db.rows && db'.rows.Keys == db.rows.Keys + {id}
    && (forall other | other in db.rows :: db'.rows[other] == db.rows[other])
    && C.Describes(db'.rows[id], call.request, TenantId(call.tenant), call.batchId, call.correlationId, call.key)
    && |db'.events| == |db.events| + 1 && db'.events[..|db.events|] == db.events
    && var e := db'.events[|db.events|];
       && e.notificationId == id && e.tenantId == TenantId(call.tenant) && e.batchId == call.batchId
       && e.channel == call.request.channel && e.status == db'.rows[id].status
       && e.attempt == 0 && e.reason == "accepted"
  }

  lemma StoredOneAddsRow(db: Tables, db': Tables, call: C.SingleCall, n: Notification, at: Time)
    requires StoredOne(db, db', call, n, at)
    requires C.Describes(n, call.request, call.tenant, call.batchId, call.correlationId, call.key)
    ensures AddsRow(db, db', call, n.id)
  {
    InsertSingle(db.rows, n);
  }

  /** The status that follows the answer `r` to an attempt made on the snapshot `n`. */
  predicate Follows(status: Status, r: Response, n: Notification) {
    if r.err == None && 200 <= r.statusCode < 300 then status == Delivered
    else if r.err != None || r.statusCode == 408 || r.statusCode == 429 || r.statusCode >= 500 then
      status == if n.attempts + 1 < n.maxAttempts then Scheduled else DeadLetter
    else status == Failed
  }

  /** `events'` adds an accepted event for each of the first `count` items, in order. */
  predicate AcceptedFirst(events: seq<DeliveryEvent>, events': seq<DeliveryEvent>, items: seq<Notification>, count: nat)
    requires count <= |items|
  {
    && |events'| == |events| + count && events'[..|events|] == events
    && forall i | 0 <= i < count ::
         events'[|events| + i] == AcceptedEvent(items[i], events'[|events| + i].createdAt)
  }

  lemma AcceptNext(
    events: seq<DeliveryEvent>, events': seq<DeliveryEvent>, items: seq<Notification>, count: nat, at: Time)
    requires count < |items| && AcceptedFirst(events, events', items, count)
    ensures AcceptedFirst(events, events' + [AcceptedEvent(items[count], at)], items, count + 1)
  {
  }

  ghost predicate BuiltFrom(batch: C.BatchCall, batchId: string, items: seq<Notification>) {
    exists ids: seq<string>, at :: |ids| == |batch.requests| && items == C.BuildAll(batch, batchId, ids, at)
  }

  lemma ItemsAreBuilt(batch: C.BatchCall, batchId: string, items: seq<Notification>, ids: seq<string>, at: Time)
    requires |ids| == |batch.requests| && items == C.BuildAll(batch, batchId, ids, at)
    ensures BuiltFrom(batch, batchId, items)
  {
  }

  /** The items are what the requests ask for, one each, and every request is acceptable. */
  predicate Answers(items: seq<Notification>, batch: C.BatchCall, tenant: string, batchId: string) {
    && |items| == |batch.requests|
    && forall i | 0 <= i < |items| ::
         && C.Acceptable(batch.requests[i])
         && C.Describes(items[i], batch.requests[i], tenant, batchId, batch.correlationId,
                        batch.requests[i].idempotencyKey)
  }

  lemma AnswersAcceptable(batch: C.BatchCall)
    ensures forall items, tenant, batchId | Answers(items, batch, tenant, batchId) ::
              forall i | 0 <= i < |batch.requests| :: C.Acceptable(batch.requests[i])
  {
    hide C.Acceptable, C.Describes;
  }

  /** `error` is that of the first request that is not acceptable. */
  predicate FirstError(requests: seq<NotificationRequest>, error: string) {
    exists i | 0 <= i < |requests| ::
      C.Invalid(requests[i]) == Some(error) && forall j | 0 <= j < i :: C.Acceptable(requests[j])
  }

  lemma AllAcceptable(requests: seq<NotificationRequest>)
    ensures C.FirstInvalid(requests) == None <==> forall i | 0 <= i < |requests| :: C.Acceptable(requests[i])
    ensures C.FirstInvalid(requests) != None ==> FirstError(requests, C.FirstInvalid(requests).value)
  {
    hide C.Invalid, C.Acceptable;
    C.FirstInvalidIsFirst(requests);
    forall i | 0 <= i < |requests|
      ensures C.Invalid(requests[i]) == None <==> C.Acceptable(requests[i])
    {
      C.ValidIffAcceptable(requests[i]);
    }
    if C.FirstInvalid(requests) != None {
      var i := FirstBad(requests, 0);
      assert C.Invalid(requests[i]) == Some(C.FirstInvalid(requests).value);
    }
  }

  lemma FirstBad(requests: seq<NotificationRequest>, from: nat) returns (i: nat)
    requires from < |requests| && (forall j | 0 <= j < from :: C.Invalid(requests[j]) == None)
    requires exists j | 0 <= j < |requests| :: C.Invalid(requests[j]) != None
    ensures i < |requests| && C.Invalid(requests[i]) != None && forall j | 0 <= j < i :: C.Invalid(requests[j]) == None
    decreases |requests| - from
  {
    hide C.Invalid;
    if C.Invalid(requests[from]) != None {
      i := from;
    } else {
      i := FirstBad(requests, from + 1);
    }
  }

  /** What a batch call has added: the rows its requests ask for, and nothing else. */
  predicate AddsRows(db: Tables, db': Tables, batch: C.BatchCall, batchId: string, items: seq<Notification>) {
    && |items| == |batch.requests|
    && (forall i | 0 <= i < |items| ::
          && items[i].id !in db.rows && items[i].id in db'.rows
          && C.Describes(db'.rows[items[i].id], batch.requests[i], TenantId(batch.tenant), batchId,
                         batch.correlationId, batch.requests[i].idempotencyKey))
    && (forall id | id in db'.rows :: id in db.rows || exists i | 0 <= i < |items| :: items[i].id == id)
    && (forall id | id in db.rows :: id in db'.rows && db'.rows[id] == db.rows[id])
  }

  lemma StoredAllAddsRows(db: Tables, db': Tables, batch: C.BatchCall, batchId: string, items: seq<Notification>)
    requires StoredAll(db, db', batch, batchId, items) && Answers(items, batch, batch.tenant, batchId)
    ensures AddsRows(db, db', batch, batchId, items)
  {
    hide C.Acceptable, TenantId, Insertable, InsertRows;
    InsertKeepsRows(db.rows, items);
    forall i | 0 <= i < |items|
      ensures && items[i].id !in db.rows && items[i].id in db'.rows
              && C.Describes(db'.rows[items[i].id], batch.requests[i], TenantId(batch.tenant), batchId,
                             batch.correlationId, batch.requests[i].idempotencyKey)
    {
      InsertStoresRow(db.rows, items, i);
      assert items[i].id in Ids(items);
    }
  }

  /** A batch call has stored all its rows, its mapping if it has a key, and their events. */
  predicate StoredAll(db: Tables, db': Tables, batch: C.BatchCall, batchId: string, items: seq<Notification>) {
    && Insertable(db.rows, items) && db'.rows == InsertRows(db.rows, items)
    && db'.requests ==
       (if batch.key != "" then UpsertMapping(db.requests, batch.tenant, batch.key, batchId) else db.requests)
    && db'.windows == db.windows
    && AcceptedFirst(db.events, db'.events, items, |items|)
  }

  lemma InsertedAreThere(rows: Rows, items: seq<Notification>)
    requires Insertable(rows, items)
    ensures forall i | 0 <= i < |items| :: items[i].id in InsertRows(rows, items)
  {
    forall i | 0 <= i < |items|
      ensures items[i].id in InsertRows(rows, items)
    {
      InsertStoresRow(rows, items, i);
    }
  }

  lemma InsertedIsThere(rows: Rows, n: Notification)
    requires Insertable(rows, [n])
    ensures n.id in InsertRows(rows, [n])
  {
    InsertStoresRow(rows, [n], 0);
  }

  /** The row a successful create call answers with is the only one under its key. */
  lemma CreatedIsUnique(start: World, trace: seq<Step>, w: World, c: ClientId)
    requires Ran(start, trace, w) && ClientOf(w, c).Created? && ClientOf(w, c).result.Ok?
    ensures var call, n := ClientOf(w, c).call, ClientOf(w, c).result.value;
            && C.Matches(w.db.rows, n.id, call.tenant, call.key)
            && (call.key != "" ==> forall id | C.Matches(w.db.rows, id, call.tenant, call.key) :: id == n.id)
  {
    hide Ran, G.Reachable;
    RanIsReachable(start, trace, w);
    G.CreatedStays(w, c, []);
    if ClientOf(w, c).call.key != "" {
      forall id | C.Matches(w.db.rows, id, ClientOf(w, c).call.tenant, ClientOf(w, c).call.key)
        ensures id == ClientOf(w, c).result.value.id
      {
        G.SingleCreateIdempotent(w, c, id);
      }
    }
  }

  class Service {
    const repo: R.Repository
    const metrics: M.Metrics
    const claimLimit: int
    const rateLimit: int

    var clock: Time

    /** From now on no one else runs, no statement fails and no deadline passes. */
    var calm: bool

    /** What others sharing the metrics have counted. */
    ghost var othersSuccess: map<Channel, int>
    ghost var othersFailure: map<Channel, int>

    /** The state of the whole system, its initial state, and the steps in between. */
    ghost var world: World
    ghost var start: World
    ghost var trace: seq<Step>

    /** What this code has added to the shared counters. */
    ghost function OwnSuccess(c: Channel): int
      reads this`othersSuccess, metrics`successCount
    {
      M.At(metrics.successCount, c) - M.At(othersSuccess, c)
    }

    ghost function OwnFailure(c: Channel): int
      reads this`othersFailure, metrics`failureCount
    {
      M.At(metrics.failureCount, c) - M.At(othersFailure, c)
    }

    /** This code has counted nothing, and in calm nobody has. */
    twostate predicate NothingReported()
      reads this, metrics
    {
      && (forall c: Channel :: OwnSuccess(c) == old(OwnSuccess(c)) && OwnFailure(c) == old(OwnFailure(c)))
      && (calm ==> metrics.queueDepth == old(metrics.queueDepth))
    }

    /** Everything but the tables agrees with `world`. */
    ghost predicate Recorded()
      reads this, repo, metrics
    {
      && Ran(start, trace, world)
      && clock == world.now && world.config == Config(rateLimit, claimLimit)
      && repo.reliable == calm && metrics.Valid()
    }

    ghost predicate Valid()
      reads this, repo, metrics
    {
      Recorded() && repo.Db() == world.db
    }

    /** Limits that are not positive leave the defaults, as the options of `New` do. */
    constructor (repo: R.Repository, metrics: M.Metrics, claimLimit: int, rateLimit: int, now: Time)
      requires repo.Db() == Tables(map[], [], map[], map[]) && metrics.Valid()
      ensures Valid() && this.repo == repo && this.metrics == metrics && calm == repo.reliable
      ensures trace == [] && clock == now
      ensures this.claimLimit == (if claimLimit > 0 then claimLimit else 10)
      ensures this.rateLimit == (if rateLimit > 0 then rateLimit else 100)
    {
      this.repo, this.metrics := repo, metrics;
      this.claimLimit := if claimLimit > 0 then claimLimit else 10;
      this.rateLimit := if rateLimit > 0 then rateLimit else 100;
      clock := now;
      calm := repo.reliable;
      world := World(Tables(map[], [], map[], map[]), now, map[], map[], map[], [],
                     Config(if rateLimit > 0 then rateLimit else 100, if claimLimit > 0 then claimLimit else 10));
      start := World(Tables(map[], [], map[], map[]), now, map[], map[], map[], [],
                     Config(if rateLimit > 0 then rateLimit else 100, if claimLimit > 0 then claimLimit else 10));
      trace := [];
    }

    /** Others take any number of steps, and count results of their own. The body does
        nothing: callers see the contract alone, and `OthersMayStep` shows that every
        choice of steps meets it. */
    method Interfere(me: Actor)
      requires Valid()
      modifies this`clock, this`world, this`trace, repo, metrics, this`othersSuccess, this`othersFailure
      ensures NothingReported()
      ensures Valid() && old(trace) <= trace
      ensures Results(trace, me) == Results(old(trace), me) && ActsOf(trace, me) == ActsOf(old(trace), me)
      ensures Undisturbed(old(world), world, me)
      ensures calm ==> OnlyTime(old(world), world, me)
    {
    }

    /** Takes note of a step this code has just taken. */
    ghost method Record(s: Step, me: Actor)
      requires Recorded() && Enabled(world, s) && repo.Db() == DbNext(world, s) && !s.Tick?
      modifies this`world, this`trace
      ensures Valid() && trace == old(trace) + [s] && world == Next(old(world), s)
      ensures Results(trace, me) == Results(old(trace), me) + if By(s, me) && s.Work? && s.act.Mark? then 1 else 0
      ensures ActsOf(trace, me) == ActsOf(old(trace), me) + if By(s, me) && s.Work? then [s.act] else []
    {
      hide Ran, Results, ActsOf, Next, DbNext, Enabled;
      NextParts(world, s);
      RanStep(start, trace, world, s, me);
      trace := trace + [s];
      world := Next(world, s);
    }

    ghost method Take(me: WorkerId, act: Act)
      requires Recorded() && ActOk(world, WorkerOf(world, me), act)
      requires repo.Db() == ActNext(world, WorkerOf(world, me), act).0
      modifies this`world, this`trace
      ensures Valid() && trace == old(trace) + [Work(me, act)]
      ensures world.db == repo.Db() && world.now == old(world).now
      ensures WorkerOf(world, me) == ActNext(old(world), WorkerOf(old(world), me), act).1
      ensures |world.sent| == |old(world).sent| + if act.Send? then 1 else 0
      ensures Results(trace, AsWorker(me)) == Results(old(trace), AsWorker(me)) + if act.Mark? then 1 else 0
      ensures ActsOf(trace, AsWorker(me)) == ActsOf(old(trace), AsWorker(me)) + [act]
    {
      hide Ran, ActsOf, LifeNext, ActNext, ActOk;
      Record(Work(me, act), AsWorker(me));
    }

    /** The end of a cycle, reached or not. */
    ghost method Leave(me: WorkerId, act: Act)
      requires Valid() && WorkerOf(world, me).Busy? && WorkerOf(world, me).phase.Ready?
      requires act.Drop? || (act.Finish? && WorkerOf(world, me).queue == [])
      modifies this`world, this`trace
      ensures Valid() && trace == old(trace) + [Work(me, act)] && WorkerOf(world, me).Idle?
      ensures |world.sent| == |old(world).sent|
      ensures Results(trace, AsWorker(me)) == Results(old(trace), AsWorker(me))
    {
      hide Ran, Results;
      Take(me, act);
    }

    ghost method TakeCall(c: ClientId, op: C.Op)
      requires Recorded() && C.OpOk(world.db, ClientOf(world, c), op)
      requires repo.Db() == C.OpNext(world.db, ClientOf(world, c), op, world.now).0
      modifies this`world, this`trace
      ensures Valid() && trace == old(trace) + [Call(c, op)] && world.now == old(world).now
      ensures world.db == repo.Db()
      ensures ClientOf(world, c) == C.OpNext(old(world).db, ClientOf(old(world), c), op, old(world).now).1
    {
      hide Ran, LifeNext, ActNext;
      Record(Call(c, op), AsClient(c));
    }

    method CallProvider(n: Notification) returns (r: Response) {
      r := *;
    }

    method RandomByte() returns (b: Option<Byte>) {
      b := *;
    }

    /** `ctx.Err() != nil` for a cycle that began at `started`. */
    method Expired(started: Time) returns (b: bool)
      ensures !b ==> clock < started + 5_000_000_000
      ensures calm && clock < started + 5_000_000_000 ==> !b
      ensures !b ==> clock < started + JOB_TIMEOUT
      ensures calm && clock < started + JOB_TIMEOUT ==> !b
    {
      b := *;
      if calm {
        b := false;
      }
      b := b || clock >= started + JOB_TIMEOUT;
    }

    /** The result write that follows the answer `r`; an expired context refuses it. */
    method WriteResult(n: Notification, r: Response, next: Time, expired: bool) returns (applied: bool)
      modifies repo`notifications
      ensures repo.notifications ==
              if applied && n.id in old(repo.notifications)
              then old(repo.notifications)[n.id := MarkedRow(old(repo.notifications)[n.id], n, r, next, clock)]
              else old(repo.notifications)
      ensures applied && n.id in old(repo.notifications) ==>
                n.id in repo.notifications && Follows(repo.notifications[n.id].status, r, n)
      ensures expired ==> !applied
      ensures repo.reliable && !expired ==> applied
    {
      if expired {
        return false;
      }
      var attempt := n.attempts + 1;
      if r.err.Some? || r.statusCode < 200 || r.statusCode >= 300 {
        var message := FailureMessage(r);
        if ShouldRetryDelivery(r.statusCode, r.err) && attempt < n.maxAttempts {
          applied := repo.ScheduleRetry(n.id, message, next, clock);
        } else if ShouldRetryDelivery(r.statusCode, r.err) {
          applied := repo.MarkDeadLetter(n.id, message, clock);
        } else {
          applied := repo.MarkFailed(n.id, message, clock);
        }
      } else {
        applied := repo.MarkDelivered(n.id, r.messageId, clock);
      }
    }

    /** The provider call for `n`. */
    method Attempt(me: WorkerId, n: Notification) returns (r: Response)
      requires Valid() && WorkerOf(world, me).Busy? && WorkerOf(world, me).phase.Ready?
      requires WorkerOf(world, me).queue != [] && WorkerOf(world, me).queue[0] == n
      requires clock < WorkerOf(world, me).started + JOB_TIMEOUT
      modifies this`clock, this`world, this`trace, repo, metrics, this`othersSuccess, this`othersFailure
      ensures NothingReported()
      ensures Valid() && old(trace) <= trace && old(clock) <= clock
      ensures var k := WorkerOf(old(world), me);
              WorkerOf(world, me) == k.(phase := Answered(r, clock), grant := k.grant.(taken := k.grant.taken + 1))
      ensures Results(trace, AsWorker(me)) == Results(old(trace), AsWorker(me))
      ensures calm ==> repo.Db() == old(repo.Db()) && |world.sent| == |old(world).sent| + 1
      ensures calm ==> clock < WorkerOf(world, me).started + JOB_TIMEOUT
      ensures ActsOf(trace, AsWorker(me)) == ActsOf(old(trace), AsWorker(me)) + [Send, Answer(r)]
    {
      hide ActsOf, M.At, OwnSuccess, OwnFailure, Ran, Results, WorkerOf;
      Take(me, Send);
      Interfere(AsWorker(me));
      r := CallProvider(n);
      Take(me, Answer(r));
    }

    /** The result write as a step, from the instant `at` it was decided. */
    method WriteAndMark(
      me: WorkerId, n: Notification, r: Response, at: Time, jitter: Option<Byte>, retryAt: Time, expired: bool)
      returns (event: DeliveryEvent, ghost mark: Act)
      requires Valid() && WorkerOf(world, me).Busy? && WorkerOf(world, me).phase.Answered?
      requires WorkerOf(world, me).queue != [] && WorkerOf(world, me).queue[0] == n
      requires WorkerOf(world, me).phase.response == r && WorkerOf(world, me).phase.at <= at <= clock
      requires retryAt == at + Backoff(n.attempts, jitter) && (!expired ==> InTime(WorkerOf(world, me), at))
      modifies this`world, this`trace, repo`notifications
      ensures Valid() && old(trace) <= trace && event == WorkerEvent(n, r, retryAt, clock)
      ensures WorkerOf(world, me) == WorkerOf(old(world), me).(phase := Logging(event))
      ensures Results(trace, AsWorker(me)) == Results(old(trace), AsWorker(me)) + 1
      ensures mark.Mark? && ActsOf(trace, AsWorker(me)) == ActsOf(old(trace), AsWorker(me)) + [mark]
      ensures |world.sent| == |old(world).sent|
      ensures calm && !expired ==>
                repo.notifications ==
                if n.id in old(repo.notifications)
                then old(repo.notifications)[n.id := MarkedRow(old(repo.notifications)[n.id], n, r, retryAt, clock)]
                else old(repo.notifications)
    {
      hide Follows, ActsOf, M.At, Ran, Results, WorkerOf, MarkedRow, WorkerEvent, Backoff;
      var applied := WriteResult(n, r, retryAt, expired);
      mark := Mark(at, jitter, applied);
      Take(me, mark);
      event := WorkerEvent(n, r, retryAt, clock);
    }

    /** The result write for the answer `r`, and the event that is to follow it. */
    method Settle(me: WorkerId, started: Time, n: Notification, r: Response)
      returns (event: DeliveryEvent, ghost next: Time, ghost written: Time, ghost mark: Act)
      requires Valid() && WorkerOf(world, me).Busy? && WorkerOf(world, me).phase.Answered?
      requires WorkerOf(world, me).queue != [] && WorkerOf(world, me).queue[0] == n
      requires WorkerOf(world, me).started == started
      requires WorkerOf(world, me).phase.response == r && WorkerOf(world, me).phase.at <= clock
      modifies this`clock, this`world, this`trace, repo, metrics, this`othersSuccess, this`othersFailure
      ensures NothingReported()
      ensures Valid() && old(trace) <= trace && old(clock) <= clock
      ensures event == WorkerEvent(n, r, next, written) && written <= clock
      ensures old(clock) + LeastDelay(n.attempts) <= next && 4 * (next - clock) < 5 * LeastDelay(n.attempts)
      ensures WorkerOf(world, me) == WorkerOf(old(world), me).(phase := Logging(event))
      ensures Results(trace, AsWorker(me)) == Results(old(trace), AsWorker(me)) + 1
      ensures mark.Mark? && ActsOf(trace, AsWorker(me)) == ActsOf(old(trace), AsWorker(me)) + [mark]
      ensures calm && old(clock) < started + JOB_TIMEOUT ==>
                && clock < started + JOB_TIMEOUT
                && |world.sent| == |old(world).sent| && repo.events == old(repo.events)
                && repo.notifications ==
                   if n.id in old(repo.notifications)
                   then old(repo.notifications)[n.id := MarkedRow(old(repo.notifications)[n.id], n, r, next, written)]
                   else old(repo.notifications)
    {
      hide LeastDelay, Follows, Decide, Accepted, ShouldRetryDelivery, DbNext, LifeNext, ActsOf, M.At, OwnSuccess,
        OwnFailure, Ran, Results, WorkerOf, MarkedRow, WorkerEvent, Backoff;
      var at := clock;
      var expired := Expired(started);
      var jitter := RandomByte();
      var retryAt := at + Backoff(n.attempts, jitter);
      BackoffRange(n.attempts, jitter);
      Interfere(AsWorker(me));
      next, written := retryAt, clock;
      event, mark := WriteAndMark(me, n, r, at, jitter, retryAt, expired);
    }

    /** `recordEvent`: reads the clock and writes the event; its failure is ignored. */
    method LogEvent(me: WorkerId, started: Time, event: DeliveryEvent)
      returns (ghost at: Time, ghost log: Act)
      requires Valid() && WorkerOf(world, me).Busy? && WorkerOf(world, me).phase == Logging(event)
      requires WorkerOf(world, me).started == started && event.createdAt <= clock
      requires WorkerOf(world, me).queue != []
      modifies this`clock, this`world, this`trace, repo, metrics, this`othersSuccess, this`othersFailure
      ensures NothingReported()
      ensures Valid() && old(trace) <= trace && old(clock) <= clock
      ensures var k := WorkerOf(old(world), me); WorkerOf(world, me) == k.(queue := k.queue[1..], phase := Ready)
      ensures Results(trace, AsWorker(me)) == Results(old(trace), AsWorker(me))
      ensures calm ==> |world.sent| == |old(world).sent| && repo.notifications == old(repo.notifications)
      ensures old(clock) <= at
      ensures log.Log? && ActsOf(trace, AsWorker(me)) == ActsOf(old(trace), AsWorker(me)) + [log]
      ensures calm && old(clock) < started + JOB_TIMEOUT && event.notificationId in repo.notifications ==>
                repo.events == old(repo.events) + [Stamped(event, at)]
      ensures calm && old(clock) < started + JOB_TIMEOUT ==> clock < started + JOB_TIMEOUT
    {
      hide ActsOf, M.At, OwnSuccess, OwnFailure, Ran, Results, WorkerOf;
      var now := clock;
      at := now;
      var expired := Expired(started);
      Interfere(AsWorker(me));
      var logged := false;
      if !expired {
        logged := repo.RecordEvent(Stamped(event, now));
      }
      log := Log(now, logged);
      Take(me, log);
    }

    method CountResult(channel: Channel, r: Response, latency: Time)
      requires Valid()
      modifies metrics
      ensures Valid()
      ensures OwnSuccess(channel) == old(OwnSuccess(channel)) + (if Accepted(r) then 1 else 0)
      ensures OwnFailure(channel) == old(OwnFailure(channel)) + (if Accepted(r) then 0 else 1)
      ensures metrics.queueDepth == old(metrics.queueDepth)
    {
      hide Ran;
      if r.err.Some? || r.statusCode < 200 || r.statusCode >= 300 {
        metrics.IncFailure(channel, latency);
      } else {
        metrics.IncSuccess(channel, latency);
      }
    }

    /** One pass of the delivery loop: send, write the result, write the event, count. */
    method Deliver(me: WorkerId, channel: Channel, started: Time, n: Notification)
      returns (ghost answer: Response, ghost next: Time, ghost written: Time, ghost logged: Time)
      requires Valid() && WorkerOf(world, me).Busy? && WorkerOf(world, me).phase.Ready?
      requires WorkerOf(world, me).queue != [] && WorkerOf(world, me).queue[0] == n
      requires WorkerOf(world, me).started == started && clock < started + JOB_TIMEOUT
      modifies this`clock, this`world, this`trace, repo, metrics, this`othersSuccess, this`othersFailure
      ensures Valid() && old(trace) <= trace
      ensures var k := WorkerOf(old(world), me);
              WorkerOf(world, me) == k.(queue := k.queue[1..], grant := k.grant.(taken := k.grant.taken + 1))
      ensures Results(trace, AsWorker(me)) == Results(old(trace), AsWorker(me)) + 1
      ensures old(clock) + LeastDelay(n.attempts) <= next && 4 * (next - clock) < 5 * LeastDelay(n.attempts)
      ensures AddsDelivery(ActsOf(old(trace), AsWorker(me)), ActsOf(trace, AsWorker(me)), answer)
      ensures OwnSuccess(channel) == old(OwnSuccess(channel)) + (if Accepted(answer) then 1 else 0)
      ensures OwnFailure(channel) == old(OwnFailure(channel)) + (if Accepted(answer) then 0 else 1)
      ensures calm ==> metrics.queueDepth == old(metrics.queueDepth)
      ensures calm ==>
                && clock < started + JOB_TIMEOUT
                && |world.sent| == |old(world).sent| + 1
                && repo.notifications ==
                   if n.id in old(repo.notifications)
                   then old(repo.notifications)[
                     n.id := MarkedRow(old(repo.notifications)[n.id], n, answer, next, written)]
                   else old(repo.notifications)
      ensures calm && n.id in old(repo.notifications) ==>
                && n.id in repo.notifications
                && repo.notifications[n.id].attempts == old(repo.notifications)[n.id].attempts + 1
                && Follows(repo.notifications[n.id].status, answer, n)
                && (repo.notifications[n.id].status == Delivered ==>
                      repo.notifications[n.id].providerMessageId == answer.messageId)
                && (repo.notifications[n.id].status == Scheduled ==> repo.notifications[n.id].scheduledAt == Some(next))
      ensures calm && n.id in old(repo.notifications) ==>
                repo.events == old(repo.events) + [WorkerEvent(n, answer, next, logged)]
    {
      hide LeastDelay, ActsOf, M.At, OwnSuccess, OwnFailure, Ran, Results, MarkedRow, WorkerOf, WorkerEvent;
      EventIsAbout(n);
      ghost var before := repo.notifications;
      var begun := clock;
      var r := Attempt(me, n);
      answer := r;
      var event;
      ghost var mark, log;
      event, next, written, mark := Settle(me, started, n, r);
      logged, log := LogEvent(me, started, event);
      if calm && n.id in before {
        MarkedRowMeaning(before[n.id], n, r, next, written);
      }
      CountResult(channel, r, clock - begun);
    }

    /** The limiter call, with the instant it read; an expired context refuses it. */
    method AskLimiter(me: WorkerId, channel: Channel, readAt: Time, expired: bool) returns (works: bool, allowed: nat)
      requires Valid() && WorkerOf(world, me).Busy? && WorkerOf(world, me).phase.Limiting?
      requires WorkerOf(world, me).channel == channel && WorkerOf(world, me).started <= readAt <= clock
      requires !expired ==> InTime(WorkerOf(world, me), readAt)
      modifies this`world, this`trace, repo`windows
      ensures Valid() && old(trace) <= trace
      ensures Results(trace, AsWorker(me)) == Results(old(trace), AsWorker(me))
      ensures !works || allowed == 0 ==> WorkerOf(world, me).Idle?
      ensures works && allowed > 0 ==>
                exists base :: WorkerOf(world, me) ==
                               WorkerOf(old(world), me).(
                                 grant := Grant(WindowOf(readAt), base, allowed, 0), phase := Claiming)
      ensures |world.sent| == |old(world).sent|
      ensures calm && !expired ==>
                && works
                && var used := Used(old(repo.windows), DeliveryKey(channel), WindowOf(readAt));
                   allowed == Grantable(used, rateLimit, claimLimit)
    {
      hide ActsOf, M.At, Ran, Results, WorkerOf, WindowOf, DeliveryKey;
      ghost var base, stored := Used(repo.windows, DeliveryKey(channel), WindowOf(readAt)), false;
      allowed, works := 0, false;
      if !expired {
        allowed, works, stored := repo.AcquireRateLimitSlots(DeliveryKey(channel), rateLimit, claimLimit, readAt);
      }
      if stored {
        Take(me, Acquire(readAt, works));
      } else {
        Take(me, Drop);
      }
    }

    /** Asks the limiter for as many slots as one claim may take. */
    method Reserve(me: WorkerId, channel: Channel, started: Time)
      returns (works: bool, allowed: nat, ghost window: int)
      requires Valid() && WorkerOf(world, me).Busy? && WorkerOf(world, me).phase.Limiting?
      requires WorkerOf(world, me).channel == channel && WorkerOf(world, me).started == started <= clock
      modifies this`clock, this`world, this`trace, repo, metrics, this`othersSuccess, this`othersFailure
      ensures NothingReported()
      ensures Valid() && old(trace) <= trace && old(clock) <= clock
      ensures Results(trace, AsWorker(me)) == Results(old(trace), AsWorker(me))
      ensures !works || allowed == 0 ==> WorkerOf(world, me).Idle?
      ensures works && allowed > 0 ==>
                exists base :: WorkerOf(world, me) ==
                               WorkerOf(old(world), me).(grant := Grant(window, base, allowed, 0), phase := Claiming)
      ensures calm && old(clock) < started + JOB_TIMEOUT ==>
                && clock < started + JOB_TIMEOUT
                && works && WindowOf(old(clock)) <= window
                && allowed == Grantable(Used(old(repo.windows), DeliveryKey(channel), window), rateLimit, claimLimit)
                && repo.notifications == old(repo.notifications) && repo.events == old(repo.events)
                && |world.sent| == |old(world).sent|
    {
      hide ActsOf, M.At, OwnSuccess, OwnFailure, Ran, Results, WorkerOf, Grantable, Used, DeliveryKey;
      Interfere(AsWorker(me));
      var readAt := clock;
      window := WindowOf(readAt);
      var expired := Expired(started);
      Interfere(AsWorker(me));
      works, allowed := AskLimiter(me, channel, readAt, expired);
    }

    /** Claims up to `allowed` due rows. */
    method ClaimNext(me: WorkerId, channel: Channel, started: Time, allowed: nat)
      returns (works: bool, claimed: seq<Notification>, ghost picked: seq<string>, ghost dueAt: Time, ghost at: Time)
      requires Valid() && WorkerOf(world, me).Busy? && WorkerOf(world, me).phase.Claiming?
      requires WorkerOf(world, me).channel == channel && WorkerOf(world, me).grant.size == allowed
      requires WorkerOf(world, me).started == started <= clock
      modifies this`clock, this`world, this`trace, repo, metrics, this`othersSuccess, this`othersFailure
      ensures NothingReported()
      ensures Valid() && old(trace) <= trace && old(clock) <= clock
      ensures Results(trace, AsWorker(me)) == Results(old(trace), AsWorker(me))
      ensures WorkerOf(world, me) ==
              if works then WorkerOf(old(world), me).(queue := claimed, phase := Ready) else Idle
      ensures works ==> |claimed| == |picked|
      ensures calm && old(clock) < started + JOB_TIMEOUT ==>
                && clock < started + JOB_TIMEOUT
                && works && old(clock) <= dueAt && Distinct(picked)
                && ValidClaim(old(repo.notifications), channel, dueAt, {}, allowed, SetOf(picked))
                && repo.notifications == ClaimRows(old(repo.notifications), SetOf(picked), at)
                && repo.events == old(repo.events) && |world.sent| == |old(world).sent|
                && forall i | 0 <= i < |picked| ::
                     picked[i] in repo.notifications && claimed[i] == repo.notifications[picked[i]]
    {
      hide R.OnlyClaims, Candidates, NoLater, DbNext, LifeNext, ActsOf, M.At, OwnSuccess, OwnFailure,
        Ran, Results, WorkerOf, ValidClaim, SetOf, Distinct, ClaimRows;
      var due := clock;
      var expired := Expired(started);
      Interfere(AsWorker(me));
      dueAt, at := due, clock;
      ghost var stored, locked := false, {};
      works, claimed, picked := false, [], [];
      if !expired {
        works, claimed, stored, picked, locked := repo.ClaimDue(channel, allowed, due, clock);
      }
      if stored {
        ClaimFacts(world, WorkerOf(world, me), picked, locked, due, repo.notifications);
        Take(me, Claim(picked, locked, due));
        assert works ==> WorkerOf(world, me).queue == claimed;
      }
      if !works {
        Take(me, Drop);
      }
    }

    /** What this code has reported of a channel: one count for each result. */
    ghost function Reported(channel: Channel): int
      reads this`othersSuccess, this`othersFailure, metrics`successCount, metrics`failureCount
    {
      OwnSuccess(channel) + OwnFailure(channel)
    }

    /** As many results were reported as were written. */
    twostate predicate ResultsReported(me: WorkerId, channel: Channel)
      reads this, metrics
    {
      Reported(channel) - old(Reported(channel)) ==
      Results(trace, AsWorker(me)) - Results(old(trace), AsWorker(me))
    }

    /** The delivery loop over the claimed rows. */
    method DeliverAll(
      me: WorkerId, channel: Channel, started: Time, claimed: seq<Notification>, ghost before: Rows)
      returns (works: bool)
      requires Valid() && WorkerOf(world, me).Busy? && WorkerOf(world, me).phase.Ready?
      requires WorkerOf(world, me).channel == channel && WorkerOf(world, me).queue == claimed
      requires WorkerOf(world, me).started == started && (calm ==> clock < started + JOB_TIMEOUT)
      requires calm ==> Underway(before, repo.notifications, claimed, 0, channel)
      modifies this`clock, this`world, this`trace, repo, metrics, this`othersSuccess, this`othersFailure
      ensures Valid() && old(trace) <= trace && WorkerOf(world, me).Idle?
      ensures ResultsReported(me, channel)
      ensures calm ==> metrics.queueDepth == old(metrics.queueDepth)
      ensures calm ==> works && |world.sent| == |old(world).sent| + |claimed|
      ensures calm ==> |repo.events| == |old(repo.events)| + |claimed|
      ensures calm ==> Underway(before, repo.notifications, claimed, |claimed|, channel)
    {
      hide ActsOf, ActNext, ActOk, Accepted, Decide, M.At, OwnSuccess, OwnFailure, Ran, Results, WorkerOf, MarkedRow,
        Underway;
      var i := 0;
      while i < |claimed|
        invariant Valid() && old(trace) <= trace && 0 <= i <= |claimed|
        invariant WorkerOf(world, me).Busy? && WorkerOf(world, me).phase.Ready?
        invariant WorkerOf(world, me).started == started
        invariant WorkerOf(world, me).queue == claimed[i..]
        invariant ResultsReported(me, channel)
        invariant calm ==> metrics.queueDepth == old(metrics.queueDepth)
        invariant calm ==> clock < started + JOB_TIMEOUT && |world.sent| == |old(world).sent| + i
        invariant calm ==> |repo.events| == |old(repo.events)| + i
        invariant calm ==> Underway(before, repo.notifications, claimed, i, channel)
      {
        Interfere(AsWorker(me));
        var expired := Expired(started);
        if expired {
          Leave(me, Drop);
          return false;
        }
        ghost var rows := repo.notifications;
        ghost var answer, next, written, logged := Deliver(me, channel, started, claimed[i]);
        if calm {
          MarkGoesOn(before, rows, claimed, i, channel, answer, next, written);
        }
        i := i + 1;
      }
      Leave(me, Finish);
      works := true;
    }

    /** What a cycle does in calm: every claimed row is sent once and answered for, with
        one event, the claim is as large as the limiter and the queue allow, and no row
        stays behind in processing. */
    twostate predicate Cycled(channel: Channel, window: int, dueAt: Time)
      reads this, repo
    {
      && old(clock) <= dueAt && WindowOf(old(clock)) <= window
      && |world.sent| == |old(world).sent| +
           Min(Grantable(Used(old(repo.windows), DeliveryKey(channel), window), rateLimit, claimLimit),
               |Candidates(old(repo.notifications), channel, dueAt, {})|)
      && |repo.events| - |old(repo.events)| == |world.sent| - |old(world).sent|
      && Underway(old(repo.notifications), repo.notifications, [], 0, channel)
      && TotalLeft(repo.notifications, channel) + |world.sent| <=
         TotalLeft(old(repo.notifications), channel) + |old(world).sent|
    }

    /** A cycle from its limiter call on. */
    method WorkOn(me: WorkerId, channel: Channel, started: Time)
      returns (works: bool, ghost window: int, ghost dueAt: Time)
      requires Valid() && WorkerOf(world, me).Busy? && WorkerOf(world, me).phase.Limiting?
      requires WorkerOf(world, me).channel == channel && WorkerOf(world, me).started == started
      requires started <= clock && (calm ==> clock < started + JOB_TIMEOUT)
      modifies this`clock, this`world, this`trace, repo, metrics, this`othersSuccess, this`othersFailure
      ensures Valid() && old(trace) <= trace && WorkerOf(world, me).Idle?
      ensures ResultsReported(me, channel)
      ensures calm ==> metrics.queueDepth == old(metrics.queueDepth)
      ensures calm ==> works && Cycled(channel, window, dueAt)
    {
      hide ActsOf, M.At, OwnSuccess, OwnFailure, Ran, Results, WorkerOf, Underway, ValidClaim, G.Reachable, O.OwnInv,
        O.Inv,
        S.RateInv, ClaimRows, Candidates, TotalLeft, SetOf, Distinct, Grantable, Used, DeliveryKey, WindowOf;
      dueAt := clock;
      ghost var before := repo.notifications;
      var allowed;
      works, allowed, window := Reserve(me, channel, started);
      if !works || allowed == 0 {
        NothingClaimed(before, channel);
        return works, window, dueAt;
      }
      var claimed;
      ghost var picked, at;
      works, claimed, picked, dueAt, at := ClaimNext(me, channel, started, allowed);
      if !works {
        return false, window, dueAt;
      }
      if calm {
        RanIsReachable(start, trace, world);
        RowsUnderIds(world);
        ClaimedHaveAttempts(world, me);
        ClaimStarts(before, repo.notifications, claimed, picked, channel, dueAt, {}, allowed, at);
      }
      works := DeliverAll(me, channel, started, claimed, before);
      if calm {
        AllHandled(before, repo.notifications, claimed, channel);
      }
    }

    /** One worker cycle. */
    method ProcessChannel(me: WorkerId, channel: Channel) returns (works: bool, ghost window: int, ghost dueAt: Time)
      requires Valid() && WorkerOf(world, me).Idle?
      modifies this`clock, this`world, this`trace, repo, metrics, this`othersSuccess, this`othersFailure
      ensures Valid() && old(trace) <= trace && WorkerOf(world, me).Idle?
      ensures ResultsReported(me, channel)
      ensures calm ==> works && Cycled(channel, window, dueAt)
      ensures calm ==> M.At(metrics.queueDepth, channel) == |Waiting(old(repo.notifications), channel)|
    {
      hide ActsOf, OwnSuccess, OwnFailure, Ran, Results, WorkerOf, Underway, Candidates, TotalLeft, Grantable, Used,
          DeliveryKey, WindowOf;
      window, dueAt := WindowOf(clock), clock;
      var started := clock;
      var expired := Expired(started);
      if expired {
        return false, window, dueAt;
      }
      Take(me, Begin(channel));
      var counted, depth := repo.QueueDepthByChannel(channel);
      assert Waiting(repo.notifications, channel) ==
             set id | id in repo.notifications && repo.notifications[id].channel == channel
                      && Queued(repo.notifications[id].status);
      if counted {
        metrics.SetQueueDepth(channel, depth);
      }
      works, window, dueAt := WorkOn(me, channel, started);
    }

    /** How many ticks there are before the context ends. */
    method UntilDone() returns (ticks: nat) {
      ticks := *;
    }

    /** One worker's ticker loop, until its context ends, whenever that is; a cycle's error
        is only logged. */
    method RunChannel(me: WorkerId, channel: Channel)
      requires Valid() && WorkerOf(world, me).Idle?
      modifies this`clock, this`world, this`trace, repo, metrics, this`othersSuccess, this`othersFailure
      ensures Valid() && old(trace) <= trace && WorkerOf(world, me).Idle?
      ensures ResultsReported(me, channel)
    {
      hide ActsOf, M.At, OwnSuccess, OwnFailure, Ran, Results, WorkerOf, Cycled;
      var ticks := UntilDone();
      for i := 0 to ticks
        invariant Valid() && old(trace) <= trace && WorkerOf(world, me).Idle?
        invariant ResultsReported(me, channel)
      {
        Interfere(AsWorker(me));
        var works, window, dueAt := ProcessChannel(me, channel);
      }
    }

    // -------------------------------------------------------------- draining

    method AdvanceTo(to: Time)
      requires Valid() && clock <= to
      modifies this`clock, this`world, this`trace
      ensures Valid() && old(trace) <= trace && clock == to
      ensures world.sent == old(world).sent && forall x :: WorkerOf(world, x) == WorkerOf(old(world), x)
    {
      hide Ran;
      RanStep(start, trace, world, Tick(to), AsWorker(0));
      trace := trace + [Tick(to)];
      world := Next(world, Tick(to));
      clock := to;
    }

    /** Waits for the next due row of the channel and an open limiter window, and runs a
        cycle: something is sent. */
    method DrainSome(me: WorkerId, channel: Channel)
      requires Valid() && calm && WorkerOf(world, me).Idle? && Waiting(repo.notifications, channel) != {}
      modifies this`clock, this`world, this`trace, repo, metrics, this`othersSuccess, this`othersFailure
      ensures Valid() && old(trace) <= trace && WorkerOf(world, me).Idle?
      ensures Underway(old(repo.notifications), repo.notifications, [], 0, channel)
      ensures |world.sent| > |old(world).sent|
      ensures TotalLeft(repo.notifications, channel) + |world.sent| <=
              TotalLeft(old(repo.notifications), channel) + |old(world).sent|
    {
      hide ActsOf, Ran, TotalLeft, WorkerOf, S.RateInv, G.Reachable, O.Inv, O.OwnInv, Grantable, Used, DeliveryKey,
        WindowOf, Candidates, SlotsAhead, Wake, OpenWindow, Underway, Min, Due;
      ghost var rows, windows := repo.notifications, repo.windows;
      RanIsReachable(start, trace, world);
      var waiting := Waiting(repo.notifications, channel);
      ghost var soonest := Soonest(rows, waiting, clock);
      var id :| id in waiting && forall y | y in waiting ::
          Wake(repo.notifications[id], clock) <= Wake(repo.notifications[y], clock);
      var due := Wake(repo.notifications[id], clock);
      WakeIsDue(repo.notifications[id], clock);
      OpenWindowOpens(world, channel, due);
      AdvanceTo(OpenWindow(repo.windows, channel, due, rateLimit));
      ghost var at := clock;
      ghost var works, window, dueAt := ProcessChannel(me, channel);
      CycleSends(rows, windows, channel, at, id, window, dueAt, rateLimit, claimLimit);
    }

    /** With no new rows, failures or aborts, waiting for the next due row and an open
        limiter window and running a cycle, again and again, comes to an end. Then every
        row that was queued has a final result, and the sends it took were no more than
        the attempts that were left. */
    method Drain(me: WorkerId, channel: Channel)
      requires Valid() && calm && WorkerOf(world, me).Idle?
      modifies this`clock, this`world, this`trace, repo, metrics, this`othersSuccess, this`othersFailure
      ensures Valid() && old(trace) <= trace && WorkerOf(world, me).Idle?
      ensures Onward(old(repo.notifications), repo.notifications, channel)
      ensures forall id | id in Waiting(old(repo.notifications), channel) ::
                id in repo.notifications && Settled(repo.notifications[id].status)
      ensures |world.sent| - |old(world).sent| <= TotalLeft(old(repo.notifications), channel)
    {
      hide ActsOf, Ran, TotalLeft, WorkerOf, Onward, Underway;
      NothingClaimed(repo.notifications, channel);
      CycleIsOnward(repo.notifications, repo.notifications, channel);
      while Waiting(repo.notifications, channel) != {}
        invariant Valid() && old(trace) <= trace && WorkerOf(world, me).Idle?
        invariant Stuck(repo.notifications, channel) == Stuck(old(repo.notifications), channel)
        invariant Onward(old(repo.notifications), repo.notifications, channel)
        invariant TotalLeft(repo.notifications, channel) + |world.sent| <=
                  TotalLeft(old(repo.notifications), channel) + |old(world).sent|
        decreases TotalLeft(repo.notifications, channel)
      {
        ghost var rows := repo.notifications;
        DrainSome(me, channel);
        CycleIsOnward(rows, repo.notifications, channel);
        OnwardTwice(old(repo.notifications), rows, repo.notifications, channel);
      }
      DrainedIsSettled(old(repo.notifications), repo.notifications, channel);
    }

    // --------------------------------------------------------------- requests

    method NewId() returns (id: string) {
      id := *;
    }

    /** A context that is done before any statement ran. */
    method Done() returns (b: bool) {
      b := *;
    }

    /** The second lookup, after an insert that looks like a lost race. */
    method LookAgain(c: ClientId, call: C.SingleCall, error: string) returns (result: Result<Notification>)
      requires Valid() && ClientOf(world, c) == C.Relooking(call, error)
      modifies this`clock, this`world, this`trace, repo, metrics, this`othersSuccess, this`othersFailure
      ensures Valid() && old(trace) <= trace && ClientOf(world, c) == C.Created(call, result)
      ensures calm ==> repo.Db() == old(repo.Db())
    {
      hide M.At, NothingReported, Ran, ClientOf;
      Interfere(AsClient(c));
      var works, hit := repo.GetByIdempotencyKey(call.key, call.tenant);
      TakeCall(c, C.Relook(works, hit));
      result := if works && hit.Some? then Ok(repo.notifications[hit.value]) else Err(error);
    }

    method RecordAccepted(c: ClientId, call: C.SingleCall, n: Notification)
      requires Valid() && ClientOf(world, c) == C.Accepting(call, n)
      modifies this`clock, this`world, this`trace, repo, metrics, this`othersSuccess, this`othersFailure
      ensures Valid() && old(trace) <= trace && ClientOf(world, c) == C.Created(call, Ok(n))
      ensures calm && n.id in old(repo.notifications) ==>
                repo.Db() == old(repo.Db()).(events := old(repo.events) + [AcceptedEvent(n, clock)])
    {
      hide M.At, NothingReported, Ran, ClientOf;
      Interfere(AsClient(c));
      var logged := repo.RecordEvent(AcceptedEvent(n, clock));
      TakeCall(c, C.Accept(logged));
    }

    method MapKey(c: ClientId, call: C.SingleCall, n: Notification)
      requires Valid() && ClientOf(world, c) == C.Mapping(call, n)
      modifies this`clock, this`world, this`trace, repo, metrics, this`othersSuccess, this`othersFailure
      ensures Valid() && old(trace) <= trace && ClientOf(world, c) == C.Accepting(call, n)
      ensures calm ==> repo.Db() == old(repo.Db()).(
                         requests := UpsertMapping(old(repo.requests), call.tenant, call.key, call.batchId))
    {
      hide M.At, NothingReported, Ran, ClientOf, UpsertMapping;
      Interfere(AsClient(c));
      var mapped := repo.UpsertRequestMapping(call.key, call.batchId, call.tenant);
      TakeCall(c, C.Map(mapped));
    }

    method Draft(c: ClientId, call: C.SingleCall) returns (n: Notification)
      requires Valid() && ClientOf(world, c) == C.Building(call)
      modifies this`clock, this`world, this`trace, repo, metrics, this`othersSuccess, this`othersFailure
      ensures Valid() && old(trace) <= trace && ClientOf(world, c) == C.Inserting(call, n)
      ensures exists id :: n == C.Build1(call, id, clock)
      ensures C.Describes(n, call.request, call.tenant, call.batchId, call.correlationId, call.key)
      ensures calm ==> repo.Db() == old(repo.Db())
    {
      hide M.At, NothingReported, Ran, ClientOf, C.NewNotification;
      Interfere(AsClient(c));
      var newId := NewId();
      n := C.NewNotification(call.request, newId, call.tenant, call.batchId, call.correlationId, call.key, clock);
      TakeCall(c, C.Draft(newId));
      assert n == C.Build1(call, newId, clock);
      C.NewDescribes(call.request, newId, call.tenant, call.batchId, call.correlationId, call.key, clock);
    }

    method InsertOne(c: ClientId, call: C.SingleCall, n: Notification) returns (commit: C.Commit)
      requires Valid() && ClientOf(world, c) == C.Inserting(call, n)
      modifies this`clock, this`world, this`trace, repo, metrics, this`othersSuccess, this`othersFailure
      ensures Valid() && old(trace) <= trace
      ensures ClientOf(world, c) ==
              if !commit.Committed? then C.AfterError(call, commit.error)
              else if call.key != "" then C.Mapping(call, n)
              else C.Accepting(call, n)
      ensures calm && commit.Committed? ==>
                && n.id in repo.notifications && Insertable(old(repo.notifications), [n])
                && repo.Db() == old(repo.Db()).(rows := InsertRows(old(repo.notifications), [n]))
      ensures calm && !commit.Committed? ==> repo.Db() == old(repo.Db())
    {
      hide M.At, NothingReported, Ran, ClientOf, Insertable, InsertRows, C.AfterError;
      Interfere(AsClient(c));
      commit := repo.InsertNotifications([n]);
      if commit.Committed? {
        InsertedIsThere(world.db.rows, n);
      }
      TakeCall(c, C.Insert(commit));
    }

    /** The insert of a create call, and what follows it. */
    method InsertNew(c: ClientId, call: C.SingleCall) returns (result: Result<Notification>)
      requires Valid() && ClientOf(world, c) == C.Building(call)
      modifies this`clock, this`world, this`trace, repo, metrics, this`othersSuccess, this`othersFailure
      ensures Valid() && old(trace) <= trace && ClientOf(world, c) == C.Created(call, result)
      ensures calm ==>
                || repo.Db() == old(repo.Db())
                || (result.Ok? && (exists id, at :: result.value == C.Build1(call, id, at))
                    && StoredOne(old(repo.Db()), repo.Db(), call, result.value, clock))
      ensures calm && result.Ok? && call.key == "" ==> StoredOne(old(repo.Db()), repo.Db(), call, result.value, clock)
      ensures calm && repo.Db() != old(repo.Db()) ==>
                && result.Ok?
                && C.Describes(result.value, call.request, call.tenant, call.batchId, call.correlationId, call.key)
    {
      hide M.At, NothingReported, Ran, ClientOf, C.LooksLikeRace, InsertRows, UpsertMapping, AcceptedEvent, C.Build1,
        C.Describes;
      var n := Draft(c, call);
      var commit := InsertOne(c, call, n);
      if !commit.Committed? {
        if call.key != "" && C.LooksLikeRace(commit.error) {
          result := LookAgain(c, call, commit.error);
          return;
        }
        return Err(commit.error);
      }
      if call.key != "" {
        MapKey(c, call, n);
      }
      RecordAccepted(c, call, n);
      result := Ok(n);
    }

    /** The first lookup; one that fails counts as finding nothing. */
    method FindExisting(c: ClientId, call: C.SingleCall) returns (existing: Option<Notification>)
      requires Valid() && ClientOf(world, c) == C.Looking(call)
      modifies this`clock, this`world, this`trace, repo, metrics, this`othersSuccess, this`othersFailure
      ensures Valid() && old(trace) <= trace
      ensures ClientOf(world, c) ==
              if existing.Some? then C.Created(call, Ok(existing.value)) else C.Building(call)
      ensures calm ==> repo.Db() == old(repo.Db())
      ensures calm ==>
                (existing.Some? <==> exists id :: C.Matches(old(repo.notifications), id, call.tenant, call.key))
    {
      hide M.At, NothingReported, Ran, ClientOf;
      Interfere(AsClient(c));
      var works, hit := repo.GetByIdempotencyKey(call.key, call.tenant);
      existing := if works && hit.Some? then Some(repo.notifications[hit.value]) else None;
      TakeCall(c, C.Lookup(works, hit));
    }

    /** A successful call answers with the one row under its key, whoever inserted it. */
    method CreateNotification(c: ClientId, call: C.SingleCall)
      returns (result: Result<Notification>, ghost expired: bool)
      requires Valid() && ClientOf(world, c).NoCall?
      modifies this`clock, this`world, this`trace, repo, metrics, this`othersSuccess, this`othersFailure
      ensures Valid() && old(trace) <= trace && ClientOf(world, c) == C.Created(call, result)
      ensures result.Ok? ==> C.Matches(repo.notifications, result.value.id, call.tenant, call.key)
      ensures result.Ok? && call.key != "" ==>
                forall id | C.Matches(repo.notifications, id, call.tenant, call.key) :: id == result.value.id
      ensures expired || C.Invalid(call.request).Some? ==> result.Err? && repo.Db() == old(repo.Db())
      ensures calm && call.key != "" && (exists id :: C.Matches(old(repo.notifications), id, call.tenant, call.key)) ==>
                && repo.Db() == old(repo.Db())
                && (result.Ok? <==> !expired && C.Invalid(call.request).None?)
      ensures calm ==>
                || repo.Db() == old(repo.Db())
                || (result.Ok? && (exists id, at :: result.value == C.Build1(call, id, at))
                    && StoredOne(old(repo.Db()), repo.Db(), call, result.value, clock))
      ensures calm && result.Ok?
              && (call.key == "" || !exists id :: C.Matches(old(repo.notifications), id, call.tenant, call.key)) ==>
                StoredOne(old(repo.Db()), repo.Db(), call, result.value, clock)
      ensures calm && repo.Db() != old(repo.Db()) ==>
                result.Ok? && AddsRow(old(repo.Db()), repo.Db(), call, result.value.id)
      ensures result.Ok? ==> C.Acceptable(call.request)
    {
      hide M.At, NothingReported, Ran, ClientOf, C.Describes, C.Acceptable, StoredOne, AddsRow, C.Build1, C.KeyHit,
        C.Matches, C.Invalid, C.LooksLikeRace;
      ghost var before := repo.Db();
      C.ValidIffAcceptable(call.request);
      var done := Done();
      expired := done;
      TakeCall(c, C.Create(call, done));
      if done {
        result := Err("context deadline exceeded");
        return;
      }
      if C.Invalid(call.request).Some? {
        result := Err(C.Invalid(call.request).value);
        return;
      }
      if call.key != "" {
        var existing := FindExisting(c, call);
        if existing.Some? {
          CreatedIsUnique(start, trace, world, c);
          result := Ok(existing.value);
          return;
        }
      }
      result := InsertNew(c, call);
      if result.Ok? {
        CreatedIsUnique(start, trace, world, c);
      }
      if calm && repo.Db() != before {
        StoredOneAddsRow(before, repo.Db(), call, result.value, clock);
      }
    }

    /** The validation loop of a batch: the first failure, or all the notifications. */
    method BuildItems(batch: C.BatchCall, batchId: string)
      returns (expired: bool, error: Option<string>, items: seq<Notification>, ids: seq<string>)
      ensures |ids| == |batch.requests|
      ensures !expired ==> error == C.FirstInvalid(batch.requests)
      ensures !expired && error.None? ==> |items| == |ids| && items == C.BuildAll(batch, batchId, ids, clock)
      ensures !expired && error.None? ==> Answers(items, batch, batch.tenant, batchId)
      ensures !expired && error.Some? ==> FirstError(batch.requests, error.value)
    {
      hide C.Invalid, C.NewNotification, C.Describes, C.Acceptable;
      AllAcceptable(batch.requests);
      items, ids, error := [], [], None;
      while |items| < |batch.requests|
        invariant |ids| == |items| <= |batch.requests| && error.None?
        invariant C.FirstInvalid(batch.requests) == C.FirstInvalid(batch.requests[|items|..])
        invariant forall j | 0 <= j < |items| ::
                    C.Describes(items[j], batch.requests[j], batch.tenant, batchId, batch.correlationId,
                                batch.requests[j].idempotencyKey)
        invariant forall j | 0 <= j < |items| ::
                    items[j] == C.NewNotification(batch.requests[j], ids[j], batch.tenant, batchId, batch.correlationId,
                                                  batch.requests[j].idempotencyKey, clock)
        decreases |batch.requests| - |items|
      {
        var item := batch.requests[|items|];
        expired := Done();
        error := C.Invalid(item);
        if expired || error.Some? {
          ids := seq(|batch.requests|, i => "");
          return;
        }
        var id := NewId();
        C.NewDescribes(item, id, batch.tenant, batchId, batch.correlationId, item.idempotencyKey, clock);
        items := items + [C.NewNotification(item, id, batch.tenant, batchId, batch.correlationId,
            item.idempotencyKey, clock)];
        ids := ids + [id];
      }
      assert batch.requests[|items|..] == [];
      expired := false;
    }

    /** The accepted events of a stored batch. */
    method RecordAllAccepted(c: ClientId, batch: C.BatchCall, batchId: string, items: seq<Notification>)
      requires Valid() && items != [] && ClientOf(world, c) == C.StartAccepting(batch, batchId, items)
      modifies this`clock, this`world, this`trace, repo, metrics, this`othersSuccess, this`othersFailure
      ensures Valid() && old(trace) <= trace && ClientOf(world, c) == C.BatchCreated(batch, Ok((batchId, items)))
      ensures calm && (forall i | 0 <= i < |items| :: items[i].id in old(repo.notifications)) ==>
                && repo.Db() == old(repo.Db()).(events := repo.events)
                && AcceptedFirst(old(repo.events), repo.events, items, |items|)
    {
      hide M.At, NothingReported, Ran, ClientOf, Enabled, Next, DbNext, Results, AcceptedEvent;
      assert AcceptedFirst(repo.events, repo.events, items, 0);
      hide AcceptedFirst;
      for i := 0 to |items|
        invariant Valid() && old(trace) <= trace
        invariant calm && (forall j | 0 <= j < |items| :: items[j].id in old(repo.notifications)) ==>
                    && repo.Db() == old(repo.Db()).(events := repo.events)
                    && AcceptedFirst(old(repo.events), repo.events, items, i)
        invariant ClientOf(world, c) ==
                  if i < |items| then C.BatchAccepting(batch, batchId, items, i)
                  else C.BatchCreated(batch, Ok((batchId, items)))
      {
        ghost var events := repo.events;
        ghost var at := RecordItemAccepted(c, batch, batchId, items, i);
        if calm && forall j | 0 <= j < |items| :: items[j].id in old(repo.notifications) {
          AcceptNext(old(repo.events), events, items, i, at);
        }
      }
    }

    method RecordItemAccepted(c: ClientId, batch: C.BatchCall, batchId: string, items: seq<Notification>, i: nat)
      returns (ghost at: Time)
      requires Valid() && i < |items| && ClientOf(world, c) == C.BatchAccepting(batch, batchId, items, i)
      modifies this`clock, this`world, this`trace, repo, metrics, this`othersSuccess, this`othersFailure
      ensures Valid() && old(trace) <= trace
      ensures ClientOf(world, c) ==
              if i + 1 < |items| then C.BatchAccepting(batch, batchId, items, i + 1)
              else C.BatchCreated(batch, Ok((batchId, items)))
      ensures calm && items[i].id in old(repo.notifications) ==>
                repo.Db() == old(repo.Db()).(events := old(repo.events) + [AcceptedEvent(items[i], at)])
    {
      hide TenantId, Run, ValidRun, Initial, M.At, NothingReported, Ran, ClientOf, Results;
      Interfere(AsClient(c));
      at := clock;
      var logged := repo.RecordEvent(AcceptedEvent(items[i], clock));
      TakeCall(c, C.BatchAccept(logged));
    }

    method InsertBatch(c: ClientId, batch: C.BatchCall, batchId: string, items: seq<Notification>)
      returns (error: Option<string>)
      requires Valid() && ClientOf(world, c) == C.BatchInserting(batch, batchId, items)
      modifies this`clock, this`world, this`trace, repo, metrics, this`othersSuccess, this`othersFailure
      ensures Valid() && old(trace) <= trace
      ensures ClientOf(world, c) ==
              if error.Some? then C.BatchCreated(batch, Err(error.value))
              else if batch.key != "" then C.BatchMapping(batch, batchId, items)
              else C.StartAccepting(batch, batchId, items)
      ensures calm && error.Some? ==> repo.Db() == old(repo.Db())
      ensures calm && error.None? ==>
                && Insertable(old(repo.notifications), items)
                && repo.Db() == old(repo.Db()).(rows := InsertRows(old(repo.notifications), items))
    {
      hide M.At, NothingReported, Ran, ClientOf, Insertable, InsertRows, C.StartAccepting;
      Interfere(AsClient(c));
      var commit := repo.InsertNotifications(items);
      TakeCall(c, C.BatchInsert(commit));
      error := if commit.Committed? then None else Some(commit.error);
    }

    /** The insert of a batch, all rows or none, and the mapping of its key. */
    method StoreBatch(c: ClientId, batch: C.BatchCall, batchId: string, items: seq<Notification>)
      returns (error: Option<string>)
      requires Valid() && ClientOf(world, c) == C.BatchInserting(batch, batchId, items)
      modifies this`clock, this`world, this`trace, repo, metrics, this`othersSuccess, this`othersFailure
      ensures Valid() && old(trace) <= trace
      ensures ClientOf(world, c) ==
              if error.Some? then C.BatchCreated(batch, Err(error.value)) else C.StartAccepting(batch, batchId, items)
      ensures calm && error.Some? ==> repo.Db() == old(repo.Db())
      ensures calm && error.None? ==>
                && Insertable(old(repo.notifications), items)
                && repo.Db() == old(repo.Db()).(
                     rows := InsertRows(old(repo.notifications), items),
                     requests :=
                       if batch.key != "" then UpsertMapping(old(repo.requests), batch.tenant, batch.key, batchId)
                       else old(repo.requests))
    {
      hide M.At, NothingReported, Ran, ClientOf, Insertable, InsertRows, UpsertMapping, C.StartAccepting;
      error := InsertBatch(c, batch, batchId, items);
      if error.Some? {
        return;
      }
      if batch.key != "" {
        error := MapBatch(c, batch, batchId, items);
      } else {
        error := None;
      }
    }

    method MapBatch(c: ClientId, batch: C.BatchCall, batchId: string, items: seq<Notification>)
      returns (error: Option<string>)
      requires Valid() && ClientOf(world, c) == C.BatchMapping(batch, batchId, items)
      modifies this`clock, this`world, this`trace, repo, metrics, this`othersSuccess, this`othersFailure
      ensures Valid() && old(trace) <= trace
      ensures ClientOf(world, c) ==
              if error.Some? then C.BatchCreated(batch, Err(error.value)) else C.StartAccepting(batch, batchId, items)
      ensures calm ==>
                && error.None?
                && repo.Db() == old(repo.Db()).(
                     requests := UpsertMapping(old(repo.requests), batch.tenant, batch.key, batchId))
    {
      hide M.At, NothingReported, Ran, ClientOf, UpsertMapping, C.StartAccepting;
      Interfere(AsClient(c));
      var mapped := repo.UpsertRequestMapping(batch.key, batchId, batch.tenant);
      TakeCall(c, C.BatchMap(mapped));
      error := if mapped then None else Some("mapping failed");
    }

    method BuildBatch(c: ClientId, batch: C.BatchCall)
      returns (error: Option<string>, batchId: string, items: seq<Notification>, ghost interrupted: bool)
      requires Valid() && ClientOf(world, c) == C.BatchBuilding(batch)
      modifies this`clock, this`world, this`trace, repo, metrics, this`othersSuccess, this`othersFailure
      ensures Valid() && old(trace) <= trace
      ensures ClientOf(world, c) ==
              if error.Some? then C.BatchCreated(batch, Err(error.value)) else C.BatchInserting(batch, batchId, items)
      ensures error.None? ==> |items| == |batch.requests| && BuiltFrom(batch, batchId, items)
      ensures error.None? ==> Answers(items, batch, batch.tenant, batchId)
      ensures !interrupted && error.Some? ==> FirstError(batch.requests, error.value)
      ensures calm ==> repo.Db() == old(repo.Db())
    {
      hide M.At, NothingReported, Ran, ClientOf, C.FirstInvalid, C.BuildAll, C.Invalid, BuiltFrom, Answers, FirstError;
      Interfere(AsClient(c));
      batchId := NewId();
      var expired, ids;
      expired, error, items, ids := BuildItems(batch, batchId);
      interrupted := expired;
      if expired {
        error := Some("context deadline exceeded");
      }
      if error.None? {
        ItemsAreBuilt(batch, batchId, items, ids, clock);
      }
      TakeCall(c, C.Build(batchId, ids, expired));
    }

    /** A batch call that has no mapping to answer from. */
    method CreateItems(c: ClientId, batch: C.BatchCall)
      returns (outcome: Result<(string, seq<Notification>)>, ghost interrupted: bool)
      requires Valid() && batch.requests != [] && ClientOf(world, c) == C.BatchBuilding(batch)
      modifies this`clock, this`world, this`trace, repo, metrics, this`othersSuccess, this`othersFailure
      ensures Valid() && old(trace) <= trace && ClientOf(world, c) == C.BatchCreated(batch, outcome)
      ensures calm ==>
                if outcome.Ok?
                then BuiltFrom(batch, outcome.value.0, outcome.value.1)
                     && StoredAll(old(repo.Db()), repo.Db(), batch, outcome.value.0, outcome.value.1)
                else repo.Db() == old(repo.Db())
      ensures outcome.Ok? ==> Answers(outcome.value.1, batch, batch.tenant, outcome.value.0)
      ensures !interrupted && (exists i | 0 <= i < |batch.requests| :: !C.Acceptable(batch.requests[i])) ==>
                outcome.Err? && FirstError(batch.requests, outcome.error)
    {
      hide M.At, NothingReported, Ran, ClientOf, C.FirstInvalid, C.BuildAll, C.StartAccepting, C.Invalid, Enabled, Next,
        Insertable, InsertRows, UpsertMapping, AcceptedFirst, Results, DbNext, BuiltFrom,
        C.Acceptable, FirstError, Answers;
      ghost var before := repo.Db();
      AnswersAcceptable(batch);
      var error, batchId, items;
      error, batchId, items, interrupted := BuildBatch(c, batch);
      if error.Some? {
        outcome := Err(error.value);
        return;
      }
      var failed := StoreBatch(c, batch, batchId, items);
      if failed.Some? {
        outcome := Err(failed.value);
        return;
      }
      if calm {
        InsertedAreThere(before.rows, items);
      }
      RecordAllAccepted(c, batch, batchId, items);
      outcome := Ok((batchId, items));
    }

    /** The answer of a batch call from the rows of the batch its key maps to. */
    method ReadBatch(c: ClientId, batch: C.BatchCall, batchId: string)
      returns (outcome: Result<(string, seq<Notification>)>)
      requires Valid() && ClientOf(world, c) == C.BatchReading(batch, batchId)
      modifies this`clock, this`world, this`trace, repo, metrics, this`othersSuccess, this`othersFailure
      ensures Valid() && old(trace) <= trace && ClientOf(world, c) == C.BatchCreated(batch, outcome)
      ensures calm ==> repo.Db() == old(repo.Db()) && outcome.Ok?
      ensures outcome.Ok? ==>
                && outcome.value.0 == batchId
                && C.BatchRows(repo.notifications, batchId, batch.tenant, outcome.value.1)
      ensures outcome.Ok? ==>
                forall n :: n in outcome.value.1 <==>
                  && n.id in repo.notifications && n == repo.notifications[n.id]
                  && n.batchId == batchId && n.tenantId == TenantId(batch.tenant)
      ensures outcome.Ok? ==>
                forall i, j | 0 <= i < j < |outcome.value.1| ::
                  && outcome.value.1[i].id != outcome.value.1[j].id
                  && outcome.value.1[i].createdAt <= outcome.value.1[j].createdAt
    {
      hide M.At, NothingReported, Ran, ClientOf, C.BatchRows, O.Inv, O.OwnInv, S.RateInv, G.Reachable;
      Interfere(AsClient(c));
      RanIsReachable(start, trace, world);
      RowsUnderIds(world);
      var readable, rows := repo.GetByBatch(batchId, batch.tenant);
      TakeCall(c, C.BatchRead(readable, rows));
      outcome := if readable then Ok((batchId, rows)) else Err("read failed");
    }

    /** The entry checks of a batch call. */
    method EnterBatch(c: ClientId, batch: C.BatchCall) returns (refused: Option<string>, ghost expired: bool)
      requires Valid() && ClientOf(world, c).NoCall?
      modifies this`world, this`trace
      ensures Valid() && old(trace) <= trace
      ensures ClientOf(world, c) ==
              if refused.Some? then C.BatchCreated(batch, Err(refused.value))
              else if batch.key != "" then C.BatchLooking(batch)
              else C.BatchBuilding(batch)
      ensures refused.None? <==> !expired && 1 <= |batch.requests| <= 1000
    {
      hide M.At, Ran, ClientOf;
      var done := Done();
      expired := done;
      TakeCall(c, C.CreateBatch(batch, done));
      refused :=
        if done then Some("context deadline exceeded")
        else if |batch.requests| == 0 then Some("notifications array is required")
        else if |batch.requests| > 1000 then Some("batch size cannot exceed 1000")
        else None;
    }

    /** The lookup of the batch key; one that fails counts as finding nothing. */
    method FindBatch(c: ClientId, batch: C.BatchCall) returns (batchId: Option<string>)
      requires Valid() && ClientOf(world, c) == C.BatchLooking(batch)
      modifies this`clock, this`world, this`trace, repo, metrics, this`othersSuccess, this`othersFailure
      ensures Valid() && old(trace) <= trace
      ensures ClientOf(world, c) ==
              if batchId.Some? then C.BatchReading(batch, batchId.value) else C.BatchBuilding(batch)
      ensures calm ==> repo.Db() == old(repo.Db())
      ensures calm ==>
                var k := (TenantId(batch.tenant), batch.key);
                batchId == if k in old(repo.requests) then Some(old(repo.requests)[k]) else None
    {
      hide M.At, NothingReported, Ran, ClientOf, TenantId;
      Interfere(AsClient(c));
      var works, found := repo.GetBatchIDByKey(batch.key, batch.tenant);
      batchId := if works then found else None;
      TakeCall(c, C.BatchLookup(works));
    }

    /** A batch whose key is mapped when it is looked up is answered from the table. */
    method CreateBatch(c: ClientId, batch: C.BatchCall)
      returns (
        outcome: Result<(string, seq<Notification>)>,
        ghost expired: bool, ghost replayed: bool, ghost interrupted: bool)
      requires Valid() && ClientOf(world, c).NoCall?
      modifies this`clock, this`world, this`trace, repo, metrics, this`othersSuccess, this`othersFailure
      ensures Valid() && old(trace) <= trace && ClientOf(world, c) == C.BatchCreated(batch, outcome)
      ensures expired || batch.requests == [] || |batch.requests| > 1000 ==>
                outcome.Err? && repo.Db() == old(repo.Db())
      ensures calm && batch.key != "" && (TenantId(batch.tenant), batch.key) in old(repo.requests) ==>
                && repo.Db() == old(repo.Db())
                && (outcome.Ok? <==> !expired && 1 <= |batch.requests| <= 1000)
                && (outcome.Ok? ==>
                      && outcome.value.0 == old(repo.requests)[(TenantId(batch.tenant), batch.key)]
                      && C.BatchRows(repo.notifications, outcome.value.0, batch.tenant, outcome.value.1))
      ensures calm && (batch.key == "" || (TenantId(batch.tenant), batch.key) !in old(repo.requests)) ==>
                if outcome.Ok?
                then BuiltFrom(batch, outcome.value.0, outcome.value.1)
                     && StoredAll(old(repo.Db()), repo.Db(), batch, outcome.value.0, outcome.value.1)
                else repo.Db() == old(repo.Db())
      ensures replayed ==> batch.key != "" && !expired
      ensures calm && replayed ==> (TenantId(batch.tenant), batch.key) in old(repo.requests)
      ensures replayed && outcome.Ok? ==>
                forall n :: n in outcome.value.1 <==>
                  && n.id in repo.notifications && n == repo.notifications[n.id]
                  && n.batchId == outcome.value.0 && n.tenantId == TenantId(batch.tenant)
      ensures replayed && outcome.Ok? ==>
                forall i, j | 0 <= i < j < |outcome.value.1| ::
                  && outcome.value.1[i].id != outcome.value.1[j].id
                  && outcome.value.1[i].createdAt <= outcome.value.1[j].createdAt
      ensures !replayed && outcome.Ok? ==> Answers(outcome.value.1, batch, batch.tenant, outcome.value.0)
      ensures calm && !replayed && outcome.Ok? ==>
                AddsRows(old(repo.Db()), repo.Db(), batch, outcome.value.0, outcome.value.1)
      ensures !replayed && !expired && !interrupted && 1 <= |batch.requests| <= 1000
              && (exists i | 0 <= i < |batch.requests| :: !C.Acceptable(batch.requests[i])) ==>
                outcome.Err? && FirstError(batch.requests, outcome.error) && (calm ==> repo.Db() == old(repo.Db()))
    {
      hide M.At, NothingReported, Ran, ClientOf, C.BatchRows, Enabled, Next, DbNext, TenantId, Results, StoredAll,
        BuiltFrom, Answers, AddsRows, FirstError, C.Acceptable;
      ghost var before := repo.Db();
      replayed, interrupted := false, false;
      var refused;
      refused, expired := EnterBatch(c, batch);
      if refused.Some? {
        outcome := Err(refused.value);
        return;
      }
      if batch.key != "" {
        var batchId := FindBatch(c, batch);
        if batchId.Some? {
          replayed := true;
          outcome := ReadBatch(c, batch, batchId.value);
          return;
        }
      }
      outcome, interrupted := CreateItems(c, batch);
      if calm && outcome.Ok? {
        StoredAllAddsRows(before, repo.Db(), batch, outcome.value.0, outcome.value.1);
      }
    }

    /** Cancels a tenant's notifications; the count says how many rows it moved. */
    method CancelNotifications(tenant: string, ids: seq<string>) returns (result: Result<int>, ghost before: World)
      requires Valid() && |ids| + 6 <= INT64_MAX
      modifies this`clock, this`world, this`trace, repo, metrics, this`othersSuccess, this`othersFailure
      ensures Valid() && old(trace) <= trace
      ensures result.Ok? ==>
                && old(trace) < trace && trace[|trace| - 1] == Cancel(tenant, ids)
                && Ran(start, trace[..|trace| - 1], before)
                && result.value == |CancelTargets(before.db.rows, ids, tenant)|
                && world == Next(before, Cancel(tenant, ids))
      ensures calm && result.Ok? ==>
                && result.value == |CancelTargets(old(repo.notifications), ids, tenant)|
                && repo.notifications ==
                   CancelRows(old(repo.notifications), CancelTargets(old(repo.notifications), ids, tenant), clock)
      ensures calm && result.Err? ==> repo.Db() == old(repo.Db())
    {
      hide M.At, NothingReported, Ran, CancelTargets, CancelRows, Next, R.OnlyCancels;
      before := world;
      var expired := Done();
      if expired {
        result := Err("context deadline exceeded");
        return;
      }
      Interfere(AsClient(0));
      before := world;
      var works, count;
      ghost var stored;
      works, count, stored := repo.CancelPending(ids, tenant, clock);
      if stored {
        Record(Cancel(tenant, ids), AsClient(0));
        assert trace[..|trace| - 1] == old(trace) + trace[|old(trace)|..|trace| - 1];
      }
      result := if works then Ok(count) else Err("cancel failed");
    }
  }
}
