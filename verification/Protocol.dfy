/** The whole service as a step system: any number of workers and client calls over
    shared tables, a clock, and a history. Every choice the environment makes (time,
    provider answers, lost writes, which equal-ranked rows a claim takes) is part of
    the step, so a run is a sequence of steps. */
module Protocol {
  import opened Domain
  import opened Delivery
  import opened Tables
  import opened Claiming
  import L = Lifecycle
  import C = Creation

  /** Slots `base .. base + size` of the limiter window; `taken` of them are spent. */
  datatype Grant = Grant(window: int, base: int, size: nat, taken: nat)

  datatype Phase =
    | Limiting                          // before the limiter call
    | Claiming                          // slots granted, nothing claimed
    | Ready                             // at the head of the delivery loop
    | InFlight                          // the provider call for queue[0] is running
    | Answered(response: Response, at: Time)
    | Logging(event: DeliveryEvent)     // the result write of queue[0] is done

  /** One worker: idle, or in one cycle of ProcessChannel. */
  datatype Worker =
    | Idle
    | Busy(channel: Channel, started: Time, grant: Grant, queue: seq<Notification>, phase: Phase)

  /** One provider call, with the limiter slot it spends. */
  datatype Sent = Sent(id: string, channel: Channel, at: Time, window: int, slot: int)

  datatype Config = Config(rateLimit: int, claimLimit: int)

  datatype World = World(
    db: Tables,
    now: Time,
    workers: map<WorkerId, Worker>,
    clients: map<ClientId, C.Client>,
    ledger: map<string, L.Life>,  // history
    sent: seq<Sent>,              // history
    config: Config)

  datatype Act =
    | Begin(channel: Channel)
    | Acquire(readAt: Time, acknowledged: bool)
    | Claim(picked: seq<string>, locked: set<string>, dueAt: Time)
    | Send
    | Answer(response: Response)
    | Mark(at: Time, jitter: Option<Byte>, applied: bool)
    | Log(at: Time, applied: bool)
    | Finish
    | Drop  // an error return, an expired context, or a crash

  datatype Step =
    | Tick(to: Time)
    | Cancel(tenant: string, ids: seq<string>)
    | Import(ns: seq<Notification>)  // InsertNotifications called directly
    | Call(client: ClientId, op: C.Op)
    | Work(worker: WorkerId, act: Act)

  const JOB_TIMEOUT: Time := 5 * SECOND

  function WorkerOf(w: World, id: WorkerId): Worker {
    if id in w.workers then w.workers[id] else Idle
  }

  function ClientOf(w: World, id: ClientId): C.Client {
    if id in w.clients then w.clients[id] else C.NoCall
  }

  function SetOf(ids: seq<string>): set<string> {
    set i | 0 <= i < |ids| :: ids[i]
  }

  predicate Distinct(ids: seq<string>) {
    forall i, j | 0 <= i < j < |ids| :: ids[i] != ids[j]
  }

  lemma SetOfAppend(ids: seq<string>, id: string)
    ensures SetOf(ids + [id]) == SetOf(ids) + {id}
  {
    var all := ids + [id];
    assert all[|ids|] == id;
    assert forall i | 0 <= i < |ids| :: all[i] == ids[i];
  }

  lemma {:induction false} DistinctSize(ids: seq<string>)
    requires Distinct(ids)
    ensures |SetOf(ids)| == |ids|
  {
    if ids == [] {
      assert SetOf(ids) == {};
    } else {
      var front, last := ids[..|ids| - 1], ids[|ids| - 1];
      DistinctSize(front);
      SetOfAppend(front, last);
      assert front + [last] == ids;
      assert last !in SetOf(front);
    }
  }

  /** Position `i` of the list is claimed and not yet marked. */
  predicate Owns(k: Worker, i: int) {
    k.Busy? && 0 <= i < |k.queue| && !(k.phase.Logging? && i == 0)
  }

  /** The worker holds notification `id`: claimed, neither marked nor dropped. */
  predicate Holds(k: Worker, id: string) {
    k.Busy? && exists i | 0 <= i < |k.queue| :: Owns(k, i) && k.queue[i].id == id
  }

  /** At `at` the context of the worker's cycle has not expired. What a worker starts
      later is refused; a statement started in time may still take effect later. */
  predicate InTime(k: Worker, at: Time)
    requires k.Busy?
  {
    at < k.started + JOB_TIMEOUT
  }

  predicate ActOk(w: World, k: Worker, act: Act) {
    match act
    case Begin(_) => k.Idle?
    case Acquire(readAt, _) => k.Busy? && k.phase.Limiting? && k.started <= readAt <= w.now && InTime(k, readAt)
    case Claim(picked, locked, dueAt) =>
      && k.Busy? && k.phase.Claiming? && k.started <= dueAt <= w.now && InTime(k, dueAt)
      && Distinct(picked)
      && ValidClaim(w.db.rows, k.channel, dueAt, locked, k.grant.size, SetOf(picked))
    case Send => k.Busy? && k.phase.Ready? && k.queue != [] && InTime(k, w.now)
    case Answer(_) => k.Busy? && k.phase.InFlight?
    case Mark(at, _, applied) =>
      && k.Busy? && k.phase.Answered? && k.queue != [] && k.phase.at <= at <= w.now
      && (applied ==> InTime(k, at))
    case Log(at, applied) =>
      && k.Busy? && k.phase.Logging? && k.queue != [] && k.phase.event.createdAt <= at <= w.now
      && (applied ==> InTime(k, at))
    case Finish => k.Busy? && k.phase.Ready? && k.queue == []
    case Drop => k.Busy?
  }

  predicate Enabled(w: World, s: Step) {
    match s
    case Tick(to) => w.now <= to
    case Cancel(_, _) => true
    case Import(ns) =>
      && Insertable(w.db.rows, ns)
      && forall i | 0 <= i < |ns| :: Queued(ns[i].status) && 0 <= ns[i].attempts < ns[i].maxAttempts
    case Call(c, op) => C.OpOk(w.db, ClientOf(w, c), op)
    case Work(id, act) => ActOk(w, WorkerOf(w, id), act)
  }

  /** The tables and the worker after one act of a worker. */
  function ActNext(w: World, k: Worker, act: Act): (Tables, Worker)
    requires ActOk(w, k, act)
  {
    match act
    case Begin(channel) => (w.db, Busy(channel, w.now, Grant(0, 0, 0, 0), [], Limiting))
    case Acquire(readAt, acknowledged) =>
      var key, window := DeliveryKey(k.channel), WindowOf(readAt);
      var (windows, acquired) := AcquireSlots(w.db.windows, key, window, w.config.rateLimit, w.config.claimLimit);
      var grant := Grant(window, Used(w.db.windows, key, window), acquired, 0);
      (w.db.(windows := windows),
       if acknowledged && acquired != 0 then k.(grant := grant, phase := Claiming) else Idle)
    case Claim(picked, _, _) =>
      var rows := ClaimRows(w.db.rows, SetOf(picked), w.now);
      var queue := seq(|picked|, i requires 0 <= i < |picked| && picked[i] in rows => rows[picked[i]]);
      (w.db.(rows := rows), k.(queue := queue, phase := Ready))
    case Send => (w.db, k.(phase := InFlight, grant := k.grant.(taken := k.grant.taken + 1)))
    case Answer(response) => (w.db, k.(phase := Answered(response, w.now)))
    case Mark(at, jitter, applied) =>
      var n := k.queue[0];
      var next := at + Backoff(n.attempts, jitter);
      var rows := if applied && n.id in w.db.rows
                  then w.db.rows[n.id := MarkedRow(w.db.rows[n.id], n, k.phase.response, next, w.now)]
                  else w.db.rows;
      (w.db.(rows := rows), k.(phase := Logging(WorkerEvent(n, k.phase.response, next, w.now))))
    case Log(at, applied) =>
      (if applied then w.db.(events := w.db.events + [Stamped(k.phase.event, at)]) else w.db,
       k.(queue := k.queue[1..], phase := Ready))
    case Finish => (w.db, Idle)
    case Drop => (w.db, Idle)
  }

  /** The tables after a step. */
  function DbNext(w: World, s: Step): Tables
    requires Enabled(w, s)
  {
    match s
    case Tick(_) => w.db
    case Cancel(tenant, ids) =>
      w.db.(rows := CancelRows(w.db.rows, CancelTargets(w.db.rows, ids, tenant), w.now))
    case Import(ns) => w.db.(rows := InsertRows(w.db.rows, ns))
    case Call(c, op) => C.OpNext(w.db, ClientOf(w, c), op, w.now).0
    case Work(id, act) => ActNext(w, WorkerOf(w, id), act).0
  }

  /** What a step means for notification `id`. */
  function MoveOf(w: World, s: Step, id: string): L.Move
    requires Enabled(w, s)
  {
    match s
    case Cancel(tenant, ids) =>
      if id in CancelTargets(w.db.rows, ids, tenant) then L.Cancel(w.now) else L.Stay
    case Work(worker, act) =>
      var k := WorkerOf(w, worker);
      (match act
       case Claim(picked, _, dueAt) => if id in SetOf(picked) then L.Claim(worker, dueAt, w.now) else L.Stay
       case Send => if k.queue[0].id == id then L.Send(worker, w.now) else L.Stay
       case Answer(r) => if k.queue != [] && k.queue[0].id == id then L.Answer(worker, r, w.now) else L.Stay
       case Mark(at, jitter, applied) =>
         if k.queue[0].id == id then L.Mark(worker, k.queue[0], at, jitter, applied, w.now) else L.Stay
       case Log(at, applied) =>
         if k.queue[0].id == id then L.Log(worker, Stamped(k.phase.event, at), applied) else L.Stay
       case Drop =>
         if k.phase.Logging? && k.queue != [] && k.queue[0].id == id then
           L.Log(worker, Stamped(k.phase.event, w.now), false)
         else if Holds(k, id) then L.Drop(worker)
         else L.Stay
       case _ => L.Stay)
    case _ => L.Stay
  }

  function ItemOf(w: World, id: string): L.Item
    requires id in w.db.rows && id in w.ledger
  {
    L.Item(w.db.rows[id], w.ledger[id], Logged(w.db.events, id))
  }

  /** The history after a step: every notification's life follows its move. */
  function LifeNext(w: World, s: Step, rows: map<string, Notification>, id: string): L.Life
    requires Enabled(w, s) && id in rows
  {
    if id in w.ledger && id in w.db.rows then
      if L.MoveOk(ItemOf(w, id), MoveOf(w, s, id)) then L.Apply(ItemOf(w, id), MoveOf(w, s, id)).life
      else w.ledger[id]
    else L.NewLife(rows[id])
  }

  function SentNext(w: World, s: Step): seq<Sent>
    requires Enabled(w, s)
  {
    if s.Work? && s.act.Send? then
      var k := WorkerOf(w, s.worker);
      w.sent + [Sent(k.queue[0].id, k.channel, w.now, k.grant.window, k.grant.base + k.grant.taken)]
    else w.sent
  }

  function Next(w: World, s: Step): World
    requires Enabled(w, s)
  {
    var db := DbNext(w, s);
    World(
      db,
      if s.Tick? then s.to else w.now,
      if s.Work? then w.workers[s.worker := ActNext(w, WorkerOf(w, s.worker), s.act).1] else w.workers,
      if s.Call? then w.clients[s.client := C.OpNext(w.db, ClientOf(w, s.client), s.op, w.now).1] else w.clients,
      map id | id in db.rows :: LifeNext(w, s, db.rows, id),
      SentNext(w, s),
      w.config)
  }

  // ------------------------------------------------------------------ runs

  predicate ValidRun(w: World, steps: seq<Step>)
    decreases |steps|
  {
    steps == [] || (Enabled(w, steps[0]) && ValidRun(Next(w, steps[0]), steps[1..]))
  }

  function Run(w: World, steps: seq<Step>): World
    requires ValidRun(w, steps)
    decreases |steps|
  {
    if steps == [] then w else Run(Next(w, steps[0]), steps[1..])
  }

  /** Empty tables, no worker busy, no call running. */
  predicate Initial(w: World) {
    && w.db == Tables(map[], [], map[], map[])
    && w.workers == map[] && w.clients == map[] && w.ledger == map[] && w.sent == []
    && w.config.rateLimit > 0 && w.config.claimLimit > 0
  }

  lemma {:induction false} RunConcat(w: World, a: seq<Step>, b: seq<Step>)
    requires ValidRun(w, a) && ValidRun(Run(w, a), b)
    ensures ValidRun(w, a + b) && Run(w, a + b) == Run(Run(w, a), b)
    decreases |a|
  {
    if a == [] {
      assert a + b == b;
    } else {
      assert (a + b)[1..] == a[1..] + b;
      RunConcat(Next(w, a[0]), a[1..], b);
    }
  }

  lemma RunSnoc(w: World, steps: seq<Step>, s: Step)
    requires ValidRun(w, steps) && Enabled(Run(w, steps), s)
    ensures ValidRun(w, steps + [s]) && Run(w, steps + [s]) == Next(Run(w, steps), s)
  {
    hide Next, Enabled;
    assert [s][1..] == [];
    RunConcat(w, steps, [s]);
  }
}
