/** The statements of limiter transactions interleaved with every other step of the
    system. Such runs are runs of `Protocol`, where a limiter call is one step: the call
    happens at its commit, and everything proved of all runs holds of these. */
module Interleaving {
  import opened Domain
  import opened Tables
  import opened Protocol
  import O = Ownership
  import V = Preservation
  import L = Lifecycle
  import C = Creation
  import R = RateLimiter

  /** The worker that runs a limiter transaction, and the instant it read. */
  datatype Caller = Caller(worker: WorkerId, readAt: Time)

  datatype Fine = Fine(world: World, limiter: R.State, callers: map<nat, Caller>)

  datatype FineStep =
    | Other(s: Step)                            // anything but a limiter call
    | Open(tx: nat, worker: WorkerId)           // the worker begins its limiter call
    | Statement(step: R.Step)                   // upsert, locked read or update
    | CommitTx(tx: nat, acknowledged: bool)
    | RollbackTx(tx: nat)                       // a failure, or the worker's end

  predicate Active(c: R.Call) {
    !c.phase.Returned? && !c.phase.Aborted?
  }

  predicate Runs(f: Fine, tx: nat) {
    tx in f.limiter.calls && tx in f.callers && Active(f.limiter.calls[tx])
  }

  /** The worker is inside its limiter call. */
  predicate Calling(f: Fine, x: WorkerId) {
    exists tx | tx in f.callers :: Runs(f, tx) && f.callers[tx].worker == x
  }

  ghost predicate FineEnabled(f: Fine, step: FineStep) {
    match step
    case Other(s) => Enabled(f.world, s) && !(s.Work? && (s.act.Acquire? || Calling(f, s.worker)))
    case Open(tx, x) =>
      var k := WorkerOf(f.world, x);
      && k.Busy? && k.phase.Limiting? && InTime(k, f.world.now)
      && !Calling(f, x) && tx !in f.limiter.calls
    case Statement(s) => (s.Upsert? || s.Read? || s.Update?) && R.Enabled(f.limiter, s)
    case CommitTx(tx, _) => Runs(f, tx) && R.Enabled(f.limiter, R.Commit(tx))
    case RollbackTx(tx) => Runs(f, tx)
  }

  ghost function FineNext(f: Fine, step: FineStep): Fine
    requires FineEnabled(f, step)
  {
    var w := f.world;
    match step
    case Other(s) => f.(world := Next(w, s))
    case Open(tx, x) =>
      var begin := R.Begin(
        tx, DeliveryKey(WorkerOf(w, x).channel), WindowOf(w.now), w.config.rateLimit, w.config.claimLimit);
      f.(limiter := R.Next(f.limiter, begin), callers := f.callers[tx := Caller(x, w.now)])
    case Statement(s) => f.(limiter := R.Next(f.limiter, s))
    case CommitTx(tx, acknowledged) =>
      var call, x := f.limiter.calls[tx], f.callers[tx].worker;
      var k, limiter := WorkerOf(w, x), R.Next(f.limiter, R.Commit(tx));
      var k' := if acknowledged && call.phase.acquired > 0 && k.Busy?
                then k.(grant := Grant(call.window, call.phase.used, call.phase.acquired, 0), phase := Claiming)
                else Idle;
      f.(limiter := limiter, world := w.(db := w.db.(windows := limiter.windows), workers := w.workers[x := k']))
    case RollbackTx(tx) =>
      f.(limiter := R.Next(f.limiter, R.Rollback(tx)), world := w.(workers := w.workers[f.callers[tx].worker := Idle]))
  }

  ghost predicate ValidFineRun(f: Fine, steps: seq<FineStep>)
    decreases |steps|
  {
    steps == [] || (FineEnabled(f, steps[0]) && ValidFineRun(FineNext(f, steps[0]), steps[1..]))
  }

  ghost function FineRun(f: Fine, steps: seq<FineStep>): Fine
    requires ValidFineRun(f, steps)
    decreases |steps|
  {
    if steps == [] then f else FineRun(FineNext(f, steps[0]), steps[1..])
  }

  // ---------------------------------------------------------------- invariant

  /** A running limiter call is that of a worker waiting for it. */
  predicate CallerOk(f: Fine, tx: nat)
    requires Runs(f, tx)
  {
    var c, at, k := f.limiter.calls[tx], f.callers[tx].readAt, WorkerOf(f.world, f.callers[tx].worker);
    && k.Busy? && k.phase.Limiting?
    && c.key == DeliveryKey(k.channel) && c.window == WindowOf(at)
    && c.limit == f.world.config.rateLimit && c.requested == f.world.config.claimLimit
    && k.started <= at <= f.world.now && InTime(k, at)
  }

  ghost predicate CallersOk(f: Fine) {
    && (forall tx | tx in f.limiter.calls && Active(f.limiter.calls[tx]) :: Runs(f, tx) && CallerOk(f, tx))
    && (forall a, b | Runs(f, a) && Runs(f, b) && f.callers[a].worker == f.callers[b].worker :: a == b)
  }

  ghost predicate FineInv(f: Fine) {
    && O.Inv(f.world) && f.world.config.rateLimit > 0 && f.world.config.claimLimit > 0
    && R.Inv(f.limiter) && f.limiter.windows == f.world.db.windows
    && CallersOk(f)
  }

  // --------------------------------------------------------------- simulation

  /** The steps of `Protocol` that a step amounts to. */
  function Shadow(f: Fine, step: FineStep): seq<Step> {
    match step
    case Other(s) => [s]
    case CommitTx(tx, acknowledged) =>
      if tx in f.callers then [Work(f.callers[tx].worker, Acquire(f.callers[tx].readAt, acknowledged))] else []
    case RollbackTx(tx) => if tx in f.callers then [Work(f.callers[tx].worker, Drop)] else []
    case _ => []
  }

  /** An act of a worker with an empty list is no move of any notification. */
  lemma HistoryStays(w: World, x: WorkerId, act: Act)
    requires O.OwnInv(w) && ActOk(w, WorkerOf(w, x), act)
    requires act.Acquire? || (act.Drop? && WorkerOf(w, x).queue == [])
    ensures Next(w, Work(x, act)).ledger == w.ledger && Next(w, Work(x, act)).sent == w.sent
  {
    hide L.Sound;
    assert forall id | id in w.db.rows :: MoveOf(w, Work(x, act), id) == L.Stay;
  }

  lemma CommitIsAcquire(f: Fine, tx: nat, acknowledged: bool)
    requires FineInv(f) && FineEnabled(f, CommitTx(tx, acknowledged))
    ensures var s := Work(f.callers[tx].worker, Acquire(f.callers[tx].readAt, acknowledged));
            Enabled(f.world, s) && Next(f.world, s) == FineNext(f, CommitTx(tx, acknowledged)).world
  {
    hide C.CreationInv, O.LifeInv, MarkedRow, R.LogOk, R.LocksApart, L.Sound, LifeNext;
    var c, x, at := f.limiter.calls[tx], f.callers[tx].worker, f.callers[tx].readAt;
    assert CallerOk(f, tx);
    assert R.CallOk(f.limiter, c);
    HistoryStays(f.world, x, Acquire(at, acknowledged));
  }

  lemma RollbackIsDrop(f: Fine, tx: nat)
    requires FineInv(f) && FineEnabled(f, RollbackTx(tx))
    ensures var s := Work(f.callers[tx].worker, Drop);
            Enabled(f.world, s) && Next(f.world, s) == FineNext(f, RollbackTx(tx)).world
  {
    hide R.Inv, L.Sound, LifeNext;
    var x := f.callers[tx].worker;
    assert CallerOk(f, tx);
    O.WorkerAt(f.world, x);
    HistoryStays(f.world, x, Drop);
  }

  lemma ShadowStep(f: Fine, step: FineStep)
    requires FineInv(f) && FineEnabled(f, step)
    ensures ValidRun(f.world, Shadow(f, step)) && Run(f.world, Shadow(f, step)) == FineNext(f, step).world
  {
    hide FineInv, Next, Enabled;
    match step
    case CommitTx(tx, acknowledged) => CommitIsAcquire(f, tx, acknowledged);
    case RollbackTx(tx) => RollbackIsDrop(f, tx);
    case _ =>
  }

  // ------------------------------------------------------------- preservation

  lemma OtherKeepsWindows(w: World, s: Step)
    requires Enabled(w, s) && !(s.Work? && s.act.Acquire?)
    ensures Next(w, s).db.windows == w.db.windows && Next(w, s).config == w.config && w.now <= Next(w, s).now
  {
    hide LifeNext, C.OpOk;
    if s.Call? {
      C.OpInserts(w.db, ClientOf(w, s.client), s.op, w.now);
    }
  }

  lemma OtherKeepsCallers(f: Fine, s: Step)
    requires FineInv(f) && FineEnabled(f, Other(s))
    ensures CallersOk(FineNext(f, Other(s)))
  {
    hide R.Inv, O.Inv, DbNext, LifeNext, ActNext, C.OpNext, SentNext;
    var f' := FineNext(f, Other(s));
    OtherKeepsWindows(f.world, s);
    forall tx | tx in f'.limiter.calls && Active(f'.limiter.calls[tx])
      ensures Runs(f', tx) && CallerOk(f', tx)
    {
      assert Runs(f, tx) && CallerOk(f, tx);
      assert WorkerOf(f'.world, f.callers[tx].worker) == WorkerOf(f.world, f.callers[tx].worker);
    }
    assert forall tx :: Runs(f', tx) <==> Runs(f, tx);
  }

  lemma OpenKeepsCallers(f: Fine, tx: nat, x: WorkerId)
    requires FineInv(f) && FineEnabled(f, Open(tx, x))
    ensures CallersOk(FineNext(f, Open(tx, x)))
  {
    hide R.Inv, O.LifeInv, L.Sound;
    var f' := FineNext(f, Open(tx, x));
    O.WorkerAt(f.world, x);
    forall t | t in f'.limiter.calls && Active(f'.limiter.calls[t])
      ensures Runs(f', t) && CallerOk(f', t)
    {
      assert t != tx ==> Runs(f, t) && CallerOk(f, t);
    }
    assert forall t :: t != tx ==> (Runs(f', t) <==> Runs(f, t));
  }

  /** The other statements change the phase of one call. */
  lemma StatementKeepsCallers(f: Fine, step: FineStep)
    requires FineInv(f) && FineEnabled(f, step) && (step.Statement? || step.CommitTx? || step.RollbackTx?)
    ensures CallersOk(FineNext(f, step))
  {
    hide R.Inv, O.Inv;
    var f' := FineNext(f, step);
    forall t | t in f'.limiter.calls && Active(f'.limiter.calls[t])
      ensures Runs(f', t) && CallerOk(f', t)
    {
      assert Runs(f, t) && CallerOk(f, t);
    }
    assert forall t :: Runs(f', t) ==> Runs(f, t);
  }

  lemma FineKeepsLimiter(f: Fine, step: FineStep)
    requires FineInv(f) && FineEnabled(f, step)
    ensures R.Inv(FineNext(f, step).limiter)
    ensures FineNext(f, step).limiter.windows == FineNext(f, step).world.db.windows
    ensures FineNext(f, step).world.config == f.world.config
  {
    hide O.Inv, R.Inv, CallersOk, DbNext, LifeNext;
    match step
    case Other(s) => OtherKeepsWindows(f.world, s);
    case Open(tx, x) =>
      var w := f.world;
      R.StepKeepsInv(f.limiter, R.Begin(
        tx, DeliveryKey(WorkerOf(w, x).channel), WindowOf(w.now), w.config.rateLimit, w.config.claimLimit));
    case Statement(s) => R.StepKeepsInv(f.limiter, s);
    case CommitTx(tx, _) => R.StepKeepsInv(f.limiter, R.Commit(tx));
    case RollbackTx(tx) => R.StepKeepsInv(f.limiter, R.Rollback(tx));
  }

  lemma FineKeepsInv(f: Fine, step: FineStep)
    requires FineInv(f) && FineEnabled(f, step)
    ensures FineInv(FineNext(f, step))
  {
    hide O.Inv, R.Inv, CallersOk, FineNext, Shadow;
    FineKeepsLimiter(f, step);
    ShadowStep(f, step);
    V.RunKeepsInv(f.world, Shadow(f, step));
    match step
    case Other(s) => OtherKeepsCallers(f, s);
    case Open(tx, x) => OpenKeepsCallers(f, tx, x);
    case _ => StatementKeepsCallers(f, step);
  }

  // ------------------------------------------------------------------- theorem

  lemma {:induction false} FineRunIsRun(f: Fine, steps: seq<FineStep>) returns (coarse: seq<Step>)
    requires FineInv(f) && ValidFineRun(f, steps)
    ensures ValidRun(f.world, coarse) && Run(f.world, coarse) == FineRun(f, steps).world
    ensures FineInv(FineRun(f, steps))
    decreases |steps|
  {
    hide FineInv, FineNext, Shadow, Next;
    if steps == [] {
      coarse := [];
    } else {
      ShadowStep(f, steps[0]);
      FineKeepsInv(f, steps[0]);
      var rest := FineRunIsRun(FineNext(f, steps[0]), steps[1..]);
      RunConcat(f.world, Shadow(f, steps[0]), rest);
      coarse := Shadow(f, steps[0]) + rest;
    }
  }

  /** Whatever the statements of limiter transactions are interleaved with, the tables,
      workers, clients and histories that are reached are reached by a run of `Protocol`. */
  lemma InterleavedRunsAreRuns(w0: World, steps: seq<FineStep>) returns (coarse: seq<Step>)
    requires Initial(w0) && ValidFineRun(Fine(w0, R.EMPTY, map[]), steps)
    ensures ValidRun(w0, coarse) && Run(w0, coarse) == FineRun(Fine(w0, R.EMPTY, map[]), steps).world
  {
    V.InitialInv(w0);
    coarse := FineRunIsRun(Fine(w0, R.EMPTY, map[]), steps);
  }
}
