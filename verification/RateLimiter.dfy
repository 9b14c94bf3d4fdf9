/** The limiter transaction at the grain of its statements, interleaved by any
    number of callers, and its equivalence to calls executed one at a time. */
module RateLimiter {
  import opened Domain
  import opened Tables

  /** One limiter call: its arguments and how far it got. */
  datatype Call = Call(key: string, window: int, limit: int, requested: int, phase: Phase)

  datatype Phase =
    | Begun
    | Locked                            // the upsert ran and holds the row
    | Seen(used: int)                   // used_count was read FOR UPDATE
    | Updated(used: int, acquired: int) // the update ran, or was not needed
    | Returned(granted: int)            // committed
    | Aborted                           // rolled back

  /** `log` records the committed calls in commit order. */
  datatype State = State(windows: map<(string, int), Window>, calls: map<nat, Call>, log: seq<Call>)

  datatype Step =
    | Begin(tx: nat, key: string, window: int, limit: int, requested: int)
    | Upsert(tx: nat)
    | Read(tx: nat)
    | Update(tx: nat)
    | Commit(tx: nat)
    | Rollback(tx: nat)

  predicate HoldsLock(c: Call, key: string, window: int) {
    (c.phase.Locked? || c.phase.Seen? || c.phase.Updated?) && c.key == key && c.window == window
  }

  ghost predicate Enabled(s: State, step: Step) {
    match step
    case Begin(tx, _, _, _, _) => tx !in s.calls
    case Upsert(tx) =>
      && tx in s.calls && s.calls[tx].phase.Begun?
      && (forall other | other in s.calls ::
            !HoldsLock(s.calls[other], s.calls[tx].key, s.calls[tx].window))
    case Read(tx) => tx in s.calls && s.calls[tx].phase.Locked?
    case Update(tx) => tx in s.calls && s.calls[tx].phase.Seen?
    case Commit(tx) => tx in s.calls && s.calls[tx].phase.Updated?
    case Rollback(tx) => tx in s.calls && !s.calls[tx].phase.Returned?
  }

  function SetPhase(s: State, tx: nat, p: Phase): State
    requires tx in s.calls
  {
    s.(calls := s.calls[tx := s.calls[tx].(phase := p)])
  }

  /** What the committed table and the caller look like after a step. */
  ghost function Next(s: State, step: Step): State
    requires Enabled(s, step)
  {
    match step
    case Begin(tx, key, window, limit, requested) =>
      if limit <= 0 || requested <= 0 then
        var c := Call(key, window, limit, requested, Returned(0));
        s.(calls := s.calls[tx := c], log := s.log + [c])
      else
        s.(calls := s.calls[tx := Call(key, window, limit, requested, Begun)])
    case Upsert(tx) => SetPhase(s, tx, Locked)
    case Read(tx) =>
      var c := s.calls[tx];
      SetPhase(s, tx, Seen(Used(s.windows, c.key, c.window)))
    case Update(tx) =>
      var c := s.calls[tx];
      var remaining := c.limit - c.phase.used;
      var acquired := if remaining <= 0 then 0 else if c.requested > remaining then remaining else c.requested;
      SetPhase(s, tx, Updated(c.phase.used, acquired))
    case Commit(tx) =>
      var c := s.calls[tx];
      var row := Window(c.limit, Used(s.windows, c.key, c.window) + c.phase.acquired);
      var done := c.(phase := Returned(c.phase.acquired));
      State(s.windows[(c.key, c.window) := row], s.calls[tx := done], s.log + [done])
    case Rollback(tx) => SetPhase(s, tx, Aborted)
  }

  ghost predicate ValidRun(s: State, steps: seq<Step>)
    decreases |steps|
  {
    steps == [] || (Enabled(s, steps[0]) && ValidRun(Next(s, steps[0]), steps[1..]))
  }

  ghost function Run(s: State, steps: seq<Step>): State
    requires ValidRun(s, steps)
    decreases |steps|
  {
    if steps == [] then s else Run(Next(s, steps[0]), steps[1..])
  }

  const EMPTY: State := State(map[], map[], [])

  // --------------------------------------------------- one call at a time

  /** The table after the calls of `log`, each executed alone. */
  function Replay(log: seq<Call>): map<(string, int), Window> {
    if log == [] then map[]
    else
      var c := log[|log| - 1];
      AcquireSlots(Replay(log[..|log| - 1]), c.key, c.window, c.limit, c.requested).0
  }

  /** Call `i` of the log got what it gets when the calls run alone in that order. */
  predicate GrantedAlone(log: seq<Call>, i: nat)
    requires i < |log|
  {
    var c := log[i];
    c.phase == Returned(AcquireSlots(Replay(log[..i]), c.key, c.window, c.limit, c.requested).1)
  }

  /** The row lock: no two calls are between upsert and end on one row. */
  ghost predicate LocksApart(s: State) {
    forall a, b | a in s.calls && b in s.calls && a != b && HoldsLock(s.calls[a], s.calls[a].key, s.calls[a].window) ::
      !HoldsLock(s.calls[b], s.calls[a].key, s.calls[a].window)
  }

  ghost predicate CallsOk(s: State) {
    forall a | a in s.calls :: CallOk(s, s.calls[a])
  }

  ghost predicate LogOk(s: State) {
    s.windows == Replay(s.log) && forall i | 0 <= i < |s.log| :: GrantedAlone(s.log, i)
  }

  ghost predicate Inv(s: State) {
    LogOk(s) && LocksApart(s) && CallsOk(s)
  }

  /** What a call saw under the row lock is still what is stored. */
  predicate CallOk(s: State, c: Call) {
    var used := Used(s.windows, c.key, c.window);
    && (!c.phase.Returned? && !c.phase.Aborted? ==> c.limit > 0 && c.requested > 0)
    && (c.phase.Seen? ==> c.phase.used == used)
    && (c.phase.Updated? ==> c.phase.used == used && c.phase.acquired == Grantable(used, c.limit, c.requested))
  }

  lemma LogSnoc(s: State, c: Call)
    requires forall i | 0 <= i < |s.log| :: GrantedAlone(s.log, i)
    requires c.phase == Returned(AcquireSlots(Replay(s.log), c.key, c.window, c.limit, c.requested).1)
    ensures forall i | 0 <= i < |s.log + [c]| :: GrantedAlone(s.log + [c], i)
    ensures Replay(s.log + [c]) == AcquireSlots(Replay(s.log), c.key, c.window, c.limit, c.requested).0
  {
    var log := s.log + [c];
    assert log[..|s.log|] == s.log;
    forall i | 0 <= i < |log|
      ensures GrantedAlone(log, i)
    {
      assert i < |s.log| ==> log[..i] == s.log[..i] && GrantedAlone(s.log, i);
    }
  }

  lemma StepKeepsLocks(s: State, step: Step)
    requires LocksApart(s) && Enabled(s, step)
    ensures LocksApart(Next(s, step))
  {
  }

  lemma StepKeepsLog(s: State, step: Step)
    requires LogOk(s) && CallsOk(s) && Enabled(s, step)
    ensures LogOk(Next(s, step))
  {
    if step.Commit? {
      assert CallOk(s, s.calls[step.tx]);
      LogSnoc(s, Next(s, step).calls[step.tx]);
    } else if step.Begin? && (step.limit <= 0 || step.requested <= 0) {
      LogSnoc(s, Next(s, step).calls[step.tx]);
    }
  }

  lemma StepKeepsCalls(s: State, step: Step)
    requires LocksApart(s) && CallsOk(s) && Enabled(s, step)
    ensures CallsOk(Next(s, step))
  {
    var s' := Next(s, step);
    forall a | a in s'.calls
      ensures CallOk(s', s'.calls[a])
    {
      if a in s.calls {
        assert CallOk(s, s.calls[a]);
      }
    }
  }

  lemma StepKeepsInv(s: State, step: Step)
    requires Inv(s) && Enabled(s, step)
    ensures Inv(Next(s, step))
  {
    StepKeepsLocks(s, step);
    StepKeepsLog(s, step);
    StepKeepsCalls(s, step);
  }

  lemma {:induction false} RunKeepsInv(s: State, steps: seq<Step>)
    requires Inv(s) && ValidRun(s, steps)
    ensures Inv(Run(s, steps))
    decreases |steps|
  {
    if steps != [] {
      StepKeepsInv(s, steps[0]);
      RunKeepsInv(Next(s, steps[0]), steps[1..]);
    }
  }

  /** Every interleaving is equivalent to its committed calls executed one after
      another in commit order: same table, same answers. */
  lemma Linearizable(steps: seq<Step>)
    requires ValidRun(EMPTY, steps)
    ensures var s := Run(EMPTY, steps);
            s.windows == Replay(s.log) && forall i | 0 <= i < |s.log| :: GrantedAlone(s.log, i)
  {
    RunKeepsInv(EMPTY, steps);
  }

  // ------------------------------------------------------------- exactness

  predicate Concerns(c: Call, key: string, window: int) {
    c.key == key && c.window == window
  }

  function Granted(log: seq<Call>, key: string, window: int): int {
    if log == [] then 0
    else
      var c := log[|log| - 1];
      Granted(log[..|log| - 1], key, window) +
      (if Concerns(c, key, window) && c.phase.Returned? then c.phase.granted else 0)
  }

  function Requested(log: seq<Call>, key: string, window: int): int {
    if log == [] then 0
    else
      var c := log[|log| - 1];
      Requested(log[..|log| - 1], key, window) +
      (if Concerns(c, key, window) && c.requested > 0 then c.requested else 0)
  }

  lemma {:induction false} ReplayIsExact(log: seq<Call>, key: string, window: int, limit: int)
    requires limit > 0
    requires forall i | 0 <= i < |log| :: GrantedAlone(log, i)
    requires forall i | 0 <= i < |log| && Concerns(log[i], key, window) :: log[i].limit == limit
    ensures 0 <= Requested(log, key, window)
    ensures Used(Replay(log), key, window) == Granted(log, key, window)
    ensures Granted(log, key, window) == Min(limit, Requested(log, key, window))
  {
    if log != [] {
      var front := log[..|log| - 1];
      forall i | 0 <= i < |front|
        ensures GrantedAlone(front, i)
      {
        assert GrantedAlone(log, i) && front[..i] == log[..i];
      }
      ReplayIsExact(front, key, window, limit);
      assert GrantedAlone(log, |log| - 1);
    }
  }

  /** With one fixed positive limit, the slots granted by the committed calls of a
      window are exactly min(limit, the sum of the positive requests), whatever the
      interleaving, and that is what `used_count` stores. */
  lemma LimiterExact(steps: seq<Step>, key: string, window: int, limit: int)
    requires ValidRun(EMPTY, steps) && limit > 0
    requires forall c | c in Run(EMPTY, steps).log && Concerns(c, key, window) :: c.limit == limit
    ensures var s := Run(EMPTY, steps);
            && Granted(s.log, key, window) == Min(limit, Requested(s.log, key, window))
            && Used(s.windows, key, window) == Granted(s.log, key, window)
  {
    Linearizable(steps);
    ReplayIsExact(Run(EMPTY, steps).log, key, window, limit);
  }
}
