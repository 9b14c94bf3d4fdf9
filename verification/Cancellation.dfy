/** When a cancellation is final. A result write does not look at the status, so it can
    overwrite one; these are exactly the cancellations that no worker can overwrite. */
module Cancellation {
  import opened Domain
  import opened Text
  import opened Tables
  import opened Claiming
  import opened Protocol
  import opened Ownership
  import opened Preservation
  import opened Guarantees
  import L = Lifecycle
  import C = Creation

  /** Worker `x` has the notification at place `i` of its list and can still write its
      result: the cycle has time left, or the provider answered while it had. */
  predicate Overwrites(w: World, x: WorkerId, i: int, id: string) {
    var k := WorkerOf(w, x);
    && Owns(k, i) && k.queue[i].id == id
    && (InTime(k, w.now) || (i == 0 && k.phase.Answered? && InTime(k, k.phase.at)))
  }

  ghost predicate Overwritable(w: World, id: string) {
    exists x, i :: Overwrites(w, x, i, id)
  }

  predicate IsCancelled(w: World, id: string) {
    id in w.db.rows && w.db.rows[id].status.Cancelled?
  }

  /** The notification stays cancelled in every continuation. */
  ghost predicate Final(w: World, id: string) {
    forall steps: seq<Step> :: ValidRun(w, steps) ==> IsCancelled(Run(w, steps), id)
  }

  // ------------------------------------------------------- nobody can overwrite

  lemma ActOverwrites(w: World, x: WorkerId, act: Act, i: int, id: string)
    requires OwnInv(w) && ActOk(w, WorkerOf(w, x), act) && IsCancelled(w, id)
    requires Overwrites(Next(w, Work(x, act)), x, i, id)
    ensures Overwrites(w, x, if act.Log? then i + 1 else i, id)
  {
    hide LifeNext, MarkedRow, WorkerEvent, L.Sound, HistoryOk, WorkerOk;
  }

  /** A step lets nobody overwrite a cancelled notification who could not before. */
  lemma OverwritesBefore(w: World, s: Step, x: WorkerId, i: int, id: string)
    requires OwnInv(w) && Enabled(w, s) && IsCancelled(w, id) && Overwrites(Next(w, s), x, i, id)
    ensures Overwritable(w, id)
  {
    hide OwnInv, LifeNext, DbNext, ActNext, ActOk, C.OpNext, C.OpOk;
    if s.Work? && s.worker == x {
      ActOverwrites(w, x, s.act, i, id);
    } else {
      assert Overwrites(w, x, i, id);
    }
  }

  /** The moves that only a worker that can overwrite the notification makes. */
  predicate NeedsTime(m: L.Move) {
    m.Send? || (m.Mark? && m.applied)
  }

  lemma HeadOverwrites(w: World, s: Step, id: string)
    requires Enabled(w, s)
    ensures NeedsTime(MoveOf(w, s, id)) ==> s.Work? && Overwrites(w, s.worker, 0, id)
  {
  }

  lemma MoveKeepsCancelled(it: L.Item, m: L.Move)
    requires L.MoveOk(it, m) && !NeedsTime(m) && it.row.status.Cancelled?
    ensures L.Apply(it, m).row.status.Cancelled? && L.Apply(it, m).life.sends == it.life.sends
  {
  }

  lemma StepKeepsFinal(w: World, s: Step, id: string)
    requires Inv(w) && Enabled(w, s) && IsCancelled(w, id) && !Overwritable(w, id)
    ensures IsCancelled(Next(w, s), id) && !Overwritable(Next(w, s), id)
    ensures id in w.ledger && id in Next(w, s).ledger && Next(w, s).ledger[id].sends == w.ledger[id].sends
  {
    hide L.MoveOk, L.Apply, L.Sound, MoveOf, OwnInv, LifeInv, C.CreationInv, Next, Overwrites;
    Simulates(w, s, id);
    var m := MoveOf(w, s, id);
    HeadOverwrites(w, s, id);
    MoveKeepsCancelled(ItemOf(w, id), m);
    if x, i :| Overwrites(Next(w, s), x, i, id) {
      OverwritesBefore(w, s, x, i, id);
    }
  }

  lemma {:induction false} RunKeepsFinal(w: World, steps: seq<Step>, id: string)
    requires Inv(w) && ValidRun(w, steps) && IsCancelled(w, id) && !Overwritable(w, id)
    ensures IsCancelled(Run(w, steps), id)
    ensures id in w.ledger && id in Run(w, steps).ledger && Run(w, steps).ledger[id].sends == w.ledger[id].sends
    decreases |steps|
  {
    hide Inv, Overwritable, IsCancelled, Next;
    if steps != [] {
      StepKeepsFinal(w, steps[0], id);
      StepKeepsInv(w, steps[0]);
      RunKeepsFinal(Next(w, steps[0]), steps[1..], id);
    } else {
      HasLedger(w, id);
    }
  }

  lemma HasLedger(w: World, id: string)
    requires Inv(w) && IsCancelled(w, id)
    ensures id in w.ledger
  {
  }

  // --------------------------------------------------------- somebody can

  /** What the worker does next to get to the result write. */
  function NextAct(w: World, k: Worker, i: int): Act
    requires k.Busy?
  {
    match k.phase
    case InFlight => Answer(Response("", 200, None))
    case Answered(_, at) => Mark(at, None, i == 0)
    case Logging(_) => Log(w.now, false)
    case _ => Send
  }

  function Ahead(k: Worker): nat {
    if k.Idle? then 0
    else match k.phase
      case Ready => 3
      case InFlight => 2
      case Answered(_, _) => 1
      case _ => 0
  }

  lemma NextActOk(w: World, x: WorkerId, i: int, id: string)
    requires OwnInv(w) && Overwrites(w, x, i, id)
    ensures var k := WorkerOf(w, x);
            && ActOk(w, k, NextAct(w, k, i))
            && (k.phase.Ready? || k.phase.InFlight? || k.phase.Answered? || k.phase.Logging?)
            && k.queue[0].id in w.db.rows
  {
    hide HistoryOk, L.Sound;
    WorkerAt(w, x);
    assert SlotOk(w, x, WorkerOf(w, x), 0);
    assert EventOk(w, x, WorkerOf(w, x));
  }

  /** Unless it was the result write, the worker is closer to it. */
  lemma ComesCloser(w: World, x: WorkerId, i: int, id: string)
    requires Overwrites(w, x, i, id) && ActOk(w, WorkerOf(w, x), NextAct(w, WorkerOf(w, x), i))
    requires !WorkerOf(w, x).phase.Limiting? && !WorkerOf(w, x).phase.Claiming?
    requires !(i == 0 && WorkerOf(w, x).phase.Answered?)
    ensures var k, w' := WorkerOf(w, x), Next(w, Work(x, NextAct(w, WorkerOf(w, x), i)));
            var i' := if k.phase.Logging? then i - 1 else i;
            Overwrites(w', x, i', id) && (i' < i || Ahead(WorkerOf(w', x)) < Ahead(k))
  {
    hide LifeNext, MarkedRow, WorkerEvent;
  }

  lemma WriteIsNoCancel(w: World, x: WorkerId, id: string)
    requires Overwrites(w, x, 0, id) && WorkerOf(w, x).phase.Answered? && id in w.db.rows
    requires ActOk(w, WorkerOf(w, x), NextAct(w, WorkerOf(w, x), 0))
    ensures var w' := Next(w, Work(x, NextAct(w, WorkerOf(w, x), 0))); id in w'.db.rows && !IsCancelled(w', id)
  {
    hide LifeNext, WorkerEvent;
  }

  /** A worker that can overwrite a cancellation does so in some continuation. */
  lemma {:induction false} Overwrite(w: World, x: WorkerId, i: int, id: string) returns (steps: seq<Step>)
    requires Inv(w) && Overwrites(w, x, i, id)
    ensures ValidRun(w, steps) && !IsCancelled(Run(w, steps), id)
    decreases i, Ahead(WorkerOf(w, x))
  {
    hide Inv, ActOk, Next, NextAct, Ahead, IsCancelled, OwnInv;
    OwnPart(w);
    NextActOk(w, x, i, id);
    var k := WorkerOf(w, x);
    var s := Work(x, NextAct(w, k, i));
    var rest := [];
    if i == 0 && k.phase.Answered? {
      WriteIsNoCancel(w, x, id);
    } else {
      ComesCloser(w, x, i, id);
      StepKeepsInv(w, s);
      rest := Overwrite(Next(w, s), x, if k.phase.Logging? then i - 1 else i, id);
    }
    steps := [s] + rest;
    assert steps[1..] == rest;
  }

  lemma OwnPart(w: World)
    requires Inv(w)
    ensures OwnInv(w)
  {
  }

  // ------------------------------------------------------------- the condition

  /** A cancelled notification stays cancelled in every continuation exactly when no
      worker can still write its result. */
  lemma CancelledFinalIff(w: World, id: string)
    requires Reachable(w) && IsCancelled(w, id)
    ensures Final(w, id) <==> !Overwritable(w, id)
  {
    hide Inv, Overwrites, IsCancelled;
    ReachableInv(w);
    if x, i :| Overwrites(w, x, i, id) {
      var steps := Overwrite(w, x, i, id);
    } else {
      forall steps: seq<Step> | ValidRun(w, steps)
        ensures IsCancelled(Run(w, steps), id)
      {
        RunKeepsFinal(w, steps, id);
      }
    }
  }

  lemma CancelLeavesWorkers(w: World, tenant: string, ids: seq<string>, id: string)
    requires id in CancelTargets(w.db.rows, ids, tenant)
    ensures IsCancelled(Next(w, Cancel(tenant, ids)), id)
    ensures Overwritable(Next(w, Cancel(tenant, ids)), id) <==> Overwritable(w, id)
  {
    hide LifeNext;
    var w' := Next(w, Cancel(tenant, ids));
    assert forall x, i :: Overwrites(w', x, i, id) <==> Overwrites(w, x, i, id);
  }

  lemma CancelIsReachable(w: World, tenant: string, ids: seq<string>)
    requires Reachable(w)
    ensures Reachable(Next(w, Cancel(tenant, ids)))
  {
    hide Next, Initial;
    var w0: World, before: seq<Step> :| Initial(w0) && ValidRun(w0, before) && Run(w0, before) == w;
    var s := Cancel(tenant, ids);
    RunSnoc(w0, before, s);
  }

  /** So whether a cancellation is final can be told before it is made. */
  lemma CancellationFinalIff(w: World, tenant: string, ids: seq<string>, id: string)
    requires Reachable(w) && id in CancelTargets(w.db.rows, ids, tenant)
    ensures Final(Next(w, Cancel(tenant, ids)), id) <==> !Overwritable(w, id)
  {
    hide Reachable, Next, Overwritable, IsCancelled, Final;
    CancelIsReachable(w, tenant, ids);
    CancelLeavesWorkers(w, tenant, ids, id);
    CancelledFinalIff(Next(w, Cancel(tenant, ids)), id);
  }

  /** A final cancellation also ends sending. In particular one of a row that no worker
      holds is final: a queued row, or one left behind in processing. */
  lemma CancelledUnheldIsFinal(w: World, tenant: string, ids: seq<string>, id: string, steps: seq<Step>)
    requires Reachable(w) && id in CancelTargets(w.db.rows, ids, tenant)
    requires !Overwritable(w, id) || Unheld(w, id) || Queued(w.db.rows[id].status)
    requires ValidRun(Next(w, Cancel(tenant, ids)), steps)
    ensures var w' := Run(Next(w, Cancel(tenant, ids)), steps);
            && IsCancelled(w', id)
            && id in w.ledger && id in w'.ledger && w'.ledger[id].sends == w.ledger[id].sends
  {
    hide Reachable, Next, IsCancelled, Inv, Holds;
    var w1 := Next(w, Cancel(tenant, ids));
    if x, i :| Overwrites(w, x, i, id) {
      HeldByOverwriter(w, x, i, id);
      ExclusiveOwnership(w, x, x, id);
    }
    CancelIsReachable(w, tenant, ids);
    CancelLeavesWorkers(w, tenant, ids, id);
    ReachableInv(w);
    ReachableInv(w1);
    CancelSendsNothing(w, tenant, ids, id);
    RunKeepsFinal(w1, steps, id);
  }

  lemma HeldByOverwriter(w: World, x: WorkerId, i: int, id: string)
    requires Overwrites(w, x, i, id)
    ensures x in w.workers && Holds(w.workers[x], id)
  {
  }

  lemma CancelSendsNothing(w: World, tenant: string, ids: seq<string>, id: string)
    requires Inv(w) && id in w.db.rows
    ensures var w' := Next(w, Cancel(tenant, ids));
            id in w.ledger && id in w'.ledger && w'.ledger[id].sends == w.ledger[id].sends
  {
    hide L.Sound, C.CreationInv;
    Simulates(w, Cancel(tenant, ids), id);
  }

  // ------------------------------------------------------------------ an input

  /** A pending notification of the default tenant. */
  const LATE: Notification := Notification(
    "n", "default", "b", "r", SMS, "c", Normal, Pending, 0, 3, None, 0, 0, "", "", "", "")

  /** Worker 0 has sent `LATE` and nobody else has done anything. */
  predicate LateSent(w: World) {
    var k := WorkerOf(w, 0);
    && w.db.rows.Keys == {"n"} && w.db.rows["n"].tenantId == "default" && w.db.rows["n"].status.Processing?
    && k.Busy? && k.phase.InFlight? && k.queue != [] && k.queue[0].id == "n" && InTime(k, w.now)
  }

  lemma InsertLate(w: World)
    requires w.db.rows == map[]
    ensures Enabled(w, Import([LATE]))
    ensures var w' := Next(w, Import([LATE]));
            && w'.db.rows == map["n" := LATE] && w'.workers == w.workers && w'.now == w.now
            && w'.db.windows == w.db.windows && w'.config == w.config
  {
    hide LifeNext;
    InsertSingle(w.db.rows, LATE);
    assert !IsSpace("default"[0]);
  }

  lemma BeginLate(w: World)
    requires WorkerOf(w, 0).Idle?
    ensures Enabled(w, Work(0, Begin(SMS)))
    ensures var w' := Next(w, Work(0, Begin(SMS)));
            && w'.db == w.db && w'.now == w.now && w'.config == w.config
            && WorkerOf(w', 0) == Busy(SMS, w.now, Grant(0, 0, 0, 0), [], Limiting)
  {
    hide LifeNext;
  }

  lemma AcquireLate(w: World)
    requires WorkerOf(w, 0) == Busy(SMS, w.now, Grant(0, 0, 0, 0), [], Limiting)
    requires w.db.windows == map[] && w.config.rateLimit > 0 && w.config.claimLimit > 0
    ensures Enabled(w, Work(0, Acquire(w.now, true)))
    ensures var w', k' := Next(w, Work(0, Acquire(w.now, true))), WorkerOf(Next(w, Work(0, Acquire(w.now, true))), 0);
            && w'.db.rows == w.db.rows && w'.now == w.now
            && k'.Busy? && k'.channel == SMS && k'.started == w.now && k'.phase.Claiming? && k'.grant.size > 0
  {
    hide LifeNext;
  }

  lemma ClaimLate(w: World)
    requires var k := WorkerOf(w, 0);
             k.Busy? && k.channel == SMS && k.started == w.now && k.phase.Claiming? && k.grant.size > 0
    requires w.db.rows == map["n" := LATE]
    ensures Enabled(w, Work(0, Act.Claim(["n"], {}, w.now)))
    ensures var w' := Next(w, Work(0, Act.Claim(["n"], {}, w.now)));
            var k' := WorkerOf(w', 0);
            && w'.db.rows.Keys == {"n"} && w'.db.rows["n"] == ClaimRow(LATE, w.now) && w'.now == w.now
            && k'.Busy? && k'.started == w.now && k'.phase.Ready? && k'.queue == [ClaimRow(LATE, w.now)]
  {
    hide LifeNext;
    assert SetOf(["n"]) == {"n"} by {
      assert ["n"][0] == "n";
    }
    assert Candidates(w.db.rows, SMS, w.now, {}) == {"n"};
  }

  lemma SendLate(w: World)
    requires var k := WorkerOf(w, 0);
             k.Busy? && k.started == w.now && k.phase.Ready? && k.queue == [ClaimRow(LATE, w.now)]
    requires w.db.rows.Keys == {"n"} && w.db.rows["n"] == ClaimRow(LATE, w.now)
    ensures Enabled(w, Work(0, Act.Send)) && LateSent(Next(w, Work(0, Act.Send)))
  {
    hide LifeNext;
  }

  /** From empty tables: insert, claim and send one notification. */
  lemma ReachLateSent(w0: World) returns (steps: seq<Step>)
    requires Initial(w0)
    ensures ValidRun(w0, steps) && LateSent(Run(w0, steps))
  {
    hide Next, Enabled, LateSent;
    steps := [];
    InsertLate(Run(w0, steps));
    RunSnoc(w0, steps, Import([LATE]));
    steps := steps + [Import([LATE])];
    BeginLate(Run(w0, steps));
    RunSnoc(w0, steps, Work(0, Begin(SMS)));
    steps := steps + [Work(0, Begin(SMS))];
    AcquireLate(Run(w0, steps));
    RunSnoc(w0, steps, Work(0, Acquire(w0.now, true)));
    steps := steps + [Work(0, Acquire(w0.now, true))];
    ClaimLate(Run(w0, steps));
    RunSnoc(w0, steps, Work(0, Act.Claim(["n"], {}, w0.now)));
    steps := steps + [Work(0, Act.Claim(["n"], {}, w0.now))];
    SendLate(Run(w0, steps));
    RunSnoc(w0, steps, Work(0, Act.Send));
    steps := steps + [Work(0, Act.Send)];
  }

  lemma CancelLate(w: World)
    requires LateSent(w)
    ensures var w' := Next(w, Cancel("default", ["n"]));
            IsCancelled(w', "n") && WorkerOf(w', 0) == WorkerOf(w, 0) && w'.now == w.now
  {
    hide LifeNext;
    assert ["n"][0] == "n";
  }

  lemma AnswerLate(w: World)
    requires IsCancelled(w, "n") && WorkerOf(w, 0).Busy? && WorkerOf(w, 0).phase.InFlight?
    ensures Enabled(w, Work(0, Act.Answer(Response("m", 200, None))))
    ensures var w' := Next(w, Work(0, Act.Answer(Response("m", 200, None))));
            && w'.db == w.db && w'.now == w.now
            && WorkerOf(w', 0) == WorkerOf(w, 0).(phase := Answered(Response("m", 200, None), w.now))
  {
    hide LifeNext;
  }

  lemma MarkLate(w: World)
    requires IsCancelled(w, "n")
    requires WorkerOf(w, 0).Busy? && WorkerOf(w, 0).queue != [] && WorkerOf(w, 0).queue[0].id == "n"
    requires WorkerOf(w, 0).phase == Answered(Response("m", 200, None), w.now) && InTime(WorkerOf(w, 0), w.now)
    ensures Enabled(w, Work(0, Act.Mark(w.now, None, true)))
    ensures var w' := Next(w, Work(0, Act.Mark(w.now, None, true)));
            "n" in w'.db.rows && w'.db.rows["n"].status.Delivered?
  {
    hide LifeNext;
  }

  /** Cancelling a notification whose provider call runs does not stick: the cancelled
      row becomes delivered when the call succeeds. */
  lemma LateResultWins(w0: World) returns (cancelled: seq<Step>, delivered: seq<Step>)
    requires Initial(w0)
    ensures ValidRun(w0, cancelled) && IsCancelled(Run(w0, cancelled), "n")
    ensures ValidRun(w0, cancelled + delivered)
    ensures "n" in Run(w0, cancelled + delivered).db.rows
    ensures Run(w0, cancelled + delivered).db.rows["n"].status.Delivered?
  {
    hide Next, Enabled;
    var steps := ReachLateSent(w0);
    var w := Run(w0, steps);
    CancelLate(w);
    assert Enabled(w, Cancel("default", ["n"])) by {
      CancelEnabled(w);
    }
    RunSnoc(w0, steps, Cancel("default", ["n"]));
    cancelled := steps + [Cancel("default", ["n"])];
    w := Run(w0, cancelled);
    AnswerLate(w);
    RunSnoc(w0, cancelled, Work(0, Act.Answer(Response("m", 200, None))));
    steps := cancelled + [Work(0, Act.Answer(Response("m", 200, None)))];
    MarkLate(Run(w0, steps));
    RunSnoc(w0, steps, Work(0, Act.Mark(w.now, None, true)));
    delivered := [Work(0, Act.Answer(Response("m", 200, None))), Work(0, Act.Mark(w.now, None, true))];
    assert steps + [Work(0, Act.Mark(w.now, None, true))] == cancelled + delivered;
  }

  lemma CancelEnabled(w: World)
    ensures Enabled(w, Cancel("default", ["n"]))
  {
  }
}
