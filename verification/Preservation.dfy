/** Every step of the system keeps the ownership invariant, the soundness of every
    notification's history, and the creation invariant. */
module Preservation {
  import opened Domain
  import opened Delivery
  import opened Tables
  import opened Claiming
  import opened Protocol
  import opened Ownership
  import L = Lifecycle
  import C = Creation

  // ---------------------------------------------- what other workers cannot do

  predicate MovedBy(m: L.Move, x: WorkerId) {
    match m
    case Claim(owner, _, _) => owner == x
    case Send(owner, _) => owner == x
    case Answer(owner, _, _) => owner == x
    case Mark(owner, _, _, _, _, _) => owner == x
    case Log(owner, _, _) => owner == x
    case Drop(owner) => owner == x
    case _ => false
  }

  /** While `x` owns a notification, nobody else changes its stage or its attempts. */
  lemma OthersKeepStage(it: L.Item, m: L.Move, x: WorkerId)
    requires L.MoveOk(it, m) && L.OwnedBy(it.life.stage, x) && !MovedBy(m, x)
    ensures L.Apply(it, m).life.stage == it.life.stage
    ensures L.Apply(it, m).life.responses == it.life.responses
    ensures L.Apply(it, m).row.attempts == it.row.attempts
    ensures L.Apply(it, m).row.maxAttempts == it.row.maxAttempts
  {
  }

  /** Nobody else logs, or loses, an event `x` is about to write. */
  lemma OthersKeepPending(it: L.Item, m: L.Move, x: WorkerId, e: DeliveryEvent)
    requires L.Sound(it) && L.MoveOk(it, m) && PendingOk(it, x, e) && !MovedBy(m, x)
    ensures PendingOk(L.Apply(it, m), x, e)
  {
    var it' := L.Apply(it, m);
    var k := e.attempt - it.life.first - 1;
    assert L.InRange(it.life, e.attempt);
    assert it'.life.responses[k] == it.life.responses[k];
  }

  lemma MoveByActor(w: World, s: Step, id: string, x: WorkerId)
    requires Enabled(w, s) && MovedBy(MoveOf(w, s, id), x)
    ensures s.Work? && s.worker == x
  {
  }

  lemma OwnedStays(w: World, s: Step, x: WorkerId, id: string)
    requires Inv(w) && Enabled(w, s) && !(s.Work? && s.worker == x)
    requires id in w.db.rows && id in w.ledger
    ensures id in Next(w, s).db.rows && id in Next(w, s).ledger
    ensures L.OwnedBy(w.ledger[id].stage, x) ==>
              && Next(w, s).ledger[id].stage == w.ledger[id].stage
              && Next(w, s).ledger[id].responses == w.ledger[id].responses
              && Next(w, s).db.rows[id].attempts == w.db.rows[id].attempts
              && Next(w, s).db.rows[id].maxAttempts == w.db.rows[id].maxAttempts
  {
    Simulates(w, s, id);
    if MovedBy(MoveOf(w, s, id), x) {
      MoveByActor(w, s, id, x);
    }
    if L.OwnedBy(w.ledger[id].stage, x) {
      OthersKeepStage(ItemOf(w, id), MoveOf(w, s, id), x);
    }
  }

  lemma SlotOwned(w: World, x: WorkerId, k: Worker, i: int)
    requires k.Busy? && 0 <= i < |k.queue| && SlotOk(w, x, k, i) && Owns(k, i)
    ensures L.OwnedBy(w.ledger[k.queue[i].id].stage, x)
  {
  }

  lemma ClockOnly(w: World, s: Step)
    requires Enabled(w, s)
    ensures w.now <= Next(w, s).now
  {
  }

  lemma SlotCarries(w: World, w': World, x: WorkerId, k: Worker, i: int)
    requires k.Busy? && 0 <= i < |k.queue| && SlotOk(w, x, k, i) && w.now <= w'.now
    requires k.queue[i].id in w'.db.rows && k.queue[i].id in w'.ledger
    requires Owns(k, i) ==>
               && w'.ledger[k.queue[i].id].stage == w.ledger[k.queue[i].id].stage
               && w'.ledger[k.queue[i].id].responses == w.ledger[k.queue[i].id].responses
               && w'.db.rows[k.queue[i].id].attempts == w.db.rows[k.queue[i].id].attempts
               && w'.db.rows[k.queue[i].id].maxAttempts == w.db.rows[k.queue[i].id].maxAttempts
    ensures SlotOk(w', x, k, i)
  {
  }

  lemma SlotSurvives(w: World, s: Step, x: WorkerId, i: int)
    requires Inv(w) && Enabled(w, s) && !(s.Work? && s.worker == x)
    requires WorkerOf(w, x).Busy? && 0 <= i < |WorkerOf(w, x).queue|
    requires SlotOk(w, x, WorkerOf(w, x), i)
    ensures SlotOk(Next(w, s), x, WorkerOf(w, x), i)
  {
    var k := WorkerOf(w, x);
    OwnedStays(w, s, x, k.queue[i].id);
    if Owns(k, i) {
      SlotOwned(w, x, k, i);
    }
    ClockOnly(w, s);
    SlotCarries(w, Next(w, s), x, k, i);
  }

  lemma EventSurvives(w: World, s: Step, x: WorkerId)
    requires Inv(w) && Enabled(w, s) && !(s.Work? && s.worker == x)
    requires WorkerOf(w, x).Busy? && WorkerOf(w, x).queue != [] && EventOk(w, x, WorkerOf(w, x))
    ensures EventOk(Next(w, s), x, WorkerOf(w, x))
  {
    var k := WorkerOf(w, x);
    if k.phase.Logging? {
      var id := k.queue[0].id;
      Simulates(w, s, id);
      if MovedBy(MoveOf(w, s, id), x) {
        MoveByActor(w, s, id, x);
      }
      assert L.Sound(ItemOf(w, id));
      OthersKeepPending(ItemOf(w, id), MoveOf(w, s, id), x, k.phase.event);
    }
  }

  /** Steps of anyone else keep what worker `x` relies on. */
  lemma OtherWorkerOk(w: World, s: Step, x: WorkerId)
    requires Inv(w) && Enabled(w, s) && !(s.Work? && s.worker == x)
    ensures WorkerOk(Next(w, s), x, WorkerOf(w, x))
  {
    var k := WorkerOf(w, x);
    WorkerAt(w, x);
    if k.Busy? {
      forall i | 0 <= i < |k.queue|
        ensures SlotOk(Next(w, s), x, k, i)
      {
        assert SlotOk(w, x, k, i);
        SlotSurvives(w, s, x, i);
      }
      if k.queue != [] {
        EventSurvives(w, s, x);
      }
    }
  }

  // ------------------------------------------------------- the acting worker

  predicate HeadAct(w: World, x: WorkerId, act: Act) {
    && ActOk(w, WorkerOf(w, x), act) && (act.Send? || act.Answer? || act.Mark? || act.Log?)
    && WorkerOf(w, x).Busy? && WorkerOf(w, x).queue != []
  }

  lemma StaysOnOthers(w: World, x: WorkerId, act: Act, id: string)
    requires HeadAct(w, x, act) && WorkerOf(w, x).queue[0].id != id
    ensures MoveOf(w, Work(x, act), id) == L.Stay
  {
  }

  predicate SameItem(w: World, w': World, id: string) {
    && id in w.db.rows && id in w.ledger && id in w'.db.rows && id in w'.ledger
    && ItemOf(w', id) == ItemOf(w, id)
  }

  /** An act on the head of the list moves no other notification. */
  lemma OnlyHeadMoves(w: World, x: WorkerId, act: Act, id: string)
    requires Inv(w) && HeadAct(w, x, act) && id in w.db.rows && WorkerOf(w, x).queue[0].id != id
    ensures SameItem(w, Next(w, Work(x, act)), id)
  {
    hide L.Sound, C.CreationInv, HistoryOk, WorkerOk, LifeNext, DbNext, Holds, ActOk, MoveOf, L.MoveOk;
    Simulates(w, Work(x, act), id);
    StaysOnOthers(w, x, act, id);
  }

  /** A claimed row the worker has not come to. */
  predicate Untouched(w: World, x: WorkerId, n: Notification) {
    && n.id in w.db.rows && n.id in w.ledger
    && w.db.rows[n.id].attempts == n.attempts && w.db.rows[n.id].maxAttempts == n.maxAttempts
    && w.ledger[n.id].stage.Claimed? && w.ledger[n.id].stage.owner == x && w.ledger[n.id].stage.at <= w.now
  }

  lemma UntouchedSlotOk(w: World, x: WorkerId, k: Worker, i: int)
    requires k.Busy? && 0 <= i < |k.queue| && Untouched(w, x, k.queue[i])
    requires i > 0 || k.phase.Ready?
    ensures SlotOk(w, x, k, i)
  {
  }

  lemma SlotIsUntouched(w: World, x: WorkerId, k: Worker, i: int)
    requires k.Busy? && 0 < i < |k.queue| && SlotOk(w, x, k, i)
    ensures Untouched(w, x, k.queue[i])
  {
  }

  /** A claimed notification further down the list stays as it is. */
  lemma TailUntouched(w: World, x: WorkerId, act: Act, i: int)
    requires Inv(w) && HeadAct(w, x, act) && 0 < i < |WorkerOf(w, x).queue|
    ensures Untouched(Next(w, Work(x, act)), x, WorkerOf(w, x).queue[i])
  {
    hide L.Sound, L.MoveOk, C.CreationInv, HistoryOk, LifeNext, DbNext, SlotOk, EventOk, LifeInv, OwnInv;
    var k := WorkerOf(w, x);
    WorkerAt(w, x);
    assert SlotOk(w, x, k, i);
    SlotIsUntouched(w, x, k, i);
    OnlyHeadMoves(w, x, act, k.queue[i].id);
  }

  lemma ClaimKeepsWorker(w: World, x: WorkerId, act: Act)
    requires Inv(w) && ActOk(w, WorkerOf(w, x), act) && act.Claim?
    ensures WorkerOk(Next(w, Work(x, act)), x, WorkerOf(Next(w, Work(x, act)), x))
  {
    hide L.Sound, C.CreationInv, MarkedRow, Backoff, WorkerEvent, HistoryOk, LifeNext;
    var w', s := Next(w, Work(x, act)), Work(x, act);
    var k' := WorkerOf(w', x);
    WorkerAt(w, x);
    forall i | 0 <= i < |k'.queue|
      ensures k'.queue[i].id == act.picked[i] && SlotOk(w', x, k', i)
    {
      var id := act.picked[i];
      assert id in SetOf(act.picked);
      assert id in Candidates(w.db.rows, WorkerOf(w, x).channel, act.dueAt, act.locked);
      Simulates(w, s, id);
    }
  }

  /** The event of a just-marked answer is pending, and true. */
  lemma MarkedIsPending(it: L.Item, m: L.Move, e: DeliveryEvent)
    requires L.Sound(it) && L.MoveOk(it, m) && m.Mark?
    requires e.attempt == m.snapshot.attempts + 1
    requires e.status == Decide(m.snapshot.attempts, m.snapshot.maxAttempts, L.Last(it.life.responses))
    ensures PendingOk(L.Apply(it, m), m.owner, e)
  {
  }

  /** The worker's list and phase after an act on the head. */
  lemma HeadActWorker(w: World, x: WorkerId, act: Act)
    requires HeadAct(w, x, act)
    ensures var k, k', w' := WorkerOf(w, x), WorkerOf(Next(w, Work(x, act)), x), Next(w, Work(x, act));
            && k'.Busy? && k'.started == k.started && w'.now == w.now
            && k'.queue == (if act.Log? then k.queue[1..] else k.queue)
            && (act.Send? ==> k.phase.Ready? && k'.phase == InFlight)
            && (act.Answer? ==> k.phase.InFlight? && k'.phase == Answered(act.response, w.now))
            && (act.Mark? ==>
                  && k.phase.Answered?
                  && k'.phase == Logging(WorkerEvent(
                       k.queue[0], k.phase.response, act.at + Backoff(k.queue[0].attempts, act.jitter), w.now)))
            && (act.Log? ==> k'.phase == Ready)
  {
    hide LifeNext, DbNext, WorkerEvent, Backoff, MarkedRow;
  }

  /** The head itself, after the act. */
  lemma HeadKeepsSlot(w: World, x: WorkerId, act: Act)
    requires Inv(w) && HeadAct(w, x, act) && !act.Log?
    ensures SlotOk(Next(w, Work(x, act)), x, WorkerOf(Next(w, Work(x, act)), x), 0)
    ensures act.Mark? ==> EventOk(Next(w, Work(x, act)), x, WorkerOf(Next(w, Work(x, act)), x))
  {
    hide L.Sound, C.CreationInv, MarkedRow, Backoff, DbNext, ActNext, LifeNext, OwnInv, LifeInv, L.MoveOk, HistoryOk,
        ActOk;
    var id := WorkerOf(w, x).queue[0].id;
    HeadSlot(w, x, act);
    HeadActWorker(w, x, act);
    HeadMove(w, x, act);
    Simulates(w, Work(x, act), id);
    if act.Mark? {
      assert L.Sound(ItemOf(w, id)) by {
        SoundAt(w, id);
      }
      MarkedIsPending(ItemOf(w, id), MoveOf(w, Work(x, act), id), WorkerOf(Next(w, Work(x, act)), x).phase.event);
    }
  }

  lemma SoundAt(w: World, id: string)
    requires Inv(w) && id in w.db.rows
    ensures id in w.ledger && L.Sound(ItemOf(w, id))
  {
  }

  lemma HeadActKeepsSlot(w: World, x: WorkerId, act: Act, i: int)
    requires Inv(w) && HeadAct(w, x, act)
    requires WorkerOf(Next(w, Work(x, act)), x).Busy? && 0 <= i < |WorkerOf(Next(w, Work(x, act)), x).queue|
    ensures SlotOk(Next(w, Work(x, act)), x, WorkerOf(Next(w, Work(x, act)), x), i)
  {
    hide Inv, Next, WorkerOf, SlotOk, ActOk, Untouched;
    var w' := Next(w, Work(x, act));
    HeadActWorker(w, x, act);
    if act.Log? {
      TailUntouched(w, x, act, i + 1);
      UntouchedSlotOk(w', x, WorkerOf(w', x), i);
    } else if i > 0 {
      TailUntouched(w, x, act, i);
      UntouchedSlotOk(w', x, WorkerOf(w', x), i);
    } else {
      HeadKeepsSlot(w, x, act);
    }
  }

  lemma HeadActKeepsWorker(w: World, x: WorkerId, act: Act)
    requires Inv(w) && HeadAct(w, x, act)
    ensures WorkerOk(Next(w, Work(x, act)), x, WorkerOf(Next(w, Work(x, act)), x))
  {
    hide Next, ActOk, SlotOk, OwnInv, LifeInv, C.CreationInv, WorkerEvent, PendingOk, WorkerOf;
    var w', k := Next(w, Work(x, act)), WorkerOf(w, x);
    var k' := WorkerOf(w', x);
    WorkerAt(w, x);
    HeadActWorker(w, x, act);
    forall i | 0 <= i < |k'.queue|
      ensures SlotOk(w', x, k', i)
    {
      HeadActKeepsSlot(w, x, act, i);
    }
    if act.Mark? {
      HeadKeepsSlot(w, x, act);
    }
    if act.Log? {
      assert forall i, j | 0 <= i < j < |k'.queue| :: k'.queue[i] == k.queue[i + 1] && k'.queue[j] == k.queue[j + 1];
    }
  }

  lemma ActingWorkerOk(w: World, x: WorkerId, act: Act)
    requires Inv(w) && ActOk(w, WorkerOf(w, x), act)
    ensures WorkerOk(Next(w, Work(x, act)), x, WorkerOf(Next(w, Work(x, act)), x))
  {
    WorkerAt(w, x);
    if act.Claim? {
      ClaimKeepsWorker(w, x, act);
    } else if act.Send? || act.Answer? || act.Mark? || act.Log? {
      HeadActKeepsWorker(w, x, act);
    }
  }

  // ------------------------------------------------- history against workers

  lemma OwnerAfter(it: L.Item, m: L.Move, x: WorkerId)
    requires L.MoveOk(it, m) && L.OwnedBy(L.Apply(it, m).life.stage, x)
    ensures m.Claim? || (L.OwnedBy(it.life.stage, x) && !m.Drop? && !m.Mark?)
  {
  }

  lemma HeldByHistory(w: World, x: WorkerId, id: string)
    requires OwnInv(w) && id in w.ledger && L.OwnedBy(w.ledger[id].stage, x)
    ensures Holds(WorkerOf(w, x), id)
  {
    assert HistoryOk(w, id);
  }

  /** History says that `x` has the notification after its act. */
  predicate OwnsAfter(w: World, x: WorkerId, act: Act, id: string) {
    && ActOk(w, WorkerOf(w, x), act) && id in Next(w, Work(x, act)).ledger
    && L.OwnedBy(Next(w, Work(x, act)).ledger[id].stage, x)
  }

  /** What a worker owns after an act it claimed now, or held before and did not let go. */
  lemma HeldBefore(w: World, x: WorkerId, act: Act, id: string)
    requires id in w.db.rows && OwnsAfter(w, x, act, id) && Inv(w)
    ensures var k, m := WorkerOf(w, x), MoveOf(w, Work(x, act), id);
            || m.Claim?
            || (Holds(k, id) && !m.Drop? && !m.Mark?)
  {
    Simulates(w, Work(x, act), id);
    OwnerAfter(ItemOf(w, id), MoveOf(w, Work(x, act), id), x);
    if L.OwnedBy(w.ledger[id].stage, x) {
      HeldByHistory(w, x, id);
    }
  }

  /** The head whose result is written is not held any more. */
  lemma LoggingHeadFree(w: World, x: WorkerId, id: string)
    requires OwnInv(w) && Holds(WorkerOf(w, x), id) && WorkerOf(w, x).phase.Logging?
    ensures WorkerOf(w, x).queue[0].id != id
  {
    var k := WorkerOf(w, x);
    WorkerAt(w, x);
    var i :| 0 <= i < |k.queue| && Owns(k, i) && k.queue[i].id == id;
    assert k.queue[0].id != k.queue[i].id;
  }

  lemma HeldAfter(w: World, x: WorkerId, act: Act, id: string)
    requires OwnInv(w) && ActOk(w, WorkerOf(w, x), act) && Holds(WorkerOf(w, x), id)
    requires !MoveOf(w, Work(x, act), id).Drop? && !MoveOf(w, Work(x, act), id).Mark?
    ensures Holds(ActNext(w, WorkerOf(w, x), act).1, id)
  {
    var k, k' := WorkerOf(w, x), ActNext(w, WorkerOf(w, x), act).1;
    WorkerAt(w, x);
    if k.phase.Logging? {
      LoggingHeadFree(w, x, id);
    }
    var i :| 0 <= i < |k.queue| && Owns(k, i) && k.queue[i].id == id;
    if act.Log? {
      assert k'.queue[i - 1].id == id && Owns(k', i - 1);
    } else {
      assert k'.queue[i].id == id && Owns(k', i);
    }
  }

  lemma ClaimedAfter(w: World, x: WorkerId, act: Act, id: string)
    requires Inv(w) && ActOk(w, WorkerOf(w, x), act) && act.Claim? && id in SetOf(act.picked)
    ensures Holds(ActNext(w, WorkerOf(w, x), act).1, id)
  {
    var k' := ActNext(w, WorkerOf(w, x), act).1;
    var i :| 0 <= i < |act.picked| && act.picked[i] == id;
    assert id in Candidates(w.db.rows, WorkerOf(w, x).channel, act.dueAt, act.locked);
    assert k'.queue[i].id == id && Owns(k', i);
  }

  /** A notification the acting worker owns afterwards is in its list. */
  lemma ActingHolds(w: World, x: WorkerId, act: Act, id: string)
    requires id in w.db.rows && OwnsAfter(w, x, act, id) && Inv(w)
    ensures Holds(WorkerOf(Next(w, Work(x, act)), x), id)
  {
    hide L.Apply, L.MoveOk, L.Sound, C.CreationInv, Holds, Writing, MarkedRow, Backoff, ClaimRows, LifeNext, DbNext,
        HistoryOk;
    HeldBefore(w, x, act, id);
    if MoveOf(w, Work(x, act), id).Claim? {
      ClaimedAfter(w, x, act, id);
    } else {
      HeldAfter(w, x, act, id);
    }
  }

  lemma OwesAfter(it: L.Item, m: L.Move, x: WorkerId, a: int)
    requires L.MoveOk(it, m)
    requires a in L.Apply(it, m).life.unlogged && L.Apply(it, m).life.unlogged[a] == x
    ensures (m.Mark? && a == m.snapshot.attempts + 1) ||
            (a in it.life.unlogged && it.life.unlogged[a] == x && (m.Log? ==> m.event.attempt != a))
  {
  }

  lemma WritingByHistory(w: World, x: WorkerId, id: string, a: int)
    requires OwnInv(w) && id in w.ledger && a in w.ledger[id].unlogged && w.ledger[id].unlogged[a] == x
    ensures Writing(WorkerOf(w, x), id, a)
    ensures WorkerOf(w, x).queue != [] && WorkerOf(w, x).queue[0].id == id
  {
    WorkerAt(w, x);
    assert HistoryOk(w, id);
    assert EventOk(w, x, WorkerOf(w, x));
  }

  /** An event the acting worker still owes afterwards is the one it is writing. */
  lemma ActingWrites(w: World, x: WorkerId, act: Act, id: string, a: int)
    requires Inv(w) && ActOk(w, WorkerOf(w, x), act) && id in w.db.rows
    requires id in Next(w, Work(x, act)).ledger
    requires a in Next(w, Work(x, act)).ledger[id].unlogged && Next(w, Work(x, act)).ledger[id].unlogged[a] == x
    ensures Writing(WorkerOf(Next(w, Work(x, act)), x), id, a)
  {
    hide L.Apply, L.MoveOk, L.Sound, C.CreationInv, MarkedRow, Backoff, ClaimRows, LifeNext, DbNext;
    Simulates(w, Work(x, act), id);
    OwesAfter(ItemOf(w, id), MoveOf(w, Work(x, act), id), x, a);
    if !MoveOf(w, Work(x, act), id).Mark? {
      WritingByHistory(w, x, id, a);
    }
  }

  lemma SendsInPast(it: L.Item, m: L.Move, now: Time)
    requires L.MoveOk(it, m) && (it.life.sends != [] ==> L.Last(it.life.sends) <= now)
    requires m.Send? ==> m.now <= now
    ensures L.Apply(it, m).life.sends != [] ==> L.Last(L.Apply(it, m).life.sends) <= now
  {
  }

  /** Nobody comes to own, or to owe an event of, a notification but by acting on it. */
  lemma NewOwnerActs(it: L.Item, m: L.Move, y: WorkerId)
    requires L.MoveOk(it, m) && !MovedBy(m, y)
    ensures L.OwnedBy(L.Apply(it, m).life.stage, y) ==> L.OwnedBy(it.life.stage, y)
    ensures forall a | a in L.Apply(it, m).life.unlogged && L.Apply(it, m).life.unlogged[a] == y ::
              a in it.life.unlogged && it.life.unlogged[a] == y
  {
  }

  lemma HistoryOwner(w: World, s: Step, id: string, y: WorkerId)
    requires Inv(w) && Enabled(w, s) && id in w.db.rows
    requires id in Next(w, s).ledger && L.OwnedBy(Next(w, s).ledger[id].stage, y)
    ensures Holds(WorkerOf(Next(w, s), y), id)
  {
    hide L.Apply, L.MoveOk, L.Sound, C.CreationInv, Holds, Writing;
    if s.Work? && s.worker == y {
      ActingHolds(w, y, s.act, id);
    } else {
      Simulates(w, s, id);
      if MovedBy(MoveOf(w, s, id), y) {
        MoveByActor(w, s, id, y);
      }
      NewOwnerActs(ItemOf(w, id), MoveOf(w, s, id), y);
      HeldByHistory(w, y, id);
    }
  }

  lemma HistoryWriter(w: World, s: Step, id: string, a: int)
    requires Inv(w) && Enabled(w, s) && id in w.db.rows
    requires id in Next(w, s).ledger && a in Next(w, s).ledger[id].unlogged
    ensures Writing(WorkerOf(Next(w, s), Next(w, s).ledger[id].unlogged[a]), id, a)
  {
    hide L.Apply, L.MoveOk, L.Sound, C.CreationInv, Holds, Writing;
    var y := Next(w, s).ledger[id].unlogged[a];
    if s.Work? && s.worker == y {
      ActingWrites(w, y, s.act, id, a);
    } else {
      Simulates(w, s, id);
      if MovedBy(MoveOf(w, s, id), y) {
        MoveByActor(w, s, id, y);
      }
      NewOwnerActs(ItemOf(w, id), MoveOf(w, s, id), y);
      WritingByHistory(w, y, id, a);
    }
  }

  lemma HistorySends(w: World, s: Step, id: string)
    requires Inv(w) && Enabled(w, s) && id in w.db.rows
    requires id in Next(w, s).ledger
    ensures Next(w, s).ledger[id].sends != [] ==> L.Last(Next(w, s).ledger[id].sends) <= Next(w, s).now
  {
    hide L.Apply, L.MoveOk, L.Sound, C.CreationInv;
    Simulates(w, s, id);
    assert HistoryOk(w, id);
    ClockOnly(w, s);
    SendsInPast(ItemOf(w, id), MoveOf(w, s, id), Next(w, s).now);
  }

  lemma StepKeepsHistory(w: World, s: Step, id: string)
    requires Inv(w) && Enabled(w, s) && id in w.db.rows
    requires id in Next(w, s).ledger
    ensures HistoryOk(Next(w, s), id)
  {
    var l' := Next(w, s).ledger[id];
    HistorySends(w, s, id);
    if l'.stage.Claimed? || l'.stage.Sending? || l'.stage.Answering? {
      HistoryOwner(w, s, id, l'.stage.owner);
    }
    forall a | a in l'.unlogged
      ensures Writing(WorkerOf(Next(w, s), l'.unlogged[a]), id, a)
    {
      HistoryWriter(w, s, id, a);
    }
  }

  // ------------------------------------------------------------- all together

  lemma MarkedIdentity(row: Notification, snapshot: Notification, r: Response, next: Time, now: Time)
    ensures SameIdentity(row, MarkedRow(row, snapshot, r, next, now))
  {
  }

  lemma ActEvolves(w: World, x: WorkerId, act: Act)
    requires ActOk(w, WorkerOf(w, x), act)
    ensures var db' := ActNext(w, WorkerOf(w, x), act).0;
            && db'.rows.Keys == w.db.rows.Keys && db'.requests == w.db.requests
            && C.Evolves(w.db.rows, db'.rows)
  {
    hide MarkedRow;
    if act.Mark? {
      var k := WorkerOf(w, x);
      var n := k.queue[0];
      if n.id in w.db.rows {
        MarkedIdentity(w.db.rows[n.id], n, k.phase.response, act.at + Backoff(n.attempts, act.jitter), w.now);
      }
    }
  }

  /** Workers, cancellations and the clock change delivery columns only. */
  lemma QuietEvolves(w: World, s: Step)
    requires Enabled(w, s) && !s.Import? && !s.Call?
    ensures Next(w, s).db.rows.Keys == w.db.rows.Keys && Next(w, s).db.requests == w.db.requests
    ensures C.Evolves(w.db.rows, Next(w, s).db.rows)
    ensures Next(w, s).clients == w.clients
  {
    hide ActNext, ActOk, LifeNext;
    if s.Work? {
      ActEvolves(w, s.worker, s.act);
    }
  }

  lemma CallEvolves(w: World, s: Step)
    requires Inv(w) && Enabled(w, s) && s.Call?
    ensures C.Evolves(w.db.rows, Next(w, s).db.rows)
    ensures C.CreationInv(Next(w, s).db, Next(w, s).clients)
    ensures forall k | k in w.db.requests ::
              k in Next(w, s).db.requests && Next(w, s).db.requests[k] == w.db.requests[k]
  {
    hide L.Sound, L.Apply, L.MoveOk, LifeNext, OwnInv, C.OpNext, C.OpOk, C.Evolves;
    C.OpKeepsInv(w.db, w.clients, ClientOf(w, s.client), s.op, w.now);
    C.OpKeepsMappings(w.db, ClientOf(w, s.client), s.op, w.now);
  }

  /** A step changes delivery columns only, or adds an accepted insert. */
  lemma StepEvolves(w: World, s: Step)
    requires Inv(w) && Enabled(w, s)
    ensures C.Evolves(w.db.rows, Next(w, s).db.rows)
    ensures C.CreationInv(Next(w, s).db, Next(w, s).clients)
    ensures forall k | k in w.db.requests ::
              k in Next(w, s).db.requests && Next(w, s).db.requests[k] == w.db.requests[k]
  {
    hide L.Sound, L.Apply, L.MoveOk, LifeNext, OwnInv, C.CreationInv, C.Evolves;
    match s
    case Import(ns) => C.InsertionKeepsInv(w.db, ns, w.clients);
    case Call(c, op) => CallEvolves(w, s);
    case _ =>
      QuietEvolves(w, s);
      C.EvolutionKeepsInv(w.db, Next(w, s).db, w.clients);
  }

  /** The notifications a step inserts. */
  function Inserted(w: World, s: Step): seq<Notification> {
    match s
    case Import(ns) => ns
    case Call(c, op) => C.InsertedBy(ClientOf(w, c), op)
    case _ => []
  }

  lemma InsertedIn(w: World, s: Step, id: string)
    requires Inv(w) && Enabled(w, s)
    ensures Insertable(w.db.rows, Inserted(w, s))
    ensures id in Next(w, s).db.rows && id !in w.db.rows ==>
              && Next(w, s).db.rows == InsertRows(w.db.rows, Inserted(w, s))
              && id in Ids(Inserted(w, s))
  {
    hide L.Sound, L.Apply, L.MoveOk, LifeNext, C.CreationInv, OwnInv;
    if s.Import? {
      InsertKeepsRows(w.db.rows, s.ns);
    } else if s.Call? {
      C.OpInserts(w.db, ClientOf(w, s.client), s.op, w.now);
      InsertKeepsRows(w.db.rows, Inserted(w, s));
    } else {
      QuietEvolves(w, s);
    }
  }

  lemma InsertedQueued(w: World, s: Step, i: nat)
    requires Inv(w) && Enabled(w, s) && i < |Inserted(w, s)|
    ensures var n := Inserted(w, s)[i]; Queued(n.status) && 0 <= n.attempts < n.maxAttempts
  {
    hide L.Sound, OwnInv;
    if s.Call? {
      assert C.ClientOk(w.db.rows, ClientOf(w, s.client));
    }
  }

  /** What a step inserts is queued, with attempts left. */
  lemma InsertedSound(w: World, s: Step, id: string)
    requires Inv(w) && Enabled(w, s) && id in Next(w, s).db.rows && id !in w.db.rows
    ensures var row := Next(w, s).db.rows[id];
            Queued(row.status) && 0 <= row.attempts < row.maxAttempts
    ensures Next(w, s).ledger[id] == L.NewLife(Next(w, s).db.rows[id])
  {
    hide L.Sound, L.Apply, L.MoveOk, C.CreationInv, OwnInv;
    var ns := Inserted(w, s);
    InsertedIn(w, s, id);
    var i :| 0 <= i < |ns| && ns[i].id == id;
    InsertStoresRow(w.db.rows, ns, i);
    InsertedQueued(w, s, i);
  }

  /** … and has no events yet. */
  lemma {:induction false} NoEvents(events: seq<DeliveryEvent>, id: string)
    requires forall e | e in events :: e.notificationId != id
    ensures Logged(events, id) == []
  {
    if events != [] {
      NoEvents(events[..|events| - 1], id);
    }
  }

  lemma NewEvent(w: World, s: Step)
    requires Inv(w) && Enabled(w, s)
    ensures Next(w, s).db.events == w.db.events ||
            exists e :: Next(w, s).db.events == w.db.events + [e] && e.notificationId in w.db.rows
  {
    hide L.Sound, L.Apply, L.MoveOk, LifeNext, C.CreationInv, OwnInv, LifeInv, MarkedRow, ClaimRows, CancelRows,
        InsertRows, Insertable, AcquireSlots, WorkerEvent, Backoff, SlotOk, Holds, DeliveryKey, UpsertMapping;
    if s.Work? && s.act.Log? {
      LogIsMove(w, s.worker, s.act);
      var e := Stamped(WorkerOf(w, s.worker).phase.event, s.act.at);
      assert Next(w, s).db.events == w.db.events || Next(w, s).db.events == w.db.events + [e];
    } else if Next(w, s).db.events != w.db.events {
      assert s.Call?;
      var e := Next(w, s).db.events[|w.db.events|];
      assert Next(w, s).db.events == w.db.events + [e];
    }
  }

  lemma EventsHaveRows(w: World, s: Step)
    requires Inv(w) && Enabled(w, s)
    ensures forall e | e in Next(w, s).db.events :: e.notificationId in Next(w, s).db.rows
  {
    hide L.Sound, LifeNext, DbNext, C.CreationInv;
    StepEvolves(w, s);
    NewEvent(w, s);
  }

  lemma StepKeepsSound(w: World, s: Step, id: string)
    requires Inv(w) && Enabled(w, s) && id in Next(w, s).db.rows
    ensures id in Next(w, s).ledger && L.Sound(ItemOf(Next(w, s), id))
  {
    hide L.Sound, L.Apply, L.MoveOk, MoveOf, C.CreationInv;
    if id in w.db.rows {
      Simulates(w, s, id);
      assert L.Sound(ItemOf(w, id));
      L.MoveKeepsSound(ItemOf(w, id), MoveOf(w, s, id));
    } else {
      InsertedSound(w, s, id);
      EventsOf(w, s, id);
      L.NewIsSound(Next(w, s).db.rows[id]);
    }
  }

  lemma EventsOf(w: World, s: Step, id: string)
    requires Inv(w) && Enabled(w, s) && id in Next(w, s).db.rows && id !in w.db.rows
    ensures Logged(Next(w, s).db.events, id) == []
  {
    forall e | e in w.db.events
      ensures e.notificationId != id
    {
      assert e.notificationId in w.db.rows;
    }
    NoEvents(w.db.events, id);
    InsertedIn(w, s, id);
    LogUnchanged(w, s, id);
  }

  lemma WorkersOk(w: World, s: Step, x: WorkerId)
    requires Inv(w) && Enabled(w, s) && x in Next(w, s).workers
    ensures WorkerOk(Next(w, s), x, Next(w, s).workers[x])
  {
    hide WorkerOk, L.Sound, C.CreationInv;
    if s.Work? && s.worker == x {
      ActingWorkerOk(w, x, s.act);
    } else {
      OtherWorkerOk(w, s, x);
    }
  }

  lemma NewHistoryOk(w: World, s: Step, id: string)
    requires Inv(w) && Enabled(w, s) && id in Next(w, s).ledger
    ensures HistoryOk(Next(w, s), id)
  {
    hide HistoryOk, C.CreationInv, L.Sound;
    if id in w.db.rows {
      StepKeepsHistory(w, s, id);
    } else {
      InsertedSound(w, s, id);
      FreshHistoryOk(Next(w, s), id);
    }
  }

  lemma FreshHistoryOk(w: World, id: string)
    requires id in w.ledger && id in w.db.rows && w.ledger[id] == L.NewLife(w.db.rows[id])
    ensures HistoryOk(w, id)
  {
  }

  /** The invariant is inductive. */
  lemma StepKeepsInv(w: World, s: Step)
    requires Inv(w) && Enabled(w, s)
    ensures Inv(Next(w, s))
  {
    hide WorkerOk, HistoryOk, L.Sound, C.CreationInv, DbNext, ActNext, LifeNext, Enabled;
    var w' := Next(w, s);
    StepEvolves(w, s);
    EventsHaveRows(w, s);
    forall x | x in w'.workers
      ensures WorkerOk(w', x, w'.workers[x])
    {
      WorkersOk(w, s, x);
    }
    forall id | id in w'.ledger
      ensures HistoryOk(w', id)
    {
      NewHistoryOk(w, s, id);
    }
    forall id | id in w'.db.rows
      ensures L.Sound(ItemOf(w', id))
    {
      StepKeepsSound(w, s, id);
    }
    RowIds(w, s);
  }

  lemma RowIds(w: World, s: Step)
    requires Inv(w) && Enabled(w, s)
    ensures forall id | id in Next(w, s).db.rows :: Next(w, s).db.rows[id].id == id
  {
    StepEvolves(w, s);
  }

  lemma InitialInv(w: World)
    requires Initial(w)
    ensures Inv(w)
  {
  }

  lemma {:induction false} RunKeepsInv(w: World, steps: seq<Step>)
    requires Inv(w) && ValidRun(w, steps)
    ensures Inv(Run(w, steps))
    decreases |steps|
  {
    hide Inv;
    if steps != [] {
      StepKeepsInv(w, steps[0]);
      RunKeepsInv(Next(w, steps[0]), steps[1..]);
    }
  }
}
