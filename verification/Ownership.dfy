/** Who holds what: the invariant behind the unguarded result writes, and the proof
    that every step of the system moves every notification along its `Lifecycle`. */
module Ownership {
  import opened Domain
  import opened Tables
  import opened Claiming
  import opened Protocol
  import L = Lifecycle
  import C = Creation

  /** The history of a claimed notification agrees with the place its worker has it. */
  predicate StageOk(w: World, x: WorkerId, k: Worker, i: int, l: L.Life)
    requires k.Busy?
  {
    if i == 0 && k.phase.InFlight? then l.stage == L.Sending(x)
    else if i == 0 && k.phase.Answered? then
      l.stage == L.Answering(x, k.phase.at) && l.responses != [] && L.Last(l.responses) == k.phase.response
      && k.phase.at <= w.now
    else l.stage.Claimed? && l.stage.owner == x && l.stage.at <= w.now
  }

  /** The worker's snapshot of a notification it holds is what the row says. */
  predicate SlotOk(w: World, x: WorkerId, k: Worker, i: int)
    requires k.Busy? && 0 <= i < |k.queue|
  {
    var n := k.queue[i];
    && n.id in w.db.rows && n.id in w.ledger
    && (Owns(k, i) ==>
          && w.db.rows[n.id].attempts == n.attempts
          && w.db.rows[n.id].maxAttempts == n.maxAttempts
          && StageOk(w, x, k, i, w.ledger[n.id]))
  }

  /** The event about to be written is the true result of an unlogged attempt. */
  predicate PendingOk(it: L.Item, x: WorkerId, e: DeliveryEvent) {
    && e.attempt in it.life.unlogged && it.life.unlogged[e.attempt] == x
    && 0 <= e.attempt - it.life.first - 1 < |it.life.responses|
    && e.status == L.Verdict(it, e.attempt - it.life.first - 1)
    && e.attempt > 0
  }

  predicate EventOk(w: World, x: WorkerId, k: Worker)
    requires k.Busy? && k.queue != []
  {
    k.phase.Logging? ==>
      && k.phase.event.notificationId == k.queue[0].id && k.phase.event.createdAt <= w.now
      && k.queue[0].id in w.db.rows && k.queue[0].id in w.ledger
      && PendingOk(ItemOf(w, k.queue[0].id), x, k.phase.event)
  }

  predicate WorkerOk(w: World, x: WorkerId, k: Worker) {
    k.Busy? ==>
      && k.started <= w.now
      && (k.phase.Limiting? || k.phase.Claiming? ==> k.queue == [])
      && (k.phase.InFlight? || k.phase.Answered? || k.phase.Logging? ==> k.queue != [])
      && (forall i, j | 0 <= i < j < |k.queue| :: k.queue[i].id != k.queue[j].id)
      && (forall i | 0 <= i < |k.queue| :: SlotOk(w, x, k, i))
      && (k.queue != [] ==> EventOk(w, x, k))
  }

  /** What history says a worker has, the worker has. */
  predicate HistoryOk(w: World, id: string)
    requires id in w.ledger
  {
    var l := w.ledger[id];
    && (l.sends != [] ==> L.Last(l.sends) <= w.now)
    && (l.stage.Claimed? || l.stage.Sending? || l.stage.Answering? ==> Holds(WorkerOf(w, l.stage.owner), id))
    && (forall a | a in l.unlogged :: Writing(WorkerOf(w, l.unlogged[a]), id, a))
  }

  predicate Writing(k: Worker, id: string, attempt: int) {
    k.Busy? && k.phase.Logging? && k.phase.event.notificationId == id && k.phase.event.attempt == attempt
  }

  ghost predicate OwnInv(w: World) {
    && w.ledger.Keys == w.db.rows.Keys
    && (forall e | e in w.db.events :: e.notificationId in w.db.rows)
    && (forall x | x in w.workers :: WorkerOk(w, x, w.workers[x]))
    && (forall id | id in w.ledger :: HistoryOk(w, id))
    && (forall id | id in w.db.rows :: w.db.rows[id].id == id)
  }

  ghost predicate LifeInv(w: World) {
    forall id | id in w.db.rows && id in w.ledger :: L.Sound(ItemOf(w, id))
  }

  ghost predicate Inv(w: World) {
    OwnInv(w) && LifeInv(w) && C.CreationInv(w.db, w.clients)
  }

  // ------------------------------------------------------------ simulation

  /** A step that adds no attempt event leaves every log alone. */
  lemma LogUnchanged(w: World, s: Step, id: string)
    requires Enabled(w, s) && (s.Work? ==> !s.act.Log?)
    ensures Logged(DbNext(w, s).events, id) == Logged(w.db.events, id)
  {
    if s.Call? && DbNext(w, s).events != w.db.events {
      var e := DbNext(w, s).events[|w.db.events|];
      assert DbNext(w, s).events == w.db.events + [e];
      LoggedSnoc(w.db.events, e, id);
    }
  }

  lemma WorkerAt(w: World, x: WorkerId)
    requires OwnInv(w)
    ensures WorkerOk(w, x, WorkerOf(w, x))
  {
  }

  lemma ClaimIsMove(w: World, x: WorkerId, act: Act, id: string)
    requires OwnInv(w) && LifeInv(w) && ActOk(w, WorkerOf(w, x), act) && act.Claim?
    requires id in w.db.rows && id in SetOf(act.picked)
    ensures L.MoveOk(ItemOf(w, id), L.Claim(x, act.dueAt, w.now))
  {
    assert id in Candidates(w.db.rows, WorkerOf(w, x).channel, act.dueAt, act.locked);
    assert L.Sound(ItemOf(w, id));
  }

  /** The head of the delivery loop is where its history says, with a true snapshot. */
  lemma HeadSlot(w: World, x: WorkerId, act: Act)
    requires OwnInv(w) && ActOk(w, WorkerOf(w, x), act) && (act.Send? || act.Answer? || act.Mark?)
    ensures var k := WorkerOf(w, x);
            && k.queue != [] && k.queue[0].id in w.db.rows && k.queue[0].id in w.ledger
            && HistoryOk(w, k.queue[0].id)
            && SlotOk(w, x, k, 0) && Owns(k, 0)
  {
    WorkerAt(w, x);
    assert SlotOk(w, x, WorkerOf(w, x), 0);
  }

  lemma SentSomething(it: L.Item)
    requires L.Accounted(it) && it.life.stage.Sending?
    ensures it.life.sends != []
  {
  }

  lemma HeadMove(w: World, x: WorkerId, act: Act)
    requires ActOk(w, WorkerOf(w, x), act) && (act.Send? || act.Answer? || act.Mark?)
    requires WorkerOf(w, x).queue != []
    ensures var k, m := WorkerOf(w, x), MoveOf(w, Work(x, act), WorkerOf(w, x).queue[0].id);
            && (act.Send? ==> m == L.Send(x, w.now))
            && (act.Answer? ==> m == L.Answer(x, act.response, w.now))
            && (act.Mark? ==> m == L.Mark(x, k.queue[0], act.at, act.jitter, act.applied, w.now))
  {
  }

  lemma SendOk(w: World, x: WorkerId, k: Worker)
    requires k.Busy? && k.queue != [] && SlotOk(w, x, k, 0) && k.phase.Ready?
    ensures L.MoveOk(ItemOf(w, k.queue[0].id), L.Send(x, w.now))
  {
  }

  lemma AnswerOk(w: World, x: WorkerId, k: Worker, r: Response)
    requires k.Busy? && k.queue != [] && SlotOk(w, x, k, 0) && k.phase.InFlight?
    requires HistoryOk(w, k.queue[0].id) && L.Accounted(ItemOf(w, k.queue[0].id))
    ensures L.MoveOk(ItemOf(w, k.queue[0].id), L.Answer(x, r, w.now))
  {
    SentSomething(ItemOf(w, k.queue[0].id));
  }

  lemma MarkOk(w: World, x: WorkerId, k: Worker, at: Time, jitter: Option<Byte>, applied: bool)
    requires k.Busy? && k.queue != [] && SlotOk(w, x, k, 0) && k.phase.Answered? && k.phase.at <= at
    ensures L.MoveOk(ItemOf(w, k.queue[0].id), L.Mark(x, k.queue[0], at, jitter, applied, w.now))
  {
  }

  /** Step `s` is a legal move of `id`. */
  predicate Moves(w: World, s: Step, id: string) {
    Enabled(w, s) && id in w.db.rows && id in w.ledger && L.MoveOk(ItemOf(w, id), MoveOf(w, s, id))
  }

  lemma HeadIsMove(w: World, x: WorkerId, act: Act)
    requires OwnInv(w) && LifeInv(w) && ActOk(w, WorkerOf(w, x), act)
    requires act.Send? || act.Answer? || act.Mark?
    ensures WorkerOf(w, x).queue != [] && Moves(w, Work(x, act), WorkerOf(w, x).queue[0].id)
  {
    hide OwnInv, L.Sound, L.Accounted, L.MoveOk, MoveOf, HistoryOk, SlotOk;
    var k := WorkerOf(w, x);
    HeadSlot(w, x, act);
    HeadMove(w, x, act);
    match act
    case Send => SendOk(w, x, k);
    case Answer(r) =>
      assert L.Sound(ItemOf(w, k.queue[0].id));
      SoundAccounted(ItemOf(w, k.queue[0].id));
      AnswerOk(w, x, k, r);
    case Mark(at, jitter, applied) => MarkOk(w, x, k, at, jitter, applied);
    case _ =>
  }

  lemma SoundAccounted(it: L.Item)
    requires L.Sound(it)
    ensures L.Accounted(it)
  {
  }

  lemma LogIsMove(w: World, x: WorkerId, act: Act)
    requires OwnInv(w) && ActOk(w, WorkerOf(w, x), act) && WorkerOf(w, x).Busy? && WorkerOf(w, x).phase.Logging?
    ensures var k := WorkerOf(w, x);
            && k.queue != [] && k.queue[0].id in w.db.rows && k.queue[0].id in w.ledger
            && k.phase.event.notificationId == k.queue[0].id && k.phase.event.attempt > 0
            && forall at, written :: L.MoveOk(ItemOf(w, k.queue[0].id), L.Log(x, Stamped(k.phase.event, at), written))
  {
    WorkerAt(w, x);
    assert EventOk(w, x, WorkerOf(w, x));
  }

  lemma HeldIsMove(w: World, x: WorkerId, id: string)
    requires OwnInv(w) && Holds(WorkerOf(w, x), id)
    ensures id in w.db.rows && id in w.ledger && L.OwnedBy(w.ledger[id].stage, x)
  {
    var k := WorkerOf(w, x);
    WorkerAt(w, x);
    var i :| 0 <= i < |k.queue| && Owns(k, i) && k.queue[i].id == id;
    assert SlotOk(w, x, k, i) && StageOk(w, x, k, i, w.ledger[id]);
  }

  lemma DropIsMove(w: World, x: WorkerId, id: string)
    requires OwnInv(w) && WorkerOf(w, x).Busy? && id in w.db.rows
    ensures L.MoveOk(ItemOf(w, id), MoveOf(w, Work(x, Drop), id))
  {
    if WorkerOf(w, x).phase.Logging? {
      LogIsMove(w, x, Drop);
    }
    if Holds(WorkerOf(w, x), id) {
      HeldIsMove(w, x, id);
    }
  }

  lemma HasHistory(w: World, id: string)
    requires OwnInv(w) && id in w.db.rows
    ensures id in w.ledger && L.MoveOk(ItemOf(w, id), L.Stay)
  {
  }

  /** The act of a worker is a legal move of every notification. */
  lemma ActIsMove(w: World, x: WorkerId, act: Act, id: string)
    requires OwnInv(w) && LifeInv(w) && ActOk(w, WorkerOf(w, x), act) && id in w.db.rows
    ensures id in w.ledger && L.MoveOk(ItemOf(w, id), MoveOf(w, Work(x, act), id))
  {
    hide OwnInv, LifeInv, Holds, L.MoveOk;
    HasHistory(w, id);
    if act.Claim? {
      if id in SetOf(act.picked) {
        ClaimIsMove(w, x, act, id);
      }
    } else if act.Drop? {
      DropIsMove(w, x, id);
    } else if act.Log? {
      LogIsMove(w, x, act);
    } else if act.Send? || act.Answer? || act.Mark? {
      HeadIsMove(w, x, act);
    }
  }

  /** Step `s` is a move of `id` and `rows` has the row that the move leaves. */
  predicate RowMoves(w: World, s: Step, id: string, rows: map<string, Notification>) {
    && Moves(w, s, id) && id in rows
    && rows[id] == L.Apply(ItemOf(w, id), MoveOf(w, s, id)).row
  }

  lemma MarkMovesRow(w: World, x: WorkerId, act: Act)
    requires OwnInv(w) && LifeInv(w) && ActOk(w, WorkerOf(w, x), act) && act.Mark?
    ensures RowMoves(w, Work(x, act), WorkerOf(w, x).queue[0].id, ActNext(w, WorkerOf(w, x), act).0.rows)
  {
    hide OwnInv, LifeInv, MoveOf, MarkedRow, L.MoveOk;
    HeadIsMove(w, x, act);
    HeadMove(w, x, act);
    HeadSlot(w, x, act);
  }

  /** … and leaves its row as the move says. */
  lemma ActMovesRow(w: World, x: WorkerId, act: Act, id: string)
    requires OwnInv(w) && LifeInv(w) && ActOk(w, WorkerOf(w, x), act) && id in w.db.rows
    ensures RowMoves(w, Work(x, act), id, ActNext(w, WorkerOf(w, x), act).0.rows)
  {
    hide OwnInv, LifeInv, MarkedRow, L.MoveOk, Holds;
    ActIsMove(w, x, act, id);
    if act.Mark? && WorkerOf(w, x).queue[0].id == id {
      MarkMovesRow(w, x, act);
    }
  }

  lemma ActMovesLog(w: World, x: WorkerId, act: Act, id: string)
    requires OwnInv(w) && ActOk(w, WorkerOf(w, x), act) && id in w.db.rows
    requires L.MoveOk(ItemOf(w, id), MoveOf(w, Work(x, act), id))
    ensures Logged(ActNext(w, WorkerOf(w, x), act).0.events, id) ==
            L.Apply(ItemOf(w, id), MoveOf(w, Work(x, act), id)).logged
  {
    hide ClaimRows, AcquireSlots, WorkerEvent, OwnInv, L.MoveOk, Holds, MarkedRow;
    if act.Log? {
      LogIsMove(w, x, act);
      LoggedSnoc(w.db.events, Stamped(WorkerOf(w, x).phase.event, act.at), id);
    } else {
      LogUnchanged(w, Work(x, act), id);
    }
  }

  /** Steps that are no worker's act touch a notification only by cancelling it. */
  lemma OthersMove(w: World, s: Step, id: string)
    requires Enabled(w, s) && !s.Work? && id in w.db.rows && id in w.ledger
    ensures L.MoveOk(ItemOf(w, id), MoveOf(w, s, id))
    ensures id in DbNext(w, s).rows
    ensures DbNext(w, s).rows[id] == L.Apply(ItemOf(w, id), MoveOf(w, s, id)).row
    ensures L.Apply(ItemOf(w, id), MoveOf(w, s, id)).logged == Logged(w.db.events, id)
  {
    match s
    case Import(ns) => InsertKeepsRows(w.db.rows, ns);
    case Call(c, op) =>
      C.OpInserts(w.db, ClientOf(w, c), op, w.now);
      InsertKeepsRows(w.db.rows, C.InsertedBy(ClientOf(w, c), op));
    case _ =>
  }

  /** Every step of the system is a move of every notification. */
  lemma Simulates(w: World, s: Step, id: string)
    requires OwnInv(w) && LifeInv(w) && Enabled(w, s) && id in w.db.rows
    ensures id in w.ledger && L.MoveOk(ItemOf(w, id), MoveOf(w, s, id))
    ensures id in Next(w, s).db.rows && id in Next(w, s).ledger
    ensures ItemOf(Next(w, s), id) == L.Apply(ItemOf(w, id), MoveOf(w, s, id))
  {
    hide LifeInv, L.MoveOk, L.Apply, MoveOf, ActNext, ActOk;
    if s.Work? {
      ActMovesRow(w, s.worker, s.act, id);
      ActMovesLog(w, s.worker, s.act, id);
    } else {
      LogUnchanged(w, s, id);
      OthersMove(w, s, id);
    }
  }
}
