/** From limiter slots to provider calls: a bound on how many sends a channel starts
    in any interval. Every send spends its own slot, so sends are counted by slots. */
module SendRate {
  import opened Domain
  import opened Tables
  import opened Protocol
  import opened Counting
  import C = Creation

  /** Slots of the window the worker was granted and has not spent. */
  predicate Unspent(k: Worker, channel: Channel, window: int, slot: int) {
    && k.Busy? && k.channel == channel && k.grant.window == window
    && k.grant.base + k.grant.taken <= slot < k.grant.base + k.grant.size
  }

  /** The sends the worker's list can still cause. */
  function Remaining(k: Worker): nat {
    match k
    case Idle => 0
    case Busy(_, _, _, queue, phase) =>
      if phase.Limiting? || phase.Claiming? || phase.Ready? || queue == [] then |queue| else |queue| - 1
  }

  predicate WorkerRateOk(w: World, k: Worker) {
    k.Busy? ==>
      && k.started <= w.now
      && (k.phase.Limiting? || k.phase.Claiming? ==> k.queue == [] && k.grant.taken == 0)
      && (k.phase.InFlight? || k.phase.Answered? || k.phase.Logging? ==> k.queue != [])
      && k.grant.taken + Remaining(k) <= k.grant.size
      && (k.grant.size > 0 ==>
            && k.grant.base + k.grant.size <= Used(w.db.windows, DeliveryKey(k.channel), k.grant.window)
            && 0 <= k.grant.base
            && k.grant.window * SECOND <= w.now
            && k.started < (k.grant.window + 1) * SECOND)
  }

  predicate SentOk(w: World, e: Sent) {
    && 0 <= e.slot < Used(w.db.windows, DeliveryKey(e.channel), e.window)
    && e.window * SECOND <= e.at < (e.window + 6) * SECOND
  }

  predicate WindowOk(w: World, k: (string, int))
    requires k in w.db.windows
  {
    0 <= w.db.windows[k].usedCount <= w.config.rateLimit && k.1 * SECOND <= w.now
  }

  /** A slot nobody else can spend, and nobody has. */
  predicate SlotFree(w: World, x: WorkerId, channel: Channel, window: int, slot: int) {
    && (forall y | y in w.workers && y != x :: !Unspent(w.workers[y], channel, window, slot))
    && (forall i | 0 <= i < |w.sent| :: !SameSlot(w.sent[i], channel, window, slot))
  }

  predicate SameSlot(e: Sent, channel: Channel, window: int, slot: int) {
    e.channel == channel && e.window == window && e.slot == slot
  }

  ghost predicate RateInv(w: World) {
    && w.config.rateLimit > 0 && w.config.claimLimit > 0
    && (forall x | x in w.workers :: WorkerRateOk(w, w.workers[x]))
    && (forall k | k in w.db.windows :: WindowOk(w, k))
    && (forall i | 0 <= i < |w.sent| :: SentOk(w, w.sent[i]))
    && SlotsApart(w)
  }

  ghost predicate SlotsApart(w: World) {
    && (forall i, j | 0 <= i < j < |w.sent| ::
          !SameSlot(w.sent[i], w.sent[j].channel, w.sent[j].window, w.sent[j].slot))
    && (forall x, c, v, slot | x in w.workers && Unspent(w.workers[x], c, v, slot) :: SlotFree(w, x, c, v, slot))
  }

  // ------------------------------------------------------------ preservation

  /** What a worker's act, other than a limiter call, does to its grant. */
  lemma GrantAfter(w: World, x: WorkerId, act: Act)
    requires ActOk(w, WorkerOf(w, x), act) && !act.Acquire?
    ensures var k, k' := WorkerOf(w, x), ActNext(w, WorkerOf(w, x), act).1;
            && ActNext(w, k, act).0.windows == w.db.windows
            && (k'.Busy? && k.Busy? ==>
                  && k'.channel == k.channel && k'.started == k.started
                  && k'.grant == if act.Send? then k.grant.(taken := k.grant.taken + 1) else k.grant)
            && (k'.Busy? && k.Idle? ==> k'.grant == Grant(0, 0, 0, 0))
  {
  }

  /** No act takes more sends than slots. */
  lemma ActKeepsRateOk(w: World, x: WorkerId, act: Act, w': World)
    requires ActOk(w, WorkerOf(w, x), act) && !act.Acquire? && WorkerRateOk(w, WorkerOf(w, x))
    requires w'.now == w.now && w'.db.windows == w.db.windows
    ensures WorkerRateOk(w', ActNext(w, WorkerOf(w, x), act).1)
  {
    if act.Claim? {
      DistinctSize(act.picked);
    }
  }

  lemma AcquiredRateOk(w: World, x: WorkerId, act: Act, w': World)
    requires ActOk(w, WorkerOf(w, x), act) && act.Acquire? && WorkerRateOk(w, WorkerOf(w, x))
    requires forall k | k in w.db.windows :: WindowOk(w, k)
    requires w.config.rateLimit > 0 && w.config.claimLimit > 0
    requires w'.now == w.now && w'.config == w.config && w'.db.windows == ActNext(w, WorkerOf(w, x), act).0.windows
    ensures WorkerRateOk(w', ActNext(w, WorkerOf(w, x), act).1)
    ensures forall k | k in w'.db.windows :: WindowOk(w', k)
    ensures forall c, v :: Used(w.db.windows, DeliveryKey(c), v) <= Used(w'.db.windows, DeliveryKey(c), v)
  {
    var k := WorkerOf(w, x);
    var v := WindowOf(act.readAt);
    assert v * SECOND <= act.readAt < (v + 1) * SECOND;
    assert (DeliveryKey(k.channel), v) in w.db.windows ==> WindowOk(w, (DeliveryKey(k.channel), v));
  }

  /** More used slots and a later clock keep what an uninvolved worker relies on. */
  lemma RateOkCarries(w: World, w': World, k: Worker)
    requires WorkerRateOk(w, k) && w.now <= w'.now
    requires forall c, v :: Used(w.db.windows, DeliveryKey(c), v) <= Used(w'.db.windows, DeliveryKey(c), v)
    ensures WorkerRateOk(w', k)
  {
  }

  lemma WindowsAfter(w: World, s: Step)
    requires RateInv(w) && Enabled(w, s)
    ensures forall k | k in Next(w, s).db.windows :: WindowOk(Next(w, s), k)
    ensures forall c, v :: Used(w.db.windows, DeliveryKey(c), v) <= Used(Next(w, s).db.windows, DeliveryKey(c), v)
    ensures w.now <= Next(w, s).now
  {
    hide ActNext, ActOk, LifeNext, WindowOk, C.OpNext, C.OpOk;
    var w' := Next(w, s);
    if s.Work? && s.act.Acquire? {
      assert WorkerRateOk(w, WorkerOf(w, s.worker));
      AcquiredRateOk(w, s.worker, s.act, w');
    } else {
      assert w'.db.windows == w.db.windows by {
        if s.Work? {
          GrantAfter(w, s.worker, s.act);
        } else if s.Call? {
          C.OpInserts(w.db, ClientOf(w, s.client), s.op, w.now);
        }
      }
      forall k | k in w'.db.windows
        ensures WindowOk(w', k)
      {
        WindowCarries(w, w', k);
      }
    }
  }

  lemma WindowCarries(w: World, w': World, k: (string, int))
    requires k in w.db.windows && WindowOk(w, k) && w'.db.windows == w.db.windows
    requires w'.config == w.config && w.now <= w'.now
    ensures WindowOk(w', k)
  {
  }

  lemma WorkersAfter(w: World, s: Step, x: WorkerId)
    requires RateInv(w) && Enabled(w, s)
    ensures WorkerRateOk(Next(w, s), WorkerOf(Next(w, s), x))
  {
    hide ActNext, ActOk, LifeNext, WorkerRateOk, WindowOk;
    var w' := Next(w, s);
    WindowsAfter(w, s);
    assert WorkerRateOk(w, WorkerOf(w, x)) by {
      RateAt(w, x);
    }
    if s.Work? && s.worker == x {
      if s.act.Acquire? {
        AcquiredRateOk(w, x, s.act, w');
      } else {
        GrantAfter(w, x, s.act);
        ActKeepsRateOk(w, x, s.act, w');
      }
    } else {
      RateOkCarries(w, w', WorkerOf(w, x));
    }
  }

  lemma RateAt(w: World, x: WorkerId)
    requires RateInv(w)
    ensures WorkerRateOk(w, WorkerOf(w, x))
  {
  }

  // ------------------------------------------------------------------ slots

  /** Which slots are unspent after a step: none but those before it and, for a
      limiter call, slots that were not yet granted. */
  lemma UnspentAfter(w: World, s: Step, x: WorkerId, c: Channel, v: int, slot: int)
    requires RateInv(w) && Enabled(w, s)
    ensures Unspent(WorkerOf(Next(w, s), x), c, v, slot) ==>
              || Unspent(WorkerOf(w, x), c, v, slot)
              || (s.Work? && s.worker == x && s.act.Acquire? && Used(w.db.windows, DeliveryKey(c), v) <= slot)
    ensures Unspent(WorkerOf(Next(w, s), x), c, v, slot) && s.Work? && s.worker == x && s.act.Send? ==>
              slot != WorkerOf(w, x).grant.base + WorkerOf(w, x).grant.taken
  {
    hide LifeNext, DbNext, WorkerRateOk, WindowOk;
    if s.Work? && s.worker == x && !s.act.Acquire? {
      GrantAfter(w, x, s.act);
    }
  }

  lemma UnspentIsUsed(w: World, x: WorkerId, c: Channel, v: int, slot: int)
    requires RateInv(w) && Unspent(WorkerOf(w, x), c, v, slot)
    ensures slot < Used(w.db.windows, DeliveryKey(c), v)
  {
    RateAt(w, x);
  }

  /** The slot a send spends is the worker's own. */
  lemma SendSpends(w: World, x: WorkerId)
    requires RateInv(w) && ActOk(w, WorkerOf(w, x), Send)
    ensures var k := WorkerOf(w, x);
            && Unspent(k, k.channel, k.grant.window, k.grant.base + k.grant.taken)
            && SentOk(w, Sent(k.queue[0].id, k.channel, w.now, k.grant.window, k.grant.base + k.grant.taken))
  {
    RateAt(w, x);
  }

  lemma SentAfter(w: World, s: Step, i: int)
    requires RateInv(w) && Enabled(w, s) && 0 <= i < |Next(w, s).sent|
    ensures SentOk(Next(w, s), Next(w, s).sent[i])
  {
    hide ActNext, LifeNext, DbNext, WorkerRateOk, WindowOk;
    WindowsAfter(w, s);
    if i < |w.sent| {
      assert SentOk(w, w.sent[i]);
    } else {
      SendSpends(w, s.worker);
    }
  }

  lemma SentApart(w: World, s: Step, i: int, j: int)
    requires RateInv(w) && Enabled(w, s) && 0 <= i < j < |Next(w, s).sent|
    ensures var e := Next(w, s).sent[j]; !SameSlot(Next(w, s).sent[i], e.channel, e.window, e.slot)
  {
    hide ActNext, LifeNext, DbNext, WorkerRateOk, WindowOk;
    if j == |w.sent| {
      SendSpends(w, s.worker);
      var k := WorkerOf(w, s.worker);
      assert SlotFree(w, s.worker, k.channel, k.grant.window, k.grant.base + k.grant.taken);
    }
  }

  lemma FreeAt(w: World, x: WorkerId, c: Channel, v: int, slot: int, y: WorkerId)
    requires RateInv(w) && Unspent(WorkerOf(w, x), c, v, slot) && y != x
    ensures !Unspent(WorkerOf(w, y), c, v, slot)
  {
    assert SlotFree(w, x, c, v, slot);
  }

  lemma FreeAtSent(w: World, x: WorkerId, c: Channel, v: int, slot: int, i: int)
    requires RateInv(w) && Unspent(WorkerOf(w, x), c, v, slot) && 0 <= i < |w.sent|
    ensures !SameSlot(w.sent[i], c, v, slot)
  {
    assert SlotFree(w, x, c, v, slot);
  }

  lemma FreeOfOthers(w: World, s: Step, x: WorkerId, c: Channel, v: int, slot: int, y: WorkerId)
    requires RateInv(w) && Enabled(w, s) && Unspent(WorkerOf(Next(w, s), x), c, v, slot) && y != x
    ensures !Unspent(WorkerOf(Next(w, s), y), c, v, slot)
  {
    hide ActNext, ActOk, Next, WorkerRateOk, WindowOk, Unspent, RateInv;
    UnspentAfter(w, s, x, c, v, slot);
    UnspentAfter(w, s, y, c, v, slot);
    if Unspent(WorkerOf(w, x), c, v, slot) {
      UnspentIsUsed(w, x, c, v, slot);
      FreeAt(w, x, c, v, slot, y);
    } else if Unspent(WorkerOf(w, y), c, v, slot) {
      UnspentIsUsed(w, y, c, v, slot);
    }
  }

  lemma FreeOfOldSent(w: World, s: Step, x: WorkerId, c: Channel, v: int, slot: int, i: int)
    requires RateInv(w) && Enabled(w, s) && Unspent(WorkerOf(Next(w, s), x), c, v, slot)
    requires 0 <= i < |w.sent|
    ensures !SameSlot(w.sent[i], c, v, slot)
  {
    hide ActNext, LifeNext, DbNext, WorkerRateOk, WindowOk, Unspent;
    UnspentAfter(w, s, x, c, v, slot);
    if Unspent(WorkerOf(w, x), c, v, slot) {
      FreeAtSent(w, x, c, v, slot, i);
    } else {
      assert SentOk(w, w.sent[i]);
    }
  }

  lemma FreeOfNewSent(w: World, s: Step, x: WorkerId, c: Channel, v: int, slot: int)
    requires RateInv(w) && Enabled(w, s) && s.Work? && s.act.Send?
    requires Unspent(WorkerOf(Next(w, s), x), c, v, slot)
    ensures !SameSlot(Next(w, s).sent[|w.sent|], c, v, slot)
  {
    hide ActNext, LifeNext, DbNext, WorkerRateOk, WindowOk, Unspent;
    SendSpends(w, s.worker);
    UnspentAfter(w, s, x, c, v, slot);
    var k := WorkerOf(w, s.worker);
    if s.worker != x {
      FreeAt(w, s.worker, k.channel, k.grant.window, k.grant.base + k.grant.taken, x);
    }
  }

  lemma FreeOfSent(w: World, s: Step, x: WorkerId, c: Channel, v: int, slot: int, i: int)
    requires RateInv(w) && Enabled(w, s) && Unspent(WorkerOf(Next(w, s), x), c, v, slot)
    requires 0 <= i < |Next(w, s).sent|
    ensures !SameSlot(Next(w, s).sent[i], c, v, slot)
  {
    hide ActNext, LifeNext, DbNext, RateInv, Unspent;
    if i < |w.sent| {
      FreeOfOldSent(w, s, x, c, v, slot, i);
    } else {
      FreeOfNewSent(w, s, x, c, v, slot);
    }
  }

  lemma StepKeepsApart(w: World, s: Step)
    requires RateInv(w) && Enabled(w, s)
    ensures SlotsApart(Next(w, s))
  {
    hide RateInv, Next, Enabled, Unspent, SameSlot;
    var w' := Next(w, s);
    forall i, j | 0 <= i < j < |w'.sent|
      ensures !SameSlot(w'.sent[i], w'.sent[j].channel, w'.sent[j].window, w'.sent[j].slot)
    {
      SentApart(w, s, i, j);
    }
    forall x, c, v, slot | x in w'.workers && Unspent(w'.workers[x], c, v, slot)
      ensures SlotFree(w', x, c, v, slot)
    {
      forall y | y in w'.workers && y != x
        ensures !Unspent(w'.workers[y], c, v, slot)
      {
        FreeOfOthers(w, s, x, c, v, slot, y);
      }
      forall i | 0 <= i < |w'.sent|
        ensures !SameSlot(w'.sent[i], c, v, slot)
      {
        FreeOfSent(w, s, x, c, v, slot, i);
      }
    }
  }

  lemma StepKeepsRateInv(w: World, s: Step)
    requires RateInv(w) && Enabled(w, s)
    ensures RateInv(Next(w, s))
  {
    hide Enabled, SlotsApart, WorkerRateOk, WindowOk, SentOk, DbNext, ActNext, LifeNext, SentNext;
    var w' := Next(w, s);
    WindowsAfter(w, s);
    StepKeepsApart(w, s);
    forall x | x in w'.workers
      ensures WorkerRateOk(w', w'.workers[x])
    {
      WorkersAfter(w, s, x);
    }
    forall i | 0 <= i < |w'.sent|
      ensures SentOk(w', w'.sent[i])
    {
      SentAfter(w, s, i);
    }
  }

  lemma {:induction false} RunKeepsRateInv(w: World, steps: seq<Step>)
    requires RateInv(w) && ValidRun(w, steps)
    ensures RateInv(Run(w, steps))
    decreases |steps|
  {
    hide RateInv;
    if steps != [] {
      StepKeepsRateInv(w, steps[0]);
      RunKeepsRateInv(Next(w, steps[0]), steps[1..]);
    }
  }

  lemma {:induction false} ConfigFixed(w: World, steps: seq<Step>)
    requires ValidRun(w, steps)
    ensures Run(w, steps).config == w.config
    decreases |steps|
  {
    if steps != [] {
      ConfigFixed(Next(w, steps[0]), steps[1..]);
    }
  }

  // --------------------------------------------------------------- counting

  /** Provider calls of `channel` that started in `[from, to)`. */
  function StartedIn(channel: Channel, from: Time, to: Time): Sent -> bool {
    (e: Sent) => e.channel == channel && from <= e.at < to
  }

  /** Provider calls of `channel` paid for in limiter window `window`. */
  function PaidIn(channel: Channel, window: int): Sent -> bool {
    (e: Sent) => e.channel == channel && e.window == window
  }

  lemma WindowInRange(at: Time, window: int, from: Time, seconds: nat)
    requires window * SECOND <= at < (window + 6) * SECOND && from <= at < from + seconds * SECOND
    ensures var first := WindowOf(from) - 5;
            first <= window < first + seconds + 6
  {
    var q := from / SECOND;
    assert q * SECOND <= from < (q + 1) * SECOND;
    assert (q + 1 + seconds) * SECOND == (q + 1) * SECOND + seconds * SECOND;
  }

  lemma SlotsOfSent(w: World, channel: Channel, i: int, j: int)
    requires RateInv(w) && 0 <= i < j < |w.sent| && w.sent[i].channel == w.sent[j].channel
    ensures SlotOf(w.sent[i]) != SlotOf(w.sent[j])
  {
    assert !SameSlot(w.sent[i], w.sent[j].channel, w.sent[j].window, w.sent[j].slot);
  }

  lemma SentInSlots(w: World, i: int)
    requires RateInv(w) && 0 <= i < |w.sent|
    ensures var e := w.sent[i];
            && 0 <= e.slot < Used(w.db.windows, DeliveryKey(e.channel), e.window) <= w.config.rateLimit
            && e.window * SECOND <= e.at < (e.window + 6) * SECOND
  {
    var e := w.sent[i];
    assert SentOk(w, e);
    assert WindowOk(w, (DeliveryKey(e.channel), e.window));
  }

  /** Across all workers, a channel starts at most (T + 6) * limit sends in any
      interval of T whole seconds, wherever it begins. */
  lemma SendRateBound(w0: World, steps: seq<Step>, channel: Channel, from: Time, seconds: nat)
    requires Initial(w0) && ValidRun(w0, steps)
    ensures Count(Run(w0, steps).sent, StartedIn(channel, from, from + seconds * SECOND))
            <= (seconds + 6) * w0.config.rateLimit
  {
    hide RateInv;
    var w := Run(w0, steps);
    var limit: nat := w0.config.rateLimit;
    InitialRateInv(w0);
    RunKeepsRateInv(w0, steps);
    ConfigFixed(w0, steps);
    var p := StartedIn(channel, from, from + seconds * SECOND);
    var slots := Slots(WindowOf(from) - 5, seconds + 6, limit);
    forall i | 0 <= i < |w.sent| && p(w.sent[i])
      ensures SlotOf(w.sent[i]) in slots
    {
      SentInSlots(w, i);
      WindowInRange(w.sent[i].at, w.sent[i].window, from, seconds);
    }
    forall i, j | 0 <= i < j < |w.sent| && p(w.sent[i]) && p(w.sent[j])
      ensures SlotOf(w.sent[i]) != SlotOf(w.sent[j])
    {
      SlotsOfSent(w, channel, i, j);
    }
    CountBySlots(w.sent, p, slots);
    SlotsSize(WindowOf(from) - 5, seconds + 6, limit);
  }

  lemma InitialRateInv(w: World)
    requires Initial(w)
    ensures RateInv(w)
  {
  }

  /** The sends paid for in one limiter window are no more than its used slots. */
  lemma SendsWithinGrants(w0: World, steps: seq<Step>, channel: Channel, window: int)
    requires Initial(w0) && ValidRun(w0, steps)
    ensures var w := Run(w0, steps);
            Count(w.sent, PaidIn(channel, window))
            <= Used(w.db.windows, DeliveryKey(channel), window) <= w0.config.rateLimit
  {
    hide Initial;
    var w := Run(w0, steps);
    InitialRateInv(w0);
    RunKeepsRateInv(w0, steps);
    ConfigFixed(w0, steps);
    assert (DeliveryKey(channel), window) in w.db.windows ==> WindowOk(w, (DeliveryKey(channel), window));
    var used: nat := Used(w.db.windows, DeliveryKey(channel), window);
    var p := PaidIn(channel, window);
    forall i | 0 <= i < |w.sent| && p(w.sent[i])
      ensures SlotOf(w.sent[i]) in WindowSlots(window, used)
    {
      SentInSlots(w, i);
    }
    forall i, j | 0 <= i < j < |w.sent| && p(w.sent[i]) && p(w.sent[j])
      ensures SlotOf(w.sent[i]) != SlotOf(w.sent[j])
    {
      SlotsOfSent(w, channel, i, j);
    }
    CountBySlots(w.sent, p, WindowSlots(window, used));
    WindowSlotsSize(window, used);
  }
}
