/** The life of one notification under claims, sends, answers, writes that may be
    lost, cancellations and worker failures, with the history that its guarantees
    speak of. `Ownership` shows that the whole system moves every notification
    this way. */
module Lifecycle {
  import opened Domain
  import opened Delivery
  import opened Tables

  /** Where the workers have a notification. */
  datatype Stage =
    | Free                                 // no worker has it
    | Claimed(owner: WorkerId, at: Time)   // in a worker's list, found due at `at`
    | Sending(owner: WorkerId)             // the provider call is running
    | Answering(owner: WorkerId, at: Time) // answered at `at`, result not written
    | Orphaned                             // dropped, or its result write was lost

  /** History of one notification; no enabling condition of the system reads it. */
  datatype Life = Life(
    first: int,                    // attempts when inserted
    requested: Option<Time>,       // scheduled_at when inserted
    stage: Stage,
    sends: seq<Time>,              // when each provider call started
    responses: seq<Response>,      // the answers that arrived, in order
    unlogged: map<int, WorkerId>,  // attempts whose event a worker has yet to write
    lostEvents: set<int>,          // attempts whose event was never written
    lostMark: bool)                // a result did not reach the row

  /** A notification: its row, its history, and its logged attempt events. */
  datatype Item = Item(row: Notification, life: Life, logged: seq<DeliveryEvent>)

  datatype Move =
    | Stay
    | Claim(owner: WorkerId, at: Time, now: Time)
    | Send(owner: WorkerId, now: Time)
    | Answer(owner: WorkerId, response: Response, now: Time)
    | Mark(owner: WorkerId, snapshot: Notification, at: Time, jitter: Option<Byte>, applied: bool, now: Time)
    | Log(owner: WorkerId, event: DeliveryEvent, written: bool)
    | Cancel(now: Time)
    | Drop(owner: WorkerId)

  function NewLife(row: Notification): Life {
    Life(row.attempts, row.scheduledAt, Free, [], [], map[], {}, false)
  }

  function Last<T>(s: seq<T>): T
    requires s != []
  {
    s[|s| - 1]
  }

  predicate OwnedBy(stage: Stage, w: WorkerId) {
    (stage.Claimed? || stage.Sending? || stage.Answering?) && stage.owner == w
  }

  /** The result of the `k`-th answer (from 0) when it was decided on the right count. */
  function Verdict(it: Item, k: int): Status
    requires 0 <= k < |it.life.responses|
  {
    Decide(it.life.first + k, it.row.maxAttempts, it.life.responses[k])
  }

  /** How many answers have had their event handed over for writing. */
  function Decided(l: Life): int {
    if l.stage.Answering? then |l.responses| - 1 else |l.responses|
  }

  predicate MoveOk(it: Item, m: Move) {
    var l := it.life;
    match m
    case Stay => true
    case Claim(_, at, _) => l.stage.Free? && Queued(it.row.status) && Due(it.row, at)
    case Send(w, now) => l.stage.Claimed? && l.stage.owner == w && l.stage.at <= now
    case Answer(w, _, now) => l.stage == Sending(w) && l.sends != [] && Last(l.sends) <= now
    case Mark(w, snapshot, at, _, _, _) =>
      && l.stage.Answering? && l.stage.owner == w && l.stage.at <= at && l.responses != []
      && snapshot.attempts == it.row.attempts && snapshot.maxAttempts == it.row.maxAttempts
    case Log(w, event, _) =>
      && event.attempt in l.unlogged && l.unlogged[event.attempt] == w
      && 0 <= event.attempt - l.first - 1 < |l.responses|
      && event.status == Verdict(it, event.attempt - l.first - 1)
    case Cancel(_) => true
    case Drop(w) => OwnedBy(l.stage, w)
  }

  function Apply(it: Item, m: Move): Item
    requires MoveOk(it, m)
  {
    var l := it.life;
    match m
    case Stay => it
    case Claim(w, at, now) => it.(row := ClaimRow(it.row, now), life := l.(stage := Claimed(w, at)))
    case Send(w, now) => it.(life := l.(stage := Sending(w), sends := l.sends + [now]))
    case Answer(w, r, now) => it.(life := l.(stage := Answering(w, now), responses := l.responses + [r]))
    case Mark(w, snapshot, at, jitter, applied, now) =>
      var next := at + Backoff(snapshot.attempts, jitter);
      var l' := l.(unlogged := l.unlogged[snapshot.attempts + 1 := w]);
      if applied then
        it.(row := MarkedRow(it.row, snapshot, Last(l.responses), next, now), life := l'.(stage := Free))
      else
        it.(life := l'.(stage := Orphaned, lostMark := true))
    case Log(w, event, written) =>
      var l' := l.(unlogged := l.unlogged - {event.attempt});
      if written then it.(life := l', logged := it.logged + [event])
      else it.(life := l'.(lostEvents := l.lostEvents + {event.attempt}))
    case Cancel(now) =>
      if Cancellable(it.row.status) then it.(row := CancelRow(it.row, now)) else it
    case Drop(_) =>
      it.(life := l.(
        stage := Orphaned,
        lostMark := l.lostMark || !l.stage.Claimed?,
        lostEvents := if l.stage.Answering? then l.lostEvents + {l.first + |l.responses|} else l.lostEvents))
  }

  // -------------------------------------------- attempts, status, ownership

  /** Every answer so far asked for a retry. */
  predicate AllRetried(it: Item) {
    forall k | 0 <= k < |it.life.responses| :: Verdict(it, k) == Scheduled
  }

  predicate Accounted(it: Item) {
    var r, l := it.row, it.life;
    var n, s := |l.responses|, |l.sends|;
    && l.first + s <= r.maxAttempts && 0 <= l.first < r.maxAttempts
    && (forall k | 0 <= k < n - 1 :: Verdict(it, k) == Scheduled)
    && (!l.stage.Orphaned? ==> !l.lostMark)
    && (!l.stage.Free? ==> r.status.Processing? || r.status.Cancelled?)
    && match l.stage
       case Free =>
         && s == n && r.attempts == l.first + n
         && (AllRetried(it) ==> Queued(r.status) || r.status.Cancelled?)
         && (!AllRetried(it) ==> r.status == Verdict(it, n - 1))
       case Claimed(_, _) => s == n && r.attempts == l.first + n && AllRetried(it)
       case Sending(_) => s == n + 1 && r.attempts == l.first + n && AllRetried(it)
       case Answering(_, _) => s == n && n > 0 && r.attempts == l.first + n - 1
       case Orphaned =>
         && n <= s <= n + 1 && l.first + n - 1 <= r.attempts <= l.first + n
         && (s == n + 1 ==> AllRetried(it))
         && (!l.lostMark ==> s == n && r.attempts == l.first + n && AllRetried(it))
  }

  lemma NewIsAccounted(row: Notification)
    requires Queued(row.status) && 0 <= row.attempts < row.maxAttempts
    ensures Accounted(Item(row, NewLife(row), []))
  {
  }

  /** An answer that is not retried ends the fold; a retried one leaves an attempt. */
  lemma RetriedLeavesAttempt(it: Item, k: int)
    requires 0 <= k < |it.life.responses| && Verdict(it, k) == Scheduled
    ensures it.life.first + k + 1 < it.row.maxAttempts
  {
  }

  lemma AnswerKeepsAccounted(it: Item, m: Move)
    requires Accounted(it) && MoveOk(it, m) && m.Answer?
    ensures Accounted(Apply(it, m))
  {
    var it', n := Apply(it, m), |it.life.responses|;
    assert forall k | 0 <= k < n :: Verdict(it', k) == Verdict(it, k);
  }

  lemma MarkKeepsAccounted(it: Item, m: Move)
    requires Accounted(it) && MoveOk(it, m) && m.Mark?
    ensures Accounted(Apply(it, m))
  {
    var it', n := Apply(it, m), |it.life.responses|;
    var last := Verdict(it, n - 1);
    assert last == Decide(m.snapshot.attempts, m.snapshot.maxAttempts, Last(it.life.responses));
    assert forall k | 0 <= k < n :: Verdict(it', k) == Verdict(it, k);
    if m.applied {
      assert it'.row.status == last;
      assert AllRetried(it') <==> last == Scheduled;
    }
  }

  lemma SendKeepsAccounted(it: Item, m: Move)
    requires Accounted(it) && MoveOk(it, m) && m.Send?
    ensures Accounted(Apply(it, m))
  {
    var it', n := Apply(it, m), |it.life.responses|;
    assert forall k | 0 <= k < n :: Verdict(it', k) == Verdict(it, k);
    if n > 0 {
      RetriedLeavesAttempt(it, n - 1);
    }
  }

  lemma RestKeepAccounted(it: Item, m: Move)
    requires Accounted(it) && MoveOk(it, m) && !m.Answer? && !m.Mark? && !m.Send?
    ensures Accounted(Apply(it, m))
  {
    hide MarkedRow, Backoff;
    var it' := Apply(it, m);
    assert forall k | 0 <= k < |it.life.responses| :: Verdict(it', k) == Verdict(it, k);
  }

  lemma MoveKeepsAccounted(it: Item, m: Move)
    requires Accounted(it) && MoveOk(it, m)
    ensures Accounted(Apply(it, m))
  {
    hide Accounted, MoveOk, Apply;
    match m
    case Answer(_, _, _) => AnswerKeepsAccounted(it, m);
    case Mark(_, _, _, _, _, _) => MarkKeepsAccounted(it, m);
    case Send(_, _) => SendKeepsAccounted(it, m);
    case _ => RestKeepAccounted(it, m);
  }

  // ------------------------------------------------------------ send times

  /** The earliest moment the next send may start. */
  function NotBefore(l: Life): Option<Time> {
    if l.sends == [] then l.requested
    else Some(Last(l.sends) + LeastDelay(l.first + |l.sends| - 1))
  }

  predicate AtOrAfter(t: Time, bound: Option<Time>) {
    bound.Some? ==> bound.value <= t
  }

  /** Consecutive sends are at least the least retry delay apart, and none is
      before the requested time. */
  predicate Apart(l: Life) {
    && (forall i | 0 <= i < |l.sends| - 1 :: l.sends[i] + LeastDelay(l.first + i) <= l.sends[i + 1])
    && (l.sends != [] ==> AtOrAfter(l.sends[0], l.requested))
  }

  /** What keeps the next send from coming too early at each stage. */
  predicate HeldBack(it: Item) {
    var r, l := it.row, it.life;
    && (l.stage.Free? && Queued(r.status) && l.sends == [] ==> r.scheduledAt == l.requested)
    && (l.stage.Free? && Queued(r.status) && l.sends != [] ==>
          r.scheduledAt.Some? && AtOrAfter(r.scheduledAt.value, NotBefore(l)))
    && (l.stage.Claimed? ==> AtOrAfter(l.stage.at, NotBefore(l)))
    && (l.stage.Answering? ==> l.sends != [] && Last(l.sends) <= l.stage.at)
  }

  predicate Spaced(it: Item) {
    Apart(it.life) && HeldBack(it)
  }

  lemma BackoffAtLeast(attempts: int, jitter: Option<Byte>)
    ensures LeastDelay(attempts) <= Backoff(attempts, jitter)
  {
    BackoffRange(attempts, jitter);
  }

  lemma SendKeepsApart(it: Item, m: Move)
    requires Spaced(it) && MoveOk(it, m) && m.Send?
    ensures Apart(Apply(it, m).life)
  {
    var l, l' := it.life, Apply(it, m).life;
    forall i | 0 <= i < |l'.sends| - 1
      ensures l'.sends[i] + LeastDelay(l'.first + i) <= l'.sends[i + 1]
    {
      if i < |l.sends| - 1 {
        assert l.sends[i] + LeastDelay(l.first + i) <= l.sends[i + 1];
      } else {
        assert NotBefore(l) == Some(l.sends[i] + LeastDelay(l.first + i));
      }
    }
  }

  lemma MarkKeepsHeldBack(it: Item, m: Move)
    requires Accounted(it) && Spaced(it) && MoveOk(it, m) && m.Mark?
    ensures HeldBack(Apply(it, m))
  {
    BackoffAtLeast(m.snapshot.attempts, m.jitter);
    var l := it.life;
    assert NotBefore(l) == Some(Last(l.sends) + LeastDelay(m.snapshot.attempts));
  }

  lemma RestKeepSpaced(it: Item, m: Move)
    requires Accounted(it) && Spaced(it) && MoveOk(it, m) && !m.Send? && !m.Mark?
    ensures Spaced(Apply(it, m))
  {
    hide MarkedRow, Backoff, Decide, LeastDelay;
  }

  lemma OnlySendsChangeSends(it: Item, m: Move)
    requires MoveOk(it, m)
    ensures !m.Send? ==> Apply(it, m).life.sends == it.life.sends
    ensures Apply(it, m).life.first == it.life.first && Apply(it, m).life.requested == it.life.requested
    ensures m.Send? ==> Apply(it, m).life.stage.Sending?
  {
    hide MarkedRow, Backoff, Decide;
  }

  lemma MoveKeepsSpaced(it: Item, m: Move)
    requires Accounted(it) && Spaced(it) && MoveOk(it, m)
    ensures Spaced(Apply(it, m))
  {
    hide Accounted, MoveOk, Apply, NotBefore;
    OnlySendsChangeSends(it, m);
    if !m.Send? && !m.Mark? {
      RestKeepSpaced(it, m);
    }
    if m.Send? {
      SendKeepsApart(it, m);
    } else if m.Mark? {
      MarkKeepsHeldBack(it, m);
    }
  }

  // ---------------------------------------------------------- event history

  predicate InRange(l: Life, attempt: int) {
    l.first < attempt <= l.first + Decided(l)
  }

  predicate Evented(it: Item) {
    var l, log := it.life, it.logged;
    && (forall i | 0 <= i < |log| :: EventOk(it, log[i]))
    && (forall i, j | 0 <= i < j < |log| :: log[i].attempt != log[j].attempt)
    && (forall a | a in l.unlogged :: InRange(l, a) && a !in l.lostEvents)
    && (forall a | a in l.lostEvents :: InRange(l, a))
    && (forall a | l.first < a <= l.first + Decided(l) :: a in l.unlogged || a in l.lostEvents || HasAttempt(log, a))
  }

  /** A logged event tells the true result of its attempt. */
  predicate EventOk(it: Item, e: DeliveryEvent) {
    && InRange(it.life, e.attempt)
    && e.attempt - it.life.first - 1 < |it.life.responses|
    && e.status == Verdict(it, e.attempt - it.life.first - 1)
    && e.attempt !in it.life.unlogged
    && e.attempt !in it.life.lostEvents
  }

  predicate HasAttempt(log: seq<DeliveryEvent>, attempt: int) {
    exists i | 0 <= i < |log| :: log[i].attempt == attempt
  }

  lemma HasAttemptSnoc(log: seq<DeliveryEvent>, e: DeliveryEvent, a: int)
    ensures HasAttempt(log + [e], a) <==> HasAttempt(log, a) || e.attempt == a
  {
    var log' := log + [e];
    if HasAttempt(log, a) {
      var i :| 0 <= i < |log| && log[i].attempt == a;
      assert log'[i].attempt == a;
    }
    if e.attempt == a {
      assert log'[|log|].attempt == a;
    }
  }

  lemma LogKeepsEvents(it: Item, m: Move)
    requires Evented(it) && MoveOk(it, m) && m.Log?
    ensures var it' := Apply(it, m);
            && (forall i | 0 <= i < |it'.logged| :: EventOk(it', it'.logged[i]))
            && (forall i, j | 0 <= i < j < |it'.logged| :: it'.logged[i].attempt != it'.logged[j].attempt)
  {
    var it' := Apply(it, m);
    assert InRange(it.life, m.event.attempt);
    forall i | 0 <= i < |it'.logged|
      ensures EventOk(it', it'.logged[i])
    {
      if i < |it.logged| {
        assert EventOk(it, it.logged[i]);
      }
    }
    assert forall i | 0 <= i < |it.logged| :: EventOk(it, it.logged[i]) && it.logged[i].attempt != m.event.attempt;
  }

  lemma LogKeepsEvented(it: Item, m: Move)
    requires Evented(it) && MoveOk(it, m) && m.Log?
    ensures Evented(Apply(it, m))
  {
    var it' := Apply(it, m);
    LogKeepsEvents(it, m);
    forall a | InRange(it'.life, a)
      ensures a in it'.life.unlogged || a in it'.life.lostEvents || HasAttempt(it'.logged, a)
    {
      assert InRange(it.life, a);
      HasAttemptSnoc(it.logged, m.event, a);
    }
  }

  lemma MovesKeepMaxAttempts(it: Item, m: Move)
    requires MoveOk(it, m)
    ensures Apply(it, m).row.maxAttempts == it.row.maxAttempts
  {
  }

  /** Handing an event over, or losing it with its worker, accounts for its attempt. */
  lemma HandOverKeepsEvented(it: Item, m: Move)
    requires Accounted(it) && Evented(it) && MoveOk(it, m) && (m.Mark? || m.Drop?)
    ensures Evented(Apply(it, m))
  {
    hide MarkedRow, Backoff, Decide, LeastDelay;
    MovesKeepMaxAttempts(it, m);
    var it', top := Apply(it, m), it.life.first + |it.life.responses|;
    forall i | 0 <= i < |it.logged|
      ensures EventOk(it', it.logged[i])
    {
      assert EventOk(it, it.logged[i]);
    }
    assert it.life.stage.Answering? ==> !InRange(it.life, top);
    forall a | InRange(it'.life, a)
      ensures a in it'.life.unlogged || a in it'.life.lostEvents || HasAttempt(it.logged, a)
    {
      assert InRange(it.life, a) || a == top;
    }
  }

  lemma MoveKeepsEvented(it: Item, m: Move)
    requires Accounted(it) && Evented(it) && MoveOk(it, m)
    ensures Evented(Apply(it, m))
  {
    if m.Log? {
      LogKeepsEvented(it, m);
    } else if m.Mark? || m.Drop? {
      HandOverKeepsEvented(it, m);
    } else {
      var it' := Apply(it, m);
      forall i | 0 <= i < |it.logged|
        ensures EventOk(it', it.logged[i])
      {
        assert EventOk(it, it.logged[i]);
      }
      forall a | InRange(it'.life, a)
        ensures a in it'.life.unlogged || a in it'.life.lostEvents || HasAttempt(it.logged, a)
      {
        assert InRange(it.life, a);
      }
    }
  }

  // ---------------------------------------------------------------- together

  predicate Sound(it: Item) {
    Accounted(it) && Spaced(it) && Evented(it)
  }

  lemma NewIsSound(row: Notification)
    requires Queued(row.status) && 0 <= row.attempts < row.maxAttempts
    ensures Sound(Item(row, NewLife(row), []))
  {
    NewIsAccounted(row);
  }

  lemma MoveKeepsSound(it: Item, m: Move)
    requires Sound(it) && MoveOk(it, m)
    ensures Sound(Apply(it, m))
  {
    MoveKeepsAccounted(it, m);
    MoveKeepsSpaced(it, m);
    MoveKeepsEvented(it, m);
  }

  /** A settled notification, or a cancelled one that no worker has, never moves again:
      no later claim, send, result or cancellation touches it. */
  predicate Finished(it: Item) {
    || Settled(it.row.status)
    || (it.row.status.Cancelled? && (it.life.stage.Free? || it.life.stage.Orphaned?))
  }

  /** Nor does one left behind in processing, except that it can be cancelled. */
  predicate Abandoned(it: Item) {
    it.life.stage.Orphaned? && (it.row.status.Processing? || it.row.status.Cancelled?)
  }

  lemma AbandonedStays(it: Item, m: Move)
    requires MoveOk(it, m) && Abandoned(it)
    ensures Abandoned(Apply(it, m)) && Apply(it, m).life.sends == it.life.sends
    ensures Apply(it, m).row == it.row || Apply(it, m).row == CancelRow(it.row, Apply(it, m).row.updatedAt)
  {
  }

  lemma FinishedStays(it: Item, m: Move)
    requires Sound(it) && MoveOk(it, m) && Finished(it)
    ensures Finished(Apply(it, m)) && Apply(it, m).row == it.row
    ensures Apply(it, m).life.sends == it.life.sends
    ensures Apply(it, m).life.responses == it.life.responses
  {
  }
}
