/** What holds in every run of the system: any number of workers and clients, any
    provider, with cancellations, lost writes and worker failures anywhere. */
module Guarantees {
  import opened Domain
  import opened Delivery
  import opened Tables
  import opened Protocol
  import opened Ownership
  import opened Preservation
  import L = Lifecycle
  import C = Creation

  /** `w` is reached from empty tables. */
  ghost predicate Reachable(w: World) {
    exists w0: World, steps: seq<Step> :: Initial(w0) && ValidRun(w0, steps) && Run(w0, steps) == w
  }

  lemma ReachableInv(w: World)
    requires Reachable(w)
    ensures Inv(w)
  {
    var w0: World, steps: seq<Step> :| Initial(w0) && ValidRun(w0, steps) && Run(w0, steps) == w;
    InitialInv(w0);
    RunKeepsInv(w0, steps);
  }

  lemma ReachableSound(w: World, id: string)
    requires Reachable(w) && id in w.db.rows
    ensures id in w.ledger && L.Sound(ItemOf(w, id)) && HistoryOk(w, id)
  {
    ReachableInv(w);
  }

  // -------------------------------------------------------------- ownership

  /** A notification is held by at most one worker, and a held row is never claimable. */
  lemma ExclusiveOwnership(w: World, x: WorkerId, y: WorkerId, id: string)
    requires Reachable(w) && Holds(WorkerOf(w, x), id)
    ensures id in w.db.rows
    ensures w.db.rows[id].status.Processing? || w.db.rows[id].status.Cancelled?
    ensures Holds(WorkerOf(w, y), id) ==> x == y
  {
    ReachableInv(w);
    HeldIsMove(w, x, id);
    if Holds(WorkerOf(w, y), id) {
      HeldIsMove(w, y, id);
    }
    assert L.Sound(ItemOf(w, id));
  }

  /** The snapshot a worker decides on is the stored count, and leaves an attempt. */
  lemma SnapshotIsStored(w: World, x: WorkerId, i: nat)
    requires Reachable(w) && Owns(WorkerOf(w, x), i)
    ensures var n := WorkerOf(w, x).queue[i];
            && n.id in w.db.rows
            && n.attempts == w.db.rows[n.id].attempts
            && n.maxAttempts == w.db.rows[n.id].maxAttempts
            && n.attempts < n.maxAttempts
  {
    ReachableInv(w);
    WorkerAt(w, x);
    var k := WorkerOf(w, x);
    var id := k.queue[i].id;
    assert SlotOk(w, x, k, i);
    assert L.Sound(ItemOf(w, id));
    assert L.Accounted(ItemOf(w, id));
    if |w.ledger[id].responses| > 0 && !w.ledger[id].stage.Answering? {
      L.RetriedLeavesAttempt(ItemOf(w, id), |w.ledger[id].responses| - 1);
    }
  }

  /** Queued rows have attempts left, and no notification is ever sent more often
      than its remaining attempts at insertion, whatever writes are lost. */
  lemma AttemptsBound(w: World, id: string)
    requires Reachable(w) && id in w.db.rows
    ensures id in w.ledger
    ensures Queued(w.db.rows[id].status) ==> w.db.rows[id].attempts < w.db.rows[id].maxAttempts
    ensures w.ledger[id].first + |w.ledger[id].sends| <= w.db.rows[id].maxAttempts
  {
    ReachableSound(w, id);
    var it := ItemOf(w, id);
    if Queued(it.row.status) && it.life.responses != [] {
      L.RetriedLeavesAttempt(it, |it.life.responses| - 1);
    }
  }

  // --------------------------------------------------------- final results

  lemma {:induction false} FinishedForever(w: World, id: string, steps: seq<Step>)
    requires Inv(w) && ValidRun(w, steps) && id in w.db.rows && L.Finished(ItemOf(w, id))
    ensures id in Run(w, steps).db.rows && Run(w, steps).db.rows[id] == w.db.rows[id]
    ensures id in Run(w, steps).ledger && Run(w, steps).ledger[id].sends == w.ledger[id].sends
    ensures Run(w, steps).ledger[id].responses == w.ledger[id].responses
    decreases |steps|
  {
    hide L.Finished, L.Sound, L.Apply, L.MoveOk, MoveOf;
    if steps != [] {
      Simulates(w, steps[0], id);
      assert L.Sound(ItemOf(w, id));
      L.FinishedStays(ItemOf(w, id), MoveOf(w, steps[0], id));
      StepKeepsInv(w, steps[0]);
      FinishedForever(Next(w, steps[0]), id, steps[1..]);
    }
  }

  /** Although result writes filter on the id alone, no step of any continuation
      changes a row with a final result or sends it again. */
  lemma ResultsAbsorbing(w: World, steps: seq<Step>, id: string)
    requires Reachable(w) && ValidRun(w, steps)
    requires id in w.db.rows && Settled(w.db.rows[id].status)
    ensures id in w.ledger && id in Run(w, steps).db.rows && id in Run(w, steps).ledger
    ensures Run(w, steps).db.rows[id] == w.db.rows[id]
    ensures Run(w, steps).ledger[id].sends == w.ledger[id].sends
  {
    ReachableInv(w);
    FinishedForever(w, id, steps);
  }

  lemma {:induction false} AbandonedForever(w: World, id: string, steps: seq<Step>)
    requires Inv(w) && ValidRun(w, steps) && id in w.db.rows && L.Abandoned(ItemOf(w, id))
    ensures var w' := Run(w, steps);
            && id in w'.db.rows && id in w'.ledger && L.Abandoned(ItemOf(w', id))
            && w'.ledger[id].sends == w.ledger[id].sends
            && (w'.db.rows[id] == w.db.rows[id] || w'.db.rows[id] == CancelRow(w.db.rows[id], w'.db.rows[id].updatedAt))
    decreases |steps|
  {
    hide L.Abandoned, L.Sound, L.Apply, L.MoveOk, MoveOf;
    if steps != [] {
      Simulates(w, steps[0], id);
      L.AbandonedStays(ItemOf(w, id), MoveOf(w, steps[0], id));
      StepKeepsInv(w, steps[0]);
      AbandonedForever(Next(w, steps[0]), id, steps[1..]);
    }
  }

  /** A row left in processing with no worker holding it is lost to delivery: no
      continuation claims it, sends it or settles it, and only a cancellation changes it. */
  lemma OrphansStay(w: World, steps: seq<Step>, id: string)
    requires Reachable(w) && ValidRun(w, steps)
    requires id in w.db.rows && w.db.rows[id].status.Processing? && Unheld(w, id)
    ensures var w' := Run(w, steps);
            && id in w.ledger && id in w'.db.rows && id in w'.ledger
            && w'.ledger[id].sends == w.ledger[id].sends
            && (w'.db.rows[id] == w.db.rows[id] || w'.db.rows[id] == CancelRow(w.db.rows[id], w'.db.rows[id].updatedAt))
  {
    hide Reachable, Inv, OwnInv;
    ReachableInv(w);
    UnheldIsFree(w, id);
    ReachableSound(w, id);
    AbandonedForever(w, id, steps);
  }

  /** A cancellation changes no row of another tenant, no row outside its id list, and
      no row whose result is final; every row it does reach becomes cancelled. */
  lemma CancelReach(w: World, tenant: string, ids: seq<string>, id: string)
    requires id in w.db.rows
    ensures var w' := Next(w, Cancel(tenant, ids));
            && id in w'.db.rows
            && (w.db.rows[id].tenantId != TenantId(tenant) || id !in ids || Settled(w.db.rows[id].status)
                ==> w'.db.rows[id] == w.db.rows[id])
            && (w.db.rows[id].tenantId == TenantId(tenant) && id in ids && !Settled(w.db.rows[id].status)
                ==> w'.db.rows[id].status.Cancelled?)
            && (w.db.rows[id].tenantId == TenantId(tenant) && id in ids
                && (w.db.rows[id].status == Pending || w.db.rows[id].status == Scheduled
                    || w.db.rows[id].status == Processing)
                ==> w'.db.rows[id] == w.db.rows[id].(status := Cancelled, updatedAt := w.now))
  {
  }

  // ------------------------------------------------------------ the outcome

  /** What a sequence of provider answers comes to, on its own. */
  datatype Outcome = Open(attempts: int) | Closed(status: Status, attempts: int)

  function OutcomeOf(first: int, maxAttempts: int, answers: seq<Response>): Outcome {
    if answers == [] then Open(first)
    else match OutcomeOf(first, maxAttempts, answers[..|answers| - 1])
      case Closed(s, a) => Closed(s, a)
      case Open(a) =>
        var verdict := Decide(a, maxAttempts, answers[|answers| - 1]);
        if verdict == Scheduled then Open(a + 1) else Closed(verdict, a + 1)
  }

  predicate Retryable(r: Response) {
    !Accepted(r) && ShouldRetryDelivery(r.statusCode, r.err)
  }

  /** The fold of answers that were all retryable stays open until the attempts run out. */
  lemma {:induction false} OpenMeaning(first: int, maxAttempts: int, answers: seq<Response>)
    requires first < maxAttempts
    ensures var o, n := OutcomeOf(first, maxAttempts, answers), |answers|;
            && (o.Open? <==> n < maxAttempts - first && forall i | 0 <= i < n :: Retryable(answers[i]))
            && (o.Open? ==> o.attempts == first + n)
            && (o.Closed? ==> first < o.attempts <= first + n)
  {
    if answers != [] {
      var front := answers[..|answers| - 1];
      OpenMeaning(first, maxAttempts, front);
      assert forall i | 0 <= i < |front| :: answers[i] == front[i];
    }
  }

  /** The fold, spelled out: it is closed exactly by an answer that is final after
      only retryable ones, and exhausted exactly after the attempts that were left. */
  lemma OutcomeMeaning(first: int, maxAttempts: int, answers: seq<Response>)
    requires first < maxAttempts
    requires OutcomeOf(first, maxAttempts, answers).Closed?
    requires OutcomeOf(first, maxAttempts, answers).attempts == first + |answers|
    ensures var o, n := OutcomeOf(first, maxAttempts, answers), |answers|;
            && n > 0
            && (forall i | 0 <= i < n - 1 :: Retryable(answers[i]))
            && (o.status.Delivered? <==> Accepted(answers[n - 1]))
            && (o.status.DeadLetter? <==> Retryable(answers[n - 1]) && n == maxAttempts - first)
            && (o.status.Failed? <==> !Accepted(answers[n - 1]) && !Retryable(answers[n - 1]))
  {
    var front := answers[..|answers| - 1];
    OpenMeaning(first, maxAttempts, front);
    OpenMeaning(first, maxAttempts, answers);
    assert forall i | 0 <= i < |front| :: answers[i] == front[i];
  }

  /** The row-by-row verdicts of the history are that fold. */
  lemma {:induction false} OutcomeOfHistory(it: L.Item, n: nat)
    requires L.Accounted(it) && n <= |it.life.responses|
    ensures var o := OutcomeOf(it.life.first, it.row.maxAttempts, it.life.responses[..n]);
            if n > 0 && L.Verdict(it, n - 1) != Scheduled
            then o == Closed(L.Verdict(it, n - 1), it.life.first + n)
            else o == Open(it.life.first + n)
  {
    if n > 0 {
      OutcomeOfHistory(it, n - 1);
      assert it.life.responses[..n][..n - 1] == it.life.responses[..n - 1];
    }
  }

  predicate Unheld(w: World, id: string) {
    forall x | x in w.workers :: !Holds(w.workers[x], id)
  }

  lemma UnheldIsFree(w: World, id: string)
    requires Reachable(w) && id in w.db.rows && Unheld(w, id)
    ensures id in w.ledger && (w.ledger[id].stage.Free? || w.ledger[id].stage.Orphaned?)
  {
    ReachableInv(w);
    assert HistoryOk(w, id);
  }

  /** With no lost result and no worker holding it, a row shows the fold of the
      answers it received: its count always, its status once the fold is closed.
      While the fold is open the row is queued, cancelled, or left in processing by
      a worker that dropped it before sending. */
  lemma RowIsOutcome(w: World, id: string)
    requires Reachable(w) && id in w.db.rows && id in w.ledger && Unheld(w, id) && !w.ledger[id].lostMark
    ensures var r, l := w.db.rows[id], w.ledger[id];
            match OutcomeOf(l.first, r.maxAttempts, l.responses)
            case Closed(s, a) => r.status == s && r.attempts == a && Settled(s)
            case Open(a) =>
              && r.attempts == a && !Settled(r.status)
              && (r.status.Processing? ==> l.stage.Orphaned?)
  {
    ReachableSound(w, id);
    UnheldIsFree(w, id);
    var it := ItemOf(w, id);
    OutcomeOfHistory(it, |it.life.responses|);
    assert it.life.responses[..|it.life.responses|] == it.life.responses;
  }

  /** Whatever is lost or dropped, every answer but the last asked for a retry: a
      notification is accepted at most once, and nothing is sent after that. */
  lemma AcceptedOnce(w: World, id: string, i: nat)
    requires Reachable(w) && id in w.db.rows && id in w.ledger && i < |w.ledger[id].responses|
    ensures i < |w.ledger[id].responses| - 1 ==> Retryable(w.ledger[id].responses[i])
    ensures Accepted(w.ledger[id].responses[i]) ==>
              i == |w.ledger[id].responses| - 1 && |w.ledger[id].sends| == |w.ledger[id].responses|
  {
    hide Reachable, L.Spaced, L.Evented, HistoryOk;
    ReachableSound(w, id);
    var it := ItemOf(w, id);
    assert L.Accounted(it);
    assert i < |it.life.responses| - 1 || L.AllRetried(it) ==> L.Verdict(it, i) == Scheduled;
  }

  lemma AnsweredToBeSettled(w: World, id: string)
    requires Reachable(w) && id in w.db.rows && id in w.ledger && Settled(w.db.rows[id].status)
    ensures w.ledger[id].responses != []
  {
    ReachableSound(w, id);
  }

  /** Which answers ask for a retry. */
  lemma RetryableMeaning(r: Response)
    ensures Retryable(r) <==> r.err != None || r.statusCode == 408 || r.statusCode == 429 || r.statusCode >= 500
    ensures Accepted(r) <==> r.err == None && 200 <= r.statusCode < 300
  {
  }

  /** A final status always tells the whole story of its answers: the error and status
      code of the last one, after only errors, 408, 429 and codes from 500 up. */
  lemma SettledMeaning(w: World, id: string)
    requires Reachable(w) && id in w.db.rows && id in w.ledger && Settled(w.db.rows[id].status)
    ensures var n := |w.ledger[id].responses|;
            n > 0 && |w.ledger[id].sends| == n && w.db.rows[id].attempts == w.ledger[id].first + n
    ensures var r, l := w.db.rows[id], w.ledger[id];
            var n := |l.responses|;
            var last := l.responses[n - 1];
            var retried :=
              last.err != None || last.statusCode == 408 || last.statusCode == 429 || last.statusCode >= 500;
            && (forall i | 0 <= i < n - 1 ::
                  l.responses[i].err != None || l.responses[i].statusCode == 408
                  || l.responses[i].statusCode == 429 || l.responses[i].statusCode >= 500)
            && (r.status == Delivered <==> last.err == None && 200 <= last.statusCode < 300)
            && (r.status == DeadLetter <==> retried && n == r.maxAttempts - l.first)
            && (r.status == Failed <==> !retried && !(200 <= last.statusCode < 300))
  {
    hide Reachable;
    ReachableSound(w, id);
    AnsweredToBeSettled(w, id);
    forall i | 0 <= i < |w.ledger[id].responses|
      ensures Retryable(w.ledger[id].responses[i]) <==>
              w.ledger[id].responses[i].err != None || w.ledger[id].responses[i].statusCode == 408
              || w.ledger[id].responses[i].statusCode == 429 || w.ledger[id].responses[i].statusCode >= 500
    {
      RetryableMeaning(w.ledger[id].responses[i]);
    }
    var it := ItemOf(w, id);
    var n := |it.life.responses|;
    OutcomeOfHistory(it, n);
    assert it.life.responses[..n] == it.life.responses;
    OutcomeMeaning(it.life.first, it.row.maxAttempts, it.life.responses);
  }

  /** No result is lost in a run in which every result write succeeds and no worker
      gives up, and then no row is left behind in processing. */
  predicate Lossless(s: Step) {
    s.Work? ==> !s.act.Drop? && (s.act.Mark? ==> s.act.applied) && (s.act.Log? ==> s.act.applied)
  }

  predicate Intact(l: L.Life) {
    !l.lostMark && l.lostEvents == {} && !l.stage.Orphaned?
  }

  predicate KeepsIntact(m: L.Move) {
    !m.Drop? && (m.Mark? ==> m.applied) && (m.Log? ==> m.written)
  }

  lemma MoveIsLossless(w: World, s: Step, id: string)
    requires Enabled(w, s) && Lossless(s)
    ensures KeepsIntact(MoveOf(w, s, id))
  {
  }

  lemma MoveKeepsIntact(it: L.Item, m: L.Move)
    requires L.MoveOk(it, m) && KeepsIntact(m) && Intact(it.life)
    ensures Intact(L.Apply(it, m).life)
  {
  }

  lemma LosslessMove(w: World, s: Step, id: string)
    requires Inv(w) && Enabled(w, s) && Lossless(s) && id in w.db.rows && id in w.ledger && Intact(w.ledger[id])
    ensures id in Next(w, s).ledger && Intact(Next(w, s).ledger[id])
  {
    hide Inv, L.MoveOk, L.Apply, Intact, KeepsIntact, MoveOf;
    InvParts(w);
    Simulates(w, s, id);
    MoveIsLossless(w, s, id);
    MoveKeepsIntact(ItemOf(w, id), MoveOf(w, s, id));
  }

  lemma InvParts(w: World)
    requires Inv(w)
    ensures OwnInv(w) && LifeInv(w)
  {
  }

  lemma {:induction false} LosslessRun(w: World, steps: seq<Step>, id: string)
    requires Inv(w) && ValidRun(w, steps) && forall i | 0 <= i < |steps| :: Lossless(steps[i])
    requires id in w.ledger ==> Intact(w.ledger[id])
    ensures id in Run(w, steps).ledger ==> Intact(Run(w, steps).ledger[id])
    decreases |steps|
  {
    hide Lossless, Intact, L.Sound;
    if steps != [] {
      var s := steps[0];
      StepKeepsInv(w, s);
      if id in w.ledger {
        LosslessMove(w, s, id);
      } else if id in Next(w, s).ledger {
        InsertedSound(w, s, id);
        NewIntact(Next(w, s).db.rows[id]);
      }
      LosslessRun(Next(w, s), steps[1..], id);
    }
  }

  lemma NewIntact(row: Notification)
    ensures Intact(L.NewLife(row))
  {
  }

  /** In a lossless run every row no worker holds is queued, cancelled or final, and
      it is final exactly when the fold of its answers is. */
  lemma LosslessOutcome(w0: World, steps: seq<Step>, id: string)
    requires Initial(w0) && ValidRun(w0, steps) && forall i | 0 <= i < |steps| :: Lossless(steps[i])
    requires id in Run(w0, steps).db.rows && Unheld(Run(w0, steps), id)
    ensures var w := Run(w0, steps);
            && id in w.ledger
            && (Queued(w.db.rows[id].status) || w.db.rows[id].status.Cancelled? || Settled(w.db.rows[id].status))
            && match OutcomeOf(w.ledger[id].first, w.db.rows[id].maxAttempts, w.ledger[id].responses)
               case Closed(s, a) => w.db.rows[id].status == s && w.db.rows[id].attempts == a
               case Open(a) => !Settled(w.db.rows[id].status) && w.db.rows[id].attempts == a
  {
    InitialInv(w0);
    LosslessRun(w0, steps, id);
    ReachableSound(Run(w0, steps), id);
    RowIsOutcome(Run(w0, steps), id);
  }

  // -------------------------------------------------------------- event log

  /** The logged attempt events of a notification have distinct attempt numbers, each
      tells the decision made on the answer of that attempt, and a terminal one has
      the largest number, so there is at most one. */
  lemma EventLog(w: World, id: string, i: nat, j: nat)
    requires Reachable(w) && id in w.db.rows && id in w.ledger
    requires i < |Logged(w.db.events, id)| && j < |Logged(w.db.events, id)|
    ensures var log, l := Logged(w.db.events, id), w.ledger[id];
            && (i != j ==> log[i].attempt != log[j].attempt)
            && 0 <= log[i].attempt - l.first - 1 < |l.responses|
            && log[i].status == Decide(log[i].attempt - 1, w.db.rows[id].maxAttempts,
                                       l.responses[log[i].attempt - l.first - 1])
            && (log[i].status != Scheduled ==> log[j].attempt <= log[i].attempt)
  {
    ReachableSound(w, id);
    var it := ItemOf(w, id);
    assert L.EventOk(it, it.logged[i]) && L.EventOk(it, it.logged[j]);
  }

  /** When nothing was lost, the logged attempts and those a worker is about to log
      are together exactly the attempts after the initial count up to the stored one. */
  lemma EventsComplete(w: World, id: string, a: int)
    requires Reachable(w) && id in w.db.rows && id in w.ledger
    requires !w.ledger[id].lostMark && w.ledger[id].lostEvents == {}
    ensures w.ledger[id].first < a <= w.db.rows[id].attempts <==>
            L.HasAttempt(Logged(w.db.events, id), a) || exists x | x in w.workers :: Writing(w.workers[x], id, a)
  {
    hide Reachable, L.Accounted, L.Spaced, L.Evented, OwnInv;
    ReachableInv(w);
    ReachableSound(w, id);
    AttemptsComplete(ItemOf(w, id), a);
    if x :| x in w.workers && Writing(w.workers[x], id, a) {
      WritingIsUnlogged(w, x, id, a);
    }
    if a in w.ledger[id].unlogged {
      UnloggedIsWriting(w, id, a);
    }
  }

  /** The same of one notification: what is logged or owed is what was counted. */
  lemma AttemptsComplete(it: L.Item, a: int)
    requires L.Sound(it) && !it.life.lostMark && it.life.lostEvents == {}
    ensures it.life.first < a <= it.row.attempts <==> L.HasAttempt(it.logged, a) || a in it.life.unlogged
  {
    assert it.row.attempts == it.life.first + L.Decided(it.life);
    if L.HasAttempt(it.logged, a) {
      var i :| 0 <= i < |it.logged| && it.logged[i].attempt == a;
      assert L.EventOk(it, it.logged[i]);
    }
  }

  lemma WritingIsUnlogged(w: World, x: WorkerId, id: string, a: int)
    requires Inv(w) && x in w.workers && Writing(w.workers[x], id, a)
    ensures id in w.ledger && a in w.ledger[id].unlogged
  {
    WorkerAt(w, x);
    assert EventOk(w, x, w.workers[x]);
  }

  lemma UnloggedIsWriting(w: World, id: string, a: int)
    requires Inv(w) && id in w.ledger && a in w.ledger[id].unlogged
    ensures w.ledger[id].unlogged[a] in w.workers && Writing(w.workers[w.ledger[id].unlogged[a]], id, a)
  {
    assert HistoryOk(w, id);
    assert Writing(WorkerOf(w, w.ledger[id].unlogged[a]), id, a);
  }

  /** No step changes or removes an event: a run only appends to the table. */
  lemma {:induction false} EventsAppendOnly(w: World, steps: seq<Step>)
    requires Inv(w) && ValidRun(w, steps)
    ensures w.db.events <= Run(w, steps).db.events
    decreases |steps|
  {
    hide Inv;
    if steps != [] {
      NewEvent(w, steps[0]);
      StepKeepsInv(w, steps[0]);
      EventsAppendOnly(Next(w, steps[0]), steps[1..]);
    }
  }

  // --------------------------------------------------------------- spacing

  /** Between any two sends of one notification lie the least delays of the attempts
      in between, and nothing is sent before its requested time. */
  lemma {:induction false} SendsSpaced(w: World, id: string, i: nat, j: nat)
    requires Reachable(w) && id in w.db.rows && id in w.ledger && i <= j < |w.ledger[id].sends|
    ensures var l := w.ledger[id];
            && l.sends[i] + LeastWait(l.first + i, j - i) <= l.sends[j]
            && L.AtOrAfter(l.sends[i], l.requested)
    decreases j - i, i
  {
    ReachableSound(w, id);
    var l := w.ledger[id];
    assert L.Apart(l);
    if i < j {
      SendsSpaced(w, id, i, j - 1);
      assert l.sends[j - 1] + LeastDelay(l.first + (j - 1)) <= l.sends[j];
    } else if i > 0 {
      SendsSpaced(w, id, i - 1, i - 1);
      assert l.sends[i - 1] + LeastDelay(l.first + (i - 1)) <= l.sends[i];
      BackoffRange(l.first + (i - 1), None);
    }
  }

  /** For a row inserted with no attempts, send k (from 1) starts at least 2^k - 2
      seconds after the first for k <= 7, and 64 seconds more for each one after. */
  lemma RetrySpacing(w: World, id: string, k: nat)
    requires Reachable(w) && id in w.db.rows && id in w.ledger && w.ledger[id].first == 0
    requires 1 <= k <= |w.ledger[id].sends|
    ensures var sends := w.ledger[id].sends;
            && (k <= 7 ==> (Pow2(k) - 2) * SECOND <= sends[k - 1] - sends[0])
            && (k >= 7 ==> (126 + 64 * (k - 7)) * SECOND <= sends[k - 1] - sends[0])
            && L.AtOrAfter(sends[0], w.ledger[id].requested)
  {
    hide Reachable, LeastWait;
    SendsSpaced(w, id, 0, k - 1);
    LeastWaitClosed(k - 1);
  }

  // -------------------------------------------------------- idempotent creation

  lemma OneRowPerKey(w: World, a: string, b: string)
    requires Reachable(w) && a in w.db.rows && b in w.db.rows && SameKey(w.db.rows[a], w.db.rows[b])
    ensures a == b
  {
    hide Reachable, OwnInv, LifeInv;
    ReachableInv(w);
  }

  /** At most one row exists per tenant and key, and every create call that returned
      successfully with that key returned that row's id. */
  lemma SingleCreateIdempotent(w: World, c: ClientId, id: string)
    requires Reachable(w)
    requires ClientOf(w, c).Created? && ClientOf(w, c).call.key != "" && ClientOf(w, c).result.Ok?
    requires C.Matches(w.db.rows, id, ClientOf(w, c).call.tenant, ClientOf(w, c).call.key)
    ensures ClientOf(w, c).result.value.id == id
  {
    hide Reachable, OwnInv, LifeInv;
    ReachableInv(w);
    ClientAt(w, c);
    assert SameKey(w.db.rows[id], w.db.rows[ClientOf(w, c).result.value.id]);
  }

  /** … and that row exists, in every continuation. */
  lemma CreatedStays(w: World, c: ClientId, steps: seq<Step>)
    requires Reachable(w) && ValidRun(w, steps)
    requires ClientOf(w, c).Created? && ClientOf(w, c).result.Ok?
    ensures var call, n := ClientOf(w, c).call, ClientOf(w, c).result.value;
            C.Matches(Run(w, steps).db.rows, n.id, call.tenant, call.key)
  {
    ReachableInv(w);
    assert C.ClientOk(w.db.rows, ClientOf(w, c));
    RunEvolves(w, steps);
  }

  /** Over a run rows keep their identity and mappings never change. */
  lemma {:induction false} RunEvolves(w: World, steps: seq<Step>)
    requires Inv(w) && ValidRun(w, steps)
    ensures C.Evolves(w.db.rows, Run(w, steps).db.rows)
    ensures forall k | k in w.db.requests ::
              k in Run(w, steps).db.requests && Run(w, steps).db.requests[k] == w.db.requests[k]
    decreases |steps|
  {
    hide Inv;
    if steps != [] {
      StepEvolves(w, steps[0]);
      StepKeepsInv(w, steps[0]);
      RunEvolves(Next(w, steps[0]), steps[1..]);
    }
  }

  /** Once a tenant's key maps to a batch id it maps to it forever, and that batch
      always has a row of the tenant. */
  lemma MappingWriteOnce(w: World, steps: seq<Step>, k: (string, string))
    requires Reachable(w) && ValidRun(w, steps) && k in w.db.requests
    ensures var w' := Run(w, steps);
            && k in w'.db.requests && w'.db.requests[k] == w.db.requests[k]
            && C.BatchExists(w'.db.rows, w'.db.requests[k], k.0)
  {
    ReachableInv(w);
    RunEvolves(w, steps);
    RunKeepsInv(w, steps);
  }

  /** A batch call that found its mapping: it has the mapped id, and never inserts. */
  predicate Replaying(c: C.Client, batchId: string) {
    || (c.BatchReading? && c.batchId == batchId)
    || (c.BatchCreated? && (c.outcome.Ok? ==> c.outcome.value.0 == batchId && c.outcome.value.1 != []))
  }

  lemma ReplayOp(db: Tables, c: C.Client, op: C.Op, now: Time, batchId: string)
    requires C.OpOk(db, c, op) && C.ClientOk(db.rows, c) && Replaying(c, batchId)
    ensures Replaying(C.OpNext(db, c, op, now).1, batchId)
    ensures C.OpNext(db, c, op, now).0.rows == db.rows
  {
    if op.BatchRead? && op.works {
      var id :| id in db.rows && db.rows[id].batchId == c.batchId && db.rows[id].tenantId == TenantId(c.batch.tenant);
      assert C.InBatch(db.rows[id], c.batchId, c.batch.tenant);
      assert db.rows[id] in op.rows;
    }
  }

  lemma ReplayStep(w: World, s: Step, c: ClientId, batchId: string)
    requires Inv(w) && Enabled(w, s) && Replaying(ClientOf(w, c), batchId)
    ensures Replaying(ClientOf(Next(w, s), c), batchId)
    ensures s.Call? && s.client == c ==> Next(w, s).db.rows == w.db.rows
  {
    hide Replaying, OwnInv, LifeInv, LifeNext, ActNext, ActOk, C.ClientOk, C.OpOk, C.OpNext;
    if s.Call? && s.client == c {
      assert C.ClientOk(w.db.rows, ClientOf(w, c)) by {
        ClientAt(w, c);
      }
      ReplayOp(w.db, ClientOf(w, c), s.op, w.now, batchId);
    }
  }

  lemma ClientAt(w: World, c: ClientId)
    requires C.CreationInv(w.db, w.clients)
    ensures C.ClientOk(w.db.rows, ClientOf(w, c))
  {
  }

  /** A batch call that passes its entry checks and reads a mapping returns the mapped
      batch with at least one row, or an error, and inserts nothing at any later step. */
  lemma {:induction false} BatchReplays(w: World, c: ClientId, batchId: string, steps: seq<Step>)
    requires Inv(w) && ValidRun(w, steps) && Replaying(ClientOf(w, c), batchId)
    ensures Replaying(ClientOf(Run(w, steps), c), batchId)
    ensures forall i | 0 <= i < |steps| && steps[i].Call? && steps[i].client == c ::
              ValidRun(w, steps[..i]) && ValidRun(w, steps[..i + 1]) &&
              Run(w, steps[..i + 1]).db.rows == Run(w, steps[..i]).db.rows
    decreases |steps|
  {
    hide Inv, Replaying;
    if steps != [] {
      var w' := Next(w, steps[0]);
      ReplayStep(w, steps[0], c, batchId);
      StepKeepsInv(w, steps[0]);
      BatchReplays(w', c, batchId, steps[1..]);
      forall i | 0 <= i < |steps| && steps[i].Call? && steps[i].client == c
        ensures ValidRun(w, steps[..i]) && ValidRun(w, steps[..i + 1])
        ensures Run(w, steps[..i + 1]).db.rows == Run(w, steps[..i]).db.rows
      {
        assert steps[..i + 1][1..] == steps[1..][..i];
        if i > 0 {
          assert steps[1..][i - 1] == steps[i];
          assert steps[..i][1..] == steps[1..][..i - 1];
        } else {
          assert steps[..1] == [steps[0]] && steps[..0] == [];
          assert steps[1..][..0] == [];
        }
      }
    }
  }

  /** … and it is in that position exactly when its lookup worked and found a mapping. */
  lemma LookupReplaysIff(w: World, c: ClientId, works: bool, batchId: string)
    requires ClientOf(w, c).BatchLooking?
    ensures var k := (TenantId(ClientOf(w, c).batch.tenant), ClientOf(w, c).batch.key);
            Replaying(ClientOf(Next(w, Call(c, C.BatchLookup(works))), c), batchId)
            <==> works && k in w.db.requests && w.db.requests[k] == batchId
  {
    hide LifeNext;
  }
}
