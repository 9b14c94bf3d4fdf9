/** The two histories of sends agree: the system's list of provider calls, which the
    rate bound counts, and each notification's own, which the attempts bound counts. */
module Tally {
  import opened Protocol
  import opened Counting
  import O = Ownership
  import V = Preservation
  import G = Guarantees
  import L = Lifecycle
  import C = Creation

  function Of(id: string): Sent -> bool {
    (e: Sent) => e.id == id
  }

  ghost predicate Tallied(w: World) {
    && (forall id | id in w.ledger :: Count(w.sent, Of(id)) == |w.ledger[id].sends|)
    && (forall e | e in w.sent :: e.id in w.ledger)
  }

  lemma {:induction false} CountNone(sent: seq<Sent>, id: string)
    requires forall e | e in sent :: e.id != id
    ensures Count(sent, Of(id)) == 0
  {
    if sent != [] {
      assert sent[|sent| - 1] in sent;
      CountNone(sent[..|sent| - 1], id);
    }
  }

  lemma CountSnoc(sent: seq<Sent>, e: Sent, id: string)
    ensures Count(sent + [e], Of(id)) == Count(sent, Of(id)) + if e.id == id then 1 else 0
  {
    assert (sent + [e])[..|sent|] == sent;
  }

  /** A move adds a send exactly when it is one. */
  lemma MoveSends(it: L.Item, m: L.Move)
    requires L.MoveOk(it, m)
    ensures |L.Apply(it, m).life.sends| == |it.life.sends| + if m.Send? then 1 else 0
  {
  }

  lemma StepSends(w: World, s: Step, id: string)
    requires O.Inv(w) && Enabled(w, s) && id in w.ledger
    ensures id in Next(w, s).ledger
    ensures |Next(w, s).ledger[id].sends| ==
            |w.ledger[id].sends| + if s.Work? && s.act.Send? && WorkerOf(w, s.worker).queue[0].id == id then 1 else 0
  {
    hide L.Apply, L.MoveOk, L.Sound, C.CreationInv;
    O.Simulates(w, s, id);
    MoveSends(ItemOf(w, id), MoveOf(w, s, id));
  }

  lemma SendIsKnown(w: World, s: Step)
    requires O.Inv(w) && Enabled(w, s) && s.Work? && s.act.Send?
    ensures WorkerOf(w, s.worker).queue[0].id in w.ledger
  {
    O.HeadSlot(w, s.worker, s.act);
  }

  lemma TallyOf(w: World, s: Step, id: string)
    requires O.Inv(w) && Enabled(w, s) && Tallied(w) && id in Next(w, s).ledger
    ensures Count(Next(w, s).sent, Of(id)) == |Next(w, s).ledger[id].sends|
  {
    hide O.Inv, L.Sound, DbNext, ActNext, LifeNext;
    if s.Work? && s.act.Send? {
      SendIsKnown(w, s);
      CountSnoc(w.sent, Next(w, s).sent[|w.sent|], id);
    }
    if id in w.ledger {
      StepSends(w, s, id);
    } else {
      CountNone(w.sent, id);
      NewHasNone(w, s, id);
    }
  }

  lemma NewHasNone(w: World, s: Step, id: string)
    requires O.Inv(w) && Enabled(w, s) && id in Next(w, s).ledger && id !in w.ledger
    ensures Next(w, s).ledger[id].sends == []
  {
    V.InsertedSound(w, s, id);
  }

  lemma StepKeepsTally(w: World, s: Step)
    requires O.Inv(w) && Enabled(w, s) && Tallied(w)
    ensures Tallied(Next(w, s))
  {
    hide O.Inv, L.Sound, DbNext, ActNext, LifeNext;
    var w' := Next(w, s);
    forall id | id in w'.ledger
      ensures Count(w'.sent, Of(id)) == |w'.ledger[id].sends|
    {
      TallyOf(w, s, id);
    }
    forall e | e in w'.sent
      ensures e.id in w'.ledger
    {
      if s.Work? && s.act.Send? {
        SendIsKnown(w, s);
      }
      StepSendsAll(w, s, e.id);
    }
  }

  lemma StepSendsAll(w: World, s: Step, id: string)
    requires O.Inv(w) && Enabled(w, s)
    ensures id in w.ledger ==> id in Next(w, s).ledger
  {
    if id in w.ledger {
      StepSends(w, s, id);
    }
  }

  lemma {:induction false} RunKeepsTally(w: World, steps: seq<Step>)
    requires O.Inv(w) && Tallied(w) && ValidRun(w, steps)
    ensures Tallied(Run(w, steps))
    decreases |steps|
  {
    hide O.Inv, Tallied;
    if steps != [] {
      StepKeepsTally(w, steps[0]);
      V.StepKeepsInv(w, steps[0]);
      RunKeepsTally(Next(w, steps[0]), steps[1..]);
    }
  }

  /** In every run the provider is called for a notification exactly as often as its
      history says, and never more often than the attempts it came with. */
  lemma ProviderCalls(w0: World, steps: seq<Step>, id: string)
    requires Initial(w0) && ValidRun(w0, steps) && id in Run(w0, steps).db.rows
    ensures var w := Run(w0, steps);
            && id in w.ledger && Count(w.sent, Of(id)) == |w.ledger[id].sends|
            && Count(w.sent, Of(id)) <= w.db.rows[id].maxAttempts - w.ledger[id].first
  {
    V.InitialInv(w0);
    RunKeepsTally(w0, steps);
    G.AttemptsBound(Run(w0, steps), id);
  }
}
