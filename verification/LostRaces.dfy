/** Where idempotency of the create calls ends: a lost insert race whose error text is
    not recognised, and a batch lookup that fails. Both with the exact condition. */
module LostRaces {
  import opened Domain
  import opened Text
  import opened Tables
  import opened Protocol
  import opened Guarantees
  import C = Creation

  /** A statement of a call, in terms of that call. */
  lemma CallFacts(w: World, c: ClientId, op: C.Op)
    requires C.OpOk(w.db, ClientOf(w, c), op)
    ensures Enabled(w, Call(c, op))
    ensures var w', next := Next(w, Call(c, op)), C.OpNext(w.db, ClientOf(w, c), op, w.now);
            && w'.db == next.0 && ClientOf(w', c) == next.1 && w'.now == w.now
            && forall other | other != c :: ClientOf(w', other) == ClientOf(w, other)
  {
    hide C.OpOk, C.OpNext, LifeNext;
  }

  // ----------------------------------------------------------- the insert race

  predicate Taken(rows: map<string, Notification>, call: C.SingleCall) {
    exists id | id in rows :: C.Matches(rows, id, call.tenant, call.key)
  }

  /** The insert of a call whose key is taken cannot commit, and it ends the call with
      its error at once exactly when the text is not the one looked for. */
  lemma LosingInsert(db: Tables, c: C.Client, commit: C.Commit, now: Time)
    requires c.Inserting? && C.ClientOk(db.rows, c) && c.call.key != "" && Taken(db.rows, c.call)
    requires C.OpOk(db, c, C.Insert(commit))
    ensures commit.Rejected? && C.OpNext(db, c, C.Insert(commit), now).0 == db
    ensures C.OpNext(db, c, C.Insert(commit), now).1 == C.Created(c.call, Err(commit.error))
            <==> !C.LooksLikeRace(commit.error)
  {
    hide C.LooksLikeRace;
    InsertSingle(db.rows, c.n);
    var id :| id in db.rows && C.Matches(db.rows, id, c.call.tenant, c.call.key);
    assert SameKey(Stored(c.n), db.rows[id]);
  }

  lemma {:induction false} CallWaits(w: World, c: ClientId, steps: seq<Step>)
    requires ValidRun(w, steps) && forall i | 0 <= i < |steps| :: !(steps[i].Call? && steps[i].client == c)
    ensures ClientOf(Run(w, steps), c) == ClientOf(w, c)
    decreases |steps|
  {
    if steps != [] {
      CallWaits(Next(w, steps[0]), c, steps[1..]);
    }
  }

  lemma TakenStays(w: World, steps: seq<Step>, call: C.SingleCall)
    requires Reachable(w) && ValidRun(w, steps) && Taken(w.db.rows, call)
    ensures Taken(Run(w, steps).db.rows, call)
  {
    hide Reachable;
    ReachableInv(w);
    RunEvolves(w, steps);
    var id :| id in w.db.rows && C.Matches(w.db.rows, id, call.tenant, call.key);
    assert C.Matches(Run(w, steps).db.rows, id, call.tenant, call.key);
  }

  /** A create call that lost the race for its key succeeds after all exactly when the
      error text is the one looked for and the second lookup works, whatever happens in
      between; otherwise it fails although its key has a row. */
  lemma LosingCreate(w: World, c: ClientId, error: string, between: seq<Step>, works: bool, hit: Option<string>)
    requires Reachable(w) && ClientOf(w, c).Inserting?
    requires ClientOf(w, c).call.key != "" && Taken(w.db.rows, ClientOf(w, c).call)
    requires ValidRun(Next(w, Call(c, C.Insert(C.Rejected(error)))), between)
    requires forall i | 0 <= i < |between| :: !(between[i].Call? && between[i].client == c)
    ensures var call, w2 := ClientOf(w, c).call, Run(Next(w, Call(c, C.Insert(C.Rejected(error)))), between);
            if !C.LooksLikeRace(error) then ClientOf(w2, c) == C.Created(call, Err(error))
            else
              && ClientOf(w2, c) == C.Relooking(call, error)
              && (Enabled(w2, Call(c, C.Relook(works, hit))) ==>
                    var result := Next(w2, Call(c, C.Relook(works, hit)));
                    && ClientOf(result, c).Created?
                    && (ClientOf(result, c).result.Ok? <==> works)
                    && Taken(w2.db.rows, call))
  {
    hide Reachable, Next, C.LooksLikeRace, C.OpNext, C.CreationInv;
    var call, s := ClientOf(w, c).call, Call(c, C.Insert(C.Rejected(error)));
    AfterRejection(w, c, error);
    ReachableNext(w, s);
    CallWaits(Next(w, s), c, between);
    TakenStays(Next(w, s), between, call);
    var w2 := Run(Next(w, s), between);
    RelookResult(w2, c, works, hit);
  }

  lemma AfterRejection(w: World, c: ClientId, error: string)
    requires ClientOf(w, c).Inserting? && ClientOf(w, c).call.key != ""
    ensures Enabled(w, Call(c, C.Insert(C.Rejected(error))))
    ensures var call, w' := ClientOf(w, c).call, Next(w, Call(c, C.Insert(C.Rejected(error))));
            && w'.db == w.db
            && ClientOf(w', c) ==
               if C.LooksLikeRace(error) then C.Relooking(call, error) else C.Created(call, Err(error))
  {
    hide C.LooksLikeRace, LifeNext;
  }

  lemma RelookResult(w: World, c: ClientId, works: bool, hit: Option<string>)
    requires ClientOf(w, c).Relooking? ==> Taken(w.db.rows, ClientOf(w, c).call)
    ensures ClientOf(w, c).Relooking? && Enabled(w, Call(c, C.Relook(works, hit))) ==>
              var w' := Next(w, Call(c, C.Relook(works, hit)));
              ClientOf(w', c).Created? && (ClientOf(w', c).result.Ok? <==> works)
  {
    hide LifeNext;
  }

  lemma ReachableNext(w: World, s: Step)
    requires Reachable(w) && Enabled(w, s)
    ensures Reachable(Next(w, s))
  {
    hide Next, Enabled, Initial;
    var w0: World, before: seq<Step> :| Initial(w0) && ValidRun(w0, before) && Run(w0, before) == w;
    RunSnoc(w0, before, s);
  }

  // ------------------------------------------------------- what PostgreSQL says

  /** No text without a space before an f contains what the service looks for. */
  lemma NoSpacedF(s: string)
    requires forall i | 0 < i < |s| && (s[i] == 'f' || s[i] == 'F') :: s[i - 1] != ' '
    ensures !C.LooksLikeRace(s)
  {
    var t := ToLower(s);
    forall i | 0 <= i <= |t|
      ensures !OccursAt(t, C.RACE_MESSAGE, i)
    {
      NotThere(t, i);
    }
  }

  lemma NotThere(t: string, i: nat)
    ensures OccursAt(t, C.RACE_MESSAGE, i) ==> i + 18 < |t| && t[i + 17] == ' ' && t[i + 18] == 'f'
  {
    if OccursAt(t, C.RACE_MESSAGE, i) {
      assert t[i..i + 24][17] == ' ' && t[i..i + 24][18] == 'f';
    }
  }

  const DUPLICATE: string := "ERROR: duplicate key value"
  const VIOLATES: string := " violates unique constraint "
  const INDEX: string := "\"idx_noti"
  const REST: string := "ications_tenant_idempotency\""
  const CODE: string := " (SQLSTATE 23505)"

  predicate NoF(s: string) {
    'f' !in s && 'F' !in s
  }

  lemma StartHasNoF()
    ensures NoF(DUPLICATE) && NoF(INDEX)
  {
  }

  lemma MiddleHasNoF()
    ensures NoF(VIOLATES)
  {
  }

  lemma EndHasNoF()
    ensures NoF(REST) && NoF(CODE)
  {
  }

  /** The driver's text for a violation of the index on (tenant_id, idempotency_key). */
  const POSTGRES_MESSAGE: string := DUPLICATE + VIOLATES + INDEX + "f" + (REST + CODE)

  lemma OneF(a: string, b: string)
    requires NoF(a) && NoF(b) && a != "" && a[|a| - 1] != ' '
    ensures !C.LooksLikeRace(a + "f" + b)
  {
    hide C.LooksLikeRace;
    var s := a + "f" + b;
    assert forall i | 0 <= i < |a| :: s[i] == a[i];
    assert forall i | |a| < i < |s| :: s[i] == b[i - |a| - 1];
    NoSpacedF(s);
  }

  /** The service does not take PostgreSQL's own text for a lost race. */
  lemma PostgresIsNoRace()
    ensures !C.LooksLikeRace(POSTGRES_MESSAGE)
  {
    hide C.LooksLikeRace;
    StartHasNoF();
    MiddleHasNoF();
    EndHasNoF();
    var a := DUPLICATE + VIOLATES + INDEX;
    assert a[|a| - 1] == INDEX[|INDEX| - 1] == 'i';
    OneF(a, REST + CODE);
  }

  /** A run in which a call goes on with one statement. */
  lemma Extend(w0: World, steps: seq<Step>, c: ClientId, op: C.Op) returns (more: seq<Step>)
    requires ValidRun(w0, steps) && C.OpOk(Run(w0, steps).db, ClientOf(Run(w0, steps), c), op)
    ensures more == steps + [Call(c, op)] && ValidRun(w0, more)
    ensures var w, w' := Run(w0, steps), Run(w0, more);
            var next := C.OpNext(w.db, ClientOf(w, c), op, w.now);
            && w'.db == next.0 && ClientOf(w', c) == next.1 && w'.now == w.now
            && forall other | other != c :: ClientOf(w', other) == ClientOf(w, other)
  {
    hide Next, C.OpOk, C.OpNext, Enabled;
    CallFacts(Run(w0, steps), c, op);
    RunSnoc(w0, steps, Call(c, op));
    more := steps + [Call(c, op)];
  }

  const REQUEST: NotificationRequest := NotificationRequest("r", SMS, "c", Normal, None, "")

  lemma RequestIsValid()
    ensures C.Invalid(REQUEST).None?
  {
    assert !IsSpace("r"[0]) && !IsSpace("c"[0]);
    assert "c"[..0] == "";
  }

  // -------------------------------------------------- an insert race that is lost

  const SINGLE: C.SingleCall := C.SingleCall(REQUEST, "default", "b", "", "k")

  /** A call for the key `k` goes as far as its insert while nobody has the key. */
  lemma ReachInsert(w0: World, before: seq<Step>, c: ClientId, id: string) returns (steps: seq<Step>)
    requires ValidRun(w0, before) && ClientOf(Run(w0, before), c).NoCall? && Run(w0, before).db.rows == map[]
    ensures ValidRun(w0, steps) && Run(w0, steps).db == Run(w0, before).db
    ensures ClientOf(Run(w0, steps), c) == C.Inserting(SINGLE, C.Build1(SINGLE, id, Run(w0, before).now))
    ensures Run(w0, steps).now == Run(w0, before).now
    ensures forall other | other != c :: ClientOf(Run(w0, steps), other) == ClientOf(Run(w0, before), other)
  {
    hide Run, ValidRun, C.Build1, C.Invalid;
    RequestIsValid();
    steps := Extend(w0, before, c, C.Create(SINGLE, false));
    steps := Extend(w0, steps, c, C.Lookup(true, None));
    steps := Extend(w0, steps, c, C.Draft(id));
  }

  /** Two calls with one key look it up before either inserts: the first stores its row,
      and the second, whose insert is rejected while the key has that row and who is told
      of it in PostgreSQL's words, fails. */
  lemma SecondCreateFails(w0: World) returns (before: seq<Step>, steps: seq<Step>)
    requires Initial(w0)
    ensures ValidRun(w0, before) && ClientOf(Run(w0, before), 1).Inserting?
    ensures Taken(Run(w0, before).db.rows, SINGLE) && ClientOf(Run(w0, before), 1).call == SINGLE
    ensures steps == before + [Call(1, C.Insert(C.Rejected(POSTGRES_MESSAGE)))] && ValidRun(w0, steps)
    ensures ClientOf(Run(w0, steps), 1) == C.Created(SINGLE, Err(POSTGRES_MESSAGE))
    ensures Taken(Run(w0, steps).db.rows, SINGLE)
  {
    hide C.Invalid, C.FirstInvalid, TenantId, ActNext, ActOk, Run, ValidRun, C.LooksLikeRace;
    NothingRun(w0);
    before := ReachInsert(w0, [], 0, "n");
    before := ReachInsert(w0, before, 1, "m");
    InsertSingle(map[], C.Build1(SINGLE, "n", w0.now));
    before := Extend(w0, before, 0, C.Insert(C.Committed));
    assert C.Matches(Run(w0, before).db.rows, "n", SINGLE.tenant, SINGLE.key);
    PostgresIsNoRace();
    steps := Extend(w0, before, 1, C.Insert(C.Rejected(POSTGRES_MESSAGE)));
  }

  lemma NothingRun(w0: World)
    ensures ValidRun(w0, []) && Run(w0, []) == w0
  {
  }

  // -------------------------------------------------- a batch lookup that fails

  const BATCH: C.BatchCall := C.BatchCall([REQUEST], "default", "", "k")

  const BATCH_KEY: (string, string) := (TenantId("default"), "k")

  lemma BatchIsValid()
    ensures C.FirstInvalid(BATCH.requests).None?
  {
    RequestIsValid();
    assert BATCH.requests[1..] == [];
  }

  function BatchRow(batchId: string, id: string, now: Time): Notification {
    C.NewNotification(REQUEST, id, "default", batchId, "", "", now)
  }

  /** A batch call whose lookup found nothing, or failed, comes to its insert. */
  lemma BuildBatch(w0: World, before: seq<Step>, c: ClientId, batchId: string, id: string, works: bool)
    returns (steps: seq<Step>)
    requires ValidRun(w0, before) && ClientOf(Run(w0, before), c).NoCall?
    requires works ==> BATCH_KEY !in Run(w0, before).db.requests
    ensures ValidRun(w0, steps) && Run(w0, steps).db == Run(w0, before).db && Run(w0, steps).now == Run(w0, before).now
    ensures steps == before + [Call(c, C.CreateBatch(BATCH, false)), Call(c, C.BatchLookup(works)),
                               Call(c, C.Build(batchId, [id], false))]
    ensures ClientOf(Run(w0, steps), c) ==
            C.BatchInserting(BATCH, batchId, [BatchRow(batchId, id, Run(w0, before).now)])
    ensures forall other | other != c :: ClientOf(Run(w0, steps), other) == ClientOf(Run(w0, before), other)
  {
    hide Run, ValidRun, C.Invalid, C.FirstInvalid;
    BatchIsValid();
    steps := Extend(w0, before, c, C.CreateBatch(BATCH, false));
    steps := Extend(w0, steps, c, C.BatchLookup(works));
    steps := Extend(w0, steps, c, C.Build(batchId, [id], false));
  }

  lemma InsertBatch(w0: World, before: seq<Step>, c: ClientId, batchId: string, row: Notification)
    returns (steps: seq<Step>)
    requires ValidRun(w0, before) && ClientOf(Run(w0, before), c) == C.BatchInserting(BATCH, batchId, [row])
    requires NoConflict(Run(w0, before).db.rows, row)
    ensures ValidRun(w0, steps) && steps == before + [Call(c, C.BatchInsert(C.Committed))]
    ensures Run(w0, steps).now == Run(w0, before).now
    ensures Run(w0, steps).db == Run(w0, before).db.(rows := Run(w0, before).db.rows[row.id := Stored(row)])
    ensures ClientOf(Run(w0, steps), c) == C.BatchMapping(BATCH, batchId, [row])
    ensures forall other | other != c :: ClientOf(Run(w0, steps), other) == ClientOf(Run(w0, before), other)
  {
    hide Run, ValidRun, NoConflict, Stored;
    InsertSingle(Run(w0, before).db.rows, row);
    steps := Extend(w0, before, c, C.BatchInsert(C.Committed));
  }

  /** The call's last statements, and its successful answer. */
  lemma FinishBatch(w0: World, before: seq<Step>, c: ClientId, batchId: string, row: Notification)
    returns (steps: seq<Step>)
    requires ValidRun(w0, before) && ClientOf(Run(w0, before), c) == C.BatchMapping(BATCH, batchId, [row])
    requires row.id in Run(w0, before).db.rows
    ensures ValidRun(w0, steps) && steps == before + [Call(c, C.BatchMap(true)), Call(c, C.BatchAccept(true))]
    ensures Run(w0, steps).now == Run(w0, before).now && Run(w0, steps).db.rows == Run(w0, before).db.rows
    ensures Run(w0, steps).db.requests == UpsertMapping(Run(w0, before).db.requests, "default", "k", batchId)
    ensures ClientOf(Run(w0, steps), c) == C.BatchCreated(BATCH, Ok((batchId, [row])))
    ensures forall other | other != c :: ClientOf(Run(w0, steps), other) == ClientOf(Run(w0, before), other)
  {
    hide Run, ValidRun, TenantId;
    steps := Extend(w0, before, c, C.BatchMap(true));
    steps := Extend(w0, steps, c, C.BatchAccept(true));
  }

  /** A batch call from its insert on. */
  lemma EndBatch(w0: World, before: seq<Step>, c: ClientId, batchId: string, row: Notification)
    returns (steps: seq<Step>)
    requires ValidRun(w0, before) && ClientOf(Run(w0, before), c) == C.BatchInserting(BATCH, batchId, [row])
    requires NoConflict(Run(w0, before).db.rows, row)
    ensures ValidRun(w0, steps)
    ensures steps == before + [Call(c, C.BatchInsert(C.Committed)), Call(c, C.BatchMap(true)),
                               Call(c, C.BatchAccept(true))]
    ensures Run(w0, steps).db.rows == Run(w0, before).db.rows[row.id := Stored(row)]
    ensures Run(w0, steps).db.requests == UpsertMapping(Run(w0, before).db.requests, "default", "k", batchId)
    ensures ClientOf(Run(w0, steps), c) == C.BatchCreated(BATCH, Ok((batchId, [row])))
    ensures forall other | other != c :: ClientOf(Run(w0, steps), other) == ClientOf(Run(w0, before), other)
  {
    hide Run, ValidRun, C.OpOk, C.OpNext, NoConflict, Stored, UpsertMapping;
    steps := InsertBatch(w0, before, c, batchId, row);
    steps := FinishBatch(w0, steps, c, batchId, row);
  }

  /** The statements of a batch call that stores a batch; `works` says how its lookup went. */
  function BatchSteps(c: ClientId, batchId: string, id: string, works: bool): seq<Step> {
    [Call(c, C.CreateBatch(BATCH, false)), Call(c, C.BatchLookup(works)), Call(c, C.Build(batchId, [id], false)),
     Call(c, C.BatchInsert(C.Committed)), Call(c, C.BatchMap(true)), Call(c, C.BatchAccept(true))]
  }

  /** … and stores a batch. */
  lemma StoreBatch(w0: World, before: seq<Step>, c: ClientId, batchId: string, id: string, works: bool)
    returns (steps: seq<Step>)
    requires ValidRun(w0, before) && ClientOf(Run(w0, before), c).NoCall? && id !in Run(w0, before).db.rows
    requires works ==> BATCH_KEY !in Run(w0, before).db.requests
    ensures ValidRun(w0, steps) && steps == before + BatchSteps(c, batchId, id, works)
    ensures var db, db' := Run(w0, before).db, Run(w0, steps).db;
            && db'.rows.Keys == db.rows.Keys + {id} && db'.rows[id].batchId == batchId
            && (forall other | other in db.rows :: db'.rows[other] == db.rows[other])
            && db'.requests == UpsertMapping(db.requests, "default", "k", batchId)
    ensures ClientOf(Run(w0, steps), c) ==
            C.BatchCreated(BATCH, Ok((batchId, [BatchRow(batchId, id, Run(w0, before).now)])))
    ensures forall other | other != c :: ClientOf(Run(w0, steps), other) == ClientOf(Run(w0, before), other)
  {
    hide Run, ValidRun, C.OpOk, C.OpNext, TenantId;
    var row := BatchRow(batchId, id, Run(w0, before).now);
    steps := BuildBatch(w0, before, c, batchId, id, works);
    steps := EndBatch(w0, steps, c, batchId, row);
  }

  /** Two calls with one key have each been answered with a batch of their own, and the
      key is mapped to the first. */
  predicate TwoBatches(w: World) {
    && BATCH_KEY in w.db.requests && w.db.requests[BATCH_KEY] == "b1"
    && "n" in w.db.rows && w.db.rows["n"].batchId == "b1" && "m" in w.db.rows && w.db.rows["m"].batchId == "b2"
    && AnsweredWith(ClientOf(w, 0), "b1", "n") && AnsweredWith(ClientOf(w, 1), "b2", "m")
  }

  predicate AnsweredWith(c: C.Client, batchId: string, id: string) {
    && c.BatchCreated? && c.batch == BATCH && c.outcome.Ok?
    && c.outcome.value.0 == batchId && |c.outcome.value.1| == 1 && c.outcome.value.1[0].id == id
  }

  /** A call maps the key; a second call with that key, whose lookup fails, stores a
      second batch. */
  lemma SecondBatch(w0: World) returns (mapped: seq<Step>, steps: seq<Step>)
    requires Initial(w0)
    ensures ValidRun(w0, mapped) && BATCH_KEY in Run(w0, mapped).db.requests
    ensures steps == mapped + BatchSteps(1, "b2", "m", false) && ValidRun(w0, steps)
    ensures TwoBatches(Run(w0, steps))
  {
    hide Run, ValidRun, BatchSteps, TenantId;
    NothingRun(w0);
    mapped := StoreBatch(w0, [], 0, "b1", "n", true);
    steps := StoreBatch(w0, mapped, 1, "b2", "m", false);
  }

  /** The same without any failure: two calls that both look the key up before either
      maps it. */
  lemma FirstUseRace(w0: World) returns (steps: seq<Step>)
    requires Initial(w0)
    ensures ValidRun(w0, steps)
    ensures forall i | 0 <= i < |steps| :: steps[i].Call? && (steps[i].op.BatchLookup? ==> steps[i].op.works)
    ensures TwoBatches(Run(w0, steps))
  {
    hide Run, ValidRun, C.OpOk, C.OpNext, TenantId, ActNext, ActOk;
    NothingRun(w0);
    steps := BuildBatch(w0, [], 0, "b1", "n", true);
    steps := BuildBatch(w0, steps, 1, "b2", "m", true);
    steps := EndBatch(w0, steps, 0, "b1", BatchRow("b1", "n", w0.now));
    steps := EndBatch(w0, steps, 1, "b2", BatchRow("b2", "m", w0.now));
  }

  // --------------------------------------------------- what is taken for a race

  lemma RaceText(before: string, text: string, after: string)
    requires text == "unique constraint failed" || text == "UNIQUE constraint failed"
    ensures C.LooksLikeRace(before + text + after)
  {
    var s := before + text + after;
    assert s[|before|..|before| + 24] == text;
    var t := ToLower(s);
    assert t[|before|..|before| + 24] == ToLower(text);
    LowerRace(text);
    assert OccursAt(t, C.RACE_MESSAGE, |before|);
  }

  lemma LowerRace(text: string)
    requires text == "unique constraint failed" || text == "UNIQUE constraint failed"
    ensures ToLower(text) == C.RACE_MESSAGE
  {
    assert text == text[..6] + " constraint failed";
    LowerTail();
    assert ToLower(text) == ToLower(text[..6]) + ToLower(" constraint failed");
    assert ToLower(text[..6]) == "unique";
    assert C.RACE_MESSAGE == "unique" + " constraint failed";
  }

  lemma LowerTail()
    ensures ToLower(" constraint failed") == " constraint failed"
  {
  }
}
