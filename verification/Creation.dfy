/** The create calls of the service, one database statement at a time, so that any
    number of them can interleave; and what idempotency keys guarantee. */
module Creation {
  import opened Domain
  import opened Text
  import opened Tables

  datatype SingleCall = SingleCall(
    request: NotificationRequest, tenant: string, batchId: string, correlationId: string, key: string)

  datatype BatchCall = BatchCall(
    requests: seq<NotificationRequest>, tenant: string, correlationId: string, key: string)

  /** How far a call got. */
  datatype Client =
    | NoCall
    | Looking(call: SingleCall)
    | Building(call: SingleCall)
    | Inserting(call: SingleCall, n: Notification)
    | Relooking(call: SingleCall, error: string)
    | Mapping(call: SingleCall, n: Notification)
    | Accepting(call: SingleCall, n: Notification)
    | Created(call: SingleCall, result: Result<Notification>)
    | BatchLooking(batch: BatchCall)
    | BatchReading(batch: BatchCall, batchId: string)
    | BatchBuilding(batch: BatchCall)
    | BatchInserting(batch: BatchCall, batchId: string, items: seq<Notification>)
    | BatchMapping(batch: BatchCall, batchId: string, items: seq<Notification>)
    | BatchAccepting(batch: BatchCall, batchId: string, items: seq<Notification>, next: nat)
    | BatchCreated(batch: BatchCall, outcome: Result<(string, seq<Notification>)>)

  /** How an insert transaction ended: the caller can be told of an error although
      the rows are stored. */
  datatype Commit = Committed | Unacknowledged(error: string) | Rejected(error: string)

  datatype Op =
    | Create(call: SingleCall, expired: bool)
    | Lookup(works: bool, hit: Option<string>)
    | Draft(newId: string)
    | Insert(commit: Commit)
    | Relook(works: bool, hit: Option<string>)
    | Map(applied: bool)
    | Accept(applied: bool)
    | CreateBatch(batch: BatchCall, expired: bool)
    | BatchLookup(works: bool)
    | BatchRead(works: bool, rows: seq<Notification>)
    | Build(batchId: string, ids: seq<string>, expired: bool)
    | BatchInsert(commit: Commit)
    | BatchMap(applied: bool)
    | BatchAccept(applied: bool)

  // ------------------------------------------------------ request handling

  function ContentLimit(channel: Channel): Option<int> {
    if channel == SMS then Some(1600)
    else if channel == EMAIL then Some(10000)
    else if channel == PUSH then Some(256)
    else None
  }

  /** The error of `validateRequest`; None when the request is acceptable. */
  function Invalid(r: NotificationRequest): Option<string> {
    if Blank(r.recipient) then Some("recipient is required")
    else if Blank(r.content) then Some("content is required")
    else match ContentLimit(r.channel)
      case None => Some("channel must be sms, email, or push")
      case Some(limit) =>
        if ByteLength(r.content) > limit
        then Some("content exceeds " + Decimal(limit) + " characters for " + r.channel)
        else None
  }

  function NormalizePriority(p: Priority): Priority {
    if p.OtherPriority? then Normal else p
  }

  function NewNotification(
    r: NotificationRequest, id: string, tenant: string, batchId: string, correlationId: string, key: string, now: Time)
    : Notification
  {
    var status := if r.scheduledAt.Some? && r.scheduledAt.value > now then Scheduled else Pending;
    Notification(id, tenant, batchId, r.recipient, r.channel, r.content, NormalizePriority(r.priority),
                 status, 0, 3, r.scheduledAt, now, now, correlationId, key, "", "")
  }

  function Build1(call: SingleCall, id: string, now: Time): Notification {
    NewNotification(call.request, id, call.tenant, call.batchId, call.correlationId, call.key, now)
  }

  function BuildAll(batch: BatchCall, batchId: string, ids: seq<string>, now: Time): seq<Notification>
    requires |ids| == |batch.requests|
  {
    seq(|ids|, i requires 0 <= i < |ids| =>
      NewNotification(batch.requests[i], ids[i], batch.tenant, batchId, batch.correlationId,
                      batch.requests[i].idempotencyKey, now))
  }

  /** The first error the validation loop of a batch meets. */
  function FirstInvalid(requests: seq<NotificationRequest>): Option<string> {
    if requests == [] then None
    else if Invalid(requests[0]).Some? then Invalid(requests[0])
    else FirstInvalid(requests[1..])
  }

  // ------------------------------------------------- what a request asks for

  /** A request the service takes: a recipient, a content, one of the three channels and
      no more bytes than the channel allows. */
  predicate Acceptable(r: NotificationRequest) {
    && (exists i | 0 <= i < |r.recipient| :: !IsSpace(r.recipient[i]))
    && (exists i | 0 <= i < |r.content| :: !IsSpace(r.content[i]))
    && (|| (r.channel == "sms" && ByteLength(r.content) <= 1600)
        || (r.channel == "email" && ByteLength(r.content) <= 10000)
        || (r.channel == "push" && ByteLength(r.content) <= 256))
  }

  lemma ValidIffAcceptable(r: NotificationRequest)
    ensures Invalid(r) == None <==> Acceptable(r)
    ensures var noRecipient := forall i | 0 <= i < |r.recipient| :: IsSpace(r.recipient[i]);
            var noContent := forall i | 0 <= i < |r.content| :: IsSpace(r.content[i]);
            && (noRecipient ==> Invalid(r) == Some("recipient is required"))
            && (!noRecipient && noContent ==> Invalid(r) == Some("content is required"))
            && (!noRecipient && !noContent && r.channel != "sms" && r.channel != "email" && r.channel != "push" ==>
                  Invalid(r) == Some("channel must be sms, email, or push"))
  {
  }

  /** `n` is what `r` asks for, within its batch, as its row says it right after. */
  predicate Describes(
    n: Notification, r: NotificationRequest, tenant: string, batchId: string, correlationId: string, key: string)
  {
    && n.recipient == r.recipient && n.content == r.content && n.channel == r.channel
    && n.scheduledAt == r.scheduledAt
    && n.tenantId == tenant && n.batchId == batchId && n.correlationId == correlationId && n.idempotencyKey == key
    && (n.status == Scheduled <==> r.scheduledAt != None && r.scheduledAt.value > n.createdAt)
    && (n.status == Scheduled || n.status == Pending)
    && (r.priority == High || r.priority == Normal || r.priority == Low ==> n.priority == r.priority)
    && (r.priority != High && r.priority != Normal && r.priority != Low ==> n.priority == Normal)
    && n.attempts == 0 && n.maxAttempts == 3
    && n.providerMessageId == "" && n.lastError == "" && n.updatedAt == n.createdAt
  }

  lemma NewDescribes(
    r: NotificationRequest, id: string, tenant: string, batchId: string, correlationId: string, key: string, now: Time)
    ensures var n := NewNotification(r, id, tenant, batchId, correlationId, key, now);
            && n.id == id && n.createdAt == now && Describes(n, r, tenant, batchId, correlationId, key)
            && Describes(Stored(n), r, TenantId(tenant), batchId, correlationId, key)
  {
  }

  /** A batch fails with the error of its first request that has one, if any has. */
  lemma {:induction false} FirstInvalidIsFirst(requests: seq<NotificationRequest>)
    ensures FirstInvalid(requests) == None <==> forall i | 0 <= i < |requests| :: Invalid(requests[i]) == None
    ensures forall i | 0 <= i < |requests| && Invalid(requests[i]) != None
                       && (forall j | 0 <= j < i :: Invalid(requests[j]) == None) ::
              FirstInvalid(requests) == Invalid(requests[i])
  {
    hide Invalid;
    if requests != [] {
      FirstInvalidIsFirst(requests[1..]);
      assert forall i | 0 < i < |requests| :: requests[1..][i - 1] == requests[i];
    }
  }

  const RACE_MESSAGE: string := "unique constraint failed"

  /** The error texts after which a failed insert looks the key up once more. */
  predicate LooksLikeRace(error: string) {
    Contains(ToLower(error), RACE_MESSAGE)
  }

  // ------------------------------------------------------------- statements

  predicate Matches(rows: map<string, Notification>, id: string, tenant: string, key: string) {
    id in rows && rows[id].tenantId == TenantId(tenant) && rows[id].idempotencyKey == key
  }

  /** `hit` answers SELECT … WHERE idempotency_key = key AND tenant_id = tenant. */
  predicate KeyHit(rows: map<string, Notification>, tenant: string, key: string, hit: Option<string>) {
    match hit
    case Some(id) => Matches(rows, id, tenant, key)
    case None => forall id | id in rows :: !Matches(rows, id, tenant, key)
  }

  predicate InBatch(n: Notification, batchId: string, tenant: string) {
    n.batchId == batchId && n.tenantId == TenantId(tenant)
  }

  /** `out` answers SELECT … WHERE batch_id = … AND tenant_id = … ORDER BY created_at. */
  predicate BatchRows(rows: map<string, Notification>, batchId: string, tenant: string, out: seq<Notification>) {
    && (forall i | 0 <= i < |out| :: out[i].id in rows && out[i] == rows[out[i].id] && InBatch(out[i], batchId, tenant))
    && (forall id | id in rows && InBatch(rows[id], batchId, tenant) :: rows[id] in out)
    && (forall i, j | 0 <= i < j < |out| :: out[i].id != out[j].id && out[i].createdAt <= out[j].createdAt)
  }

  /** When a statement of a call may execute with the given outcome. An event row
      needs the notification it refers to. */
  predicate OpOk(db: Tables, c: Client, op: Op) {
    match op
    case Create(_, _) => c.NoCall?
    case Lookup(works, hit) => c.Looking? && (works ==> KeyHit(db.rows, c.call.tenant, c.call.key, hit))
    case Draft(_) => c.Building?
    case Insert(commit) => c.Inserting? && (!commit.Rejected? ==> Insertable(db.rows, [c.n]))
    case Relook(works, hit) =>
      c.Relooking? && (works ==> KeyHit(db.rows, c.call.tenant, c.call.key, hit))
    case Map(_) => c.Mapping?
    case Accept(applied) => c.Accepting? && (applied ==> c.n.id in db.rows)
    case CreateBatch(_, _) => c.NoCall?
    case BatchLookup(_) => c.BatchLooking?
    case BatchRead(works, rows) =>
      c.BatchReading? && (works ==> BatchRows(db.rows, c.batchId, c.batch.tenant, rows))
    case Build(_, ids, _) => c.BatchBuilding? && |ids| == |c.batch.requests|
    case BatchInsert(commit) => c.BatchInserting? && (!commit.Rejected? ==> Insertable(db.rows, c.items))
    case BatchMap(_) => c.BatchMapping?
    case BatchAccept(applied) =>
      c.BatchAccepting? && c.next < |c.items| && (applied ==> c.items[c.next].id in db.rows)
  }

  /** One statement of a call: the tables and the call after it. */
  function OpNext(db: Tables, c: Client, op: Op, now: Time): (Tables, Client)
    requires OpOk(db, c, op)
  {
    match op
    case Create(call, expired) =>
      if expired then (db, Created(call, Err("context deadline exceeded")))
      else if Invalid(call.request).Some? then (db, Created(call, Err(Invalid(call.request).value)))
      else (db, if call.key != "" then Looking(call) else Building(call))
    case Lookup(works, hit) =>
      (db, if works && hit.Some? then Created(c.call, Ok(db.rows[hit.value])) else Building(c.call))
    case Draft(newId) => (db, Inserting(c.call, Build1(c.call, newId, now)))
    case Insert(commit) =>
      (match commit
       case Committed =>
         (db.(rows := InsertRows(db.rows, [c.n])),
          if c.call.key != "" then Mapping(c.call, c.n) else Accepting(c.call, c.n))
       case Unacknowledged(error) => (db.(rows := InsertRows(db.rows, [c.n])), AfterError(c.call, error))
       case Rejected(error) => (db, AfterError(c.call, error)))
    case Relook(works, hit) =>
      if works && hit.Some? then (db, Created(c.call, Ok(db.rows[hit.value])))
      else (db, Created(c.call, Err(c.error)))
    case Map(applied) =>
      (if applied then db.(requests := UpsertMapping(db.requests, c.call.tenant, c.call.key, c.call.batchId)) else db,
       Accepting(c.call, c.n))
    case Accept(applied) =>
      (if applied then db.(events := db.events + [AcceptedEvent(c.n, now)]) else db, Created(c.call, Ok(c.n)))
    case CreateBatch(batch, expired) =>
      if expired then (db, BatchCreated(batch, Err("context deadline exceeded")))
      else if batch.requests == [] then (db, BatchCreated(batch, Err("notifications array is required")))
      else if |batch.requests| > 1000 then (db, BatchCreated(batch, Err("batch size cannot exceed 1000")))
      else if batch.key != "" then (db, BatchLooking(batch))
      else (db, BatchBuilding(batch))
    case BatchLookup(works) =>
      if works && (TenantId(c.batch.tenant), c.batch.key) in db.requests
      then (db, BatchReading(c.batch, db.requests[(TenantId(c.batch.tenant), c.batch.key)]))
      else (db, BatchBuilding(c.batch))
    case BatchRead(works, rows) =>
      (db, BatchCreated(c.batch, if works then Ok((c.batchId, rows)) else Err("read failed")))
    case Build(batchId, ids, expired) =>
      if expired then (db, BatchCreated(c.batch, Err("context deadline exceeded")))
      else if FirstInvalid(c.batch.requests).Some? then
        (db, BatchCreated(c.batch, Err(FirstInvalid(c.batch.requests).value)))
      else (db, BatchInserting(c.batch, batchId, BuildAll(c.batch, batchId, ids, now)))
    case BatchInsert(commit) =>
      (match commit
       case Committed =>
         (db.(rows := InsertRows(db.rows, c.items)),
          if c.batch.key != "" then BatchMapping(c.batch, c.batchId, c.items)
          else StartAccepting(c.batch, c.batchId, c.items))
       case Unacknowledged(error) =>
         (db.(rows := InsertRows(db.rows, c.items)), BatchCreated(c.batch, Err(error)))
       case Rejected(error) => (db, BatchCreated(c.batch, Err(error))))
    case BatchMap(applied) =>
      if applied then
        (db.(requests := UpsertMapping(db.requests, c.batch.tenant, c.batch.key, c.batchId)),
         StartAccepting(c.batch, c.batchId, c.items))
      else (db, BatchCreated(c.batch, Err("mapping failed")))
    case BatchAccept(applied) =>
      (if applied then db.(events := db.events + [AcceptedEvent(c.items[c.next], now)]) else db,
       if c.next + 1 == |c.items| then BatchCreated(c.batch, Ok((c.batchId, c.items)))
       else c.(next := c.next + 1))
  }

  function AfterError(call: SingleCall, error: string): Client {
    if call.key != "" && LooksLikeRace(error) then Relooking(call, error) else Created(call, Err(error))
  }

  function StartAccepting(batch: BatchCall, batchId: string, items: seq<Notification>): Client {
    if items == [] then BatchCreated(batch, Ok((batchId, items))) else BatchAccepting(batch, batchId, items, 0)
  }

  // -------------------------------------------------------------- invariant

  /** Every mapped batch id has a row of its tenant. */
  ghost predicate MappingsGrounded(db: Tables) {
    forall k | k in db.requests :: BatchExists(db.rows, db.requests[k], k.0)
  }

  ghost predicate BatchExists(rows: map<string, Notification>, batchId: string, tenant: string) {
    exists id | id in rows :: rows[id].batchId == batchId && rows[id].tenantId == tenant
  }

  /** What a call that got past its insert can rely on. */
  ghost predicate ClientOk(rows: map<string, Notification>, c: Client) {
    match c
    case Inserting(call, n) => n.tenantId == call.tenant && n.idempotencyKey == call.key && n.batchId == call.batchId
                               && Queued(n.status) && 0 <= n.attempts < n.maxAttempts
    case Relooking(call, _) => call.key != ""
    case Mapping(call, n) =>
      && call.key != "" && Matches(rows, n.id, call.tenant, call.key)
      && BatchExists(rows, call.batchId, TenantId(call.tenant))
    case Accepting(call, n) => Matches(rows, n.id, call.tenant, call.key)
    case Created(call, Ok(n)) => Matches(rows, n.id, call.tenant, call.key)
    case BatchLooking(batch) => batch.key != "" && batch.requests != []
    case BatchReading(batch, batchId) => batch.key != "" && BatchExists(rows, batchId, TenantId(batch.tenant))
    case BatchBuilding(batch) => batch.requests != []
    case BatchInserting(batch, batchId, items) =>
      items != [] && forall i | 0 <= i < |items| :: ItemOk(items[i], batch, batchId)
    case BatchMapping(batch, batchId, items) =>
      batch.key != "" && BatchExists(rows, batchId, TenantId(batch.tenant))
    case _ => true
  }

  predicate ItemOk(n: Notification, batch: BatchCall, batchId: string) {
    n.tenantId == batch.tenant && n.batchId == batchId && Queued(n.status) && 0 <= n.attempts < n.maxAttempts
  }

  ghost predicate CreationInv(db: Tables, clients: map<ClientId, Client>) {
    && KeysUnique(db.rows)
    && (forall id | id in db.rows :: db.rows[id].id == id)
    && MappingsGrounded(db)
    && forall c | c in clients :: ClientOk(db.rows, clients[c])
  }

  /** Rows may change their delivery columns and new rows may appear. */
  ghost predicate Evolves(rows: map<string, Notification>, rows': map<string, Notification>) {
    && rows.Keys <= rows'.Keys
    && forall id | id in rows :: SameIdentity(rows[id], rows'[id])
  }

  lemma BatchExistsEvolves(
    rows: map<string, Notification>, rows': map<string, Notification>, batchId: string, tenant: string)
    requires Evolves(rows, rows') && BatchExists(rows, batchId, tenant)
    ensures BatchExists(rows', batchId, tenant)
  {
    var id :| id in rows && rows[id].batchId == batchId && rows[id].tenantId == tenant;
    assert id in rows' && rows'[id].batchId == batchId && rows'[id].tenantId == tenant;
  }

  lemma ClientOkEvolves(rows: map<string, Notification>, rows': map<string, Notification>, c: Client)
    requires Evolves(rows, rows') && ClientOk(rows, c)
    ensures ClientOk(rows', c)
  {
    match c
    case Mapping(call, _) => BatchExistsEvolves(rows, rows', call.batchId, TenantId(call.tenant));
    case BatchReading(batch, batchId) => BatchExistsEvolves(rows, rows', batchId, TenantId(batch.tenant));
    case BatchMapping(batch, batchId, _) => BatchExistsEvolves(rows, rows', batchId, TenantId(batch.tenant));
    case _ =>
  }

  /** Statements of others that touch only delivery columns keep the invariant. */
  lemma EvolutionKeepsInv(db: Tables, db': Tables, clients: map<ClientId, Client>)
    requires CreationInv(db, clients)
    requires db'.rows.Keys == db.rows.Keys && Evolves(db.rows, db'.rows) && db'.requests == db.requests
    ensures CreationInv(db', clients)
  {
    forall c | c in clients
      ensures ClientOk(db'.rows, clients[c])
    {
      ClientOkEvolves(db.rows, db'.rows, clients[c]);
    }
    forall k | k in db'.requests
      ensures BatchExists(db'.rows, db'.requests[k], k.0)
    {
      BatchExistsEvolves(db.rows, db'.rows, db'.requests[k], k.0);
    }
    forall a, b | a in db'.rows && b in db'.rows && SameKey(db'.rows[a], db'.rows[b])
      ensures a == b
    {
      assert SameKey(db.rows[a], db.rows[b]);
    }
  }

  /** So does any accepted insert. */
  lemma InsertionKeepsInv(db: Tables, ns: seq<Notification>, clients: map<ClientId, Client>)
    requires CreationInv(db, clients) && Insertable(db.rows, ns)
    ensures CreationInv(db.(rows := InsertRows(db.rows, ns)), clients)
    ensures Evolves(db.rows, InsertRows(db.rows, ns))
  {
    var rows' := InsertRows(db.rows, ns);
    InsertKeepsRows(db.rows, ns);
    InsertKeepsKeysUnique(db.rows, ns);
    forall c | c in clients
      ensures ClientOk(rows', clients[c])
    {
      ClientOkEvolves(db.rows, rows', clients[c]);
    }
    forall k | k in db.requests
      ensures BatchExists(rows', db.requests[k], k.0)
    {
      BatchExistsEvolves(db.rows, rows', db.requests[k], k.0);
    }
    forall id | id in rows'
      ensures rows'[id].id == id
    {
      if id !in db.rows {
        assert id in Ids(ns);
        var i :| 0 <= i < |ns| && ns[i].id == id;
        InsertStoresRow(db.rows, ns, i);
      }
    }
  }

  lemma MappingKeepsGrounded(db: Tables, tenant: string, key: string, batchId: string)
    requires MappingsGrounded(db) && BatchExists(db.rows, batchId, TenantId(tenant))
    ensures MappingsGrounded(db.(requests := UpsertMapping(db.requests, tenant, key, batchId)))
  {
  }

  /** After a committed single insert the call's row is there under its key. */
  lemma SingleInserted(db: Tables, c: Client)
    requires c.Inserting? && ClientOk(db.rows, c) && Insertable(db.rows, [c.n])
    ensures Matches(InsertRows(db.rows, [c.n]), c.n.id, c.call.tenant, c.call.key)
    ensures BatchExists(InsertRows(db.rows, [c.n]), c.call.batchId, TenantId(c.call.tenant))
  {
    InsertStoresRow(db.rows, [c.n], 0);
    assert InsertRows(db.rows, [c.n])[c.n.id] == Stored(c.n);
  }

  lemma BatchInserted(db: Tables, c: Client)
    requires c.BatchInserting? && ClientOk(db.rows, c) && Insertable(db.rows, c.items)
    ensures BatchExists(InsertRows(db.rows, c.items), c.batchId, TenantId(c.batch.tenant))
  {
    InsertStoresRow(db.rows, c.items, 0);
    assert ItemOk(c.items[0], c.batch, c.batchId);
    assert InsertRows(db.rows, c.items)[c.items[0].id] == Stored(c.items[0]);
  }

  predicate IsSingle(op: Op) {
    op.Create? || op.Lookup? || op.Draft? || op.Insert? || op.Relook? || op.Map? || op.Accept?
  }

  lemma SingleKeepsClient(db: Tables, c: Client, op: Op, now: Time)
    requires OpOk(db, c, op) && ClientOk(db.rows, c) && IsSingle(op)
    requires forall id | id in db.rows :: db.rows[id].id == id
    ensures ClientOk(OpNext(db, c, op, now).0.rows, OpNext(db, c, op, now).1)
  {
    hide Insertable, InsertRows, Invalid, FirstInvalid, LooksLikeRace, BatchRows, BuildAll;
    if op.Insert? && !op.commit.Rejected? {
      SingleInserted(db, c);
    }
  }

  predicate IsStore(op: Op) {
    op.BatchInsert? || op.BatchMap? || op.BatchAccept?
  }

  lemma BatchStartKeepsClient(db: Tables, c: Client, op: Op, now: Time)
    requires OpOk(db, c, op) && ClientOk(db.rows, c) && MappingsGrounded(db) && !IsSingle(op) && !IsStore(op)
    ensures ClientOk(OpNext(db, c, op, now).0.rows, OpNext(db, c, op, now).1)
  {
    hide Insertable, InsertRows, Invalid, FirstInvalid, LooksLikeRace, BatchRows, KeyHit, Matches, UpsertMapping;
    if op.BatchLookup? && op.works {
      var k := (TenantId(c.batch.tenant), c.batch.key);
      assert k in db.requests ==> BatchExists(db.rows, db.requests[k], k.0);
    }
  }

  lemma BatchStoreKeepsClient(db: Tables, c: Client, op: Op, now: Time)
    requires OpOk(db, c, op) && ClientOk(db.rows, c) && IsStore(op)
    ensures ClientOk(OpNext(db, c, op, now).0.rows, OpNext(db, c, op, now).1)
  {
    hide Insertable, InsertRows, Invalid, FirstInvalid, LooksLikeRace, BatchRows, KeyHit, Matches, UpsertMapping;
    if op.BatchInsert? && !op.commit.Rejected? {
      BatchInserted(db, c);
    }
  }

  /** The call that takes the step ends up in a state it may rely on. */
  lemma OpKeepsClient(db: Tables, c: Client, op: Op, now: Time)
    requires OpOk(db, c, op) && ClientOk(db.rows, c) && MappingsGrounded(db)
    requires forall id | id in db.rows :: db.rows[id].id == id
    ensures ClientOk(OpNext(db, c, op, now).0.rows, OpNext(db, c, op, now).1)
  {
    hide OpOk, OpNext, ClientOk, MappingsGrounded;
    if IsSingle(op) {
      SingleKeepsClient(db, c, op, now);
    } else if IsStore(op) {
      BatchStoreKeepsClient(db, c, op, now);
    } else {
      BatchStartKeepsClient(db, c, op, now);
    }
  }

  /** What one statement of a call can do to the rows: nothing, or an accepted insert. */
  function InsertedBy(c: Client, op: Op): seq<Notification> {
    match op
    case Insert(commit) => if c.Inserting? && !commit.Rejected? then [c.n] else []
    case BatchInsert(commit) => if c.BatchInserting? && !commit.Rejected? then c.items else []
    case _ => []
  }

  lemma OpInserts(db: Tables, c: Client, op: Op, now: Time)
    requires OpOk(db, c, op)
    ensures Insertable(db.rows, InsertedBy(c, op))
    ensures OpNext(db, c, op, now).0.rows == InsertRows(db.rows, InsertedBy(c, op))
    ensures OpNext(db, c, op, now).0.windows == db.windows
  {
  }

  lemma OpKeepsInv(db: Tables, clients: map<ClientId, Client>, c: Client, op: Op, now: Time)
    requires CreationInv(db, clients) && ClientOk(db.rows, c) && OpOk(db, c, op)
    ensures CreationInv(OpNext(db, c, op, now).0, clients)
    ensures ClientOk(OpNext(db, c, op, now).0.rows, OpNext(db, c, op, now).1)
    ensures Evolves(db.rows, OpNext(db, c, op, now).0.rows)
  {
    OpKeepsClient(db, c, op, now);
    OpInserts(db, c, op, now);
    InsertionKeepsInv(db, InsertedBy(c, op), clients);
    if op.Map? {
      MappingKeepsGrounded(db, c.call.tenant, c.call.key, c.call.batchId);
    } else if op.BatchMap? {
      MappingKeepsGrounded(db, c.batch.tenant, c.batch.key, c.batchId);
    }
  }

  /** No statement changes or removes a mapping. */
  lemma OpKeepsMappings(db: Tables, c: Client, op: Op, now: Time)
    requires OpOk(db, c, op)
    ensures forall k | k in db.requests ::
              k in OpNext(db, c, op, now).0.requests && OpNext(db, c, op, now).0.requests[k] == db.requests[k]
  {
  }
}
