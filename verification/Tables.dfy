/** The four database tables as one value, and what each SQL statement of the
    repository does to it when it executes atomically. */
module Tables {
  import opened Domain
  import opened Text
  import opened Delivery

  /** A row of `rate_limit_windows`, keyed by limiter key and whole second. */
  datatype Window = Window(limitCount: int, usedCount: int)

  datatype Tables = Tables(
    rows: map<string, Notification>,
    events: seq<DeliveryEvent>,
    requests: map<(string, string), string>,
    windows: map<(string, int), Window>)

  /** The tenant a blank tenant name stands for. */
  function TenantId(value: string): string {
    if Blank(value) then "default" else value
  }

  /** A tenant name with anything but white space in it stands for itself. */
  lemma TenantIdMeaning(value: string)
    ensures (exists i | 0 <= i < |value| :: !IsSpace(value[i])) ==> TenantId(value) == value
    ensures (forall i | 0 <= i < |value| :: IsSpace(value[i])) ==> TenantId(value) == "default"
    ensures TenantId(TenantId(value)) == TenantId(value)
  {
    assert !IsSpace("default"[0]);
  }

  // -------------------------------------------------------------- inserts

  /** The row an insert stores: only the tenant name is normalised. */
  function Stored(n: Notification): Notification {
    n.(tenantId := TenantId(n.tenantId))
  }

  /** The partial unique index on (tenant_id, idempotency_key). */
  predicate SameKey(a: Notification, b: Notification) {
    a.idempotencyKey != "" && a.idempotencyKey == b.idempotencyKey && a.tenantId == b.tenantId
  }

  /** `n` violates neither the primary key nor the unique index of `rows`. */
  predicate NoConflict(rows: map<string, Notification>, n: Notification) {
    n.id !in rows && forall id | id in rows :: !SameKey(Stored(n), rows[id])
  }

  /** `rows` after inserting every element of `ns` in order. */
  function InsertRows(rows: map<string, Notification>, ns: seq<Notification>): map<string, Notification> {
    if ns == [] then rows
    else
      var last := ns[|ns| - 1];
      InsertRows(rows, ns[..|ns| - 1])[last.id := Stored(last)]
  }

  /** No insert of the sequence hits a unique index, so the transaction commits. */
  predicate Insertable(rows: map<string, Notification>, ns: seq<Notification>) {
    ns == [] ||
    (Insertable(rows, ns[..|ns| - 1]) &&
     NoConflict(InsertRows(rows, ns[..|ns| - 1]), ns[|ns| - 1]))
  }

  /** The ids of the notifications of a batch. */
  function Ids(ns: seq<Notification>): set<string> {
    set i | 0 <= i < |ns| :: ns[i].id
  }

  /** An accepted transaction keeps every old row as it was and adds the new ids. */
  lemma {:induction false} InsertKeepsRows(rows: map<string, Notification>, ns: seq<Notification>)
    requires Insertable(rows, ns)
    ensures InsertRows(rows, ns).Keys == rows.Keys + Ids(ns)
    ensures rows.Keys !! Ids(ns)
    ensures forall id | id in rows :: InsertRows(rows, ns)[id] == rows[id]
  {
    if ns != [] {
      var front := ns[..|ns| - 1];
      InsertKeepsRows(rows, front);
      assert Ids(ns) == Ids(front) + {ns[|ns| - 1].id};
    }
  }

  lemma InsertSingle(rows: map<string, Notification>, n: Notification)
    ensures Insertable(rows, [n]) <==> NoConflict(rows, n)
    ensures InsertRows(rows, [n]) == rows[n.id := Stored(n)]
  {
    assert [n][..0] == [];
  }

  /** … and stores every new notification under its id. */
  lemma {:induction false} InsertStoresRow(rows: map<string, Notification>, ns: seq<Notification>, i: nat)
    requires Insertable(rows, ns) && i < |ns|
    ensures ns[i].id in InsertRows(rows, ns)
    ensures InsertRows(rows, ns)[ns[i].id] == Stored(ns[i])
  {
    if i < |ns| - 1 {
      InsertStoresRow(rows, ns[..|ns| - 1], i);
    }
  }

  /** `(tenant, key)` names at most one row. */
  ghost predicate KeysUnique(rows: map<string, Notification>) {
    forall a, b | a in rows && b in rows && SameKey(rows[a], rows[b]) :: a == b
  }

  lemma {:induction false} InsertKeepsKeysUnique(rows: map<string, Notification>, ns: seq<Notification>)
    requires KeysUnique(rows) && Insertable(rows, ns)
    ensures KeysUnique(InsertRows(rows, ns))
  {
    if ns != [] {
      InsertKeepsKeysUnique(rows, ns[..|ns| - 1]);
    }
  }

  predicate Apart(a: Notification, b: Notification) {
    a.id != b.id && !SameKey(Stored(a), Stored(b))
  }

  lemma {:induction false} InsertableWhenApart(rows: map<string, Notification>, ns: seq<Notification>)
    ensures Insertable(rows, ns) <==>
            && (forall i | 0 <= i < |ns| :: NoConflict(rows, ns[i]))
            && (forall i, j | 0 <= i < j < |ns| :: Apart(ns[j], ns[i]))
  {
    hide NoConflict, Apart;
    if ns != [] {
      var front, last := ns[..|ns| - 1], ns[|ns| - 1];
      InsertableWhenApart(rows, front);
      assert forall i | 0 <= i < |front| :: front[i] == ns[i];
      if Insertable(rows, front) {
        NoConflictIff(rows, front, last);
      }
    }
  }

  /** Exactly the sequences of notifications that can be inserted: new and distinct ids,
      and no non-empty key twice within one tenant. */
  lemma InsertableIff(rows: map<string, Notification>, ns: seq<Notification>)
    ensures Insertable(rows, ns) <==>
            && (forall i | 0 <= i < |ns| :: ns[i].id !in rows)
            && (forall i, j | 0 <= i < j < |ns| :: ns[i].id != ns[j].id)
            && (forall i, id | 0 <= i < |ns| && id in rows ::
                  ns[i].idempotencyKey == "" || ns[i].idempotencyKey != rows[id].idempotencyKey
                  || TenantId(ns[i].tenantId) != rows[id].tenantId)
            && (forall i, j | 0 <= i < j < |ns| ::
                  ns[i].idempotencyKey == "" || ns[i].idempotencyKey != ns[j].idempotencyKey
                  || TenantId(ns[i].tenantId) != TenantId(ns[j].tenantId))
  {
    hide TenantId, InsertRows, Insertable;
    InsertableWhenApart(rows, ns);
  }

  lemma NoConflictIff(rows: map<string, Notification>, ns: seq<Notification>, n: Notification)
    requires Insertable(rows, ns)
    ensures NoConflict(InsertRows(rows, ns), n) <==>
            NoConflict(rows, n) && forall i | 0 <= i < |ns| :: Apart(n, ns[i])
  {
    hide SameKey, Stored;
    InsertKeepsRows(rows, ns);
    forall i | 0 <= i < |ns|
      ensures ns[i].id in InsertRows(rows, ns) && InsertRows(rows, ns)[ns[i].id] == Stored(ns[i])
    {
      InsertStoresRow(rows, ns, i);
    }
  }

  /** INSERT … ON CONFLICT DO NOTHING on `notification_requests`. */
  function UpsertMapping(requests: map<(string, string), string>, tenant: string, key: string, batchId: string)
    : map<(string, string), string>
  {
    if (TenantId(tenant), key) in requests then requests
    else requests[(TenantId(tenant), key) := batchId]
  }

  // -------------------------------------------------------------- updates

  predicate Due(n: Notification, at: Time) {
    n.scheduledAt.None? || n.scheduledAt.value <= at
  }

  function ClaimRow(n: Notification, now: Time): Notification {
    n.(status := Processing, updatedAt := now)
  }

  function DeliveredRow(n: Notification, messageId: string, now: Time): Notification {
    n.(status := Delivered, providerMessageId := messageId, attempts := n.attempts + 1, updatedAt := now)
  }

  function FailedRow(n: Notification, message: string, now: Time): Notification {
    n.(status := Failed, attempts := n.attempts + 1, lastError := message, scheduledAt := None, updatedAt := now)
  }

  function DeadLetterRow(n: Notification, message: string, now: Time): Notification {
    n.(status := DeadLetter, attempts := n.attempts + 1, lastError := message, scheduledAt := None, updatedAt := now)
  }

  function RetryRow(n: Notification, message: string, next: Time, now: Time): Notification {
    n.(status := Scheduled, attempts := n.attempts + 1, lastError := message,
       scheduledAt := Some(next), updatedAt := now)
  }

  /** The error text a worker stores for an answer that is no success. */
  function FailureMessage(r: Response): string {
    "provider status=" + Decimal(r.statusCode) + " err=" +
    (if r.err.None? then "<nil>" else r.err.value)
  }

  /** The write that follows the answer `r`, decided on the worker's `snapshot`
      and applied to whatever row is stored now: no statement looks at its status. */
  function MarkedRow(row: Notification, snapshot: Notification, r: Response, next: Time, now: Time): Notification {
    match Decide(snapshot.attempts, snapshot.maxAttempts, r)
    case Delivered => DeliveredRow(row, r.messageId, now)
    case Scheduled => RetryRow(row, FailureMessage(r), next, now)
    case DeadLetter => DeadLetterRow(row, FailureMessage(r), now)
    case _ => FailedRow(row, FailureMessage(r), now)
  }

  /** The row after a result write, by the answer's error and status code. */
  lemma MarkedRowMeaning(row: Notification, snapshot: Notification, r: Response, next: Time, now: Time)
    ensures var out := MarkedRow(row, snapshot, r, next, now);
            var counted := row.(attempts := row.attempts + 1, updatedAt := now);
            var failed := counted.(lastError :=
              "provider status=" + Decimal(r.statusCode) + " err=" + (if r.err == None then "<nil>" else r.err.value));
            if r.err == None && 200 <= r.statusCode < 300 then
              out == counted.(status := Delivered, providerMessageId := r.messageId)
            else if r.err != None || r.statusCode == 408 || r.statusCode == 429 || r.statusCode >= 500 then
              out == if snapshot.attempts + 1 < snapshot.maxAttempts
                     then failed.(status := Scheduled, scheduledAt := Some(next))
                     else failed.(status := DeadLetter, scheduledAt := None)
            else out == failed.(status := Failed, scheduledAt := None)
  {
  }

  predicate Cancellable(s: Status) {
    s.Pending? || s.Scheduled? || s.Processing?
  }

  function CancelRow(n: Notification, now: Time): Notification {
    n.(status := Cancelled, updatedAt := now)
  }

  /** The rows a cancellation of `ids` by `tenant` reaches. */
  function CancelTargets(rows: map<string, Notification>, ids: seq<string>, tenant: string): set<string> {
    set id | id in rows && id in ids && rows[id].tenantId == TenantId(tenant) && Cancellable(rows[id].status)
  }

  function CancelRows(rows: map<string, Notification>, targets: set<string>, now: Time): map<string, Notification> {
    map id | id in rows :: if id in targets then CancelRow(rows[id], now) else rows[id]
  }

  function ClaimRows(rows: map<string, Notification>, picked: set<string>, now: Time): map<string, Notification> {
    map id | id in rows :: if id in picked then ClaimRow(rows[id], now) else rows[id]
  }

  /** The columns no statement ever changes. */
  predicate SameIdentity(a: Notification, b: Notification) {
    && a.id == b.id
    && a.tenantId == b.tenantId
    && a.batchId == b.batchId
    && a.channel == b.channel
    && a.priority == b.priority
    && a.recipient == b.recipient
    && a.content == b.content
    && a.maxAttempts == b.maxAttempts
    && a.createdAt == b.createdAt
    && a.correlationId == b.correlationId
    && a.idempotencyKey == b.idempotencyKey
  }

  // --------------------------------------------------------------- events

  /** The event a worker writes after it handled the answer `r` for `snapshot`. */
  function WorkerEvent(snapshot: Notification, r: Response, next: Time, now: Time): DeliveryEvent {
    var verdict := Decide(snapshot.attempts, snapshot.maxAttempts, r);
    DeliveryEvent(
      TenantId(snapshot.tenantId), snapshot.id, snapshot.batchId, snapshot.channel, verdict,
      snapshot.attempts + 1,
      if verdict.Delivered? then "provider accepted" else FailureMessage(r),
      if verdict.Scheduled? then Some(next) else None,
      r.statusCode,
      if verdict.Delivered? then r.messageId else "",
      now)
  }

  /** The event as it is written: it carries the clock reading taken just before. */
  function Stamped(e: DeliveryEvent, at: Time): DeliveryEvent {
    e.(createdAt := at)
  }

  /** The event a client writes for a notification it created. */
  function AcceptedEvent(n: Notification, now: Time): DeliveryEvent {
    DeliveryEvent(TenantId(n.tenantId), n.id, n.batchId, n.channel, n.status, 0, "accepted", None, 0, "", now)
  }

  /** What a worker's event says: whose it is, which attempt, how it ended. */
  lemma WorkerEventMeaning(n: Notification, r: Response, next: Time, now: Time)
    ensures var e := WorkerEvent(n, r, next, now);
            && e.notificationId == n.id && e.batchId == n.batchId && e.channel == n.channel
            && e.tenantId == TenantId(n.tenantId) && e.attempt == n.attempts + 1
            && e.providerStatus == r.statusCode && e.createdAt == now
            && (e.status == Delivered <==> r.err == None && 200 <= r.statusCode < 300)
            && (e.status == Delivered ==>
                  e.reason == "provider accepted" && e.providerMessageId == r.messageId && e.nextAttemptAt == None)
            && (e.status != Delivered ==>
                  && e.providerMessageId == ""
                  && e.reason == "provider status=" + Decimal(r.statusCode) + " err="
                                 + (if r.err == None then "<nil>" else r.err.value))
            && (e.nextAttemptAt == if e.status == Scheduled then Some(next) else None)
            && forall row :: MarkedRow(row, n, r, next, now).status == e.status
  {
  }

  /** The events of notification `id` about delivery attempts, in id order. */
  function Logged(events: seq<DeliveryEvent>, id: string): seq<DeliveryEvent> {
    if events == [] then []
    else
      var last := events[|events| - 1];
      Logged(events[..|events| - 1], id) +
      (if last.notificationId == id && last.attempt != 0 then [last] else [])
  }

  lemma LoggedSnoc(events: seq<DeliveryEvent>, e: DeliveryEvent, id: string)
    ensures Logged(events + [e], id) ==
            Logged(events, id) + (if e.notificationId == id && e.attempt != 0 then [e] else [])
  {
    assert (events + [e])[..|events|] == events;
  }

  // --------------------------------------------------------- rate limiting

  /** The whole second an instant belongs to. */
  function WindowOf(at: Time): int {
    at / SECOND
  }

  function Used(windows: map<(string, int), Window>, key: string, window: int): int {
    if (key, window) in windows then windows[(key, window)].usedCount else 0
  }

  /** The slots one limiter call gets when `used` of the window are taken. */
  function Grantable(used: int, limit: int, requested: int): nat {
    if limit <= 0 || requested <= 0 || limit - used <= 0 then 0
    else if requested > limit - used then limit - used
    else requested
  }

  /** The whole limiter transaction, executed at once. */
  function AcquireSlots(windows: map<(string, int), Window>, key: string, window: int, limit: int, requested: int)
    : (map<(string, int), Window>, nat)
  {
    if limit <= 0 || requested <= 0 then (windows, 0)
    else
      var used := Used(windows, key, window);
      var acquired := Grantable(used, limit, requested);
      (windows[(key, window) := Window(limit, used + acquired)], acquired)
  }

  function DeliveryKey(channel: Channel): string {
    "delivery:" + channel
  }

  /** The limiter rows of different channels are different. */
  lemma DeliveryKeyInjective(a: Channel, b: Channel)
    requires DeliveryKey(a) == DeliveryKey(b)
    ensures a == b
  {
    assert DeliveryKey(a)[9..] == a && DeliveryKey(b)[9..] == b;
  }
}
