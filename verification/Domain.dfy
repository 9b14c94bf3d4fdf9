/** The values the notification service stores and exchanges. */
module Domain {

  datatype Option<+T> = None | Some(value: T)

  datatype Result<+T> = Ok(value: T) | Err(error: string)

  /** An instant, or a duration, in nanoseconds. */
  type Time = int

  const SECOND: Time := 1_000_000_000

  type Byte = b: int | 0 <= b < 256

  type Channel = string

  const SMS: Channel := "sms"
  const EMAIL: Channel := "email"
  const PUSH: Channel := "push"

  datatype Priority = High | Normal | Low | OtherPriority(text: string)

  datatype Status =
    | Pending
    | Processing
    | Delivered
    | Failed
    | Cancelled
    | Scheduled
    | DeadLetter

  /** One row of the `notifications` table. The empty string stands for the
      NULL that an empty optional text column is stored as. */
  datatype Notification = Notification(
    id: string,
    tenantId: string,
    batchId: string,
    recipient: string,
    channel: Channel,
    content: string,
    priority: Priority,
    status: Status,
    attempts: int,
    maxAttempts: int,
    scheduledAt: Option<Time>,
    createdAt: Time,
    updatedAt: Time,
    correlationId: string,
    idempotencyKey: string,
    providerMessageId: string,
    lastError: string)

  /** One row of the `notification_events` table. */
  datatype DeliveryEvent = DeliveryEvent(
    tenantId: string,
    notificationId: string,
    batchId: string,
    channel: Channel,
    status: Status,
    attempt: int,
    reason: string,
    nextAttemptAt: Option<Time>,
    providerStatus: int,
    providerMessageId: string,
    createdAt: Time)

  datatype NotificationRequest = NotificationRequest(
    recipient: string,
    channel: Channel,
    content: string,
    priority: Priority,
    scheduledAt: Option<Time>,
    idempotencyKey: string)

  /** What the provider client returns: a message id, a status code, an error. */
  datatype Response = Response(messageId: string, statusCode: int, err: Option<string>)

  type WorkerId = nat
  type ClientId = nat

  /** A row the workers may claim. */
  predicate Queued(s: Status) {
    s.Pending? || s.Scheduled?
  }

  /** A row with a final provider result. */
  predicate Settled(s: Status) {
    s.Delivered? || s.Failed? || s.DeadLetter?
  }

  function StatusText(s: Status): string {
    match s
    case Pending => "pending"
    case Processing => "processing"
    case Delivered => "delivered"
    case Failed => "failed"
    case Cancelled => "cancelled"
    case Scheduled => "scheduled"
    case DeadLetter => "dead_letter"
  }

  function Min(a: int, b: int): int {
    if a < b then a else b
  }

  /** A finite set has a least element of a total, transitive order. */
  lemma {:induction false} Least<T>(s: set<T>, noLater: (T, T) -> bool) returns (e: T)
    requires s != {}
    requires forall x, y | x in s && y in s :: noLater(x, y) || noLater(y, x)
    requires forall x, y, z | x in s && y in s && z in s && noLater(x, y) && noLater(y, z) :: noLater(x, z)
    ensures e in s && forall y | y in s :: noLater(e, y)
    decreases |s|
  {
    e :| e in s;
    if s != {e} {
      var r := Least(s - {e}, noLater);
      assert forall y | y in s :: y == e || y in s - {e};
      if noLater(r, e) {
        e := r;
      }
    }
  }
}
