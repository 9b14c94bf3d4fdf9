# Notification delivery engine: a verified model

The repository accepts notifications, stores them in PostgreSQL, and has any number of
workers claim due rows, call a provider, and write the result back. Correctness rests on
no local guard: the result writes filter on the row id alone, several workers share each
channel, clients cancel at any moment, write errors are discarded, and a cycle can stop
in the middle of its list. This project models that engine and proves what holds in
every run.

## How it is built

- `Domain`, `Text`, `Delivery`, `Tables`, `Claiming`: the stored values, the retry
  decision and delay, what each SQL statement does to the tables, and what a claim may take.
- `Protocol`: the whole service as a step system over shared tables, with a map of any
  number of workers, a map of any number of client calls, one non-decreasing clock, and
  histories. Everything the environment chooses (time, provider answers, lost writes,
  jitter, locked rows, ties between equal ranks, where a worker stops) is part of a step,
  so a run is a sequence of steps and every theorem is about all of them.
- `Lifecycle`: the life of one notification, with its accounts of attempts, send times
  and events. `Ownership` shows that each step of the system is one move of each
  notification; `Preservation` shows that the global invariant is inductive; `Guarantees`
  states what follows for every reachable state, and `Cancellation` says which
  cancellations are final.
- `RateLimiter`: the limiter transaction statement by statement, and its linearisation;
  `Interleaving` mixes these statements with every other step and shows that such runs are
  runs of `Protocol`, where a limiter call is one step. `SendRate` and `Counting` compose the limiter with the delivery loop; `Tally` ties the
  sends counted there to those of each notification.
- `Creation`: the create calls, one statement at a time. `LostRaces`: where their
  idempotency ends. `Queries`, `Paging`: the two statements built at run time, and event
  paging.
- `Repository`, `Metrics`, `Service`: the code as classes updated in place. `Service` runs
  the worker cycle and the create calls with any steps of others between its statements,
  and proves that each of its statements is a step of `Protocol`; so every theorem about
  runs holds of the code. `Draining` has the measure by which a queue empties.

## Reading the main results

- "Reachable" means reached from empty tables by any steps. `Import` steps stand for rows
  inserted directly, with any attempts below the maximum.
- `Service.Interfere` is where others run. Its contract is all that its callers know of
  it, and `Service.OthersMayStep` shows that every sequence of others' steps meets it.
- `calm` is a switch of the environment, used only for liveness: no one else runs and
  nothing fails, while time still passes during a cycle, short of its deadline.

Three properties one might expect are false of the code. Each has an input that shows it
and the exact condition under which the code meets it:

- A cancellation does not always stick: it reaches rows in processing
  (`internal/repository/postgres.go:278`), and the result write of the worker that holds
  one ignores the status. `Cancellation.LateResultWins` is a run in which a cancelled row
  becomes delivered; `Cancellation.CancellationFinalIff` says that a cancellation is final
  exactly when no worker can still write a result for the row: none has it in a cycle
  whose deadline has not passed, and none has an answer for it that came in time. A queued
  or orphaned row is always cancelled for good.
- A keyed create that loses the insert race can fail although its key has a row. The
  fallback looks for the text "unique constraint failed"
  (`internal/service/service.go:111`), and the table lives in PostgreSQL, which words that
  error differently (`LostRaces.PostgresIsNoRace`). `LostRaces.SecondCreateFails` is such a
  run, with a rejected insert of a taken key; `LostRaces.LosingCreate` says that the losing
  call succeeds exactly when the text is the one looked for and the second lookup works.
- A mapped batch key does not always replay: a lookup that fails for any reason counts as
  a missing mapping (`internal/service/service.go:158`). `LostRaces.SecondBatch` stores a
  second batch under a mapped key that way, and in `LostRaces.FirstUseRace` nothing fails
  and two calls that look the key up before either maps it store a batch each.
  `Guarantees.LookupReplaysIff` says that a call replays exactly when its lookup worked and
  found the mapping.

## Model

| member | source | states |
|---|---|---|
| Delivery.BackoffRange | internal/service/service.go:406-424 | every jittered delay is in [2^(c+1), 1.25 * 2^(c+1)) seconds for the capped count c, is under 80 s, and no intermediate product leaves int64 |
| Delivery.BackoffExact | internal/service/service.go:417-424 | the jitter is b/1024 of the least delay rounded down, and nothing without a random byte |
| Delivery.BackoffGrows | internal/service/service.go:406-415 | below the cap the worst delay for a count is less than the best for the next; from the cap on the range is constant |
| Delivery.LeastWaitClosed | internal/service/service.go:406-415 | the least total wait of n retries is 2^(n+1) - 2 seconds up to six, then 64 s more each |
| Tables.InsertKeepsRows | internal/repository/postgres.go:108-136 | a committed insert adds exactly the new ids and changes no old row |
| Tables.InsertStoresRow | internal/repository/postgres.go:116-129 | each new row is stored under its id, as given but for the normalised tenant |
| Tables.InsertKeepsKeysUnique | internal/repository/postgres.go:80 | no committed insert gives two rows one tenant and non-empty key |
| Tables.InsertableIff | internal/repository/postgres.go:80 | exactly the inserts that can commit: new, distinct ids and no non-empty key twice within one tenant; other tenants may use the same key |
| Tables.TenantIdMeaning | internal/repository/postgres.go:505-510 | a blank tenant name is the default tenant, any other stands for itself |
| Tables.MarkedRowMeaning | internal/service/service.go:316-346 | the row after a result write, column by column, by the answer's error and status code and the attempts left |
| Tables.WorkerEventMeaning | internal/service/service.go:436-450 | whose a worker's event is, and the attempt, result, reason, next attempt, status code and message id it carries |
| Tables.DeliveryKeyInjective | internal/service/service.go:278 | different channels have different limiter rows |
| Claiming.ClaimMeaning | internal/repository/postgres.go:291-306 | a claim takes due, unlocked rows that wait on the channel; it leaves one only when full and of rows at least as urgent: high before normal before the rest, older before younger |
| Claiming.CandidatesAfterClaim | internal/repository/postgres.go:291-306 | claimed rows, and no others, stop being candidates |
| Claiming.ClaimsCompose | internal/repository/postgres.go:291-306 | a top-a claim and then a top-b claim at the same moment are together a valid top-(a+b) claim |
| Claiming.ClaimsDecompose | internal/repository/postgres.go:291-306 | every valid top-(a+b) claim arises that way |
| Claiming.ClaimSize | internal/repository/postgres.go:300 | a claim takes min(k, candidates) rows, whatever the ties |
| Claiming.FirstExists | internal/repository/postgres.go:291-306 | a valid claim always exists |
| RateLimiter.Linearizable | internal/repository/postgres.go:376-410 | any interleaving of upsert, locked read, update, commit and rollback has the table and answers of its committed calls run one by one |
| RateLimiter.ReplayIsExact | internal/repository/postgres.go:388-395 | calls run one by one grant exactly min(limit, sum of positive requests) |
| RateLimiter.LimiterExact | internal/repository/postgres.go:367-410 | so does any interleaving, and used_count stores that sum |
| Interleaving.ShadowStep | internal/repository/postgres.go:376-410 | each statement of a limiter transaction, among any other steps, is no step of the protocol, or at its commit exactly the limiter call, or at its failure the end of the cycle |
| Interleaving.InterleavedRunsAreRuns | internal/repository/postgres.go:367-410 | every run with interleaved limiter statements reaches what some run of the protocol reaches |
| Lifecycle.MoveKeepsAccounted | internal/service/service.go:314-346 | every move of one notification keeps its account of status, attempts, sends and answers |
| Lifecycle.MoveKeepsSpaced | internal/service/service.go:322-323 | every move keeps its sends a retry delay apart and after the requested time |
| Lifecycle.MoveKeepsEvented | internal/service/service.go:436-450 | every move keeps logged, owed and lost events accounted for, one per decided attempt |
| Lifecycle.FinishedStays | internal/repository/postgres.go:321-359 | no move touches a settled row, or a cancelled one that no worker has, free or orphaned |
| Ownership.Simulates | internal/service/service.go:266-356 | every step of the system moves every notification along its life: row, history and log |
| Preservation.StepKeepsInv | internal/repository/postgres.go:291-306 | the invariant of ownership, accounts and creation survives every step of anyone |
| Preservation.StepEvolves | internal/repository/postgres.go:108-359 | no step changes an identity column, removes a row, or changes a mapping |
| Guarantees.ExclusiveOwnership | internal/service/service.go:287-354 | at most one worker holds a notification; a held row is processing or cancelled, never claimable |
| Guarantees.SnapshotIsStored | internal/service/service.go:314-321 | the snapshot a worker decides on is the stored count and maximum, and leaves an attempt |
| Guarantees.AttemptsBound | internal/service/service.go:314-329 | queued rows have attempts left, and sends never exceed them, even with lost writes and aborts |
| Guarantees.ResultsAbsorbing | internal/repository/postgres.go:321-359 | a delivered, failed or dead-letter row never changes and is never sent again, in any continuation |
| Guarantees.OrphansStay | internal/service/service.go:303-307 | a row left in processing that no worker holds is never claimed, sent or settled in any continuation; only a cancellation changes it |
| Cancellation.CancelledFinalIff | internal/repository/postgres.go:321-359 | a cancelled row stays cancelled in every continuation exactly when no worker can still write its result |
| Cancellation.CancellationFinalIff | internal/repository/postgres.go:278-280 | the same, told from the state before the cancellation |
| Cancellation.CancelledUnheldIsFinal | internal/repository/postgres.go:270-286 | a final cancellation, in particular of a queued or orphaned row, also ends sending, in any continuation |
| Cancellation.StepKeepsFinal | internal/service/service.go:293-354 | no step gives a worker the chance to overwrite a cancelled row that none had before |
| Cancellation.Overwrite | internal/service/service.go:293-354 | a worker that can overwrite a cancelled row does so in some continuation, wherever in its list the row is |
| Cancellation.LateResultWins | internal/repository/postgres.go:321-329 | a run from empty tables in which a cancelled row becomes delivered |
| Guarantees.CancelReach | internal/repository/postgres.go:278-280 | a cancellation touches no other tenant, no unlisted and no settled row, and cancels every row it reaches |
| Guarantees.OpenMeaning | internal/service/service.go:316-346 | the fold of answers is open exactly while all were retryable and attempts remain |
| Guarantees.OutcomeMeaning | internal/service/service.go:316-346 | what closes the fold: a success or permanent error after retryable ones, or exhausting the attempts |
| Guarantees.RowIsOutcome | internal/service/service.go:316-346 | a row no worker holds, with no lost result, shows the fold of the answers it received |
| Guarantees.RetryableMeaning | internal/service/service.go:426-434 | an error, 408, 429 and codes from 500 up ask for a retry; no error and 200 to 299 is a success |
| Guarantees.SettledMeaning | internal/service/service.go:316-346 | a final status tells the whole story of its answers, both ways, in terms of their errors and status codes |
| Guarantees.AcceptedOnce | internal/service/service.go:316-346 | with any lost writes and aborts, every answer but the last asked for a retry; the provider accepts a notification at most once and gets nothing after that |
| Guarantees.LosslessRun | internal/service/service.go:323-347 | a run with no lost write and no abort loses no result or event and orphans no row |
| Guarantees.LosslessOutcome | internal/service/service.go:316-346 | there every unheld row is queued, cancelled, or final exactly when the fold of its answers is |
| Guarantees.EventLog | internal/service/service.go:436-450 | worker events of a notification have distinct attempts, tell the true decision, and a terminal one has the largest attempt number |
| Guarantees.EventsComplete | internal/service/service.go:323-347 | with nothing lost, logged and about-to-be-logged attempts are exactly those after the initial count |
| Guarantees.EventsAppendOnly | internal/repository/postgres.go:155-158 | no step changes or removes an event |
| Guarantees.SendsSpaced | internal/service/service.go:322-323 | between any two sends lie the least delays of the attempts between; nothing is sent before its requested time |
| Guarantees.RetrySpacing | internal/service/service.go:406-415 | send k starts at least 2^k - 2 seconds after the first for k up to 7, and 64 s more for each after |
| Guarantees.OneRowPerKey | internal/repository/postgres.go:80 | in every reachable state a tenant and non-empty key name at most one row |
| Guarantees.SingleCreateIdempotent | internal/service/service.go:80-121 | every create call that succeeded with a key returned the id of the one row under that key |
| Guarantees.CreatedStays | internal/service/service.go:61-131 | the row a create call answered with exists in every continuation |
| Guarantees.MappingWriteOnce | internal/repository/postgres.go:165-168 | a mapping never changes and its batch always has a row of the tenant |
| Guarantees.BatchReplays | internal/service/service.go:157-162 | a batch call that read its mapping inserts nothing and answers with the mapped, non-empty batch or an error |
| Guarantees.LookupReplaysIff | internal/service/service.go:157-162 | a call replays a batch exactly when its lookup works and finds that batch; a failed lookup does not |
| LostRaces.LosingInsert | internal/service/service.go:110-121 | an insert whose key is taken cannot commit, and ends the call with its error at once exactly when the text is not the one looked for |
| LostRaces.LosingCreate | internal/service/service.go:110-121 | the losing call succeeds exactly when the text is looked for and the second lookup works, whatever happens in between |
| LostRaces.RaceText | internal/service/service.go:111 | any text that contains the words looked for, also in capitals, is taken for a race |
| LostRaces.PostgresIsNoRace | internal/repository/postgres.go:80 | PostgreSQL's text for the violated index is not the one looked for |
| LostRaces.SecondCreateFails | internal/service/service.go:80-121 | a run in which a create's insert is rejected while its key has another call's row, and the call fails |
| LostRaces.SecondBatch | internal/service/service.go:157-206 | a run in which a call whose lookup fails stores a second batch under a key that is mapped, and both calls succeed |
| LostRaces.FirstUseRace | internal/service/service.go:157-206 | a run with no failed lookup in which two calls with one key store a batch each, and both succeed |
| SendRate.StepKeepsRateInv | internal/service/service.go:278-309 | slots granted are never spent twice, by any worker, at any step |
| SendRate.SendRateBound | internal/worker/manager.go:69-70 | a channel starts at most (T+6) * limit sends in any T whole seconds, across all workers |
| SendRate.SendsWithinGrants | internal/service/service.go:278-309 | sends paid for in a window are at most its used_count, which is at most the limit |
| Tally.ProviderCalls | internal/service/service.go:309-313 | the provider is called for a notification as often as its history says, and at most as often as attempts were left |
| Creation.ValidIffAcceptable | internal/service/service.go:370-387 | a request passes exactly with a recipient, a content, one of the three channels and at most its bytes; otherwise which error it gets |
| Creation.NewDescribes | internal/service/service.go:88-109 | the notification built is what the request asks for, field by field, and so is its row |
| Creation.FirstInvalidIsFirst | internal/service/service.go:166-174 | a batch fails with the error of the first request that has one |
| Creation.InsertionKeepsInv | internal/repository/postgres.go:108-136 | an accepted insert keeps keys unique, mappings grounded, and what running calls rely on |
| Creation.OpKeepsInv | internal/service/service.go:61-214 | so does every statement of every create call |
| Creation.OpKeepsMappings | internal/repository/postgres.go:165-168 | no statement changes or removes a mapping |
| Creation.OpInserts | internal/service/service.go:110-197 | a create call's only effect on rows is one accepted insert |
| Text.AsciiSpaces | internal/service/service.go:371-376 | the white space among the ASCII characters |
| Text.ByteLengthRange | internal/service/service.go:383-384 | bytes equal characters exactly for ASCII text, and are at most four a character |
| Text.AtoiDecimal | internal/app/app.go:293-297 | parsing a printed 64-bit number gives it back |
| Paging.BoundedLimitRange | internal/app/app.go:278-298 | the page size is positive and bounded: the requested one when in range, 50 when none or no number was given, as by any character that is no digit or leading sign |
| Paging.PagingComplete | internal/app/app.go:178-193 | on a fixed log paging ends after floor(n / limit) + 1 pages with every event once, in order |
| Paging.PagingWhileGrowing | internal/repository/postgres.go:253-268 | while events are appended, every event of the first log still appears exactly once, in order |
| Paging.VisibleGrows | internal/repository/postgres.go:254 | appending events only appends to what a tenant sees of a notification |
| Paging.VisibleMeaning | internal/repository/postgres.go:254 | what is paged over is exactly the tenant's events of the notification, by position, in the order written |
| Paging.PagingOverRuns | internal/app/app.go:178-193 | whatever the system does between the pages, paging gathers the events there are at the last page, in order, with all those of the first |
| Queries.BuildList | internal/repository/postgres.go:215-234 | the clauses and arguments hold of a row exactly when the tenant, status, channel, from and to filter does |
| Queries.ListMeansFilter | internal/repository/postgres.go:215-234 | the built query over any table has exactly the answers of the direct filter, order, limit and offset |
| Queries.ListMeaning | internal/repository/postgres.go:215-247 | what `List` answers: of all the tenant's rows with the status of that word, on the channel, in the interval, newest first, the page from the offset on; an unknown word finds nothing |
| Queries.Placeholders | internal/repository/postgres.go:490-496 | the text is the comma-joined list of the positions |
| Queries.PlaceholdersReadBack | internal/repository/postgres.go:490-496 | reading that text back gives exactly the positions start to start + count - 1 |
| Queries.BuildCancel | internal/repository/postgres.go:274-280 | the cancel statement's positions and arguments |
| Queries.CancelPositions | internal/repository/postgres.go:279-280 | for every id list the positions partition 1 to n |
| Queries.CancelMeansTargets | internal/repository/postgres.go:278-280 | the statement read from its text selects exactly the tenant's listed, cancellable rows |
| Metrics.Metrics.SetQueueDepth | internal/observability/metrics.go:46-55 | the exported deltas add up to the last depth set |
| Metrics.Metrics.IncSuccess | internal/observability/metrics.go:57-69 | one success and one timing more; exported and local totals agree |
| Metrics.Metrics.IncFailure | internal/observability/metrics.go:71-83 | one failure and one timing more; exported and local totals agree |
| Repository.Repository.InsertNotifications | internal/repository/postgres.go:108-136 | all rows or none; rejected by a unique index or a failure |
| Repository.Repository.RecordEvent | internal/repository/postgres.go:138-163 | one event appended, only for an existing notification |
| Repository.Repository.UpsertRequestMapping | internal/repository/postgres.go:165-168 | the first batch id of a key is kept |
| Repository.Repository.GetBatchIDByKey | internal/repository/postgres.go:170-177 | the mapping of the normalised tenant and key, if any |
| Repository.Repository.GetByIdempotencyKey | internal/repository/postgres.go:190-193 | a row under tenant and key, or none exists |
| Repository.Repository.GetByBatch | internal/repository/postgres.go:195-202 | exactly the batch's rows of the tenant, oldest first; it works when nothing fails |
| Repository.SelectOldest | internal/repository/postgres.go:196 | taking the oldest remaining row until none is left lists every row once, oldest first |
| Repository.Repository.CancelPending | internal/repository/postgres.go:270-286 | exactly the targets move or none, and a count that is returned is the number of distinct rows moved; the answer can be lost after the move |
| Repository.Repository.ClaimDue | internal/repository/postgres.go:288-319 | a valid top-limit claim of unlocked due rows, marked processing and otherwise unchanged, returned as stored; the answer can be lost after the claim |
| Repository.SelectCandidates | internal/repository/postgres.go:291-303 | choosing the best remaining candidate until the limit is a valid claim |
| Repository.Repository.MarkDelivered | internal/repository/postgres.go:321-329 | the new row, whatever the old status |
| Repository.Repository.MarkFailed | internal/repository/postgres.go:331-339 | the new row, whatever the old status |
| Repository.Repository.MarkDeadLetter | internal/repository/postgres.go:341-349 | the new row, whatever the old status |
| Repository.Repository.ScheduleRetry | internal/repository/postgres.go:351-359 | the new row, whatever the old status |
| Repository.Repository.QueueDepthByChannel | internal/repository/postgres.go:361-365 | the number of queued rows of the channel |
| Repository.Repository.AcquireRateLimitSlots | internal/repository/postgres.go:367-410 | the transaction does what the one-step limiter call does, or nothing |
| Service.OthersMayStep | internal/worker/manager.go:47-54 | any steps of other workers and clients extend the run and leave this worker or call undisturbed |
| Service.CreatedIsUnique | internal/service/service.go:80-121 | a successful create call's answer is the only row under its key |
| Service.Service.constructor | internal/service/service.go:37-59 | non-positive limits leave the defaults 10 and 100 |
| Service.Service.WriteResult | internal/service/service.go:316-346 | the branch taken writes the row of the decided result, whose status follows from the answer's error and status code, unless the context has expired |
| Service.Service.Attempt | internal/service/service.go:308-313 | the provider call is a send and an answer of the protocol |
| Service.Service.WriteAndMark | internal/service/service.go:316-346 | the result write is the protocol's step for it, and nothing is written once the context has expired |
| Service.Service.Settle | internal/service/service.go:314-346 | the result write, and the event that goes with it |
| Service.Service.LogEvent | internal/service/service.go:436-450 | the event write, with a clock reading taken after the result write; ignored when it fails |
| Service.Service.Deliver | internal/service/service.go:293-354 | one loop pass: it adds to what this worker did exactly a send, its answer, a result write and an event write, in this order; one success or failure counted by the answer; in calm exactly the decided row, whose status follows from the answer's error and status code, and its event are written; a retry comes after at least the least delay of that attempt and less than 1.25 times it |
| Service.Service.AskLimiter | internal/service/service.go:278-286 | the limiter call as one step, refused by an expired context |
| Service.Service.Reserve | internal/service/service.go:278-286 | the limiter call; zero slots or an error ends the cycle |
| Service.Service.ClaimNext | internal/service/service.go:287-291 | the claim; its list is the worker's queue, an error ends the cycle |
| Service.Service.DeliverAll | internal/service/service.go:293-354 | the loop, stopped by an expired context; what it adds to the shared counters equals its result writes |
| Service.Service.WorkOn | internal/service/service.go:278-355 | in calm the cycle sends exactly min(granted, due) rows with one event each, leaves none in processing, and takes an attempt off the total for each |
| Service.Service.ProcessChannel | internal/service/service.go:266-356 | a whole cycle is a run of the protocol that ends idle; in calm the above, and the depth set is the queue's |
| Service.Service.RunChannel | internal/worker/manager.go:56-76 | the ticker loop until its context ends, after any number of ticks, is such a run |
| Service.Service.DrainSome | internal/worker/manager.go:63-74 | at the next due moment with an open window a cycle sends something |
| Service.Service.Drain | internal/worker/manager.go:56-76 | in calm the queue empties, whatever was left in processing before: every queued row gets a final result within the sum of remaining attempts in sends |
| Service.Service.FindExisting | internal/service/service.go:80-87 | the first lookup; in calm it finds a row exactly when there is one |
| Service.Service.Draft | internal/service/service.go:88-109 | the notification built is what the request asks for, field by field |
| Service.Service.InsertOne | internal/service/service.go:110-121 | the insert, and which way the call goes on after it |
| Service.Service.LookAgain | internal/service/service.go:111-118 | the second lookup after an insert that looks like a lost race |
| Service.Service.InsertNew | internal/service/service.go:88-130 | insert, fallback, mapping and event are the statements of one call, in order; in calm all of row, mapping and event are stored, or nothing |
| Service.Service.CreateNotification | internal/service/service.go:61-131 | a success answers with the one row under the key; an expired context or an invalid request changes nothing; in calm an existing key is answered with its row otherwise, and a success without one stores exactly one row, which is what the request asks for, its mapping and its event |
| Service.Service.EnterBatch | internal/service/service.go:141-156 | the entry checks pass exactly for a live context and 1 to 1000 requests |
| Service.Service.FindBatch | internal/service/service.go:157-162 | the lookup of the batch key; in calm it finds exactly the mapping |
| Service.Service.BuildItems | internal/service/service.go:163-196 | the error of the first request that is not acceptable, or, when all are, a notification for each that is what it asks for |
| Service.Service.StoreBatch | internal/service/service.go:197-206 | the insert of all rows or none, then the mapping; in calm both or neither |
| Service.Service.RecordAllAccepted | internal/service/service.go:210-212 | one accepted event a row, in order |
| Service.Service.CreateItems | internal/service/service.go:163-214 | a call without a mapping: in calm a success stores everything, an error nothing |
| Service.Service.ReadBatch | internal/service/service.go:158-161 | the mapped batch answered from the table |
| Service.Service.CreateBatch | internal/service/service.go:133-215 | the call is its statements in order; in calm a mapped key changes no table and is answered with the mapped batch exactly when the entry checks pass, and any other success stores exactly the rows that its requests ask for, the mapping and one event a row; outside a replay a request that is not acceptable makes the call fail with the first such error |
| Service.Service.CancelNotifications | internal/service/service.go:259-264 | the result is the number of rows the cancellation, the last step of the run, moved in the state it found |
| Draining.ClaimKeepsTotal | internal/repository/postgres.go:291-306 | a claim moves rows from waiting to processing and keeps the attempts left |
| Draining.MarkLowersTotal | internal/repository/postgres.go:321-359 | a result write takes at least one attempt off the total and the row out of processing |
| Draining.OpenWindowOpens | internal/repository/postgres.go:382-398 | at most one second later every window from then on has a slot |
| Draining.CycleSends | internal/service/service.go:278-309 | a due row and a free slot make the next cycle send |

## Left out

- HTTP handlers, JSON, middleware, OpenAPI, configuration, logging and telemetry: plumbing with no hard state.
- The provider client (`internal/provider/webhook.go`): any message id, status code and error can come back.
- PostgreSQL internals: statements and transactions are atomic, row locks and SKIP LOCKED work as documented, and the declared indexes hold; only the limiter transaction is modelled statement by statement.
- The moment a context expires inside the database driver: a statement a worker starts after its deadline is refused, one started before may take effect at any later time.
- Time: one clock, in nanoseconds, never going back; PostgreSQL keeps microseconds, and that rounding is not modelled. The time a result write, a claim or a cancellation puts in `updated_at`, and that of a create call's own event, is the moment the statement takes effect.
- Random ids: any string can be chosen, a clash is caught by the primary key, and no theorem assumes freshness.
- Reclaiming rows left in processing by an abort, a lost write or a lost claim answer: the code has none, so draining says nothing of those rows (`Guarantees.OrphansStay` says what becomes of them).
- Stable paging of `List` among equal creation times: the code does not provide it.
- `MetricsSnapshot` and the latency averages of `Snapshot`: sums over the counters that are modelled.
- `GetNotification`, `ListDeadLetters` and `ListEvents` as methods: a lookup, an instance of `List`, and the page function of `Paging`.
- Rows inserted directly with no attempts left or already claimed: no caller in the repository makes them.
- The content limit counts bytes although its message says characters; it is modelled as the code has it.
- Service.Service.Interfere: its body takes no step; its contract allows every step of others, and any counting of theirs in the shared metrics, and callers see the contract alone.
- Service.Service.CallProvider: has no contract, because the provider may answer anything.
- Service.Service.RunChannel: a loop that never ends is covered by its finite beginnings, because a method has to return.
- Queries.ListMeansFilter: which of several orders of equal creation times comes out is left open, as SQL leaves it.
