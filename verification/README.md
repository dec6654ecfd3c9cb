# Verified model of the ingestion control plane

This project models, in Dafny 4.11, the parts of the ingestion system whose guarantees follow from no single
function, and proves those guarantees:

* the durable task control plane: task rows, transactional outbox with expiring claims, an at-least-once stream with a
  pending list, leased workers with heartbeats, retries, dead letters and replay;
* the pool of service tokens and the collection loop that leases from it;
* the ingestion upsert with its keyword contributions and hourly rollups, and what redelivery, interrupted or interleaved,
  does to them;
* the capability planner: validation, route choice, clamping, and the travel of a request through a task payload.

`dafny verify dfyconfig.toml` checks everything.

## How the model is built

**Steps and runs.** `Protocol` describes every transaction and stream command as one action with a total function
`Next` on the shared state; `Enabled` says what each program has established before it takes a step. A `Run` is any
interleaving of such steps, by any number of processes; a crash is simply a run in which a process takes no further
step. `ProtocolInvariant` holds the inductive invariant; `ProtocolRuns`, `LeaseHistory`, `Lineage`, `Completion`,
`SharedNames` and `ReplayBatches` hold the theorems over whole runs.

**Programs.** The classes `TaskRepository`, `RedisStreamQueue`, `DurableOutboxDispatcher`, `TaskLeaseGuard`,
`DeadLetterReplayService` and `Worker` update one `Database` object in place. Its ghost field `history` records every
step taken so far, and `Valid()` says that the tables are what those steps made of them and that every step was legal.
So each method proves that it takes only legal steps, which makes every theorem about runs apply to the programs.
`Interfere()` stands wherever other processes may run between two transactions: its contract lets any legal
continuation happen, and callers know nothing more. `TokenRepository` and `IngestionExecutor` (tokens) and
`AnalyticsDatabase` (feed) are built the same way, and `Execution` joins them to the worker: it plans the task's payload
(`TaskPlanning`), and what it collects it persists before the task is completed.

**Specification and program.** Where a method is proved equal to a function, what the source promises is proved about
that function in the lemmas beside it. `Statements`, `ObservationKeys`, `ContractMeaning` and the predicates beside the
token and feed tables say what the SQL statements and the contracts mean on rows and values, without the functions that
carry them out; the methods' contracts are stated with them.

## Modelling assumptions

* Each transaction or single statement is one atomic step. The database's default isolation is weaker than this.
* One non-decreasing clock answers `NOW()` and `utcnow()`. Task and token times are reals, feed times are integral
  microseconds in UTC.
* Serial ids are fresh. Claim tokens are arbitrary parameters; no theorem needs them to be distinct.
* The stream does not lose its data set. Which idle entries a reclaim picks is a parameter of the step, so that the
  invariants hold for any choice; `Completion` takes the lowest idle id, as the server does. Rows locked by other
  transactions (`FOR UPDATE SKIP LOCKED`) are a parameter `locked`.
* Idempotency keys given by users never collide with the keys the replay service derives: the two are different
  constructors of `IdempotencyKey`.
* How an adapter, the closing of its token lease or an `XADD` ends is a parameter (`Script`, `closes`, `addFails`), and
  so is how the collecting and persisting operation ends on its own (`Ending`). Each statement a worker sends for a
  delivery goes through, raises before it was applied, or raises after (`Faults`, `Effect`): the lease, the stale check,
  every heartbeat and its touch, completion, failure transition, both releases and the acknowledgement. A read or
  reclaim that raises ends the worker's turn, which is a run in which the worker takes no further step.
* Reading the JSON of a task's payload is a parameter (`decode`).
* Text functions (keywords, hash), `isoformat`, `date.fromisoformat`, `int(str)` and `str(value)` are arbitrary
  functions given as parameters.
* That a record leaves its own observation assumes, where other processes persist meanwhile, that they do not use its key
  (`keys`); alone it assumes nothing.
* That every checkout of a collection is a step of the pool's run and its lease gone once closed (`AllGivenBack`) needs
  no assumption. Only the additional `NoNewLeases` clauses assume that no other process checks tokens out under the
  worker's own three names meanwhile.

## Where the code and its documentation differ

* implemented.md:103 lists stale-owner commit rejection; implemented.md:107 names unique lease tokens as remaining
  work, and the model shows where that matters. The fence compares owner name and generation only
  (xingestion/control_plane.py:212-215) and worker names repeat between processes, so `SharedNameIsNotFenced` gives a
  run in which an owner whose lease expired still commits over a later owner of the same name.
  `FenceAdmitsExactly` says exactly whom the fence admits, and `FencedOwnerIsLatest` proves the documented guarantee
  when each acquisition has a name of its own.
* An expired lease that nobody has retaken may still complete, retry or dead-letter its task: `ExpiredLeaseStillPasses`
  is a run, and `FenceAdmitsExactly` the exact condition.
* Validation checks the list of allowed values before it strips the text, and it does not validate defaults. So it is
  idempotent exactly for the contracts `IdempotentExactlyWhen` describes; the shipped contract is one of them.
* analytics_parser.py:157-158 says that counters are observed maxima and also preserved as observation rows. A second
  sighting under the same observation key leaves no row (`CounterMayExceedObservations`). `AttainedExactlyWhen` says for
  one upsert, and `CountersPreservedExactlyWhen` for a whole batch, exactly when every counter is still preserved.
* A revoked token does not stay revoked: `mark_cooldown` overwrites any status (xingestion/control_plane.py:673-681) and
  the recovery then makes the token active (`CooldownRevivesRevoked`). `RevokedAfterStepExactlyWhen` names the steps
  that do this, and no others.

## Model

| member | source | states |
|---|---|---|
| ProtocolInvariant.StepKeepsInv | xingestion/control_plane.py:55-370 | every step of every program keeps the joint invariant of tasks, outbox, stream, pending list, archives and audits |
| ProtocolInvariant.RunKeepsInv | xingestion/control_plane.py:51-370 | the joint invariant holds after any interleaving of steps |
| ProtocolInvariant.StepEvolves | xingestion/control_plane.py:194-348 | identities never change, generations never go back, a generation once enqueued never waits again, finished tasks are frozen |
| ProtocolInvariant.CreateAgainStutters | xingestion/control_plane.py:71-132 | creating under a known key changes no task and no outbox row, whatever stage the task has reached |
| ProtocolInvariant.ReplayAllKeepsInv | xingestion/replay.py:59-202 | a replay batch keeps the invariant, marks exactly the rows it was given and only adds tasks |
| ProtocolRuns.NothingLost | xingestion/control_plane.py:104-131 | an unfinished task always has an unpublished outbox row or an unacknowledged message of its generation; a running one always the message |
| ProtocolRuns.VisibilityOrder | xingestion/outbox.py:57-145 | a message on the stream belongs to a past generation, or to one that is enqueued, running or finished and already due |
| ProtocolRuns.LeaseRefusedExactlyWhen | xingestion/control_plane.py:145-160 | leasing through a message is refused exactly when its generation is over or another unexpired lease is running: no first delivery bounces |
| ProtocolRuns.AckIsFinal | worker.py:383-420 | an acknowledged message stays acknowledged and its generation is over in every later state |
| ProtocolRuns.StaleDeliveryIsHarmless | xingestion/control_plane.py:350-370 | no lease, renewal, release, completion, retry or dead-lettering for a settled generation changes anything |
| ProtocolRuns.OneOutcomePerGeneration | xingestion/control_plane.py:194-348 | over any run the successful complete, retry and dead-letter calls for a generation total one if it is settled and none if not, even with shared owner names |
| ProtocolRuns.RunRefinesSimpleMachine | xingestion/control_plane.py:134-348 | stutters dropped, every task walks Waiting(n), Active(n), then Succeeded, Failed, Waiting(n) or Waiting(n+1) |
| ProtocolRuns.OneTaskMovesPerStep | xingestion/control_plane.py:194-348 | no step but a replay batch moves two tasks of that machine |
| ProtocolRuns.AttemptArithmetic | xingestion/control_plane.py:236-317 | attempts equal the generation, one more when dead-lettered, and never exceed max_attempts |
| ProtocolRuns.SnapshotStaysAccurate | xingestion/control_plane.py:145-192 | a leased snapshot stays authentic, and its attempts are the row's whenever the fence lets its holder through |
| ProtocolRuns.StepMeasure | xingestion/control_plane.py:134-348 | every status change takes one off the measure of remaining generations and stages, except that a release gives one back |
| ProtocolRuns.ProgressAccount | xingestion/control_plane.py:134-348 | exact account of a task's status changes over a run: at most 3 times max_attempts plus the releases, however often it is redelivered or leased again |
| ProtocolRuns.RunEvolvesOutbox | xingestion/outbox.py:57-191 | outbox rows keep their task and generation for ever and stay published once published |
| Completion.EmptyOutbox | xingestion/outbox.py:50-203 | whole dispatch passes, with batches of any size, end with no outbox row ready, and finish no task |
| Completion.EmptyStream | worker.py:468-510 | turns of one worker, reading what is new first and reclaiming the lowest idle id otherwise, end with every message read and acknowledged; tasks only go from unfinished to done |
| Completion.SystemDrains | worker.py:468-510 | from every reachable state, under any configuration and whatever was left behind: after waiting, dispatch passes and turns of one worker drain the whole system, with every unfinished task done at its generation, finished ones as they were, and every message read and acknowledged |
| Completion.AlwaysCompletable | worker.py:468-510 | in particular every unfinished task ends done at its present generation, with a message of that generation acknowledged |
| LeaseHistory.AuthorityIsExclusive | xingestion/control_plane.py:145-160 | the periods in which someone holds a generation's lease are pairwise disjoint over any run with renewals, releases and takeovers |
| LeaseHistory.FenceAdmitsExactly | xingestion/control_plane.py:212-215 | complete, retry, dead-letter and release succeed exactly if the generation runs and was last acquired under the caller's name |
| LeaseHistory.FencedOwnerIsLatest | xingestion/control_plane.py:248-251 | with a name per acquisition, only the latest acquirer gets through the fence |
| SharedNames.ExpiredLeaseStillPasses | xingestion/control_plane.py:212-215 | a lease that expired and was not retaken still passes the fence: a concrete run |
| SharedNames.SharedNameIsNotFenced | worker.py:606 | with one name for two acquisitions, the earlier, expired one still gets through: a concrete run |
| Lineage.ChainKeepsWork | xingestion/replay.py:88-131 | along a replay chain type and payload never change, ids grow strictly, and every task but the last is dead-lettered |
| Lineage.RootPrecedes | xingestion/replay.py:88-131 | every task lies on the chain of its root, a task that replaces nothing |
| Lineage.OneReplacement | xingestion/replay.py:59-194 | a task has at most one replacement: chains do not branch |
| Lineage.ChainIsLinear | xingestion/replay.py:59-194 | two tasks have the same root exactly if one precedes the other on its chain: chains are disjoint |
| Lineage.LineageOfRun | xingestion/control_plane.py:299-348 | in every reachable state a task is archived at most once, exactly the dead-lettered tasks are, and marked archives and audit rows are in bijection |
| ReplayBatches.QueueAfterCall | xingestion/replay.py:59-75 | the queue lists exactly the chosen unreplayed dead letters by failure time, then id; a call takes its front and leaves the rest in order |
| ReplayBatches.BatchesAreOneCall | xingestion/replay.py:59-202 | any calls with any limits and pauses replay the front of the queue once each, with the same rows, up to times, as one call |
| ReplayBatches.DrainingIsOneUnlimitedCall | xingestion/replay.py:59-202 | calling until nothing is left equals one unlimited call, up to times |
| ReplayBatches.CallShortensQueue | xingestion/replay.py:59-75 | each positive call on a non-empty queue shortens it |
| TaskRepository.TaskRepository.CreateTask | xingestion/control_plane.py:55-132 | under a fresh key adds one task with the columns given, pending at generation 0 and due at the time given or now, and its outbox row; a known key changes neither table; bad arguments change nothing |
| TaskRepository.TaskRepository.LeaseTask | xingestion/control_plane.py:134-192 | leases exactly if leasable: the row runs for the caller until the expiry, nothing else changes, and the snapshot returned has the columns of the row |
| TaskRepository.TaskRepository.CompleteTask | xingestion/control_plane.py:194-222 | exactly through the fence the row becomes done and loses its lease, which settles the generation; nothing else changes |
| TaskRepository.TaskRepository.ScheduleRetry | xingestion/control_plane.py:224-290 | exactly through the fence the row waits at the next generation, one attempt further, due after the delay and not before now, with the outbox row that announces it; nothing else changes |
| TaskRepository.TaskRepository.DeadLetterTask | xingestion/control_plane.py:292-348 | exactly through the fence the row is dead-lettered one attempt further, and archived under a fresh id with its type, payload, generation, the time and at most 100 characters of the class |
| TaskRepository.TaskRepository.IsTerminalOrStale | xingestion/control_plane.py:350-370 | for a message of the stream it is true exactly if the generation is settled |
| StreamQueue.RedisStreamQueue.ReadNew | xingestion/control_plane.py:414-432 | hands out the next undelivered entries, in order and without gap, as genuine fresh deliveries; exactly these join the pending list, whose other entries stay |
| StreamQueue.RedisStreamQueue.Reclaim | xingestion/control_plane.py:434-459 | the picked entries become the caller's and fresh, the others stay as they were |
| StreamQueue.RedisStreamQueue.Touch | xingestion/lease_guard.py:49-70 | makes the entry the caller's and fresh if it is still pending; all other entries stay as they are |
| StreamQueue.RedisStreamQueue.Ack | xingestion/control_plane.py:461-466 | removes one entry of a settled generation from the pending list and nothing else |
| Outbox.ClaimOneMore | xingestion/outbox.py:86-119 | stamping and enqueueing row by row is stamping and enqueueing the batch |
| Outbox.DispatchableForever | xingestion/outbox.py:137-175 | a claimed event stays publishable whatever other processes do before it is published |
| Outbox.DurableOutboxDispatcher.ClaimReady | xingestion/outbox.py:50-135 | takes the due unclaimed rows in order of priority, time and id, leaves out only less urgent ones and only when the batch is full, stamps exactly these with token and expiry, enqueues their tasks first, and returns publishable events that say what the rows say |
| Outbox.DurableOutboxDispatcher.PublishClaimed | xingestion/outbox.py:137-174 | unless the stream refuses, the message is on the stream whether or not the claim was still owned; success marks the row with the entry's id |
| Outbox.DurableOutboxDispatcher.MarkRow | xingestion/outbox.py:150-174 | marks the row, and drops its claim, exactly if it is unpublished and claimed with the event's token |
| Outbox.DurableOutboxDispatcher.RecordFailure | xingestion/outbox.py:176-191 | drops the claim exactly if the row is unpublished and claimed with the event's token |
| Outbox.DurableOutboxDispatcher.DispatchReady | xingestion/outbox.py:193-203 | claims the most urgent due rows, counts rows of these that really are published, and every one the stream did not refuse is on it |
| LeaseGuard.TaskLeaseGuard.RenewOnce | xingestion/lease_guard.py:72-129 | unless its statement raises, extends the lease exactly if the task still runs for the caller at this generation and the expiry lies ahead; a failed touch is harmless; a statement that raises is told apart from a lost lease |
| LeaseGuard.TaskLeaseGuard.ExtendLease | xingestion/lease_guard.py:72-97 | moves the expiry, and nothing else, exactly under that condition |
| LeaseGuard.TaskLeaseGuard.ReleaseForRecovery | xingestion/lease_guard.py:131-152 | exactly through the fence the row becomes enqueued and loses its lease; nothing else changes |
| LeaseGuard.TaskLeaseGuard.RunGuarded | xingestion/lease_guard.py:154-230 | unless a heartbeat raises, work ends only after every heartbeat extended the lease; it is abandoned only when the lease was lost; cancellation releases; what is raised is what the operation raised, or unexpected where a statement raised |
| ReplayService.DeadLetterReplayService.Replay | xingestion/replay.py:42-202 | takes the chosen unreplayed dead letters by failure time and id, leaving out only later ones and only when the limit is reached; each gets its mark, its audit row and a new task with the archived type and payload and its outbox row; nothing else changes, and the results say so in order |
| Worker.BackoffIsBounded | worker.py:81-88 | n retries without retry_after wait at most min(2^n - 1, 300 n) + n/4 seconds together |
| Worker.BackoffDoubles | worker.py:81-88 | the delay is one second at first, doubles with every attempt up to 300 seconds, plus the jitter |
| Worker.Worker.TransitionFailure | worker.py:310-344 | through the fence, a permanent failure or the last attempt is dead-lettered under the class of what was raised; anything else, unexpected errors included, is retried after the error's own delay or the backoff |
| Worker.Worker.Decline | worker.py:377-389 | without a lease the delivery is acknowledged exactly if it turned out settled, unless the check or the acknowledgement raises |
| Worker.Worker.Conclude | worker.py:411-465 | finished work is completed exactly through the fence if its statement was applied, and then stays done; if that statement does not raise, the delivery is acknowledged exactly if completed and the acknowledgement does not raise; a raising one is an unexpected failure, which does not touch a task that is done |
| Worker.Worker.GiveUp | worker.py:446-465 | failed work is acknowledged exactly when its transition passed the fence and neither it nor the acknowledgement raises; a transition that was applied settles the generation, never as done: dead-lettered for ever after a permanent failure or the last attempt, and otherwise past it at a later generation |
| Worker.Worker.HandleDelivery | worker.py:367-465 | whichever statements raise, before or after they were applied: only settled generations are acknowledged; stale deliveries always are unless a statement raises; leased deliveries stay pending only if the lease was lost or a statement raised; cancellation releases; a delivery that completed its task has collected the planned search, stored every accepted record and left its observations, and one that is acknowledged with its generation done did complete it; what the collection raised, or an unexpected error, decides whether a failed task is dead-lettered or goes on to a later generation |
| Worker.Worker.Turn | worker.py:468-510 | one turn handles the next new message, else one reclaimed, with other processes running between the commands; what it acknowledges is acknowledged |
| Execution.Execution.ExecuteLeasedWork | worker.py:347-364 | finishes only with the search its task plans collected, page by page by calls in the prescribed order and for the planned query, product, size and cursors, every accepted record in the feed with its observation and every lease closed; alone, the records reached are combined into the tables in their order; otherwise it ends with exactly what planning, collecting or persisting raised |
| TokenPool.PoolSafety | xingestion/control_plane.py:550-694 | over every run unexpired leases per token never exceed max_concurrency |
| TokenRevocation.RevokedAfterStepExactlyWhen | xingestion/control_plane.py:664-694 | a step leaves a revoked token revoked exactly if it is no cooldown of a lease of it and no administrator's change |
| TokenRevocation.CheckedOutOnlyAfterOverwriting | xingestion/control_plane.py:564-618 | over any run a revoked token is handed out again only after such a step |
| TokenRevocation.CooldownRevivesRevoked | xingestion/control_plane.py:673-709 | in every state, cooling down and recovering a revoked token makes it active |
| TokenRevocation.RevokedWhileLeased | xingestion/control_plane.py:550-626 | such a cooldown is possible: a token can be revoked while a lease of it is held |
| TokenPool.GoneForever | xingestion/control_plane.py:628-694 | a lease that is gone never comes back |
| TokenFairness.ColumnIsLastPick | xingestion/control_plane.py:564-618 | the ordering column records the time of a token's last checkout |
| TokenFairness.CheckoutsTakeTurns | xingestion/control_plane.py:564-618 | at strictly increasing times, between two checkouts of a token every other token eligible at the second was checked out |
| TokenFairness.ServedWithinOneRound | xingestion/control_plane.py:564-618 | a token eligible at N consecutive checkouts of N tokens is handed out by one of them |
| TokenRepository.TokenRepository.CheckoutToken | xingestion/control_plane.py:550-626 | purges expired leases; of the active tokens that are not cooling down, not locked and have room, leases the one never leased or leased longest ago, under a fresh id; reports none only if there is none; a holder of a live lease on it gets a unique violation that changes nothing |
| TokenRepository.TokenRepository.MarkCooldown | xingestion/control_plane.py:664-694 | sets COOLDOWN and its end over any status of the token and deletes the lease if it is its owner's; nothing else changes |
| TokenRepository.TokenRepository.RecoverCooldowns | xingestion/control_plane.py:696-710 | exactly the cooldowns whose end has passed become active, every other token stays, and the count is of the rows changed |
| Collector.IngestionExecutor.CollectWithSession | worker.py:110-148 | takes a lease exactly if the adapter needs one, by the checkout step of the pool, and every exit closes exactly that lease - cooling down after an authentication failure or a rate limit, recorded after success, released otherwise - and returns the adapter's result; only a closing statement that fails leaves the lease, and then the failure is unexpected |
| Collector.IngestionExecutor.CollectPage | worker.py:183-226 | the primary adapter, one failover after a session fault, then the recovery adapter, in exactly these cases and under these names; each call that needs a session has its checkout as a step of the run, and every lease taken and closed is gone |
| Collector.OpenLeaseEndsThePage | worker.py:110-148 | only the last call of a page can leave a lease open, and then the page ends with an unexpected failure |
| Collector.IngestionExecutor.Collect | worker.py:150-262 | every call of a page asks for the planned query, product and page size, from the planned cursor on the first page and from where the page before ended on later ones; pages are chained up to the limit or the first that leads nowhere, each resolved by calls as for one page; returned or raised, every call's checkout is a step of the run and its lease is gone if it was closed |
| Collector.ItemsComeInOrder | worker.py:228-239 | the items are those of the batches, page after page in their order, with the body as delivered and only a missing collector or version filled in |
| TaskPlanning.PlanTask | worker.py:150-181 | plans the task: default page limit of a legacy payload, correlation, request, plan, and the search the plan stands for, or the failure each error means |
| TaskPlanning.PlanFailsForGood | worker.py:150-181 | a plan fails permanently for any contract error or an unsupported executor, and unexpectedly only for a number that cannot be read or a missing query or product |
| TaskPlanning.PlannedSearchAsks | worker.py:170-181 | what is collected has the query, product, cursor and page size of the plan, and its page limit |
| TaskPlanning.LegacyTaskIsCollectedExactlyWhen | worker.py:150-181 | a legacy task whose payload can be read, with the configured page limit where it gives none, is collected exactly if its query is not blank, it wants Latest and its sizes respect the contract, and then exactly what it asks for is collected, within the sizes of the route; otherwise it fails for good |
| Rollups.AggregateIsAccurate | analytics_parser.py:98-140 | aggregating accurate contributions gives the count and likes of the items first seen in that hour whose current text has the keyword |
| Rollups.UnaffectedBucket | analytics_parser.py:326-338 | a bucket that lists the changed item neither before nor after keeps its meaning |
| Rollups.RollupsIgnoreIds | analytics_parser.py:237-338 | feeds equal up to internal ids have equal rollups |
| AnalyticsParser.ContributionsFollow | analytics_parser.py:281-324 | upserting the current keywords and deleting the others makes the contributions a function of the new feed |
| AnalyticsParser.RollupsFollow | analytics_parser.py:326-338 | rebuilding only the item's old and new buckets makes all rollups a function of the new feed, with no zero rows |
| AnalyticsParser.AnalyticsDatabase.RebuildRollupBucket | analytics_parser.py:92-140 | sets one bucket to the aggregate, or removes it at count zero, and touches no other |
| AnalyticsParser.AnalyticsDatabase.UpsertInsightRecord | analytics_parser.py:143-338 | writes the item column by column: newest text, greater counters, firsts kept, gaps filled; adds the observation exactly if its key is new; keeps contributions and rollups functions of the feed and feed counters at or above every observation; counters stay preserved by observations exactly if the key is new or the counters are no news; changes only the item's buckets; up to ids it combines the old tables with the document |
| Absorption.MergeIsABand | analytics_parser.py:198-225 | the conflict clause is associative and idempotent |
| Absorption.CombineIsABand | analytics_parser.py:168-265 | so is the upsert of whole batches, observations included |
| Absorption.RedeliveryIsAbsorbed | analytics_parser.py:168-265 | any number of partial passes before a full one leave what one full pass leaves |
| Absorption.AbsorbedExactlyWhen | analytics_parser.py:164-166 | a document persisted again later is absorbed exactly if it carries a capture time or was last seen no earlier |
| Absorption.CounterMayExceedObservations | analytics_parser.py:240-265 | counters may exceed every observation kept: an input |
| Counters.AttainedExactlyWhen | analytics_parser.py:157-265 | one upsert leaves likes or retweets of every item preserved by an observation exactly if its key is new or the counter is not above the canonical one |
| Counters.BatchAttainedExactlyWhen | analytics_parser.py:157-265 | any sequence of upserts does exactly if each counter is matched by the feed before or by a sighting of the item that was the first under its key; observations never exceed the counters, so the same goes for the next sequence |
| Persistence.CountersPreservedExactlyWhen | worker.py:265-307 | persisting a task's batch leaves every counter preserved exactly under that condition on its accepted records |
| Persistence.PersistDocuments | worker.py:265-307 | every accepted record ends in the feed, whoever else persists meanwhile, and the tables only grow; each record that is the first of its tweet in the batch leaves its own observation - tweet, counters, capture time, task, generation, collector - where its key was not used before or by others; alone, the records are combined into the tables in order; every record is counted once, as stored or rejected |
| ObservationKeys.TaskKeysAgreeExactlyWhen | worker.py:295-298 | for platforms without a colon, two observation keys are equal exactly if task, generation, platform and tweet are |
| ObservationKeys.DefaultKeysAgreeExactlyWhen | analytics_parser.py:163-166 | without a given key, platforms and tweets without a colon: equal exactly if platform, tweet and capture time as written are |
| Persistence.RedeliveryLeavesOnePass | worker.py:265-307 | for records with capture times, interrupted deliveries of a batch followed by a full one leave what one full pass leaves, whatever the clock said |
| Interleaving.RedeliveryUpToTimes | worker.py:265-307 | for any records, with or without capture times, interrupted deliveries followed by a full one leave what one full pass leaves, up to times |
| Interleaving.InterleavedRedelivery | analytics_parser.py:168-265 | when others persist anything between the passes, text, counters, conversation, last-seen time and the set of observations are as if all the others had come first and then one pass; the last-seen time only for records with capture times |
| Interleaving.FirstsAreSettled | analytics_parser.py:168-265 | after a full pass no further pass, whole or not, changes first-seen, ingestion or creation times or any observation, whatever others persist in between |
| Interleaving.BatchAbsorbedExactlyWhen | analytics_parser.py:164-166 | a second full pass changes nothing at all exactly if each record without a capture time comes no later than its tweet was last seen |
| Persistence.SameContentsSameTables | analytics_parser.py:143-338 | databases with the same feed up to ids have the same rollups and, up to ids, the same contributions |
| CapabilityContracts.InputIdempotentExactlyWhen | xingestion/capabilities.py:372-412 | validating an input twice is validating it once exactly if stripping an acceptable listed text leads to a listed text |
| ContractMeaning.AcceptedExactlyWhenMet | xingestion/capabilities.py:372-412 | a value is accepted exactly if it is null where allowed, or of the declared type, on the list, long enough once stripped, a date where asked and within the bounds; only texts with a minimum length are changed |
| ContractMeaning.ValidatedExactlyWhen | xingestion/capabilities.py:91-109 | parameters are accepted exactly if all are declared and every input is given fit or not needed; the result holds what was given, as kept, and the defaults of the rest |
| CapabilityContracts.ValidateParams | xingestion/capabilities.py:91-109 | computes the outcome of every input in order, or the first error, or the unsupported names |
| CapabilityContracts.NormalizeNormalizes | xingestion/capabilities.py:98-109 | that result maps each input to its validated value or default and nothing else; an error is the first one met |
| CapabilityContracts.ValidationIsIdempotent | xingestion/capabilities.py:91-109 | for well-formed contracts validation is idempotent |
| CapabilityContracts.IdempotentExactlyWhen | xingestion/capabilities.py:91-109 | a contract that accepts anything is idempotent exactly if it is well formed: lists closed under stripping, defaults valid and normal |
| Capabilities.BuildCatalog | xingestion/capabilities.py:147-161 | builds the catalog exactly if there is a schema version, at least one contract and no duplicate; each contract is found under its key |
| Capabilities.RouteSupportsParams | xingestion/capabilities.py:441-458 | true exactly if every parameter is supported, null or equal to its default |
| Capabilities.BestIndex | xingestion/capabilities.py:283-283 | picks the first of the least routes by (priority, route_id) |
| Texts.ComesBeforeExactlyWhen | xingestion/capabilities.py:283-283 | one id sorts before another exactly if they agree up to a place where the first ends or has the lower character |
| Texts.StripTrimsTheEnds | xingestion/capabilities.py:395-400 | stripping takes whitespace from both ends, all of it, and nothing else |
| Texts.WhitespaceExactly | xingestion/capabilities.py:395-400 | the characters that count as whitespace, one by one |
| Capabilities.Plan | xingestion/capabilities.py:254-305 | computes the plan function the planner laws are about, with its loop and clamped variables |
| PlannerLaws.PlanIsCanonical | xingestion/capabilities.py:254-305 | planning a planned request gives the same plan |
| PlannerLaws.PlannedExactlyWhen | xingestion/capabilities.py:254-305 | a request is planned exactly if it is permitted, some route serves it and its page limit is a number; the route is one no other serving route wins over by priority, then id; sizes are what is wanted, cut to the caps, with warnings exactly where cut; each failure has exactly its cause |
| PlannerLaws.BestIsLeast | xingestion/capabilities.py:259-283 | with distinct ids the chosen route is the least admissible one |
| PlannerLaws.RouteOrderIsIrrelevant | xingestion/capabilities.py:259-283 | with distinct ids any permutation of the routes gives the same plan or the same error |
| PlannerLaws.PlanKeepsItsPromises | xingestion/capabilities.py:284-305 | unsupported non-null parameters equal their defaults; sizes are within request and cap, cut only to the cap, with a warning exactly where cut |
| TaskPayloads.PayloadRoundTrip | xingestion/capabilities.py:135-143 | a request comes back from its task payload as it was, taking the task's correlation only if it had none |
| TaskPayloads.CapabilityPayloadIsReadExactlyWhen | xingestion/capabilities.py:308-333 | exactly which payloads of capability tasks can be read, and what every field becomes |
| TaskPayloads.LegacyPayloadIsReadExactlyWhen | xingestion/capabilities.py:330-348 | exactly which payloads of legacy search tasks can be read |
| TaskPayloads.OtherTasksAreRefused | xingestion/capabilities.py:349-349 | a task of any other type is refused |
| TaskPayloads.PlanSurvivesTheTask | xingestion/capabilities.py:308-333 | planning a planned request after its travel through a task gives the same plan, up to the correlation |
| TaskPayloads.RequestSurvivesTheTask | xingestion/capabilities.py:308-333 | planning a request before or after its travel gives the same plan, up to the correlation |
| SearchContract.ShippedContractIsWellFormed | xingestion/contracts/capabilities.v1.json:4-33 | the shipped contract is well formed, so planning with it is canonical |
| SearchContract.ShippedContractAcceptsExactly | xingestion/contracts/capabilities.v1.json:8-19 | exactly which parameters the shipped contract accepts, and the defaults it adds |
| SearchContract.LegacyRequestAsks | xingestion/capabilities.py:334-349 | what a legacy payload asks for, with its defaults |
| SearchContract.LegacySearchIsPlannedExactlyWhen | xingestion/capabilities.py:352-369 | a legacy search is planned exactly if its query is not blank, it wants Latest, and its sizes respect the contract; its sizes are then the smaller of request and route cap |

## Left out

- Columns that no decision reads: last_error, result_metadata, audit metadata, requested_by, redis_message_id's format, updated_at, lease_started_at, last_used_at, token keys and values.
- Integer widths: counters and ids are unbounded, so overflow errors of INT columns do not occur.
- Isolation anomalies below atomic transactions, loss or trimming of the stream, and wall-clock liveness. SystemDrains says that the programs can drain the system when work succeeds, not that they do; re-leasing after a crash consumes no attempt, so there is no unconditional bound.
- The scan of XAUTOCLAIM in Worker.Turn: which idle entry it returns is a parameter there; that it stops after a number of entries which are not idle is not modelled.
- The older OutboxDispatcher (xingestion/control_plane.py:469-543), which is not the one that runs and publishes before it commits ENQUEUED.
- db_cleanup.py: it deletes finished tasks and feed rows without rebuilding rollups; the theorems are about runs without it.
- Collectors and drivers, token refresh, the HTTP API, alerts, briefs, configuration, signal handling and logging.
- Insertion and deletion of tokens: the set of tokens is fixed during a run; an administrator may change a token's status (Administer).
- Execution.Execution.ExecuteLeasedWork: an operation cancelled in the middle of an adapter call is modelled as cancelled after it, so the token lease such a cancellation leaves until it expires does not show.
- Worker.Worker.HandleDelivery: the operation is stated before the heartbeats; it touches other tables than they do.
- Interleaving.InterleavedRedelivery: first-kept columns and observation values after interrupted passes may stem from a pass or from others, whichever came first; only after a full pass are they settled (FirstsAreSettled).
- CapabilityContracts.ValidateParams: arrays and non-integral numbers are opaque values that count as true and equal only themselves, and nested objects compare structurally.
- Capabilities.Plan: routes are taken as constructed; the checks of their constructor, the descriptions and the fidelity lists of a contract would add only easy members.
- Normalisation of texts and handles, keyword extraction and hashing: arbitrary functions here, and nothing is claimed about them.
