// Every transaction and stream command as one atomic step on the store.
module Protocol {
  import opened Folding
  import opened Options
  import opened Ordering
  import opened Tables

  datatype Action =
    | Tick(to: Time)
    | Create(taskType: string, payload: string, key: string, maxAttempts: int, priority: int, runAt: Option<Time>)
    | ClaimReady(batch: nat, locked: set<nat>, token: nat, claimSeconds: real)
    | Publish(taskId: nat, generation: nat)
    | MarkPublished(event: ClaimedEvent, message: nat)
    | RecordFailure(event: ClaimedEvent)
    | ReadNew(consumer: string, count: nat)
    | Reclaim(consumer: string, minIdle: real, picked: set<nat>)
    | Touch(consumer: string, message: nat)
    | LeaseTask(message: nat, worker: string, leaseSeconds: real)
    | Renew(lease: TaskLease, leaseSeconds: real)
    | Release(lease: TaskLease)
    | Complete(lease: TaskLease)
    | Retry(lease: TaskLease, delay: real, failureClass: string)
    | Bury(lease: TaskLease, failureClass: string)
    | Ack(message: nat)
    | Replay(selector: Selector, limit: nat, maxAttempts: int, priority: int, locked: set<nat>)

  // ---- worker_tasks and task_outbox inserts ----

  ghost predicate KeyTaken(tasks: map<nat, Task>, key: IdempotencyKey) {
    exists t :: t in tasks && tasks[t].key == key
  }

  ghost function TaskWithKey(tasks: map<nat, Task>, key: IdempotencyKey): (t: nat)
    requires KeyTaken(tasks, key)
    ensures t in tasks && tasks[t].key == key
  {
    var t :| t in tasks && tasks[t].key == key;
    t
  }

  // INSERT ... ON CONFLICT (idempotency_key): the serial is consumed even on a conflict.
  ghost function InsertTask(s: Store, row: Task): (s': Store)
    ensures KeyTaken(s'.tasks, row.key)
  {
    if KeyTaken(s.tasks, row.key) then s.(nextTask := s.nextTask + 1)
    else
      var tasks := s.tasks[s.nextTask := row];
      assert tasks[s.nextTask].key == row.key;
      s.(tasks := tasks, nextTask := s.nextTask + 1)
  }

  ghost predicate HasRow(outbox: map<nat, OutboxRow>, t: nat, g: nat) {
    exists o :: o in outbox && outbox[o].taskId == t && outbox[o].generation == g
  }

  // INSERT ... ON CONFLICT (task_id, delivery_generation) DO NOTHING
  ghost function InsertOutbox(s: Store, t: nat, g: nat, at: Time): Store {
    if HasRow(s.outbox, t, g) then s.(nextOutbox := s.nextOutbox + 1)
    else s.(outbox := s.outbox[s.nextOutbox := OutboxRow(t, g, at, None, None, 0)], nextOutbox := s.nextOutbox + 1)
  }

  function NewTask(taskType: string, payload: string, key: IdempotencyKey, maxAttempts: int, priority: int,
                   runAt: Time, origin: Option<nat>, replayOf: Option<nat>): Task
  {
    Task(taskType, payload, key, maxAttempts, priority, origin, replayOf, Pending, 0, 0, runAt, None)
  }

  // ---- create_task ----

  ghost function CreateTask(s: Store, taskType: string, payload: string, key: string, maxAttempts: int,
                            priority: int, runAt: Option<Time>): Store
  {
    var at := if runAt.Some? then runAt.value else s.now;
    var s1 := InsertTask(s, NewTask(taskType, payload, UserKey(key), maxAttempts, priority, at, None, None));
    var id := TaskWithKey(s1.tasks, UserKey(key));
    var row := s1.tasks[id];
    if row.Waiting() then InsertOutbox(s1, id, row.generation, row.nextRunAt) else s1
  }

  // ---- claim_ready ----

  predicate ClaimFree(row: OutboxRow, now: Time) {
    row.claim.None? || row.claim.value.expiresAt <= now
  }

  predicate Ready(s: Store, o: nat) {
    && o in s.outbox
    && s.outbox[o].published.None?
    && s.outbox[o].availableAt <= s.now
    && ClaimFree(s.outbox[o], s.now)
    && s.outbox[o].taskId in s.tasks
    && s.tasks[s.outbox[o].taskId].generation == s.outbox[o].generation
    && (s.tasks[s.outbox[o].taskId].Waiting() || s.tasks[s.outbox[o].taskId].status.Enqueued?)
  }

  // Higher priority first, then the earlier available.
  function OutboxColumns(s: Store): Columns {
    map o | o in s.outbox ::
      (if s.outbox[o].taskId in s.tasks then -(s.tasks[s.outbox[o].taskId].priority as real) else 0.0,
       s.outbox[o].availableAt)
  }

  function ReadyIds(s: Store, locked: set<nat>): set<nat> {
    set o | o in s.outbox && Ready(s, o) && o !in locked
  }

  function ReadyRows(s: Store, batch: nat, locked: set<nat>): seq<nat> {
    Limit(OrderBy(OutboxColumns(s), ReadyIds(s, locked)), batch)
  }

  function Stamped(row: OutboxRow, token: nat, expiresAt: Time): OutboxRow {
    row.(claim := Some(Claim(token, expiresAt)), publishAttempts := row.publishAttempts + 1)
  }

  function EnqueuedRow(task: Task): Task {
    if task.Waiting() then task.(status := Enqueued) else task
  }

  // The claimed rows are stamped and their tasks become ENQUEUED before anything is published.
  function ClaimRows(s: Store, rows: seq<nat>, token: nat, expiresAt: Time): Store {
    s.(outbox := map o | o in s.outbox ::
                   if o in rows then Stamped(s.outbox[o], token, expiresAt) else s.outbox[o],
       tasks := map t | t in s.tasks ::
                  if HasClaimedRow(s.outbox, rows, t, s.tasks[t].generation) then EnqueuedRow(s.tasks[t])
                  else s.tasks[t])
  }

  function ClaimBatch(s: Store, batch: nat, locked: set<nat>, token: nat, claimSeconds: real): Store {
    ClaimRows(s, ReadyRows(s, batch, locked), token, s.now + claimSeconds)
  }

  predicate HasClaimedRow(outbox: map<nat, OutboxRow>, rows: seq<nat>, t: nat, g: nat) {
    exists o <- rows :: o in outbox && outbox[o].taskId == t && outbox[o].generation == g
  }

  // ---- publish_claimed, record_failure ----

  predicate HoldsClaim(s: Store, event: ClaimedEvent) {
    && event.outboxId in s.outbox
    && s.outbox[event.outboxId].claim.Some?
    && s.outbox[event.outboxId].claim.value.token == event.token
    && s.outbox[event.outboxId].published.None?
  }

  function SetPublished(s: Store, event: ClaimedEvent, message: nat): Store {
    if HoldsClaim(s, event) then
      s.(outbox := s.outbox[event.outboxId :=
        s.outbox[event.outboxId].(published := Some(Publication(s.now, message)), claim := None)])
    else s
  }

  function DropClaim(s: Store, event: ClaimedEvent): Store {
    if HoldsClaim(s, event) then
      s.(outbox := s.outbox[event.outboxId := s.outbox[event.outboxId].(claim := None)])
    else s
  }

  // ---- the consumer group ----

  function Positions(lo: nat, hi: nat): (r: set<nat>)
    ensures forall m :: m in r <==> lo <= m < hi
    decreases hi - lo
  {
    if lo < hi then {lo} + Positions(lo + 1, hi) else {}
  }

  function Read(s: Store, consumer: string, count: nat): Store {
    var upTo := if s.delivered + count < |s.stream| then s.delivered + count else |s.stream|;
    if s.delivered <= |s.stream| then
      s.(delivered := upTo,
         pending := s.pending + (map m | m in Positions(s.delivered, upTo) :: PendingEntry(consumer, s.now)))
    else s
  }

  // XAUTOCLAIM and XCLAIM: entries still in the pending list change consumer and become fresh.
  function TakeOver(s: Store, consumer: string, picked: set<nat>): Store {
    s.(pending := map m | m in s.pending ::
         if m in picked then PendingEntry(consumer, s.now) else s.pending[m])
  }

  predicate Unacked(s: Store, m: nat) {
    m < |s.stream| && (s.delivered <= m || m in s.pending)
  }

  // ---- the leased task ----

  predicate Leasable(s: Store, t: nat, g: nat) {
    && t in s.tasks
    && s.tasks[t].generation == g
    && s.tasks[t].nextRunAt <= s.now
    && (s.tasks[t].status.Enqueued?
        || (s.tasks[t].status.Running? && s.tasks[t].lease.Some? && s.tasks[t].lease.value.expiresAt <= s.now))
  }

  function TakeLease(s: Store, t: nat, g: nat, worker: string, seconds: real): Store {
    if Leasable(s, t, g) then
      s.(tasks := s.tasks[t := s.tasks[t].(status := Running, lease := Some(Lease(worker, s.now + seconds)))])
    else s
  }

  function Snapshot(t: nat, row: Task): TaskLease
    requires row.lease.Some?
  {
    TaskLease(t, row.taskType, row.payload, row.attempts, row.maxAttempts, row.generation,
              row.lease.value.owner, row.lease.value.expiresAt)
  }

  // The WHERE clause shared by completion, retry, dead-lettering and release.
  // It does not look at the expiry.
  predicate Fenced(s: Store, lease: TaskLease) {
    && lease.id in s.tasks
    && s.tasks[lease.id].generation == lease.generation
    && s.tasks[lease.id].status.Running?
    && s.tasks[lease.id].lease.Some?
    && s.tasks[lease.id].lease.value.owner == lease.owner
  }

  predicate Renewable(s: Store, lease: TaskLease) {
    Fenced(s, lease) && s.now < s.tasks[lease.id].lease.value.expiresAt
  }

  function RenewLease(s: Store, lease: TaskLease, seconds: real): Store {
    if Renewable(s, lease) then
      s.(tasks := s.tasks[lease.id := s.tasks[lease.id].(lease := Some(Lease(lease.owner, s.now + seconds)))])
    else s
  }

  function ReleaseTask(s: Store, lease: TaskLease): Store {
    if Fenced(s, lease) then
      s.(tasks := s.tasks[lease.id := s.tasks[lease.id].(status := Enqueued, lease := None)])
    else s
  }

  function CompleteTask(s: Store, lease: TaskLease): Store {
    if Fenced(s, lease) then
      s.(tasks := s.tasks[lease.id := s.tasks[lease.id].(status := Done, lease := None)])
    else s
  }

  function RetriedRow(row: Task, nextRunAt: Time): Task {
    row.(status := RetryScheduled, attempts := row.attempts + 1, generation := row.generation + 1,
         nextRunAt := nextRunAt, lease := None)
  }

  ghost function RetryTask(s: Store, t: nat, at: Time): Store
    requires t in s.tasks
  {
    var row := RetriedRow(s.tasks[t], at);
    InsertOutbox(s.(tasks := s.tasks[t := row]), t, row.generation, row.nextRunAt)
  }

  function NotBefore(at: Time, delay: real): Time {
    if delay < 0.0 then at else at + delay
  }

  ghost function ScheduleRetry(s: Store, lease: TaskLease, delay: real): Store {
    if Fenced(s, lease) then RetryTask(s, lease.id, NotBefore(s.now, delay)) else s
  }

  function BuriedRow(row: Task): Task {
    row.(status := DeadLettered, attempts := row.attempts + 1, lease := None)
  }

  function ArchiveOf(t: nat, row: Task, failureClass: string, at: Time): Archive {
    Archive(t, row.taskType, row.payload, Truncated(failureClass), row.generation, at, None, 0)
  }

  function DeadLetterTask(s: Store, lease: TaskLease, failureClass: string): Store {
    if Fenced(s, lease) then
      s.(tasks := s.tasks[lease.id := BuriedRow(s.tasks[lease.id])],
         archives := s.archives[s.nextArchive := ArchiveOf(lease.id, s.tasks[lease.id], failureClass, s.now)],
         nextArchive := s.nextArchive + 1)
    else s
  }

  // ---- replay ----

  predicate Replayable(s: Store, d: nat, selector: Selector) {
    d in s.archives && s.archives[d].replay.None? && selector.Matches(d, s.archives[d])
  }

  function ArchiveColumns(s: Store): Columns {
    map d | d in s.archives :: (s.archives[d].failedAt, 0.0)
  }

  function Matching(s: Store, selector: Selector, locked: set<nat>): set<nat> {
    set d | d in s.archives && Replayable(s, d, selector) && d !in locked
  }

  function ReplayRows(s: Store, selector: Selector, limit: nat, locked: set<nat>): seq<nat> {
    Limit(OrderBy(ArchiveColumns(s), Matching(s, selector, locked)), limit)
  }

  ghost predicate Audited(audits: set<Audit>, d: nat, g: nat) {
    exists a :: a in audits && a.deadLetter == d && a.replayGeneration == g
  }

  // One turn of the replay loop: replacement task, outbox row, audit row, mark.
  ghost function ReplayOne(s: Store, d: nat, maxAttempts: int, priority: int): Store {
    if d !in s.archives then s else
    var a := s.archives[d];
    var g := a.replayGeneration + 1;
    var key := ReplayKey(d, g);
    var s1 := InsertTask(s, NewTask(a.taskType, a.payload, key, maxAttempts, priority, s.now, Some(a.taskId), Some(d)));
    var id := TaskWithKey(s1.tasks, key);
    var s2 := InsertOutbox(s1, id, s1.tasks[id].generation, s1.tasks[id].nextRunAt);
    s2.(audits := if Audited(s2.audits, d, g) then s2.audits else s2.audits + {Audit(d, g, id)},
        archives := s2.archives[d := a.(replay := Some(Replacement(s.now, id)), replayGeneration := g)])
  }

  ghost function Turn(maxAttempts: int, priority: int): (Store, nat) -> Store {
    (s: Store, d: nat) => ReplayOne(s, d, maxAttempts, priority)
  }

  ghost function ReplayAll(s: Store, rows: seq<nat>, maxAttempts: int, priority: int): Store {
    Fold(Turn(maxAttempts, priority), s, rows)
  }

  // ---- one step ----

  ghost function Next(s: Store, a: Action): Store {
    match a
    case Tick(to) => if s.now <= to then s.(now := to) else s
    case Create(taskType, payload, key, maxAttempts, priority, runAt) =>
      CreateTask(s, taskType, payload, key, maxAttempts, priority, runAt)
    case ClaimReady(batch, locked, token, claimSeconds) => ClaimBatch(s, batch, locked, token, claimSeconds)
    case Publish(t, g) => s.(stream := s.stream + [Message(t, g)])
    case MarkPublished(event, message) => SetPublished(s, event, message)
    case RecordFailure(event) => DropClaim(s, event)
    case ReadNew(consumer, count) => Read(s, consumer, count)
    case Reclaim(consumer, _, picked) => TakeOver(s, consumer, picked)
    case Touch(consumer, message) => TakeOver(s, consumer, {message})
    case LeaseTask(message, worker, seconds) =>
      if message < |s.stream| then
        TakeLease(s, s.stream[message].taskId, s.stream[message].generation, worker, seconds)
      else s
    case Renew(lease, seconds) => RenewLease(s, lease, seconds)
    case Release(lease) => ReleaseTask(s, lease)
    case Complete(lease) => CompleteTask(s, lease)
    case Retry(lease, delay, _) => ScheduleRetry(s, lease, delay)
    case Bury(lease, failureClass) => DeadLetterTask(s, lease, failureClass)
    case Ack(message) => s.(pending := s.pending - {message})
    case Replay(selector, limit, maxAttempts, priority, locked) =>
      ReplayAll(s, ReplayRows(s, selector, limit, locked), maxAttempts, priority)
  }

  // ---- when the programs take a step ----

  // Generation g of the task is over: it finished, or a later generation replaced it.
  predicate Settled(tasks: map<nat, Task>, t: nat, g: nat) {
    t in tasks && (g < tasks[t].generation || (g == tasks[t].generation && tasks[t].Terminal()))
  }

  // Generation g may be seen on the stream.
  predicate Visible(now: Time, tasks: map<nat, Task>, t: nat, g: nat) {
    && t in tasks
    && g <= tasks[t].generation
    && (g == tasks[t].generation ==> !tasks[t].Waiting() && tasks[t].nextRunAt <= now)
  }

  // The snapshot agrees with what the row said when it was leased.
  predicate Authentic(s: Store, lease: TaskLease) {
    && lease.id in s.tasks
    && lease.maxAttempts == s.tasks[lease.id].maxAttempts
    && lease.attempts == lease.generation
  }

  // What each program has established before it takes the step.
  predicate Enabled(s: Store, a: Action) {
    match a
    case Tick(to) => s.now <= to
    case Create(_, _, key, maxAttempts, _, _) => key != "" && maxAttempts > 0
    case ClaimReady(batch, _, _, claimSeconds) => batch > 0 && claimSeconds > 0.0
    case Publish(t, g) => Visible(s.now, s.tasks, t, g)
    case MarkPublished(event, message) =>
      && message < |s.stream|
      && (event.outboxId in s.outbox ==>
            s.stream[message] == Message(s.outbox[event.outboxId].taskId, s.outbox[event.outboxId].generation))
    case RecordFailure(_) => true
    case ReadNew(_, _) => true
    case Reclaim(_, minIdle, picked) =>
      forall m <- picked :: m in s.pending && s.pending[m].idleSince + minIdle <= s.now
    case Touch(_, _) => true
    case LeaseTask(message, _, seconds) => message < s.delivered && seconds > 0.0
    case Renew(_, seconds) => seconds > 0.0
    case Release(_) => true
    case Complete(_) => true
    case Retry(lease, _, _) => Authentic(s, lease) && lease.attempts + 1 < lease.maxAttempts
    case Bury(lease, _) => Authentic(s, lease)
    case Ack(message) =>
      && message < |s.stream|
      && Settled(s.tasks, s.stream[message].taskId, s.stream[message].generation)
    case Replay(_, limit, maxAttempts, _, _) => limit > 0 && maxAttempts > 0
  }

  // ---- runs ----

  // A run is the start time followed by steps, the last one outermost.
  datatype Run = Start(at: Time) | Then(before: Run, action: Action)

  ghost function After(r: Run): Store {
    match r
    case Start(at) => EmptyStore(at)
    case Then(before, action) => Next(After(before), action)
  }

  ghost predicate Legal(r: Run) {
    match r
    case Start(_) => true
    case Then(before, action) => Legal(before) && Enabled(After(before), action)
  }

  // r' continues r.
  ghost predicate Extends(r: Run, r': Run) {
    r == r' || (r'.Then? && Extends(r, r'.before))
  }

  lemma {:induction false} ExtendsTransitive(r0: Run, r1: Run, r2: Run)
    requires Extends(r0, r1) && Extends(r1, r2)
    ensures Extends(r0, r2)
  {
    if r1 == r2 {
    } else {
      ExtendsTransitive(r0, r1, r2.before);
    }
  }
}
