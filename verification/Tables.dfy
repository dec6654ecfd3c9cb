// The rows of the control plane: PostgreSQL tables and the Redis stream with its consumer group.
module Tables {
  import opened Options

  // Seconds on the one clock that NOW() and utcnow() both read.
  type Time = real

  datatype Status = Pending | RetryScheduled | Enqueued | Running | Done | DeadLettered

  // Keys given by users never collide with the keys the replay service derives.
  datatype IdempotencyKey = UserKey(text: string) | ReplayKey(deadLetter: nat, replayGeneration: nat)

  datatype Lease = Lease(owner: string, expiresAt: Time)

  // A row of worker_tasks. The three lease columns are set and cleared together.
  datatype Task = Task(
    taskType: string, payload: string, key: IdempotencyKey, maxAttempts: int, priority: int,
    origin: Option<nat>, replayOf: Option<nat>,
    status: Status, attempts: nat, generation: nat, nextRunAt: Time, lease: Option<Lease>)
  {
    predicate Waiting() { status.Pending? || status.RetryScheduled? }

    predicate Terminal() { status.Done? || status.DeadLettered? }
  }

  datatype Claim = Claim(token: nat, expiresAt: Time)

  // When a row was marked published, and the stream entry it was published as.
  datatype Publication = Publication(at: Time, message: nat)

  // A row of task_outbox.
  datatype OutboxRow = OutboxRow(
    taskId: nat, generation: nat, availableAt: Time,
    published: Option<Publication>, claim: Option<Claim>, publishAttempts: nat)

  // A stream entry. Its id is its position in the stream.
  datatype Message = Message(taskId: nat, generation: nat)

  // An entry of the consumer group's pending list: who holds it and since when it is idle.
  datatype PendingEntry = PendingEntry(consumer: string, idleSince: Time)

  datatype Replacement = Replacement(at: Time, taskId: nat)

  // A row of worker_dead_letters.
  datatype Archive = Archive(
    taskId: nat, taskType: string, payload: string, failureClass: string, generation: nat,
    failedAt: Time, replay: Option<Replacement>, replayGeneration: nat)

  // A row of worker_dead_letter_replays.
  datatype Audit = Audit(deadLetter: nat, replayGeneration: nat, taskId: nat)

  // Everything the processes share.
  datatype Store = Store(
    now: Time,
    tasks: map<nat, Task>, nextTask: nat,
    outbox: map<nat, OutboxRow>, nextOutbox: nat,
    stream: seq<Message>, delivered: nat, pending: map<nat, PendingEntry>,
    archives: map<nat, Archive>, nextArchive: nat,
    audits: set<Audit>)

  // The snapshot a worker keeps of the row it leased.
  datatype TaskLease = TaskLease(
    id: nat, taskType: string, payload: string, attempts: nat, maxAttempts: int,
    generation: nat, owner: string, expiresAt: Time)

  // The event a dispatcher keeps of the outbox row it claimed.
  datatype ClaimedEvent = ClaimedEvent(outboxId: nat, taskId: nat, generation: nat, token: nat)

  // Which dead letters to replay; an empty id set selects every id.
  datatype Selector = Selector(ids: set<nat>, taskType: Option<string>, failureClass: Option<string>)
  {
    predicate Matches(id: nat, archive: Archive) {
      && (ids == {} || id in ids)
      && (taskType.None? || taskType.value == archive.taskType)
      && (failureClass.None? || failureClass.value == archive.failureClass)
    }
  }

  // The columns hold at most 100 characters of a failure class.
  function Truncated(s: string): (r: string)
    ensures r <= s && |r| <= 100
  {
    if |s| <= 100 then s else s[..100]
  }

  function EmptyStore(at: Time): Store {
    Store(at, map[], 1, map[], 1, [], 0, map[], map[], 1, {})
  }
}
