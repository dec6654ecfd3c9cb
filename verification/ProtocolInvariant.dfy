// What every interleaving of the steps keeps.
module ProtocolInvariant {
  import opened Options
  import opened Tables
  import opened Protocol

  // ---- the joint invariant ----

  predicate GoodTask(row: Task) {
    && 0 < row.maxAttempts
    && (row.lease.Some? <==> row.status.Running?)
    && (if row.status.DeadLettered? then row.attempts == row.generation + 1 else row.attempts == row.generation)
    && row.generation < row.maxAttempts
    && (row.replayOf.None? ==> row.origin.None? && row.key.UserKey?)
    && (row.replayOf.Some? ==> row.origin.Some? && row.key == ReplayKey(row.replayOf.value, 1))
  }

  ghost predicate TasksOk(tasks: map<nat, Task>, nextTask: nat) {
    && (forall t <- tasks :: t < nextTask && GoodTask(tasks[t]))
    && (forall t, u :: t in tasks && u in tasks && tasks[t].key == tasks[u].key ==> t == u)
  }

  predicate OutboxRowOk(tasks: map<nat, Task>, stream: seq<Message>, row: OutboxRow) {
    && row.taskId in tasks
    && row.generation <= tasks[row.taskId].generation
    && (row.generation == tasks[row.taskId].generation ==>
          && row.availableAt == tasks[row.taskId].nextRunAt
          && (tasks[row.taskId].Waiting() ==> row.published.None?))
    && (row.published.Some? ==>
          && row.published.value.message < |stream|
          && stream[row.published.value.message] == Message(row.taskId, row.generation))
  }

  predicate SameDelivery(row: OutboxRow, other: OutboxRow) {
    row.taskId == other.taskId && row.generation == other.generation
  }

  ghost predicate OutboxOk(tasks: map<nat, Task>, outbox: map<nat, OutboxRow>, nextOutbox: nat, stream: seq<Message>) {
    && (forall o <- outbox :: o < nextOutbox && OutboxRowOk(tasks, stream, outbox[o]))
    && (forall o, p :: o in outbox && p in outbox && SameDelivery(outbox[o], outbox[p]) ==> o == p)
  }

  // Every task has the outbox row of its current generation.
  ghost predicate Covered(tasks: map<nat, Task>, outbox: map<nat, OutboxRow>) {
    forall t {:trigger HasRow(outbox, t, tasks[t].generation)} :: t in tasks ==> HasRow(outbox, t, tasks[t].generation)
  }

  // Only visible generations are on the stream, and only settled ones are acknowledged.
  ghost predicate StreamOk(now: Time, tasks: map<nat, Task>, stream: seq<Message>, delivered: nat,
                           pending: map<nat, PendingEntry>)
  {
    && delivered <= |stream|
    && (forall m <- pending :: m < delivered)
    && (forall m | 0 <= m < |stream| :: Visible(now, tasks, stream[m].taskId, stream[m].generation))
    && (forall m | 0 <= m < delivered && m !in pending :: Settled(tasks, stream[m].taskId, stream[m].generation))
  }

  ghost predicate RunningOk(tasks: map<nat, Task>, stream: seq<Message>) {
    forall t <- tasks :: tasks[t].status.Running? ==> Message(t, tasks[t].generation) in stream
  }

  predicate ArchiveOk(tasks: map<nat, Task>, d: nat, a: Archive) {
    && a.taskId in tasks
    && tasks[a.taskId].status.DeadLettered?
    && tasks[a.taskId].generation == a.generation
    && tasks[a.taskId].taskType == a.taskType
    && tasks[a.taskId].payload == a.payload
    && a.replayGeneration == (if a.replay.Some? then 1 else 0)
    && (a.replay.Some? ==>
          && a.replay.value.taskId in tasks
          && a.taskId < a.replay.value.taskId
          && tasks[a.replay.value.taskId].replayOf == Some(d))
  }

  ghost predicate Archived(archives: map<nat, Archive>, t: nat) {
    exists d :: d in archives && archives[d].taskId == t
  }

  ghost predicate ArchivesOk(tasks: map<nat, Task>, archives: map<nat, Archive>, nextArchive: nat) {
    && (forall d <- archives :: d < nextArchive && ArchiveOk(tasks, d, archives[d]))
    && (forall d, e :: d in archives && e in archives && archives[d].taskId == archives[e].taskId ==> d == e)
    && (forall t {:trigger Archived(archives, t)} ::
          t in tasks && tasks[t].status.DeadLettered? ==> Archived(archives, t))
  }

  // A replacement task points back to the archive that names it, and copies its type and payload.
  predicate ReplacementOk(archives: map<nat, Archive>, t: nat, row: Task)
    requires row.replayOf.Some?
  {
    var d := row.replayOf.value;
    && d in archives
    && archives[d].replay.Some?
    && archives[d].replay.value.taskId == t
    && row.origin == Some(archives[d].taskId)
    && row.taskType == archives[d].taskType
    && row.payload == archives[d].payload
  }

  ghost predicate LineageOk(tasks: map<nat, Task>, archives: map<nat, Archive>) {
    forall t <- tasks :: tasks[t].replayOf.Some? ==> ReplacementOk(archives, t, tasks[t])
  }

  predicate AuditMatches(archives: map<nat, Archive>, a: Audit) {
    && a.deadLetter in archives
    && archives[a.deadLetter].replay.Some?
    && a == Audit(a.deadLetter, 1, archives[a.deadLetter].replay.value.taskId)
  }

  // Audit rows and marked archives are in bijection.
  ghost predicate AuditsOk(archives: map<nat, Archive>, audits: set<Audit>) {
    && (forall a <- audits :: AuditMatches(archives, a))
    && (forall d <- archives :: archives[d].replay.Some? ==> Audit(d, 1, archives[d].replay.value.taskId) in audits)
  }

  ghost predicate Inv(s: Store) {
    && TasksOk(s.tasks, s.nextTask)
    && OutboxOk(s.tasks, s.outbox, s.nextOutbox, s.stream)
    && Covered(s.tasks, s.outbox)
    && StreamOk(s.now, s.tasks, s.stream, s.delivered, s.pending)
    && RunningOk(s.tasks, s.stream)
    && ArchivesOk(s.tasks, s.archives, s.nextArchive)
    && LineageOk(s.tasks, s.archives)
    && AuditsOk(s.archives, s.audits)
  }

  // ---- how a task row may change ----

  predicate SameIdentity(row: Task, row': Task) {
    && row'.key == row.key
    && row'.maxAttempts == row.maxAttempts
    && row'.taskType == row.taskType
    && row'.payload == row.payload
    && row'.origin == row.origin
    && row'.replayOf == row.replayOf
  }

  // Generations only grow, a generation is enqueued once and for all, a finished task is frozen.
  predicate RowEvolves(row: Task, row': Task) {
    && SameIdentity(row, row')
    && row.generation <= row'.generation
    && (row.generation == row'.generation ==> row'.nextRunAt == row.nextRunAt && (row'.Waiting() ==> row.Waiting()))
    && (row.Terminal() ==> row' == row)
    && (GoodTask(row) ==> GoodTask(row'))
  }

  ghost predicate Evolves(tasks: map<nat, Task>, tasks': map<nat, Task>) {
    forall t <- tasks :: t in tasks' && RowEvolves(tasks[t], tasks'[t])
  }

  // An update of existing task rows keeps everything that does not ask for new evidence.
  lemma UpdateKeepsInv(s: Store, tasks': map<nat, Task>)
    requires Inv(s)
    requires tasks'.Keys == s.tasks.Keys && Evolves(s.tasks, tasks')
    ensures TasksOk(tasks', s.nextTask)
    ensures OutboxOk(tasks', s.outbox, s.nextOutbox, s.stream)
    ensures StreamOk(s.now, tasks', s.stream, s.delivered, s.pending)
    ensures LineageOk(tasks', s.archives)
    ensures forall d <- s.archives :: ArchiveOk(tasks', d, s.archives[d])
  {
    UpdateKeepsTasks(s.tasks, tasks', s.nextTask);
    UpdateKeepsOutbox(s.tasks, tasks', s.outbox, s.nextOutbox, s.stream);
    UpdateKeepsStream(s.now, s.tasks, tasks', s.stream, s.delivered, s.pending);
  }

  lemma UpdateKeepsTasks(tasks: map<nat, Task>, tasks': map<nat, Task>, nextTask: nat)
    requires TasksOk(tasks, nextTask) && tasks'.Keys == tasks.Keys && Evolves(tasks, tasks')
    ensures TasksOk(tasks', nextTask)
  {}

  lemma UpdateKeepsOutbox(tasks: map<nat, Task>, tasks': map<nat, Task>, outbox: map<nat, OutboxRow>,
                          nextOutbox: nat, stream: seq<Message>)
    requires OutboxOk(tasks, outbox, nextOutbox, stream) && Evolves(tasks, tasks')
    ensures OutboxOk(tasks', outbox, nextOutbox, stream)
  {}

  lemma UpdateKeepsStream(now: Time, tasks: map<nat, Task>, tasks': map<nat, Task>, stream: seq<Message>,
                          delivered: nat, pending: map<nat, PendingEntry>)
    requires StreamOk(now, tasks, stream, delivered, pending) && Evolves(tasks, tasks')
    ensures StreamOk(now, tasks', stream, delivered, pending)
  {}

  // An update that starts no generation and buries no task.
  lemma PlainUpdateKeepsInv(s: Store, tasks': map<nat, Task>)
    requires Inv(s)
    requires tasks'.Keys == s.tasks.Keys && Evolves(s.tasks, tasks')
    requires forall t <- s.tasks :: tasks'[t].generation == s.tasks[t].generation
    requires forall t <- s.tasks :: tasks'[t].status.DeadLettered? ==> s.tasks[t].status.DeadLettered?
    requires forall t <- s.tasks :: tasks'[t].status.Running? ==>
               s.tasks[t].status.Running? || Message(t, s.tasks[t].generation) in s.stream
    ensures Inv(s.(tasks := tasks'))
  {
    UpdateKeepsInv(s, tasks');
  }

  lemma OneRowEvolves(tasks: map<nat, Task>, t: nat, row: Task)
    requires t in tasks && RowEvolves(tasks[t], row)
    ensures Evolves(tasks, tasks[t := row])
  {}

  lemma RowUpdateKeepsInv(s: Store, t: nat, row: Task)
    requires Inv(s) && t in s.tasks && RowEvolves(s.tasks[t], row)
    requires row.generation == s.tasks[t].generation && !row.status.DeadLettered?
    requires row.status.Running? ==> Message(t, row.generation) in s.stream
    ensures Inv(s.(tasks := s.tasks[t := row]))
  {
    OneRowEvolves(s.tasks, t, row);
    var tasks' := s.tasks[t := row];
    assert tasks'.Keys == s.tasks.Keys;
    PlainUpdateKeepsInv(s, tasks');
  }

  // ---- step by step ----

  lemma TickKeepsInv(s: Store, to: Time)
    requires Inv(s) && s.now <= to
    ensures Inv(Next(s, Tick(to)))
  {}

  lemma PublishKeepsInv(s: Store, t: nat, g: nat)
    requires Inv(s) && Visible(s.now, s.tasks, t, g)
    ensures Inv(Next(s, Publish(t, g)))
  {}

  lemma ReadKeepsInv(s: Store, consumer: string, count: nat)
    requires Inv(s)
    ensures Inv(Next(s, ReadNew(consumer, count)))
  {}

  lemma TakeOverKeepsInv(s: Store, consumer: string, minIdle: real, picked: set<nat>)
    requires Inv(s)
    ensures Inv(Next(s, Reclaim(consumer, minIdle, picked)))
  {}

  lemma TouchKeepsInv(s: Store, consumer: string, m: nat)
    requires Inv(s)
    ensures Inv(Next(s, Touch(consumer, m)))
  {}

  lemma AckKeepsInv(s: Store, m: nat)
    requires Inv(s) && Enabled(s, Ack(m))
    ensures Inv(Next(s, Ack(m)))
  {}

  function LeasedRow(row: Task, lease: Lease): Task {
    row.(status := Running, lease := Some(lease))
  }

  lemma LeasedRowEvolves(row: Task, lease: Lease)
    requires row.status.Enqueued? || row.status.Running?
    ensures RowEvolves(row, LeasedRow(row, lease))
  {}

  lemma LeasedRowKeepsInv(s: Store, t: nat, lease: Lease)
    requires Inv(s) && t in s.tasks && (s.tasks[t].status.Enqueued? || s.tasks[t].status.Running?)
    requires Message(t, s.tasks[t].generation) in s.stream
    ensures Inv(s.(tasks := s.tasks[t := LeasedRow(s.tasks[t], lease)]))
  {
    LeasedRowEvolves(s.tasks[t], lease);
    RowUpdateKeepsInv(s, t, LeasedRow(s.tasks[t], lease));
  }

  lemma LeaseIs(s: Store, m: nat, worker: string, seconds: real)
    requires m < |s.stream|
    ensures var Message(t, g) := s.stream[m];
            Next(s, LeaseTask(m, worker, seconds)) ==
            if Leasable(s, t, g) then
              s.(tasks := s.tasks[t := LeasedRow(s.tasks[t], Lease(worker, s.now + seconds))])
            else s
  {}

  lemma LeaseKeepsInv(s: Store, m: nat, worker: string, seconds: real)
    requires Inv(s) && m < s.delivered
    ensures Inv(Next(s, LeaseTask(m, worker, seconds)))
  {
    LeaseIs(s, m, worker, seconds);
    var Message(t, g) := s.stream[m];
    if Leasable(s, t, g) {
      LeasedRowKeepsInv(s, t, Lease(worker, s.now + seconds));
    }
  }

  lemma RunningHasMessage(tasks: map<nat, Task>, stream: seq<Message>, t: nat)
    requires RunningOk(tasks, stream) && t in tasks && tasks[t].status.Running?
    ensures Message(t, tasks[t].generation) in stream
  {}

  lemma RenewIs(s: Store, lease: TaskLease, seconds: real)
    ensures Next(s, Renew(lease, seconds)) ==
            if Renewable(s, lease) then
              s.(tasks := s.tasks[lease.id := LeasedRow(s.tasks[lease.id], Lease(lease.owner, s.now + seconds))])
            else s
  {}

  lemma RenewKeepsInv(s: Store, lease: TaskLease, seconds: real)
    requires Inv(s)
    ensures Inv(Next(s, Renew(lease, seconds)))
  {
    RenewIs(s, lease, seconds);
    if Renewable(s, lease) {
      RunningHasMessage(s.tasks, s.stream, lease.id);
      LeasedRowKeepsInv(s, lease.id, Lease(lease.owner, s.now + seconds));
    }
  }

  lemma EndedRowEvolves(row: Task, status: Status)
    requires row.status.Running? && (status.Enqueued? || status.Done?)
    ensures RowEvolves(row, row.(status := status, lease := None))
  {}

  lemma ReleaseKeepsInv(s: Store, lease: TaskLease)
    requires Inv(s)
    ensures Inv(Next(s, Release(lease)))
  {
    if Fenced(s, lease) {
      EndedRowEvolves(s.tasks[lease.id], Enqueued);
      RowUpdateKeepsInv(s, lease.id, s.tasks[lease.id].(status := Enqueued, lease := None));
    }
  }

  lemma CompleteKeepsInv(s: Store, lease: TaskLease)
    requires Inv(s)
    ensures Inv(Next(s, Complete(lease)))
  {
    if Fenced(s, lease) {
      EndedRowEvolves(s.tasks[lease.id], Done);
      RowUpdateKeepsInv(s, lease.id, s.tasks[lease.id].(status := Done, lease := None));
    }
  }

  function BuriedStore(s: Store, t: nat, a: Archive): Store
    requires t in s.tasks
  {
    s.(tasks := s.tasks[t := BuriedRow(s.tasks[t])], archives := s.archives[s.nextArchive := a],
       nextArchive := s.nextArchive + 1)
  }

  lemma BuryIs(s: Store, lease: TaskLease, failureClass: string)
    ensures Next(s, Bury(lease, failureClass)) ==
            if Fenced(s, lease) then
              BuriedStore(s, lease.id, ArchiveOf(lease.id, s.tasks[lease.id], failureClass, s.now))
            else s
  {}

  lemma BuryKeepsInv(s: Store, lease: TaskLease, failureClass: string)
    requires Inv(s)
    ensures Inv(Next(s, Bury(lease, failureClass)))
  {
    BuryIs(s, lease, failureClass);
    if Fenced(s, lease) {
      var t := lease.id;
      BuriedArchiveOk(s.tasks, s.nextArchive, t, failureClass, s.now);
      BuriedStoreKeepsInv(s, t, ArchiveOf(t, s.tasks[t], failureClass, s.now));
    }
  }

  lemma BuriedRowEvolves(row: Task)
    requires row.status.Running?
    ensures RowEvolves(row, BuriedRow(row))
  {}

  lemma BuriedStoreKeepsInv(s: Store, t: nat, a: Archive)
    requires Inv(s) && t in s.tasks && s.tasks[t].status.Running?
    requires ArchiveOk(s.tasks[t := BuriedRow(s.tasks[t])], s.nextArchive, a) && a.taskId == t && a.replay.None?
    ensures Inv(BuriedStore(s, t, a))
  {
    BuriedRowEvolves(s.tasks[t]);
    OneRowEvolves(s.tasks, t, BuriedRow(s.tasks[t]));
    UpdateKeepsInv(s, s.tasks[t := BuriedRow(s.tasks[t])]);
    BuryKeepsCoverage(s.tasks, t, s.outbox, s.stream);
    BuryKeepsArchives(s.tasks, s.archives, s.nextArchive, t, a);
    BuryKeepsLineage(s.tasks, s.archives, s.nextArchive, t, a, s.audits);
  }

  lemma BuryKeepsCoverage(tasks: map<nat, Task>, t: nat, outbox: map<nat, OutboxRow>, stream: seq<Message>)
    requires Covered(tasks, outbox) && RunningOk(tasks, stream) && t in tasks
    ensures Covered(tasks[t := BuriedRow(tasks[t])], outbox)
    ensures RunningOk(tasks[t := BuriedRow(tasks[t])], stream)
  {}

  lemma BuriedArchiveOk(tasks: map<nat, Task>, d: nat, t: nat, failureClass: string, at: Time)
    requires t in tasks
    ensures ArchiveOk(tasks[t := BuriedRow(tasks[t])], d, ArchiveOf(t, tasks[t], failureClass, at))
  {}

  lemma BuryKeepsArchives(tasks: map<nat, Task>, archives: map<nat, Archive>, next: nat, t: nat, a: Archive)
    requires ArchivesOk(tasks, archives, next)
    requires t in tasks && !tasks[t].status.DeadLettered? && ArchiveOk(tasks[t := BuriedRow(tasks[t])], next, a)
    requires a.taskId == t
    ensures ArchivesOk(tasks[t := BuriedRow(tasks[t])], archives[next := a], next + 1)
  {
    var tasks', archives' := tasks[t := BuriedRow(tasks[t])], archives[next := a];
    forall u <- tasks' | tasks'[u].status.DeadLettered? ensures Archived(archives', u) {
      if u == t {
        assert archives'[next].taskId == u;
      } else {
        assert Archived(archives, u);
        var d :| d in archives && archives[d].taskId == u;
        assert archives'[d].taskId == u;
      }
    }
  }

  lemma BuryKeepsLineage(tasks: map<nat, Task>, archives: map<nat, Archive>, next: nat, t: nat, a: Archive,
                         audits: set<Audit>)
    requires ArchivesOk(tasks, archives, next) && LineageOk(tasks, archives) && AuditsOk(archives, audits)
    requires t in tasks && a.replay.None?
    ensures LineageOk(tasks[t := BuriedRow(tasks[t])], archives[next := a])
    ensures AuditsOk(archives[next := a], audits)
  {}

  lemma RetryKeepsInv(s: Store, lease: TaskLease, delay: real, failureClass: string)
    requires Inv(s) && Authentic(s, lease) && lease.attempts + 1 < lease.maxAttempts
    ensures Inv(Next(s, Retry(lease, delay, failureClass)))
  {
    if Fenced(s, lease) {
      assert GoodTask(s.tasks[lease.id]);
      RetryTaskKeepsInv(s, lease.id, NotBefore(s.now, delay));
    }
  }

  lemma RetryTaskKeepsInv(s: Store, t: nat, at: Time)
    requires Inv(s) && t in s.tasks && s.tasks[t].status.Running? && s.tasks[t].generation + 1 < s.tasks[t].maxAttempts
    ensures Inv(RetryTask(s, t, at))
  {
    var row := RetriedRow(s.tasks[t], at);
    OneRowEvolves(s.tasks, t, row);
    UpdateKeepsInv(s, s.tasks[t := row]);
    RetryKeepsRest(s, t, row);
    NoRowYet(s, t);
    RetryKeepsOutbox(s.tasks[t := row], s.tasks, s.outbox, s.nextOutbox, s.stream, t);
  }

  lemma RetryKeepsOutbox(tasks': map<nat, Task>, tasks: map<nat, Task>, outbox: map<nat, OutboxRow>, next: nat,
                         stream: seq<Message>, t: nat)
    requires t in tasks && t in tasks' && tasks' == tasks[t := tasks'[t]]
    requires OutboxOk(tasks', outbox, next, stream) && Covered(tasks, outbox)
    requires !HasRow(outbox, t, tasks'[t].generation)
    ensures OutboxOk(tasks', outbox[next := FreshRow(t, tasks'[t])], next + 1, stream)
    ensures Covered(tasks', outbox[next := FreshRow(t, tasks'[t])])
  {
    forall u <- tasks' | u != t ensures HasRow(outbox, u, tasks'[u].generation) {
      assert HasRow(outbox, u, tasks[u].generation);
    }
    InsertRowKeepsOutbox(tasks', outbox, next, stream, t);
  }

  lemma NoRowYet(s: Store, t: nat)
    requires Inv(s) && t in s.tasks
    ensures !HasRow(s.outbox, t, s.tasks[t].generation + 1)
  {}

  lemma RetryKeepsRest(s: Store, t: nat, row: Task)
    requires Inv(s) && t in s.tasks && s.tasks[t].status.Running? && row.status.RetryScheduled?
    ensures RunningOk(s.tasks[t := row], s.stream)
    ensures forall u <- s.tasks[t := row] :: s.tasks[t := row][u].status.DeadLettered? ==> Archived(s.archives, u)
  {}

  // A row for the current generation of a task that has none yet.
  lemma InsertRowKeepsOutbox(tasks: map<nat, Task>, outbox: map<nat, OutboxRow>, next: nat, stream: seq<Message>,
                             t: nat)
    requires OutboxOk(tasks, outbox, next, stream)
    requires t in tasks && !HasRow(outbox, t, tasks[t].generation)
    requires forall u <- tasks :: u != t ==> HasRow(outbox, u, tasks[u].generation)
    ensures OutboxOk(tasks, outbox[next := FreshRow(t, tasks[t])], next + 1, stream)
    ensures Covered(tasks, outbox[next := FreshRow(t, tasks[t])])
  {
    var outbox' := outbox[next := FreshRow(t, tasks[t])];
    forall u <- tasks ensures HasRow(outbox', u, tasks[u].generation) {
      if u == t {
        assert outbox'[next].taskId == u;
      } else {
        var o :| o in outbox && outbox[o].taskId == u && outbox[o].generation == tasks[u].generation;
        assert outbox'[o] == outbox[o];
      }
    }
  }

  function FreshRow(t: nat, row: Task): OutboxRow {
    OutboxRow(t, row.generation, row.nextRunAt, None, None, 0)
  }

  // Changing the claim or the publication of rows.
  lemma RowsKeepInv(s: Store, outbox': map<nat, OutboxRow>)
    requires Inv(s) && outbox'.Keys == s.outbox.Keys
    requires forall o <- s.outbox :: SameDelivery(s.outbox[o], outbox'[o]) && OutboxRowOk(s.tasks, s.stream, outbox'[o])
    ensures Inv(s.(outbox := outbox'))
  {
    forall t <- s.tasks ensures HasRow(outbox', t, s.tasks[t].generation) {
      assert HasRow(s.outbox, t, s.tasks[t].generation);
      var o :| o in s.outbox && s.outbox[o].taskId == t && s.outbox[o].generation == s.tasks[t].generation;
      assert SameDelivery(s.outbox[o], outbox'[o]);
    }
  }

  lemma MarkKeepsInv(s: Store, event: ClaimedEvent, m: nat)
    requires Inv(s) && Enabled(s, MarkPublished(event, m))
    ensures Inv(Next(s, MarkPublished(event, m)))
  {
    if HoldsClaim(s, event) {
      var row := s.outbox[event.outboxId];
      assert Visible(s.now, s.tasks, s.stream[m].taskId, s.stream[m].generation);
      RowsKeepInv(s, s.outbox[event.outboxId := row.(published := Some(Publication(s.now, m)), claim := None)]);
    }
  }

  lemma DroppedRowOk(tasks: map<nat, Task>, stream: seq<Message>, row: OutboxRow)
    requires OutboxRowOk(tasks, stream, row)
    ensures OutboxRowOk(tasks, stream, row.(claim := None)) && SameDelivery(row, row.(claim := None))
  {}

  lemma OneRowDropped(s: Store, o: nat)
    requires OutboxOk(s.tasks, s.outbox, s.nextOutbox, s.stream) && o in s.outbox
    ensures var outbox' := s.outbox[o := s.outbox[o].(claim := None)];
            forall p <- s.outbox :: SameDelivery(s.outbox[p], outbox'[p]) && OutboxRowOk(s.tasks, s.stream, outbox'[p])
  {
    DroppedRowOk(s.tasks, s.stream, s.outbox[o]);
  }

  lemma DropKeepsInv(s: Store, event: ClaimedEvent)
    requires Inv(s)
    ensures Inv(Next(s, RecordFailure(event)))
  {
    if HoldsClaim(s, event) {
      OneRowDropped(s, event.outboxId);
      RowsKeepInv(s, s.outbox[event.outboxId := s.outbox[event.outboxId].(claim := None)]);
    }
  }

  lemma ClaimEvolves(s: Store, rows: seq<nat>, token: nat, expiresAt: Time)
    ensures Evolves(s.tasks, ClaimRows(s, rows, token, expiresAt).tasks)
    ensures OnlyEnqueues(s.tasks, ClaimRows(s, rows, token, expiresAt).tasks)
  {}

  ghost predicate OnlyEnqueues(tasks: map<nat, Task>, tasks': map<nat, Task>) {
    && tasks'.Keys == tasks.Keys
    && forall t <- tasks :: tasks'[t] == tasks[t] || (tasks[t].Waiting() && tasks'[t] == tasks[t].(status := Enqueued))
  }

  lemma StampKeepsInv(s: Store, rows: seq<nat>, token: nat, expiresAt: Time)
    requires Inv(s)
    ensures Inv(s.(outbox := ClaimRows(s, rows, token, expiresAt).outbox))
  {
    RowsKeepInv(s, ClaimRows(s, rows, token, expiresAt).outbox);
  }

  lemma ClaimRowsKeepInv(s: Store, rows: seq<nat>, token: nat, expiresAt: Time)
    requires Inv(s)
    ensures Inv(ClaimRows(s, rows, token, expiresAt))
  {
    StampKeepsInv(s, rows, token, expiresAt);
    var s' := ClaimRows(s, rows, token, expiresAt);
    ClaimEvolves(s, rows, token, expiresAt);
    PlainUpdateKeepsInv(s.(outbox := s'.outbox), s'.tasks);
  }

  lemma ClaimStep(s: Store, a: Action) returns (rows: seq<nat>, expiresAt: Time)
    requires a.ClaimReady?
    ensures rows == ReadyRows(s, a.batch, a.locked) && expiresAt == s.now + a.claimSeconds
    ensures Next(s, a) == ClaimRows(s, rows, a.token, expiresAt)
  {
    rows, expiresAt := ReadyRows(s, a.batch, a.locked), s.now + a.claimSeconds;
    assert Next(s, a) == ClaimBatch(s, a.batch, a.locked, a.token, a.claimSeconds);
  }

  lemma ClaimKeepsInv(s: Store, a: Action)
    requires Inv(s) && a.ClaimReady?
    ensures Inv(Next(s, a)) && Evolves(s.tasks, Next(s, a).tasks)
    ensures OnlyEnqueues(s.tasks, Next(s, a).tasks)
  {
    var rows, expiresAt := ClaimStep(s, a);
    ClaimRowsKeepInv(s, rows, a.token, expiresAt);
    ClaimEvolves(s, rows, a.token, expiresAt);
  }

  // ---- inserting tasks ----

  lemma InsertKeepsInv(s: Store, row: Task)
    requires Inv(s) && !KeyTaken(s.tasks, row.key)
    requires row.status.Pending? && GoodTask(row) && row.generation == 0 && row.replayOf.None?
    ensures Inv(InsertedStore(s, row))
  {
    InsertKeepsTasks(s, row);
    InsertKeepsRest(s, row);
  }

  lemma InsertKeepsTasks(s: Store, row: Task)
    requires Inv(s) && !KeyTaken(s.tasks, row.key)
    requires row.status.Pending? && GoodTask(row) && row.generation == 0
    ensures TasksOk(s.tasks[s.nextTask := row], s.nextTask + 1)
    ensures OutboxOk(s.tasks[s.nextTask := row], s.outbox[s.nextOutbox := FreshRow(s.nextTask, row)],
                     s.nextOutbox + 1, s.stream)
    ensures Covered(s.tasks[s.nextTask := row], s.outbox[s.nextOutbox := FreshRow(s.nextTask, row)])
  {
    AddTask(s.tasks, s.nextTask, row);
    AddOutboxRow(s.tasks, s.nextTask, row, s.outbox, s.nextOutbox, s.stream);
    AddCoverage(s.tasks, s.nextTask, row, s.outbox, s.nextOutbox, s.stream);
  }

  lemma AddTask(tasks: map<nat, Task>, next: nat, row: Task)
    requires TasksOk(tasks, next) && !KeyTaken(tasks, row.key) && GoodTask(row)
    ensures TasksOk(tasks[next := row], next + 1) && next !in tasks
  {}

  lemma AddOutboxRow(tasks: map<nat, Task>, next: nat, row: Task, outbox: map<nat, OutboxRow>, nextOutbox: nat,
                     stream: seq<Message>)
    requires OutboxOk(tasks, outbox, nextOutbox, stream) && next !in tasks
    requires row.generation == 0
    ensures OutboxOk(tasks[next := row], outbox[nextOutbox := FreshRow(next, row)], nextOutbox + 1, stream)
  {}

  lemma AddCoverage(tasks: map<nat, Task>, next: nat, row: Task, outbox: map<nat, OutboxRow>, nextOutbox: nat,
                    stream: seq<Message>)
    requires OutboxOk(tasks, outbox, nextOutbox, stream) && Covered(tasks, outbox) && next !in tasks
    requires row.generation == 0
    ensures Covered(tasks[next := row], outbox[nextOutbox := FreshRow(next, row)])
  {
    var tasks', outbox' := tasks[next := row], outbox[nextOutbox := FreshRow(next, row)];
    forall t | t in tasks' ensures HasRow(outbox', t, tasks'[t].generation) {
      if t == next {
        assert outbox'[nextOutbox].taskId == t;
      } else {
        assert HasRow(outbox, t, tasks[t].generation);
        var o :| o in outbox && outbox[o].taskId == t && outbox[o].generation == tasks[t].generation;
        assert outbox'[o] == outbox[o];
      }
    }
  }

  lemma InsertKeepsRest(s: Store, row: Task)
    requires Inv(s)
    requires row.status.Pending?
    ensures StreamOk(s.now, s.tasks[s.nextTask := row], s.stream, s.delivered, s.pending)
    ensures RunningOk(s.tasks[s.nextTask := row], s.stream)
    ensures ArchivesOk(s.tasks[s.nextTask := row], s.archives, s.nextArchive)
  {
    assert s.nextTask !in s.tasks;
    AddKeepsStream(s.now, s.tasks, s.nextTask, row, s.stream, s.delivered, s.pending);
    AddKeepsArchives(s.tasks, s.nextTask, row, s.archives, s.nextArchive);
  }

  lemma AddKeepsStream(now: Time, tasks: map<nat, Task>, next: nat, row: Task, stream: seq<Message>, delivered: nat,
                       pending: map<nat, PendingEntry>)
    requires StreamOk(now, tasks, stream, delivered, pending) && RunningOk(tasks, stream)
    requires next !in tasks && row.status.Pending?
    ensures StreamOk(now, tasks[next := row], stream, delivered, pending)
    ensures RunningOk(tasks[next := row], stream)
  {}

  lemma AddKeepsArchives(tasks: map<nat, Task>, next: nat, row: Task, archives: map<nat, Archive>, nextArchive: nat)
    requires ArchivesOk(tasks, archives, nextArchive) && next !in tasks && row.status.Pending?
    ensures ArchivesOk(tasks[next := row], archives, nextArchive)
  {}

  function CreatedTask(s: Store, a: Action): Task
    requires a.Create?
  {
    NewTask(a.taskType, a.payload, UserKey(a.key), a.maxAttempts, a.priority,
            if a.runAt.Some? then a.runAt.value else s.now, None, None)
  }

  function InsertedStore(s: Store, row: Task): Store {
    s.(tasks := s.tasks[s.nextTask := row], nextTask := s.nextTask + 1,
       outbox := s.outbox[s.nextOutbox := FreshRow(s.nextTask, row)], nextOutbox := s.nextOutbox + 1)
  }

  // A creation under a fresh key inserts a task and the outbox row of its generation 0.
  lemma CreateIs(s: Store, a: Action)
    requires Inv(s) && a.Create? && !KeyTaken(s.tasks, UserKey(a.key))
    ensures Next(s, a) == InsertedStore(s, CreatedTask(s, a))
  {
    InsertedRow(s, CreatedTask(s, a));
    CreateUnfolds(s, a);
  }

  lemma CreateUnfolds(s: Store, a: Action)
    requires a.Create?
    requires var row := CreatedTask(s, a);
             && InsertTask(s, row) == s.(tasks := s.tasks[s.nextTask := row], nextTask := s.nextTask + 1)
             && TaskWithKey(InsertTask(s, row).tasks, row.key) == s.nextTask
             && !HasRow(s.outbox, s.nextTask, row.generation)
    ensures Next(s, a) == InsertedStore(s, CreatedTask(s, a))
  {}

  lemma CreateKeepsInv(s: Store, a: Action)
    requires Inv(s) && a.Create? && Enabled(s, a)
    ensures Inv(Next(s, a))
  {
    if KeyTaken(s.tasks, UserKey(a.key)) {
      CreateAgainStutters(s, a);
    } else {
      InsertKeepsInv(s, CreatedTask(s, a));
      CreateIs(s, a);
    }
  }

  // What the two inserts of a fresh task amount to.
  lemma InsertedRow(s: Store, row: Task)
    requires Inv(s) && !KeyTaken(s.tasks, row.key)
    ensures InsertTask(s, row) == s.(tasks := s.tasks[s.nextTask := row], nextTask := s.nextTask + 1)
    ensures TaskWithKey(InsertTask(s, row).tasks, row.key) == s.nextTask
    ensures !HasRow(s.outbox, s.nextTask, row.generation)
  {}

  // Creating a task again under its key finds the task: tasks, outbox and stream stay as they are.
  lemma CreateAgainStutters(s: Store, a: Action)
    requires Inv(s) && a.Create? && KeyTaken(s.tasks, UserKey(a.key))
    ensures Next(s, a).tasks == s.tasks && Next(s, a).outbox == s.outbox
    ensures Next(s, a) == s.(nextTask := s.nextTask + 1, nextOutbox := Next(s, a).nextOutbox)
    ensures Inv(Next(s, a))
  {
    var t := TaskWithKey(s.tasks, UserKey(a.key));
    assert HasRow(s.outbox, t, s.tasks[t].generation);
  }

  // ---- replaying ----

  function ReplacementTask(s: Store, d: nat, maxAttempts: int, priority: int): Task
    requires d in s.archives
  {
    var a := s.archives[d];
    NewTask(a.taskType, a.payload, ReplayKey(d, 1), maxAttempts, priority, s.now, Some(a.taskId), Some(d))
  }

  function Marked(a: Archive, at: Time, t: nat): Archive {
    a.(replay := Some(Replacement(at, t)), replayGeneration := 1)
  }

  // The store after one turn of the replay loop, without the conflict branches.
  function ReplayedStore(s: Store, d: nat, maxAttempts: int, priority: int): Store
    requires d in s.archives
  {
    var row := ReplacementTask(s, d, maxAttempts, priority);
    s.(tasks := s.tasks[s.nextTask := row], nextTask := s.nextTask + 1,
       outbox := s.outbox[s.nextOutbox := FreshRow(s.nextTask, row)], nextOutbox := s.nextOutbox + 1,
       archives := s.archives[d := Marked(s.archives[d], s.now, s.nextTask)],
       audits := s.audits + {Audit(d, 1, s.nextTask)})
  }

  lemma ReplayKeyFree(s: Store, d: nat)
    requires Inv(s) && d in s.archives && s.archives[d].replay.None?
    ensures !KeyTaken(s.tasks, ReplayKey(d, 1))
    ensures !Audited(s.audits, d, 1)
    ensures s.archives[d].replayGeneration == 0
  {
    assert ArchiveOk(s.tasks, d, s.archives[d]);
    forall t <- s.tasks ensures s.tasks[t].key != ReplayKey(d, 1) {
      assert GoodTask(s.tasks[t]);
      assert s.tasks[t].replayOf.Some? ==> ReplacementOk(s.archives, t, s.tasks[t]);
    }
  }

  // None of the conflict branches of the replay loop is ever taken.
  lemma ReplayOneIs(s: Store, d: nat, maxAttempts: int, priority: int)
    requires Inv(s) && d in s.archives && s.archives[d].replay.None?
    ensures ReplayOne(s, d, maxAttempts, priority) == ReplayedStore(s, d, maxAttempts, priority)
  {
    ReplayKeyFree(s, d);
    InsertedRow(s, ReplacementTask(s, d, maxAttempts, priority));
    ReplayOneUnfolds(s, d, maxAttempts, priority);
  }

  lemma ReplayOneUnfolds(s: Store, d: nat, maxAttempts: int, priority: int)
    requires d in s.archives && s.archives[d].replayGeneration == 0
    requires var row := ReplacementTask(s, d, maxAttempts, priority);
             && InsertTask(s, row) == s.(tasks := s.tasks[s.nextTask := row], nextTask := s.nextTask + 1)
             && TaskWithKey(InsertTask(s, row).tasks, row.key) == s.nextTask
             && !HasRow(s.outbox, s.nextTask, row.generation)
    requires !Audited(s.audits, d, 1)
    ensures ReplayOne(s, d, maxAttempts, priority) == ReplayedStore(s, d, maxAttempts, priority)
  {}

  lemma ReplayKeepsArchives(tasks: map<nat, Task>, next: nat, row: Task, archives: map<nat, Archive>, nextArchive: nat,
                            d: nat, at: Time)
    requires TasksOk(tasks, next) && ArchivesOk(tasks, archives, nextArchive)
    requires d in archives && archives[d].replay.None?
    requires row.replayOf == Some(d) && row.status.Pending?
    ensures ArchivesOk(tasks[next := row], archives[d := Marked(archives[d], at, next)], nextArchive)
  {
    var tasks', archives' := tasks[next := row], archives[d := Marked(archives[d], at, next)];
    forall t | t in tasks' && tasks'[t].status.DeadLettered? ensures Archived(archives', t) {
      assert Archived(archives, t);
      var e :| e in archives && archives[e].taskId == t;
      assert archives'[e].taskId == t;
    }
    forall e <- archives ensures ArchiveOk(tasks', e, archives'[e]) {
      assert ArchiveOk(tasks, e, archives[e]);
    }
  }

  lemma ReplayKeepsLineage(tasks: map<nat, Task>, next: nat, row: Task, archives: map<nat, Archive>,
                           audits: set<Audit>, d: nat, at: Time)
    requires LineageOk(tasks, archives) && AuditsOk(archives, audits)
    requires d in archives && archives[d].replay.None?
    requires row.replayOf == Some(d) && row.origin == Some(archives[d].taskId)
    requires row.taskType == archives[d].taskType && row.payload == archives[d].payload
    ensures LineageOk(tasks[next := row], archives[d := Marked(archives[d], at, next)])
    ensures AuditsOk(archives[d := Marked(archives[d], at, next)], audits + {Audit(d, 1, next)})
  {}

  lemma ReplayOneKeepsInv(s: Store, d: nat, maxAttempts: int, priority: int)
    requires Inv(s) && maxAttempts > 0 && d in s.archives && s.archives[d].replay.None?
    ensures Inv(ReplayOne(s, d, maxAttempts, priority))
  {
    ReplayOneIs(s, d, maxAttempts, priority);
    ReplayKeyFree(s, d);
    var row := ReplacementTask(s, d, maxAttempts, priority);
    InsertKeepsTasks(s, row);
    InsertKeepsRest(s, row);
    ReplayKeepsArchives(s.tasks, s.nextTask, row, s.archives, s.nextArchive, d, s.now);
    ReplayKeepsLineage(s.tasks, s.nextTask, row, s.archives, s.audits, d, s.now);
  }

  predicate Distinct(rows: seq<nat>) {
    forall i, j :: 0 <= i < j < |rows| ==> rows[i] != rows[j]
  }

  // Existing rows stay, new rows are pending at generation 0.
  ghost predicate OnlyAdds(tasks: map<nat, Task>, tasks': map<nat, Task>) {
    && (forall t <- tasks :: t in tasks' && tasks'[t] == tasks[t])
    && (forall t <- tasks' :: t in tasks || (tasks'[t].status.Pending? && tasks'[t].generation == 0))
  }

  lemma AddOne(tasks: map<nat, Task>, tasks': map<nat, Task>, t: nat, row: Task)
    requires OnlyAdds(tasks, tasks') && t !in tasks' && row.status.Pending? && row.generation == 0
    ensures OnlyAdds(tasks, tasks'[t := row])
  {}

  lemma ReplayOneFacts(s: Store, d: nat, maxAttempts: int, priority: int) returns (s': Store)
    requires Inv(s) && maxAttempts > 0 && d in s.archives && s.archives[d].replay.None?
    ensures s' == ReplayOne(s, d, maxAttempts, priority)
    ensures Inv(s') && OnlyAdds(s.tasks, s'.tasks)
    ensures s'.archives == s.archives[d := Marked(s.archives[d], s.now, s.nextTask)]
    ensures s'.now == s.now && s'.nextTask == s.nextTask + 1
  {
    s' := ReplayOne(s, d, maxAttempts, priority);
    ReplayOneKeepsInv(s, d, maxAttempts, priority);
    ReplayOneIs(s, d, maxAttempts, priority);
    AddOne(s.tasks, s.tasks, s.nextTask, ReplacementTask(s, d, maxAttempts, priority));
  }

  // The archives after replaying rows: those named are marked, the others are untouched.
  predicate MarkedExactly(archives: map<nat, Archive>, archives': map<nat, Archive>, rows: seq<nat>) {
    && archives'.Keys == archives.Keys
    && forall d <- archives ::
         if d in rows then archives'[d].replay.Some? && archives'[d].failedAt == archives[d].failedAt
         else archives'[d] == archives[d]
  }

  ghost predicate ReplayedWell(s: Store, s': Store, rows: seq<nat>) {
    && Inv(s')
    && MarkedExactly(s.archives, s'.archives, rows)
    && OnlyAdds(s.tasks, s'.tasks)
    && s'.now == s.now
  }

  lemma ReplayTurn(s: Store, s1: Store, rows: seq<nat>, d: nat, maxAttempts: int, priority: int)
    requires ReplayedWell(s, s1, rows) && maxAttempts > 0
    requires d in s.archives && s.archives[d].replay.None? && d !in rows
    ensures ReplayedWell(s, ReplayOne(s1, d, maxAttempts, priority), rows + [d])
  {
    var s2 := ReplayOneFacts(s1, d, maxAttempts, priority);
    OnlyAddsTransitive(s.tasks, s1.tasks, s2.tasks);
    MarkOneMore(s.archives, s1.archives, rows, d, s1.now, s1.nextTask);
  }

  ghost predicate Unreplayed(archives: map<nat, Archive>, rows: seq<nat>) {
    forall d <- rows :: d in archives && archives[d].replay.None?
  }

  lemma LastRow(archives: map<nat, Archive>, rows: seq<nat>)
    requires rows != [] && Distinct(rows) && Unreplayed(archives, rows)
    ensures var init, d := rows[..|rows| - 1], rows[|rows| - 1];
            && rows == init + [d] && Distinct(init) && d !in init && Unreplayed(archives, init)
            && d in archives && archives[d].replay.None?
  {
    assert rows[|rows| - 1] in rows;
    assert forall d <- rows[..|rows| - 1] :: d in rows;
  }

  lemma ReplayAllUnfolds(s: Store, rows: seq<nat>, maxAttempts: int, priority: int)
    requires rows != []
    ensures ReplayAll(s, rows, maxAttempts, priority)
         == ReplayOne(ReplayAll(s, rows[..|rows| - 1], maxAttempts, priority), rows[|rows| - 1], maxAttempts, priority)
  {}

  lemma {:induction false} ReplayAllKeepsInv(s: Store, rows: seq<nat>, maxAttempts: int, priority: int)
    requires Inv(s) && maxAttempts > 0 && Distinct(rows) && Unreplayed(s.archives, rows)
    ensures ReplayedWell(s, ReplayAll(s, rows, maxAttempts, priority), rows)
  {
    if rows == [] {
    } else {
      LastRow(s.archives, rows);
      ReplayAllUnfolds(s, rows, maxAttempts, priority);
      var init, d := rows[..|rows| - 1], rows[|rows| - 1];
      ReplayAllKeepsInv(s, init, maxAttempts, priority);
      ReplayTurn(s, ReplayAll(s, init, maxAttempts, priority), init, d, maxAttempts, priority);
    }
  }

  lemma MarkOneMore(archives: map<nat, Archive>, archives': map<nat, Archive>, rows: seq<nat>, d: nat, at: Time, t: nat)
    requires MarkedExactly(archives, archives', rows) && d in archives && d !in rows
    ensures MarkedExactly(archives, archives'[d := Marked(archives'[d], at, t)], rows + [d])
  {}

  lemma OnlyAddsTransitive(a: map<nat, Task>, b: map<nat, Task>, c: map<nat, Task>)
    requires OnlyAdds(a, b) && OnlyAdds(b, c)
    ensures OnlyAdds(a, c)
  {}

  lemma ReplayRowsMatch(s: Store, selector: Selector, limit: nat, locked: set<nat>)
    ensures Distinct(ReplayRows(s, selector, limit, locked))
    ensures forall d <- ReplayRows(s, selector, limit, locked) :: Replayable(s, d, selector)
  {}

  lemma ReplayKeepsInv(s: Store, a: Action)
    requires Inv(s) && a.Replay? && Enabled(s, a)
    ensures Inv(Next(s, a)) && OnlyAdds(s.tasks, Next(s, a).tasks)
  {
    ReplayRowsMatch(s, a.selector, a.limit, a.locked);
    ReplayAllKeepsInv(s, ReplayRows(s, a.selector, a.limit, a.locked), a.maxAttempts, a.priority);
  }

  // ---- all steps ----

  lemma StepKeepsInv(s: Store, a: Action)
    requires Inv(s) && Enabled(s, a)
    ensures Inv(Next(s, a))
  {
    match a
    case Tick(to) => TickKeepsInv(s, to);
    case Create(_, _, _, _, _, _) => CreateKeepsInv(s, a);
    case ClaimReady(_, _, _, _) => ClaimKeepsInv(s, a);
    case Publish(t, g) => PublishKeepsInv(s, t, g);
    case MarkPublished(event, m) => MarkKeepsInv(s, event, m);
    case RecordFailure(event) => DropKeepsInv(s, event);
    case ReadNew(consumer, count) => ReadKeepsInv(s, consumer, count);
    case Reclaim(consumer, minIdle, picked) => TakeOverKeepsInv(s, consumer, minIdle, picked);
    case Touch(consumer, m) => TouchKeepsInv(s, consumer, m);
    case LeaseTask(m, worker, seconds) => LeaseKeepsInv(s, m, worker, seconds);
    case Renew(lease, seconds) => RenewKeepsInv(s, lease, seconds);
    case Release(lease) => ReleaseKeepsInv(s, lease);
    case Complete(lease) => CompleteKeepsInv(s, lease);
    case Retry(lease, delay, failureClass) => RetryKeepsInv(s, lease, delay, failureClass);
    case Bury(lease, failureClass) => BuryKeepsInv(s, lease, failureClass);
    case Ack(m) => AckKeepsInv(s, m);
    case Replay(selector, limit, maxAttempts, priority, locked) => ReplayKeepsInv(s, a);
  }

  // The joint invariant holds after every legal run, whatever the interleaving and wherever processes die.
  lemma {:induction false} RunKeepsInv(r: Run)
    requires Legal(r)
    ensures Inv(After(r))
  {
    match r
    case Start(_) =>
    case Then(before, action) =>
      RunKeepsInv(before);
      StepKeepsInv(After(before), action);
  }

  lemma CreateOnlyAdds(s: Store, a: Action)
    requires Inv(s) && a.Create?
    ensures OnlyAdds(s.tasks, Next(s, a).tasks)
  {
    if KeyTaken(s.tasks, UserKey(a.key)) {
      CreateAgainStutters(s, a);
    } else {
      CreateIs(s, a);
      AddOne(s.tasks, s.tasks, s.nextTask, CreatedTask(s, a));
    }
  }

  lemma RetryEvolves(s: Store, a: Action)
    requires TasksOk(s.tasks, s.nextTask) && a.Retry? && Enabled(s, a)
    ensures Evolves(s.tasks, Next(s, a).tasks)
  {
    if Fenced(s, a.lease) {
      OneRowEvolves(s.tasks, a.lease.id, RetriedRow(s.tasks[a.lease.id], NotBefore(s.now, a.delay)));
    }
  }

  lemma OtherStepEvolves(s: Store, a: Action)
    requires !a.Create? && !a.ClaimReady? && !a.Retry? && !a.Replay?
    requires forall t <- s.tasks :: GoodTask(s.tasks[t])
    ensures Evolves(s.tasks, Next(s, a).tasks)
  {
    if s.tasks != Next(s, a).tasks {
      var t := if a.LeaseTask? then s.stream[a.message].taskId else a.lease.id;
      OneRowEvolves(s.tasks, t, Next(s, a).tasks[t]);
    }
  }

  // No step moves a task backwards.
  lemma StepEvolves(s: Store, a: Action)
    requires Inv(s) && Enabled(s, a)
    ensures Evolves(s.tasks, Next(s, a).tasks)
  {
    match a
    case Create(_, _, _, _, _, _) => CreateOnlyAdds(s, a);
    case ClaimReady(_, _, _, _) => ClaimKeepsInv(s, a);
    case Retry(_, _, _) => RetryEvolves(s, a);
    case Replay(_, _, _, _, _) => ReplayKeepsInv(s, a);
    case _ => OtherStepEvolves(s, a);
  }
}
