// create_task, lease_task, complete_task, schedule_retry, dead_letter_task, is_terminal_or_stale.
module TaskRepository {
  import opened Options
  import opened Tables
  import opened Protocol
  import opened ProtocolInvariant
  import opened Database
  import opened Statements

  datatype Refusal = ValueError | ClaimLost | LeaseLost | RedisError

  class TaskRepository {
    const db: Database

    constructor (db: Database)
      ensures this.db == db
    {
      this.db := db;
    }

    method CreateTask(taskType: string, payload: string, key: string, maxAttempts: int, priority: int,
                      runAt: Option<Time>) returns (result: Result<nat, Refusal>)
      requires db.Valid()
      modifies db
      ensures db.Valid()
      ensures result.Err? <==> key == "" || maxAttempts <= 0
      ensures result.Err? ==> unchanged(db)
      ensures result.Ok? ==>
                db.history == Then(old(db.history), Create(taskType, payload, key, maxAttempts, priority, runAt))
                && result.value in db.tasks && db.tasks[result.value].key == UserKey(key)
      ensures result.Ok? && KeyTaken(old(db.tasks), UserKey(key)) ==>
                result.value in old(db.tasks) && db.tasks == old(db.tasks) && db.outbox == old(db.outbox)
      ensures result.Ok? && (forall t <- old(db.tasks) :: old(db.tasks)[t].key != UserKey(key)) ==>
                Creates(old(db.Rows()), db.Rows(), result.value, taskType, payload, key, maxAttempts, priority, runAt)
    {
      if key == "" || maxAttempts <= 0 {
        return Err(ValueError);
      }
      db.Invariant();
      ghost var a := Create(taskType, payload, key, maxAttempts, priority, runAt);
      CreateFacts(db.Rows(), a);
      var id := CreateRows(taskType, payload, key, maxAttempts, priority, runAt);
      db.history := Then(db.history, a);
      return Ok(id);
    }

    // The two inserts.
    method CreateRows(taskType: string, payload: string, key: string, maxAttempts: int, priority: int,
                      runAt: Option<Time>) returns (id: nat)
      requires forall t, u :: t in db.tasks && u in db.tasks && db.tasks[t].key == db.tasks[u].key ==> t == u
      modifies db`tasks, db`nextTask, db`outbox, db`nextOutbox
      ensures db.Rows() == Protocol.CreateTask(old(db.Rows()), taskType, payload, key, maxAttempts, priority, runAt)
      ensures id in db.tasks && db.tasks[id].key == UserKey(key)
      ensures KeyTaken(old(db.tasks), UserKey(key)) ==> id in old(db.tasks)
      ensures !KeyTaken(old(db.tasks), UserKey(key)) ==> id == old(db.nextTask)
    {
      var at := if runAt.Some? then runAt.value else db.now;
      id := db.InsertTaskRow(NewTask(taskType, payload, UserKey(key), maxAttempts, priority, at, None, None));
      if db.tasks[id].Waiting() {
        db.InsertOutboxRow(id, db.tasks[id].generation, db.tasks[id].nextRunAt);
      }
    }

    static lemma CreateFacts(s: Store, a: Action)
      requires Inv(s) && a.Create?
      ensures KeyTaken(s.tasks, UserKey(a.key)) ==> Next(s, a).tasks == s.tasks && Next(s, a).outbox == s.outbox
      ensures !KeyTaken(s.tasks, UserKey(a.key)) ==>
                Creates(s, Next(s, a), s.nextTask, a.taskType, a.payload, a.key, a.maxAttempts, a.priority, a.runAt)
      ensures KeyTaken(s.tasks, UserKey(a.key)) <==> !forall t <- s.tasks :: s.tasks[t].key != UserKey(a.key)
    {
      if KeyTaken(s.tasks, UserKey(a.key)) {
        CreateAgainStutters(s, a);
      } else {
        CreateCreates(s, a);
      }
    }

    // The message is the delivery the caller was handed.
    method LeaseTask(ghost message: nat, taskId: nat, generation: nat, worker: string, leaseSeconds: real)
      returns (lease: Option<TaskLease>)
      requires db.Valid() && leaseSeconds > 0.0
      requires message < db.delivered && message < |db.stream| && db.stream[message] == Message(taskId, generation)
      modifies db
      ensures db.Valid()
      ensures db.history == Then(old(db.history), Action.LeaseTask(message, worker, leaseSeconds))
      ensures lease.Some? <==> Leasable(old(db.Rows()), taskId, generation)
      ensures lease.Some? <==> Grantable(old(db.Rows()), taskId, generation)
      ensures lease.Some? ==>
                && lease.value.id == taskId && lease.value.generation == generation && lease.value.owner == worker
                && lease.value.expiresAt == db.now + leaseSeconds
                && Authentic(db.Rows(), lease.value) && Fenced(db.Rows(), lease.value)
      // the row is the caller's, and the snapshot is the row
      ensures lease.Some? ==>
                && taskId in old(db.tasks) && taskId in db.tasks
                && db.Rows() == old(db.Rows()).(tasks := old(db.tasks)[taskId := db.tasks[taskId]])
                && var row := db.tasks[taskId];
                && row == old(db.tasks)[taskId].(status := Running,
                                                 lease := Some(Lease(worker, db.now + leaseSeconds)))
                && lease.value.taskType == row.taskType && lease.value.payload == row.payload
                && lease.value.attempts == row.attempts && lease.value.maxAttempts == row.maxAttempts
      ensures lease.None? ==> db.Rows() == old(db.Rows())
    {
      if Leasable(db.Rows(), taskId, generation) {
        LeasableRow(db.history, taskId, generation);
        var snapshot := GrantLease(taskId, worker, leaseSeconds);
        lease := Some(snapshot);
      } else {
        lease := None;
      }
      db.history := Then(db.history, Action.LeaseTask(message, worker, leaseSeconds));
    }

    // The row becomes the worker's; the snapshot is what RETURNING says.
    method GrantLease(taskId: nat, worker: string, leaseSeconds: real) returns (lease: TaskLease)
      requires taskId in db.tasks
      modifies db`tasks
      ensures taskId in db.tasks
      ensures db.Rows() == old(db.Rows()).(tasks := old(db.tasks)[taskId := db.tasks[taskId]])
      ensures db.tasks[taskId] == old(db.tasks)[taskId].(status := Running,
                                                         lease := Some(Lease(worker, db.now + leaseSeconds)))
      ensures lease == Snapshot(taskId, db.tasks[taskId])
    {
      var expiresAt := db.now + leaseSeconds;
      db.tasks := db.tasks[taskId := LeasedRow(db.tasks[taskId], Lease(worker, expiresAt))];
      lease := Snapshot(taskId, db.tasks[taskId]);
    }

    static lemma LeasableRow(r: Run, t: nat, g: nat)
      requires Legal(r) && Leasable(After(r), t, g)
      ensures After(r).tasks[t].attempts == g
    {
      RunKeepsInv(r);
      assert GoodTask(After(r).tasks[t]);
    }

    method CompleteTask(lease: TaskLease) returns (ok: bool)
      requires db.Valid()
      modifies db
      ensures db.Valid() && db.history == Then(old(db.history), Complete(lease))
      ensures ok <==> Fenced(old(db.Rows()), lease)
      ensures ok <==> RunsFor(old(db.Rows()), lease)
      ensures ok ==>
                && lease.id in old(db.tasks)
                && db.Rows() == old(db.Rows()).(tasks := old(db.tasks)[lease.id :=
                     old(db.tasks)[lease.id].(status := Done, lease := None)])
      ensures !ok ==> db.Rows() == old(db.Rows())
      ensures ok ==> Settled(db.tasks, lease.id, lease.generation)
    {
      ok := Fenced(db.Rows(), lease);
      if ok {
        db.tasks := db.tasks[lease.id := db.tasks[lease.id].(status := Done, lease := None)];
      }
      db.history := Then(db.history, Complete(lease));
    }

    method ScheduleRetry(lease: TaskLease, delay: real, failureClass: string) returns (ok: bool)
      requires db.Valid() && Authentic(db.Rows(), lease) && lease.attempts + 1 < lease.maxAttempts
      modifies db
      ensures db.Valid() && db.history == Then(old(db.history), Retry(lease, delay, failureClass))
      ensures ok <==> Fenced(old(db.Rows()), lease)
      ensures ok <==> RunsFor(old(db.Rows()), lease)
      ensures ok ==>
                && lease.id in db.tasks
                && db.tasks[lease.id].generation == lease.generation + 1
                && db.tasks[lease.id].nextRunAt == db.now + (if delay < 0.0 then 0.0 else delay)
                && Settled(db.tasks, lease.id, lease.generation)
      // the row and the new outbox row, and nothing else
      ensures ok ==> Retries(old(db.Rows()), db.Rows(), lease.id)
      ensures !ok ==> db.Rows() == old(db.Rows())
    {
      ghost var before := db.Rows();
      db.Invariant();
      ok := Fenced(db.Rows(), lease);
      if ok {
        var row := RetriedRow(db.tasks[lease.id], NotBefore(db.now, delay));
        db.tasks := db.tasks[lease.id := row];
        db.InsertOutboxRow(lease.id, row.generation, row.nextRunAt);
        RetryRetries(before, lease.id, NotBefore(db.now, delay));
      }
      db.history := Then(db.history, Retry(lease, delay, failureClass));
    }

    static lemma FreshArchive(r: Run)
      requires Legal(r)
      ensures After(r).nextArchive !in After(r).archives
    {
      RunKeepsInv(r);
    }

    // The fenced task is finished and archived in one transaction.
    method BuryTask(lease: TaskLease, failureClass: string)
      requires Fenced(db.Rows(), lease)
      modifies db`tasks, db`archives, db`nextArchive
      ensures db.Rows() == Protocol.DeadLetterTask(old(db.Rows()), lease, failureClass)
      ensures Settled(db.tasks, lease.id, lease.generation) && db.tasks[lease.id].status.DeadLettered?
    {
      var row := db.tasks[lease.id];
      db.tasks := db.tasks[lease.id := BuriedRow(row)];
      db.archives := db.archives[db.nextArchive := ArchiveOf(lease.id, row, failureClass, db.now)];
      db.nextArchive := db.nextArchive + 1;
    }

    method DeadLetterTask(lease: TaskLease, failureClass: string) returns (ok: bool)
      requires db.Valid() && Authentic(db.Rows(), lease)
      modifies db
      ensures db.Valid() && db.history == Then(old(db.history), Bury(lease, failureClass))
      ensures ok <==> Fenced(old(db.Rows()), lease)
      ensures ok <==> RunsFor(old(db.Rows()), lease)
      ensures ok ==>
                && lease.id in db.tasks && db.tasks[lease.id].status.DeadLettered?
                && Settled(db.tasks, lease.id, lease.generation)
      ensures ok ==>
                && old(db.nextArchive) !in old(db.archives) && old(db.nextArchive) in db.archives
                && db.archives[old(db.nextArchive)].taskId == lease.id
                && db.archives == old(db.archives)[old(db.nextArchive) := db.archives[old(db.nextArchive)]]
      ensures ok ==> Buries(old(db.Rows()), db.Rows(), lease.id, failureClass)
      ensures !ok ==> db.Rows() == old(db.Rows())
    {
      ok := Fenced(db.Rows(), lease);
      if ok {
        FreshArchive(db.history);
        BuryTask(lease, failureClass);
      }
      db.history := Then(db.history, Bury(lease, failureClass));
    }

    // A missing row or any other generation also counts as stale; for a message of the stream both
    // come down to a settled generation.
    method IsTerminalOrStale(taskId: nat, generation: nat) returns (stale: bool)
      requires db.Valid()
      ensures stale <==> taskId !in db.tasks || db.tasks[taskId].generation != generation || db.tasks[taskId].Terminal()
      ensures Message(taskId, generation) in db.stream ==> (stale <==> Settled(db.tasks, taskId, generation))
    {
      db.Invariant();
      if taskId !in db.tasks {
        return true;
      }
      stale := db.tasks[taskId].generation != generation || db.tasks[taskId].Terminal();
    }
  }
}
