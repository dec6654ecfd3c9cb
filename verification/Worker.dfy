// worker.py: the failure transition and the handling of one delivery.
module Worker {
  import opened Options
  import opened Tables
  import opened Protocol
  import opened ProtocolInvariant
  import opened ProtocolRuns
  import opened TaskRepository
  import opened StreamQueue
  import opened LeaseGuard
  import opened Execution
  import opened Collector
  import opened Database
  import opened Statements
  import opened TaskPlanning

  function Power2(n: nat): nat {
    if n == 0 then 1 else 2 * Power2(n - 1)
  }

  // backoff_delay_seconds with base 1 and cap 300; jitter is the random summand in [0, 0.25].
  function BackoffDelay(attempt: nat, jitter: real): real {
    (if Power2(attempt) < 300 then Power2(attempt) as real else 300.0) + jitter
  }

  // One second at first, doubled with every attempt up to 300 seconds, and the jitter.
  lemma BackoffDoubles(attempt: nat, jitter: real)
    ensures BackoffDelay(0, jitter) == 1.0 + jitter
    ensures var base := BackoffDelay(attempt, 0.0);
            && BackoffDelay(attempt, jitter) == base + jitter
            && BackoffDelay(attempt + 1, 0.0) == if 2.0 * base < 300.0 then 2.0 * base else 300.0
  {
    assert Power2(attempt + 1) == 2 * Power2(attempt);
  }

  function TotalBackoff(jitters: seq<real>): real {
    if jitters == [] then 0.0
    else TotalBackoff(jitters[..|jitters| - 1]) + BackoffDelay(|jitters| - 1, jitters[|jitters| - 1])
  }

  // n retries without retry_after wait at most min(2^n - 1, 300 n) + n/4 seconds together.
  lemma {:induction false} BackoffIsBounded(jitters: seq<real>)
    requires forall i | 0 <= i < |jitters| :: 0.0 <= jitters[i] <= 0.25
    ensures var n := |jitters|;
            && 0.0 <= TotalBackoff(jitters)
            && TotalBackoff(jitters) <= (Power2(n) - 1) as real + (n as real) / 4.0
            && TotalBackoff(jitters) <= 300.0 * (n as real) + (n as real) / 4.0
  {
    if jitters == [] {
    } else {
      BackoffIsBounded(jitters[..|jitters| - 1]);
      assert Power2(|jitters|) == 2 * Power2(|jitters| - 1);
    }
  }

  // What became of the delivery.
  datatype Handling = Acknowledged | LeftPending | WasCancelled

  // What happens around the handling of one delivery.
  datatype Circumstances = Circumstances(heartbeats: nat, around: Surroundings, faults: Faults, jitter: real)

  predicate DoneAt(tasks: map<nat, Task>, t: nat, g: nat) {
    t in tasks && tasks[t].status.Done? && tasks[t].generation == g
  }

  // A permanent failure, or the last attempt.
  predicate NoMoreTries(lease: TaskLease, raised: Raised) {
    (raised.Collection? && raised.error.kind.PermanentTaskFailure?) || lease.attempts + 1 >= lease.maxAttempts
  }

  // What a failure that went through the fence means for the task, now and for ever: this generation is dead-lettered,
  // or it is not and there is a later one.
  predicate Fate(tasks: map<nat, Task>, lease: TaskLease, raised: Raised) {
    && lease.id in tasks
    && if NoMoreTries(lease, raised) then
         tasks[lease.id].generation == lease.generation && tasks[lease.id].status.DeadLettered?
       else lease.generation < tasks[lease.id].generation
  }

  // The class a failure is archived under.
  function ClassOf(raised: Raised): string {
    if raised.Unexpected? then "unexpected_error"
    else
      match raised.error.kind
      case AuthenticationFailure => "authentication_failure"
      case RateLimited => "rate_limited"
      case TransientNetworkFailure => "transient_network_failure"
      case CollectorChanged => "collector_changed"
      case PermanentTaskFailure => "permanent_task_failure"
  }

  // As soon as the error says, but not at once before now; or else after a backoff.
  predicate IsDueAfter(at: Time, now: Time, raised: Raised, attempt: nat, jitter: real) {
    var delay := if raised.Collection? && raised.error.retryAfter.Some? then raised.error.retryAfter.value
                 else BackoffDelay(attempt, jitter);
    at == if delay < 0.0 then now else now + delay
  }

  // What became of a delivery: the lease taken, what was gathered for it, whether its own completion was applied, what
  // was handed to the failure transition, and whether that went through the fence.
  datatype Trace = Trace(
    taken: Option<TaskLease>, gathered: Gathered, completed: bool, thrown: Option<Raised>, gaveUp: bool)

  const NOT_TAKEN := Trace(None, Gathered([], [], [], None), false, None, false)

  class Worker {
    const db: Database
    const tasks: TaskRepository
    const queue: RedisStreamQueue
    const guard: TaskLeaseGuard
    const taskLeaseSeconds: real

    const execution: Execution

    constructor (db: Database, tasks: TaskRepository, queue: RedisStreamQueue, guard: TaskLeaseGuard,
                 taskLeaseSeconds: real, execution: Execution)
      requires tasks.db == queue.db == guard.db == db && guard.queue == queue && guard.Ready() && taskLeaseSeconds > 0.0
      ensures this.db == db && this.execution == execution && Ready()
    {
      this.db := db;
      this.tasks := tasks;
      this.queue := queue;
      this.guard := guard;
      this.taskLeaseSeconds := taskLeaseSeconds;
      this.execution := execution;
    }

    predicate Ready() {
      tasks.db == queue.db == guard.db == db && guard.queue == queue && guard.Ready() && taskLeaseSeconds > 0.0
    }

    // transition_failure: retry with a delay, or dead-letter when not retryable or exhausted.
    method TransitionFailure(lease: TaskLease, raised: Raised, jitter: real) returns (ok: bool)
      requires Ready() && db.Valid() && Authentic(db.Rows(), lease)
      modifies db
      ensures db.Valid() && Extends(old(db.history), db.history)
      ensures ok <==> Fenced(old(db.Rows()), lease)
      ensures !ok ==> db.Rows() == old(db.Rows())
      ensures ok ==> lease.id in db.tasks && Settled(db.tasks, lease.id, lease.generation)
      ensures ok ==> Fate(db.tasks, lease, raised)
      ensures ok && NoMoreTries(lease, raised) ==>
                Buries(old(db.Rows()), db.Rows(), lease.id, ClassOf(raised))
      ensures ok && !NoMoreTries(lease, raised) ==>
                && Retries(old(db.Rows()), db.Rows(), lease.id)
                && IsDueAfter(db.tasks[lease.id].nextRunAt, db.now, raised, lease.generation, jitter)
    {
      var failureClass, retryable, retryAfter := "unexpected_error", true, None;
      if raised.Collection? {
        failureClass := raised.error.kind.FailureClass();
        retryable := raised.error.kind.Retryable();
        retryAfter := raised.error.retryAfter;
      }
      if !retryable || lease.attempts + 1 >= lease.maxAttempts {
        ok := tasks.DeadLetterTask(lease, failureClass);
      } else {
        var delay := if retryAfter.Some? then retryAfter.value else BackoffDelay(lease.attempts, jitter);
        ok := tasks.ScheduleRetry(lease, delay, failureClass);
        if ok {
          RunKeepsInv(db.history);
        }
      }
    }

    // The acknowledgement comes after anything else may have happened, and is still justified.
    method AckLater(d: Delivery, ack: Effect)
      requires Ready() && db.Valid() && Genuine(db.Rows(), d) && Settled(db.tasks, d.taskId, d.generation)
      modifies db
      ensures db.Valid() && Extends(old(db.history), db.history)
      ensures Settled(db.tasks, d.taskId, d.generation)
      ensures ack.Applied() ==> Acked(db.Rows(), d.message)
    {
      db.Interfere();
      GenuineForever(old(db.history), db.history, d);
      SettledForever(old(db.history), db.history, d.taskId, d.generation);
      if ack.Applied() {
        queue.Ack(d.message);
      }
    }

    // Nobody leased: acknowledge only what is terminal or stale. When a statement raises, the message is left pending.
    method Decline(d: Delivery, faults: Faults) returns (result: Handling)
      requires Ready() && db.Valid() && Genuine(db.Rows(), d)
      modifies db
      ensures db.Valid() && Extends(old(db.history), db.history)
      ensures result.Acknowledged? || result.LeftPending?
      ensures result.Acknowledged? ==> Acked(db.Rows(), d.message) && Settled(db.tasks, d.taskId, d.generation)
      ensures result.LeftPending? && !faults.check && !faults.ack.Raises() ==>
                !Settled(db.tasks, d.taskId, d.generation)
      ensures Settled(old(db.tasks), d.taskId, d.generation) ==>
                (result.Acknowledged? <==> !faults.check && !faults.ack.Raises())
    {
      ghost var r := db.history;
      db.Interfere();
      GenuineForever(r, db.history, d);
      if Settled(old(db.tasks), d.taskId, d.generation) {
        SettledForever(r, db.history, d.taskId, d.generation);
      }
      if faults.check {
        return LeftPending;
      }
      var stale := tasks.IsTerminalOrStale(d.taskId, d.generation);
      if !stale {
        return LeftPending;
      }
      ghost var r1 := db.history;
      AckLater(d, faults.ack);
      ExtendsTransitive(r, r1, db.history);
      return if faults.ack.Raises() then LeftPending else Acknowledged;
    }

    // The work failed: retry or dead-letter, and acknowledge if that went through the fence.
    method GiveUp(d: Delivery, lease: TaskLease, raised: Raised, faults: Faults, jitter: real)
      returns (result: Handling, ghost gaveUp: bool)
      requires Ready() && db.Valid() && Genuine(db.Rows(), d) && Authentic(db.Rows(), lease)
      requires lease.id == d.taskId && lease.generation == d.generation
      modifies db
      ensures db.Valid() && Extends(old(db.history), db.history)
      ensures result == if Fenced(old(db.Rows()), lease) && !faults.transition.Raises() && !faults.ack.Raises()
                        then Acknowledged else LeftPending
      ensures result.Acknowledged? ==> Acked(db.Rows(), d.message)
      ensures gaveUp <==> Fenced(old(db.Rows()), lease) && faults.transition.Applied()
      ensures gaveUp ==>
                && Settled(db.tasks, d.taskId, d.generation) && !DoneAt(db.tasks, d.taskId, d.generation)
                && Fate(db.tasks, lease, raised)
      ensures !gaveUp ==> db.Rows() == old(db.Rows())
    {
      ghost var r := db.history;
      if faults.transition.RaisesBefore? {
        return LeftPending, false;
      }
      var transitioned := TransitionFailure(lease, raised, jitter);
      if faults.transition.Raises() || !transitioned {
        return LeftPending, transitioned;
      }
      ghost var r1 := db.history;
      GenuineForever(r, r1, d);
      AckLater(d, faults.ack);
      FateForever(r1, db.history, lease, raised);
      ExtendsTransitive(r, r1, db.history);
      return if faults.ack.Raises() then LeftPending else Acknowledged, true;
    }

    // A statement raised where the work had ended well: the failure transition comes some time later.
    method FailLater(d: Delivery, lease: TaskLease, faults: Faults, jitter: real)
      returns (result: Handling, ghost gaveUp: bool)
      requires Ready() && db.Valid() && Genuine(db.Rows(), d) && Authentic(db.Rows(), lease)
      requires lease.id == d.taskId && lease.generation == d.generation
      modifies db
      ensures db.Valid() && Extends(old(db.history), db.history)
      ensures result.Acknowledged? ==> Acked(db.Rows(), d.message) && gaveUp
      ensures result.Acknowledged? || result.LeftPending?
      ensures gaveUp ==>
                && Settled(db.tasks, d.taskId, d.generation) && !DoneAt(db.tasks, d.taskId, d.generation)
                && Fate(db.tasks, lease, Unexpected)
      ensures gaveUp || faults.transition.RaisesBefore? || LostSince(old(db.history), db.history, lease)
      ensures DoneAt(old(db.tasks), d.taskId, d.generation) ==>
                result.LeftPending? && !gaveUp && DoneAt(db.tasks, d.taskId, d.generation)
    {
      ghost var r := db.history;
      db.Interfere();
      ghost var r1 := db.history;
      GenuineForever(r, r1, d);
      AuthenticForever(r, r1, lease);
      if DoneAt(old(db.tasks), d.taskId, d.generation) {
        DoneForever(r, r1, d.taskId, d.generation);
      }
      result, gaveUp := GiveUp(d, lease, Unexpected, faults, jitter);
      ExtendsTransitive(r, r1, db.history);
      assert !Fenced(After(r1), lease) ==> !Renewable(After(r1), lease);
    }

    // What may go wrong between the end of the work and the acknowledgement.
    predicate EndFails(faults: Faults) {
      faults.complete.Raises() || faults.transition.Raises() || faults.ack.Raises() || faults.release.Raises()
    }

    // The work ended well. When completing raises, the failure transition retries the task, unless it is done already.
    // When the acknowledgement raises, the transition finds the task done and changes nothing.
    method Conclude(d: Delivery, lease: TaskLease, faults: Faults, jitter: real)
      returns (result: Handling, completed: bool, ghost thrown: Option<Raised>, ghost gaveUp: bool)
      requires Ready() && db.Valid() && Genuine(db.Rows(), d) && Authentic(db.Rows(), lease)
      requires lease.id == d.taskId && lease.generation == d.generation
      modifies db
      ensures db.Valid() && Extends(old(db.history), db.history)
      ensures result.Acknowledged? || result.LeftPending?
      ensures completed <==> Fenced(old(db.Rows()), lease) && faults.complete.Applied()
      ensures completed ==> DoneAt(db.tasks, d.taskId, d.generation)
      ensures !faults.complete.Raises() ==> (result.Acknowledged? <==> completed && !faults.ack.Raises())
      ensures result.Acknowledged? ==> Acked(db.Rows(), d.message) && (completed || gaveUp)
      ensures thrown
           == if faults.complete.Raises() || (completed && faults.ack.Raises()) then Some(Unexpected) else None
      ensures gaveUp ==>
                && thrown.Some? && !completed && Fate(db.tasks, lease, thrown.value)
                && Settled(db.tasks, d.taskId, d.generation) && !DoneAt(db.tasks, d.taskId, d.generation)
      ensures thrown.Some? ==>
                completed || gaveUp || faults.transition.RaisesBefore? || LostSince(old(db.history), db.history, lease)
    {
      ghost var r := db.history;
      completed, thrown, gaveUp := false, None, false;
      if faults.complete.Applied() {
        completed := tasks.CompleteTask(lease);
      }
      ghost var done := db.history;
      assert Extends(r, done);
      GenuineForever(r, done, d);
      AuthenticForever(r, done, lease);
      if faults.complete.Raises() {
        result, gaveUp := FailLater(d, lease, faults, jitter);
        thrown := Some(Unexpected);
        ExtendsTransitive(r, done, db.history);
        LostEarlier(r, done, db.history, lease);
        return;
      }
      if !completed {
        return LeftPending, false, None, false;
      }
      result, thrown := AckOrFail(d, lease, faults, jitter);
      ExtendsTransitive(r, done, db.history);
    }

    // Acknowledging a finished task.
    method AckOrFail(d: Delivery, lease: TaskLease, faults: Faults, jitter: real)
      returns (result: Handling, ghost thrown: Option<Raised>)
      requires Ready() && db.Valid() && Genuine(db.Rows(), d) && Authentic(db.Rows(), lease)
      requires lease.id == d.taskId && lease.generation == d.generation && DoneAt(db.tasks, d.taskId, d.generation)
      modifies db
      ensures db.Valid() && Extends(old(db.history), db.history)
      ensures DoneAt(db.tasks, d.taskId, d.generation)
      ensures result == if faults.ack.Raises() then LeftPending else Acknowledged
      ensures result.Acknowledged? ==> Acked(db.Rows(), d.message)
      ensures thrown == if faults.ack.Raises() then Some(Unexpected) else None
    {
      ghost var done := db.history;
      AckLater(d, faults.ack);
      ghost var acked := db.history;
      DoneForever(done, acked, d.taskId, d.generation);
      if !faults.ack.Raises() {
        return Acknowledged, None;
      }
      GenuineForever(done, acked, d);
      AuthenticForever(done, acked, lease);
      ghost var gaveUp;
      result, gaveUp := FailLater(d, lease, faults, jitter);
      thrown := Some(Unexpected);
      ExtendsTransitive(done, acked, db.history);
    }

    // The lease transaction of a delivery.
    ghost function Asked(r: Run, d: Delivery, worker: string): Run {
      Then(r, Action.LeaseTask(d.message, worker, taskLeaseSeconds))
    }

    // handle_delivery, with any other process running between its steps.
    method HandleDelivery(d: Delivery, worker: string, c: Circumstances) returns (result: Handling, ghost trace: Trace)
      requires Ready() && db.Valid() && Genuine(db.Rows(), d) && execution.Valid()
      modifies db, execution.executor.pool, execution.analytics
      ensures db.Valid() && Extends(old(db.history), db.history) && execution.Valid()
      ensures c.faults.lease.Applied() ==> Extends(Asked(old(db.history), d, worker), db.history)
      // only settled generations are acknowledged, and a delivery that was stale from the start always is,
      // unless a statement raises
      ensures result.Acknowledged? ==> Acked(db.Rows(), d.message) && Settled(db.tasks, d.taskId, d.generation)
      ensures Settled(old(db.tasks), d.taskId, d.generation) && !DeclineFails(c.faults) ==> result.Acknowledged?
      // a delivery that was leased is left pending only if the lease was lost, or a statement raised
      ensures trace.taken.Some? <==> Leasable(old(db.Rows()), d.taskId, d.generation) && !c.faults.lease.Raises()
      ensures trace.taken.Some? ==> LeasedFor(trace.taken.value, d, worker)
      ensures trace.taken.Some? && result.LeftPending? ==>
                LostSince(Asked(old(db.history), d, worker), db.history, trace.taken.value) || EndFails(c.faults)
      ensures trace.taken.None? ==> trace == NOT_TAKEN
      ensures trace.taken.None? && result.LeftPending? && !DeclineFails(c.faults) ==>
                !Settled(db.tasks, d.taskId, d.generation)
      // a cancelled worker gives its lease back
      ensures result.WasCancelled? ==>
                && c.around.ending.CancelledAfter? && trace.taken.Some?
                && db.history.Then? && db.history.action == Release(trace.taken.value)
      // a delivery that completed its task has every accepted record of the planned search in the feed, and its own
      // observations; one that is acknowledged with its generation done did complete it
      ensures trace.completed ==>
                && trace.taken.Some? && DoneAt(db.tasks, d.taskId, d.generation)
                && execution.CollectedAndStored(trace.gathered, trace.taken.value, worker, c.around)
                && execution.RecordsObserved(trace.gathered.items, trace.taken.value, c.around)
      ensures trace.taken.Some? && result.Acknowledged? && DoneAt(db.tasks, d.taskId, d.generation) ==> trace.completed
      // what was raised is what decides the task's fate, and anything but a collection error is unexpected
      ensures trace.taken.Some? ==> Accounts(result, trace, d, c)
      ensures trace.taken.Some? ==>
                trace.gathered.Explained(PlannedFor(trace.taken.value, execution.setup),
                                         execution.CallsOf(worker, c.around))
      ensures trace.gaveUp ==> trace.taken.Some? && Fate(db.tasks, trace.taken.value, trace.thrown.value)
      ensures trace.taken.Some? && trace.thrown.Some? ==>
                || trace.completed || trace.gaveUp || c.faults.transition.RaisesBefore?
                || LostSince(Asked(old(db.history), d, worker), db.history, trace.taken.value)
      ensures trace.taken.Some? && !guard.BreaksWithin(c.faults, c.heartbeats)
                && trace.gathered.Throws(c.around.ending).Some? ==>
                || trace.thrown == trace.gathered.Throws(c.around.ending)
                || LostSince(Asked(old(db.history), d, worker), db.history, trace.taken.value)
    {
      trace := NOT_TAKEN;
      if c.faults.lease.RaisesBefore? {
        return LeftPending, NOT_TAKEN;
      }
      ghost var r := Asked(db.history, d, worker);
      var taken := tasks.LeaseTask(d.message, d.taskId, d.generation, worker, taskLeaseSeconds);
      assert Extends(old(db.history), r);
      if c.faults.lease.Raises() {
        return LeftPending, NOT_TAKEN;
      }
      GenuineForever(old(db.history), r, d);
      if taken.None? {
        if Settled(old(db.tasks), d.taskId, d.generation) {
          SettledForever(old(db.history), r, d.taskId, d.generation);
        }
        result := Decline(d, c.faults);
        ExtendsTransitive(old(db.history), r, db.history);
        return;
      }
      LeasedIsNotSettled(old(db.history), d);
      result, trace := Work(d, taken.value, worker, c);
      ExtendsTransitive(old(db.history), r, db.history);
    }

    // What the trace says about a leased delivery: whatever was handed to the failure transition was raised by the
    // collection, or is unexpected and has another cause; and an acknowledged delivery completed or gave up.
    predicate Accounts(result: Handling, trace: Trace, d: Delivery, c: Circumstances) {
      && (trace.gaveUp ==> trace.thrown.Some?)
      && (trace.thrown.Some? ==>
            || trace.thrown == trace.gathered.Throws(c.around.ending)
            || (trace.thrown == Some(Unexpected)
                && (guard.BreaksWithin(c.faults, c.heartbeats) || EndFails(c.faults)
                    || c.faults.guardRelease.Raises())))
      && (result.Acknowledged? ==> trace.completed || trace.gaveUp)
    }

    // What may go wrong before a stale delivery is acknowledged.
    predicate DeclineFails(faults: Faults) {
      faults.lease.Raises() || faults.check || faults.ack.Raises()
    }

    predicate LeasedFor(lease: TaskLease, d: Delivery, worker: string) {
      lease.id == d.taskId && lease.generation == d.generation && lease.owner == worker
    }

    lemma LeasedIsNotSettled(r: Run, d: Delivery)
      requires Legal(r) && Genuine(After(r), d) && Leasable(After(r), d.taskId, d.generation)
      ensures !Settled(After(r).tasks, d.taskId, d.generation)
    {}

    // The leased work and what follows it. The work touches the token pool and the feed only, the heartbeats tasks
    // and stream only, so it is stated first.
    method Work(d: Delivery, lease: TaskLease, worker: string, c: Circumstances)
      returns (result: Handling, ghost trace: Trace)
      requires Ready() && db.Valid() && Genuine(db.Rows(), d) && Authentic(db.Rows(), lease) && execution.Valid()
      requires lease.id == d.taskId && lease.generation == d.generation
      modifies db, execution.executor.pool, execution.analytics
      ensures db.Valid() && Extends(old(db.history), db.history) && execution.Valid()
      ensures trace.taken == Some(lease) && Accounts(result, trace, d, c)
      ensures Handed(result, d, lease, c, old(db.history), trace.completed, trace.thrown, trace.gaveUp)
      ensures trace.gathered.Explained(PlannedFor(lease, execution.setup), execution.CallsOf(worker, c.around))
      ensures !guard.BreaksWithin(c.faults, c.heartbeats) && trace.gathered.Throws(c.around.ending).Some? ==>
                || trace.thrown == trace.gathered.Throws(c.around.ending)
                || LostSince(old(db.history), db.history, lease)
      ensures result.WasCancelled? ==> c.around.ending.CancelledAfter?
      ensures trace.completed ==>
                && execution.CollectedAndStored(trace.gathered, lease, worker, c.around)
                && execution.RecordsObserved(trace.gathered.items, lease, c.around)
    {
      var outcome;
      ghost var gathered;
      outcome, gathered := execution.ExecuteAndWait(lease, worker, c.around);
      var completed;
      ghost var thrown, gaveUp;
      result, completed, thrown, gaveUp := Settle(d, lease, worker, c, outcome);
      trace := Trace(Some(lease), gathered, completed, thrown, gaveUp);
    }

    // What is known of the tasks after a leased delivery.
    ghost predicate Handed(result: Handling, d: Delivery, lease: TaskLease, c: Circumstances, start: Run,
                           completed: bool, thrown: Option<Raised>, gaveUp: bool)
      reads db
    {
      && (result.Acknowledged? ==> Acked(db.Rows(), d.message) && (completed || gaveUp))
      && (result.LeftPending? ==> LostSince(start, db.history, lease) || EndFails(c.faults))
      && (result.WasCancelled? ==> db.history.Then? && db.history.action == Release(lease))
      && (completed ==> DoneAt(db.tasks, d.taskId, d.generation))
      && (gaveUp ==>
            && thrown.Some? && Fate(db.tasks, lease, thrown.value)
            && Settled(db.tasks, d.taskId, d.generation) && !DoneAt(db.tasks, d.taskId, d.generation))
      && (thrown.Some? ==>
            completed || gaveUp || c.faults.transition.RaisesBefore? || LostSince(start, db.history, lease))
    }

    // The guarded operation ended, or lost its lease.
    method Settle(d: Delivery, lease: TaskLease, worker: string, c: Circumstances, outcome: Outcome)
      returns (result: Handling, completed: bool, ghost thrown: Option<Raised>, ghost gaveUp: bool)
      requires Ready() && db.Valid() && Genuine(db.Rows(), d) && Authentic(db.Rows(), lease)
      requires lease.id == d.taskId && lease.generation == d.generation
      modifies db
      ensures db.Valid() && Extends(old(db.history), db.history)
      ensures Handed(result, d, lease, c, old(db.history), completed, thrown, gaveUp)
      ensures thrown.Some? ==>
                || outcome == FailedWith(thrown.value)
                || (thrown == Some(Unexpected)
                    && (guard.BreaksWithin(c.faults, c.heartbeats) || EndFails(c.faults)
                        || c.faults.guardRelease.Raises()))
      ensures outcome.FailedWith? && !guard.BreaksWithin(c.faults, c.heartbeats) ==>
                thrown == Some(outcome.raised) || LostSince(old(db.history), db.history, lease)
      ensures result.WasCancelled? ==> outcome.Cancelled?
      ensures completed ==> outcome.Finished?
    {
      ghost var r := db.history;
      var guarded := guard.RunGuarded(lease, d, worker, c.heartbeats, c.faults, outcome);
      ghost var ran := db.history;
      GenuineForever(r, ran, d);
      AuthenticForever(r, ran, lease);
      completed, thrown, gaveUp := false, None, false;
      match guarded {
        case Returned =>
          result, completed, thrown, gaveUp := Conclude(d, lease, c.faults, c.jitter);
        case Threw(raised) =>
          result, gaveUp := GiveUp(d, lease, raised, c.faults, c.jitter);
          thrown := Some(raised);
        case Lost =>
          return LeftPending, false, None, false;
        case Interrupted =>
          result := GiveBack(lease, c.faults.release);
      }
      ExtendsTransitive(r, ran, db.history);
      LostEarlier(r, ran, db.history, lease);
      if !Fenced(After(ran), lease) {
        assert Extends(r, ran) && Extends(ran, db.history) && !Renewable(After(ran), lease);
      }
    }

    // The cancelled worker releases the task once more before it passes the cancellation on; when that raises, the
    // error takes the cancellation's place.
    method GiveBack(lease: TaskLease, release: Effect) returns (result: Handling)
      requires Ready() && db.Valid()
      modifies db
      ensures db.Valid() && Extends(old(db.history), db.history)
      ensures result == if release.Raises() then LeftPending else WasCancelled
      ensures release.Applied() ==> db.history.Then? && db.history.action == Release(lease)
    {
      ghost var r := db.history;
      db.Interfere();
      ghost var r1 := db.history;
      if release.Applied() {
        var released := guard.ReleaseForRecovery(lease);
        assert Extends(r1, db.history);
        ExtendsTransitive(r, r1, db.history);
      }
      return if release.Raises() then LeftPending else WasCancelled;
    }

    // One turn of worker_loop: read one new message, else reclaim one, else nothing. Other processes may run
    // between the commands; scan tells which entry, if any, the server finds idle.
    method Turn(worker: string, reclaimIdle: real, scan: Store -> Option<nat>, c: Circumstances)
      returns (result: Option<Handling>, ghost handled: nat)
      requires Ready() && db.Valid() && execution.Valid()
      modifies db, execution.executor.pool, execution.analytics
      ensures db.Valid() && Extends(old(db.history), db.history) && execution.Valid()
      ensures old(db.delivered) < |old(db.stream)| ==> result.Some? && handled == old(db.delivered)
      ensures result == Some(Acknowledged) ==> Acked(db.Rows(), handled)
    {
      ghost var r := db.history;
      var deliveries := NextDelivery(worker, reclaimIdle, scan);
      if deliveries == [] {
        return None, 0;
      }
      ghost var received := db.history;
      var handling;
      ghost var trace;
      handling, trace := HandleDelivery(deliveries[0], worker, c);
      ExtendsTransitive(r, received, db.history);
      return Some(handling), deliveries[0].message;
    }

    // XREADGROUP, then XAUTOCLAIM if it returned nothing.
    method NextDelivery(worker: string, reclaimIdle: real, scan: Store -> Option<nat>)
      returns (deliveries: seq<Delivery>)
      requires Ready() && db.Valid()
      modifies db
      ensures db.Valid() && Extends(old(db.history), db.history) && |deliveries| <= 1
      ensures deliveries != [] ==> Genuine(db.Rows(), deliveries[0])
      ensures old(db.delivered) < |old(db.stream)| ==> deliveries != [] && deliveries[0].message == old(db.delivered)
    {
      db.GroupFacts();
      deliveries := queue.ReadNew(worker, 1);
      ghost var read := db.history;
      assert Extends(old(db.history), read);
      if deliveries == [] {
        deliveries := ReclaimOne(worker, reclaimIdle, scan);
        ExtendsTransitive(old(db.history), read, db.history);
      }
      ghost var received := db.history;
      db.Interfere();
      ExtendsTransitive(old(db.history), received, db.history);
      if deliveries != [] {
        GenuineForever(received, db.history, deliveries[0]);
      }
    }

    // Nothing was new: some time later, whatever entry the server finds idle for long enough.
    method ReclaimOne(worker: string, reclaimIdle: real, scan: Store -> Option<nat>) returns (deliveries: seq<Delivery>)
      requires Ready() && db.Valid()
      modifies db
      ensures db.Valid() && Extends(old(db.history), db.history)
      ensures |deliveries| <= 1 && forall i | 0 <= i < |deliveries| :: HandedTo(db.Rows(), deliveries[i], worker)
    {
      db.Interfere();
      ghost var r := db.history;
      var found := scan(db.Rows());
      var idle := if found.Some? && found.value in db.pending
                     && db.pending[found.value].idleSince + reclaimIdle <= db.now then [found.value] else [];
      deliveries := queue.Reclaim(worker, reclaimIdle, 1, idle);
      assert Extends(r, db.history);
      ExtendsTransitive(old(db.history), r, db.history);
    }
  }

  lemma GenuineForever(r: Run, r': Run, d: Delivery)
    requires Legal(r') && Extends(r, r') && Genuine(After(r), d)
    ensures Genuine(After(r'), d)
  {
    RunEvolves(r, r');
  }

  lemma DoneForever(r: Run, r': Run, t: nat, g: nat)
    requires Legal(r') && Extends(r, r') && DoneAt(After(r).tasks, t, g)
    ensures DoneAt(After(r').tasks, t, g) && After(r').tasks[t] == After(r).tasks[t]
  {
    RunEvolves(r, r');
  }

  // A lease lost since a later point was lost since an earlier one.
  lemma LostEarlier(r0: Run, r: Run, r': Run, lease: TaskLease)
    requires Extends(r0, r)
    ensures LostSince(r, r', lease) ==> LostSince(r0, r', lease)
  {
    if LostSince(r, r', lease) {
      var at :| Extends(r, at) && Extends(at, r') && !Renewable(After(at), lease);
      ExtendsTransitive(r0, r, at);
    }
  }

  lemma FateForever(r: Run, r': Run, lease: TaskLease, raised: Raised)
    requires Legal(r') && Extends(r, r') && Fate(After(r).tasks, lease, raised)
    ensures Fate(After(r').tasks, lease, raised)
    ensures Settled(After(r').tasks, lease.id, lease.generation) && !DoneAt(After(r').tasks, lease.id, lease.generation)
  {
    RunEvolves(r, r');
  }
}
