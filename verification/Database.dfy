// PostgreSQL and Redis as one object whose tables the programs update in place.
module Database {
  import opened Options
  import opened Tables
  import opened Protocol
  import opened ProtocolInvariant

  class Database {
    var now: Time
    var tasks: map<nat, Task>
    var nextTask: nat
    var outbox: map<nat, OutboxRow>
    var nextOutbox: nat
    var stream: seq<Message>
    var delivered: nat
    var pending: map<nat, PendingEntry>
    var archives: map<nat, Archive>
    var nextArchive: nat
    var audits: set<Audit>

    // Every step any process has taken so far.
    ghost var history: Run

    function Rows(): Store
      reads this`now, this`tasks, this`nextTask, this`outbox, this`nextOutbox, this`stream, this`delivered,
            this`pending, this`archives, this`nextArchive, this`audits
    {
      Store(now, tasks, nextTask, outbox, nextOutbox, stream, delivered, pending, archives, nextArchive, audits)
    }

    // The tables are what the steps taken so far made of them, and every step was legal.
    ghost predicate Valid()
      reads this
    {
      Legal(history) && After(history) == Rows()
    }

    constructor (at: Time)
      ensures Valid() && history == Start(at)
    {
      now := at;
      tasks, nextTask := map[], 1;
      outbox, nextOutbox := map[], 1;
      stream, delivered, pending := [], 0, map[];
      archives, nextArchive := map[], 1;
      audits := {};
      history := Start(at);
    }

    // Other processes run, and the clock with them: callers learn only that legal steps were taken.
    method Interfere()
      requires Valid()
      modifies this
      ensures Valid() && Extends(old(history), history)
    {}

    lemma Invariant()
      requires Valid()
      ensures Inv(Rows())
    {
      RunKeepsInv(history);
    }

    // The consumer group's counters are consistent with the stream.
    lemma GroupFacts()
      requires Valid()
      ensures delivered <= |stream| && forall m <- pending :: m < delivered
    {
      RunKeepsInv(history);
    }

    // INSERT ... ON CONFLICT (task_id, delivery_generation) DO NOTHING
    method InsertOutboxRow(t: nat, g: nat, at: Time)
      modifies this`outbox, this`nextOutbox
      ensures Rows() == InsertOutbox(old(Rows()), t, g, at)
    {
      if !exists o <- outbox :: outbox[o].taskId == t && outbox[o].generation == g {
        outbox := outbox[nextOutbox := OutboxRow(t, g, at, None, None, 0)];
      }
      nextOutbox := nextOutbox + 1;
    }

    // INSERT ... ON CONFLICT (idempotency_key) DO UPDATE ... RETURNING id
    method InsertTaskRow(row: Task) returns (id: nat)
      requires forall t, u :: t in tasks && u in tasks && tasks[t].key == tasks[u].key ==> t == u
      modifies this`tasks, this`nextTask
      ensures Rows() == InsertTask(old(Rows()), row)
      ensures id == TaskWithKey(tasks, row.key)
      ensures KeyTaken(old(tasks), row.key) ==> tasks == old(tasks)
      ensures !KeyTaken(old(tasks), row.key) ==> id == old(nextTask)
    {
      if t :| t in tasks && tasks[t].key == row.key {
        id := t;
      } else {
        id := nextTask;
        tasks := tasks[id := row];
        assert tasks[id].key == row.key;
      }
      nextTask := nextTask + 1;
    }
  }
}
