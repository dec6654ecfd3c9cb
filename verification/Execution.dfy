// _execute_leased_work: collect under the token pool, then persist.
module Execution {
  import opened Options
  import opened Tables
  import opened Collector
  import opened AnalyticsParser
  import opened Persistence
  import opened LeaseGuard
  import opened Absorption
  import opened TaskPlanning

  // How the operation ends on its own: it runs through, or it is cancelled or hits a database error after
  // persisting so many records.
  datatype Ending = RunsThrough | CancelledAfter(records: nat) | FailsAfter(records: nat)

  // What surrounds the operation: adapters, locked tokens, the clock, whether others persist too and which keys they
  // leave alone, and its ending.
  datatype Surroundings = Surroundings(
    script: Script, locked: set<nat>, clock: Clock, alone: bool, keys: set<string>, ending: Ending)

  function OriginOf(lease: TaskLease): Origin {
    Origin(lease.id, lease.generation)
  }

  // What was gathered for a task: the items, the batches they came in, all calls made for them, page by page, and what
  // was raised, if anything.
  datatype Gathered = Gathered(
    items: seq<Item>, batches: seq<Batch>, pages: seq<seq<Try>>, failure: Option<Raised>)
  {
    // The pages of the search the task plans, complete; or all calls up to the one that failed; or a plan that failed.
    ghost predicate Explained(planned: Result<PlannedSearch, Raised>, calls: Calls) {
      if failure.None? then Completes(planned, calls)
      else if planned.Err? then failure == Some(planned.error) && batches == [] && pages == []
      else PagesResolve(pages, calls, planned.value.search, batches, failure)
           && PagesAsk(pages, planned.value.search, batches)
    }

    ghost predicate Completes(planned: Result<PlannedSearch, Raised>, calls: Calls) {
      && planned.Ok? && items == AllItems(batches)
      && PagesResolve(pages, calls, planned.value.search, batches, None)
      && PagesAsk(pages, planned.value.search, batches)
      && Chained(batches) && AtEnd(batches, planned.value.maxPages)
    }

    // What is raised in the end, by collecting or by the ending.
    function Throws(ending: Ending): Option<Raised> {
      if failure.Some? then failure else if ending.FailsAfter? then Some(Unexpected) else None
    }
  }

  // Every lease taken for it was closed.
  predicate AllPagesClosed(gathered: Gathered) {
    forall i | 0 <= i < |gathered.pages| :: AllClosed(gathered.pages[i])
  }

  class Execution {
    const executor: IngestionExecutor
    const analytics: AnalyticsDatabase
    const parse: Parser
    const setup: PlanningSetup

    constructor (executor: IngestionExecutor, analytics: AnalyticsDatabase, parse: Parser, setup: PlanningSetup)
      ensures this.executor == executor && this.analytics == analytics
      ensures this.parse == parse && this.setup == setup
    {
      this.executor := executor;
      this.analytics := analytics;
      this.parse := parse;
      this.setup := setup;
    }

    ghost predicate Valid()
      reads executor.pool, analytics
    {
      executor.pool.Valid() && executor.leaseSeconds > 0.0 && analytics.Valid()
    }

    // Every accepted record is in the feed under the task's observation keys.
    ghost predicate AllRecordsStored(items: seq<Item>, lease: TaskLease)
      requires Valid()
      reads executor.pool, analytics
    {
      AllStored(analytics.Contents(), items, |items|, parse, OriginOf(lease))
    }

    // Each first record of a tweet has left its own observation for the task, where nobody else used its key.
    twostate predicate RecordsObserved(items: seq<Item>, lease: TaskLease, around: Surroundings)
      requires old(Valid()) && Valid()
      reads executor.pool, analytics
    {
      PlainPlatforms(items, parse) ==>
        OwnObservations(old(analytics.Contents()), analytics.Contents(), items, |items|, parse,
                        Origin(lease.id, lease.generation), around.clock, around.alone, around.keys)
    }

    function CallsOf(worker: string, around: Surroundings): Calls {
      executor.CallsFor(around.script, worker, around.locked)
    }

    // What the planned search collected is complete, and stored.
    ghost predicate CollectedAndStored(gathered: Gathered, lease: TaskLease, worker: string, around: Surroundings)
      requires Valid()
      reads executor.pool, analytics
    {
      gathered.Completes(PlannedFor(lease, setup), CallsOf(worker, around)) && AllRecordsStored(gathered.items, lease)
    }

    // It finishes only with everything collected and stored. Every token lease it could close is gone, and the feed has
    // only grown.
    method ExecuteLeasedWork(lease: TaskLease, worker: string, around: Surroundings)
      returns (outcome: Outcome, ghost gathered: Gathered)
      requires Valid()
      modifies executor.pool, analytics
      ensures Valid()
      ensures gathered.Explained(PlannedFor(lease, setup), CallsOf(worker, around))
      ensures outcome == EndOf(gathered.Throws(around.ending), around.ending)
      ensures outcome.Finished? ==>
                && around.ending.RunsThrough? && CollectedAndStored(gathered, lease, worker, around)
                && RecordsObserved(gathered.items, lease, around)
      ensures AllGivenBack(gathered.pages, old(executor.pool.history), executor.pool.history, CallsOf(worker, around))
      ensures outcome.Finished? ==> AllPagesClosed(gathered)
      ensures gathered.failure.None? ==> PersistedInOrder(gathered.items, lease, around)
      ensures Grows(old(analytics.Contents()), analytics.Contents())
    {
      var collected;
      collected, gathered := Gather(lease, worker, around);
      outcome := PersistCollected(collected, lease, around);
    }

    static function EndOf(thrown: Option<Raised>, ending: Ending): Outcome {
      if thrown.Some? then FailedWith(thrown.value)
      else if ending.CancelledAfter? then Cancelled
      else Finished
    }

    // Plan, then collect.
    method Gather(lease: TaskLease, worker: string, around: Surroundings)
      returns (collected: Result<seq<Item>, Raised>, ghost gathered: Gathered)
      requires Valid()
      modifies executor.pool
      ensures Valid()
      ensures gathered.Explained(PlannedFor(lease, setup), CallsOf(worker, around))
      ensures if gathered.failure.Some? then collected == Err(gathered.failure.value)
              else collected == Ok(gathered.items) && AllPagesClosed(gathered)
      ensures AllGivenBack(gathered.pages, old(executor.pool.history), executor.pool.history, CallsOf(worker, around))
    {
      var plan := PlanTask(lease, setup);
      if plan.Err? {
        return Err(plan.error), Gathered([], [], [], Some(plan.error));
      }
      var result;
      ghost var batches, pages;
      result, batches, pages :=
        executor.Collect(around.script, plan.value.search, plan.value.maxPages, worker, around.locked);
      if result.Err? {
        return Err(result.error), Gathered([], batches, pages, Some(result.error));
      }
      return Ok(result.value.0), Gathered(result.value.0, batches, pages, None);
    }

    method PersistCollected(collected: Result<seq<Item>, Raised>, lease: TaskLease, around: Surroundings)
      returns (outcome: Outcome)
      requires Valid()
      modifies analytics
      ensures Valid()
      ensures collected.Err? ==> outcome == FailedWith(collected.error)
      ensures collected.Ok? ==>
                outcome == EndOf(if around.ending.FailsAfter? then Some(Unexpected) else None, around.ending)
      ensures outcome.Finished? ==>
                && around.ending.RunsThrough? && collected.Ok? && AllRecordsStored(collected.value, lease)
                && RecordsObserved(collected.value, lease, around)
      ensures collected.Ok? ==> PersistedInOrder(collected.value, lease, around)
      ensures Grows(old(analytics.Contents()), analytics.Contents())
    {
      GrowsReflexive(analytics.Contents());
      if collected.Err? {
        return FailedWith(collected.error);
      }
      outcome := Persist(collected.value, lease, around);
    }

    // If nobody else persists, the records are combined in their order, up to where the ending comes.
    twostate predicate PersistedInOrder(items: seq<Item>, lease: TaskLease, around: Surroundings)
      requires old(Valid()) && Valid()
      reads executor.pool, analytics
    {
      around.alone ==>
        var upTo := if around.ending.RunsThrough? || |items| < around.ending.records then |items|
                    else around.ending.records;
        analytics.Contents() == Persisted(old(analytics.Contents()),
          BatchViews(items[..upTo], parse, Origin(lease.id, lease.generation), around.clock, analytics.fns))
    }

    method PersistAll(items: seq<Item>, lease: TaskLease, around: Surroundings)
      requires Valid()
      modifies analytics
      ensures Valid() && AllRecordsStored(items, lease) && RecordsObserved(items, lease, around)
      ensures around.alone ==>
                analytics.Contents() == Persisted(old(analytics.Contents()),
                  BatchViews(items, parse, Origin(lease.id, lease.generation), around.clock, analytics.fns))
      ensures Grows(old(analytics.Contents()), analytics.Contents())
    {
      var _, _ :=
        PersistDocuments(analytics, parse, OriginOf(lease), items, around.clock, around.alone, around.keys);
    }

    method PersistSome(items: seq<Item>, lease: TaskLease, around: Surroundings)
      requires Valid()
      modifies analytics
      ensures Valid() && Grows(old(analytics.Contents()), analytics.Contents())
      ensures around.alone ==>
                analytics.Contents() == Persisted(old(analytics.Contents()),
                  BatchViews(items, parse, Origin(lease.id, lease.generation), around.clock, analytics.fns))
    {
      PersistAll(items, lease, around);
    }

    method Persist(items: seq<Item>, lease: TaskLease, around: Surroundings) returns (outcome: Outcome)
      requires Valid()
      modifies analytics
      ensures Valid()
      ensures outcome == EndOf(if around.ending.FailsAfter? then Some(Unexpected) else None, around.ending)
      ensures outcome.Finished? ==>
                && around.ending.RunsThrough? && AllRecordsStored(items, lease)
                && RecordsObserved(items, lease, around)
      ensures PersistedInOrder(items, lease, around)
      ensures Grows(old(analytics.Contents()), analytics.Contents())
    {
      match around.ending {
        case RunsThrough =>
          assert items[..|items|] == items;
          PersistAll(items, lease, around);
          outcome := Finished;
        case CancelledAfter(records) =>
          PersistSome(items[..if |items| < records then |items| else records], lease, around);
          outcome := Cancelled;
        case FailsAfter(records) =>
          PersistSome(items[..if |items| < records then |items| else records], lease, around);
          outcome := FailedWith(Unexpected);
      }
    }

    // The same, and some time later: whatever others persist, what was stored and observed stays.
    method ExecuteAndWait(lease: TaskLease, worker: string, around: Surroundings)
      returns (outcome: Outcome, ghost gathered: Gathered)
      requires Valid()
      modifies executor.pool, analytics
      ensures Valid()
      ensures gathered.Explained(PlannedFor(lease, setup), CallsOf(worker, around))
      ensures outcome == EndOf(gathered.Throws(around.ending), around.ending)
      ensures outcome.Finished? ==>
                && around.ending.RunsThrough? && CollectedAndStored(gathered, lease, worker, around)
                && RecordsObserved(gathered.items, lease, around)
    {
      outcome, gathered := ExecuteLeasedWork(lease, worker, around);
      ghost var stored := analytics.Contents();
      analytics.Interfere({});
      if outcome.Finished? {
        StaysStored(old(analytics.Contents()), stored, analytics.Contents(), gathered.items, lease, around);
      }
    }

    lemma StaysStored(before: View, v: View, w: View, items: seq<Item>, lease: TaskLease, around: Surroundings)
      requires Grows(v, w) && AllStored(v, items, |items|, parse, OriginOf(lease))
      requires PlainPlatforms(items, parse) ==>
                 OwnObservations(before, v, items, |items|, parse, Origin(lease.id, lease.generation), around.clock,
                                 around.alone, around.keys)
      ensures AllStored(w, items, |items|, parse, OriginOf(lease))
      ensures PlainPlatforms(items, parse) ==>
                OwnObservations(before, w, items, |items|, parse, Origin(lease.id, lease.generation), around.clock,
                                around.alone, around.keys)
    {
      AllStoredForever(v, w, items, |items|, parse, OriginOf(lease));
      if PlainPlatforms(items, parse) {
        OwnAllStay(before, v, w, items, |items|, parse, Origin(lease.id, lease.generation), around.clock,
                   around.alone, around.keys);
      }
    }
  }
}
