// What the statements do to the rows, column by column, stated without the functions that carry them out.
module Statements {
  import opened Options
  import opened Ordering
  import opened Tables
  import opened Protocol
  import opened ProtocolInvariant

  // ---- new rows ----

  // A row of worker_tasks as the inserts write it.
  predicate IsNewTask(row: Task, taskType: string, payload: string, maxAttempts: int, priority: int, runAt: Time) {
    && row.taskType == taskType && row.payload == payload
    && row.maxAttempts == maxAttempts && row.priority == priority
    && row.status.Pending? && row.attempts == 0 && row.generation == 0
    && row.nextRunAt == runAt && row.lease.None?
  }

  // A row of task_outbox as the inserts write it.
  predicate IsNewRow(row: OutboxRow, t: nat, g: nat, at: Time) {
    && row.taskId == t && row.generation == g && row.availableAt == at
    && row.published.None? && row.claim.None? && row.publishAttempts == 0
  }

  // One more task and the outbox row that announces it; nothing else but the serials.
  ghost predicate AddsTask(s: Store, s': Store, t: nat, o: nat) {
    && t !in s.tasks && t in s'.tasks && s'.tasks == s.tasks[t := s'.tasks[t]]
    && o !in s.outbox && o in s'.outbox && s'.outbox == s.outbox[o := s'.outbox[o]]
    && IsNewRow(s'.outbox[o], t, s'.tasks[t].generation, s'.tasks[t].nextRunAt)
  }

  lemma FreshIds(s: Store)
    requires Inv(s)
    ensures s.nextTask !in s.tasks && s.nextOutbox !in s.outbox && s.nextArchive !in s.archives
  {}

  // The task create_task makes under a fresh key.
  ghost predicate Creates(s: Store, s': Store, t: nat, taskType: string, payload: string, key: string,
                          maxAttempts: int, priority: int, runAt: Option<Time>)
  {
    && AddsTask(s, s', t, s.nextOutbox)
    && IsNewTask(s'.tasks[t], taskType, payload, maxAttempts, priority,
                 if runAt.Some? then runAt.value else s.now)
    && s'.tasks[t].key == UserKey(key) && s'.tasks[t].origin.None? && s'.tasks[t].replayOf.None?
    && s'.stream == s.stream && s'.archives == s.archives && s'.audits == s.audits
  }

  lemma CreateCreates(s: Store, a: Action)
    requires Inv(s) && a.Create? && forall t <- s.tasks :: s.tasks[t].key != UserKey(a.key)
    ensures Creates(s, Next(s, a), s.nextTask, a.taskType, a.payload, a.key, a.maxAttempts, a.priority, a.runAt)
  {
    assert !KeyTaken(s.tasks, UserKey(a.key));
    CreateIs(s, a);
    FreshIds(s);
  }

  // ---- giving up a task ----

  // The next generation of the task, one attempt further, with the outbox row that announces it.
  ghost predicate Retries(s: Store, s': Store, t: nat) {
    && t in s.tasks && t in s'.tasks
    && s'.tasks == s.tasks[t := s'.tasks[t]]
    && s'.tasks[t] == s.tasks[t].(status := RetryScheduled, attempts := s.tasks[t].attempts + 1,
                                  generation := s.tasks[t].generation + 1, nextRunAt := s'.tasks[t].nextRunAt,
                                  lease := None)
    && s.nextOutbox !in s.outbox && s.nextOutbox in s'.outbox
    && s'.outbox == s.outbox[s.nextOutbox := s'.outbox[s.nextOutbox]]
    && IsNewRow(s'.outbox[s.nextOutbox], t, s.tasks[t].generation + 1, s'.tasks[t].nextRunAt)
    && s'.archives == s.archives && s'.stream == s.stream
  }

  lemma RetryRetries(s: Store, t: nat, at: Time)
    requires Inv(s) && t in s.tasks
    ensures Retries(s, RetryTask(s, t, at), t)
  {
    NoRowYet(s, t);
    FreshIds(s);
  }

  // The task is finished one attempt further, and archived as it was, under at most 100 characters of the class.
  ghost predicate Buries(s: Store, s': Store, t: nat, failureClass: string) {
    && t in s.tasks && t in s'.tasks && s.nextArchive in s'.archives
    && s'.tasks == s.tasks[t := s.tasks[t].(status := DeadLettered, attempts := s.tasks[t].attempts + 1,
                                            lease := None)]
    && var a := s'.archives[s.nextArchive];
    && a.taskId == t && a.taskType == s.tasks[t].taskType && a.payload == s.tasks[t].payload
    && a.generation == s.tasks[t].generation && a.failedAt == s.now && a.replay.None? && a.replayGeneration == 0
    && (|failureClass| <= 100 ==> a.failureClass == failureClass)
    && (|failureClass| > 100 ==> |a.failureClass| == 100 && a.failureClass <= failureClass)
    && s'.outbox == s.outbox && s'.stream == s.stream
  }

  // ---- the fence ----

  // The task still runs at the snapshot's generation, leased under the snapshot's name; the expiry does not matter.
  predicate RunsFor(s: Store, lease: TaskLease) {
    && lease.id in s.tasks
    && var row := s.tasks[lease.id];
    && row.status.Running? && row.generation == lease.generation
    && row.lease.Some? && row.lease.value.owner == lease.owner
  }

  // ---- holding a lease ----

  // The task is at this generation, its time has come, and it is enqueued, or its last holder's time is up.
  predicate Grantable(s: Store, t: nat, g: nat) {
    && t in s.tasks
    && var row := s.tasks[t];
    && row.generation == g && !(s.now < row.nextRunAt)
    && (row.status.Enqueued?
        || (row.status.Running? && row.lease.Some? && !(s.now < row.lease.value.expiresAt)))
  }

  // The task runs at the snapshot's generation, for its owner, and the lease has not expired.
  predicate StillHeld(s: Store, lease: TaskLease) {
    && lease.id in s.tasks
    && var row := s.tasks[lease.id];
    && row.generation == lease.generation && row.status.Running?
    && row.lease.Some? && row.lease.value.owner == lease.owner && s.now < row.lease.value.expiresAt
  }

  // Only the expiry moves.
  ghost predicate MovesExpiry(s: Store, s': Store, lease: TaskLease, expiresAt: Time) {
    && lease.id in s.tasks
    && s' == s.(tasks := s.tasks[lease.id := s.tasks[lease.id].(lease := Some(Lease(lease.owner, expiresAt)))])
  }

  lemma RenewMovesExpiry(s: Store, lease: TaskLease, seconds: real)
    ensures Renewable(s, lease) <==> StillHeld(s, lease)
    ensures StillHeld(s, lease) ==> MovesExpiry(s, RenewLease(s, lease, seconds), lease, s.now + seconds)
    ensures !StillHeld(s, lease) ==> RenewLease(s, lease, seconds) == s
  {}

  lemma MovedExpiryIsFenced(s: Store, s': Store, lease: TaskLease, expiresAt: Time)
    requires StillHeld(s, lease) && MovesExpiry(s, s', lease, expiresAt)
    ensures Fenced(s', lease) && s'.tasks[lease.id].lease.value.expiresAt == expiresAt
  {}

  // ---- claiming ----

  // Unpublished, its time has come, no live claim is on it, and its task still waits for this generation.
  predicate Due(s: Store, o: nat) {
    && o in s.outbox && s.outbox[o].taskId in s.tasks
    && var row, task := s.outbox[o], s.tasks[s.outbox[o].taskId];
    && !row.published.Some?
    && !(s.now < row.availableAt)
    && !(row.claim.Some? && s.now < row.claim.value.expiresAt)
    && task.generation == row.generation
    && !task.status.Running? && !task.status.Done? && !task.status.DeadLettered?
  }

  // The higher priority comes first, then the earlier row, then the lower id.
  predicate MoreUrgent(s: Store, o: nat, p: nat) {
    && o in s.outbox && s.outbox[o].taskId in s.tasks
    && p in s.outbox && s.outbox[p].taskId in s.tasks
    && var (a, b) := (s.tasks[s.outbox[o].taskId].priority, s.tasks[s.outbox[p].taskId].priority);
    && var (x, y) := (s.outbox[o].availableAt, s.outbox[p].availableAt);
    && (a > b || (a == b && (x < y || (x == y && o < p))))
  }

  // The most urgent of the due rows that nobody has locked, in their order, and all of them if there is room.
  ghost predicate TakesMostUrgent(s: Store, taken: seq<nat>, batch: nat, locked: set<nat>) {
    && |taken| <= batch
    && (forall o <- taken :: Due(s, o) && o !in locked)
    && (forall i, j | 0 <= i < j < |taken| :: MoreUrgent(s, taken[i], taken[j]))
    && (forall o <- s.outbox | Due(s, o) && o !in locked && o !in taken ::
          |taken| == batch && forall p <- taken :: MoreUrgent(s, p, o))
  }

  lemma ReadyIsDue(s: Store, o: nat)
    ensures Ready(s, o) <==> Due(s, o)
  {}

  lemma BeforeIsMoreUrgent(s: Store, o: nat, p: nat)
    requires Due(s, o) && Due(s, p)
    ensures Before(OutboxColumns(s), o, p) <==> MoreUrgent(s, o, p)
  {}

  lemma TakeTheFirst(s: Store, all: seq<nat>, batch: nat, locked: set<nat>)
    requires forall o :: o in all <==> Due(s, o) && o !in locked
    requires forall i, j | 0 <= i < j < |all| :: MoreUrgent(s, all[i], all[j])
    ensures TakesMostUrgent(s, Limit(all, batch), batch, locked)
  {
    var taken := Limit(all, batch);
    forall o <- taken ensures o in all {
      var i :| 0 <= i < |taken| && taken[i] == o;
      assert all[i] == o;
    }
    forall o <- s.outbox | Due(s, o) && o !in locked && o !in taken
      ensures |taken| == batch && forall p <- taken :: MoreUrgent(s, p, o)
    {
      var j := LeftOut(all, batch, o);
      forall p <- taken ensures MoreUrgent(s, p, o) {
        var i :| 0 <= i < |taken| && taken[i] == p;
        assert all[i] == p;
      }
    }
  }

  lemma ReadyRowsAreMostUrgent(s: Store, batch: nat, locked: set<nat>)
    ensures TakesMostUrgent(s, ReadyRows(s, batch, locked), batch, locked)
  {
    var all := OrderBy(OutboxColumns(s), ReadyIds(s, locked));
    forall o ensures o in all <==> Due(s, o) && o !in locked {
      ReadyIsDue(s, o);
      assert o in all <==> o in Elements(all);
    }
    forall i, j | 0 <= i < j < |all| ensures MoreUrgent(s, all[i], all[j]) {
      assert all[i] in all && all[j] in all;
      BeforeIsMoreUrgent(s, all[i], all[j]);
    }
    TakeTheFirst(s, all, batch, locked);
  }

  // The rows taken are stamped, their waiting tasks enqueued, and nothing else is touched.
  ghost predicate Stamps(s: Store, s': Store, taken: seq<nat>, token: nat, expiresAt: Time) {
    && s' == s.(outbox := s'.outbox, tasks := s'.tasks)
    && s'.outbox.Keys == s.outbox.Keys && s'.tasks.Keys == s.tasks.Keys
    && (forall o <- s.outbox ::
          s'.outbox[o] == if o !in taken then s.outbox[o]
                          else s.outbox[o].(claim := Some(Claim(token, expiresAt)),
                                            publishAttempts := s.outbox[o].publishAttempts + 1))
    && (forall t <- s.tasks ::
          s'.tasks[t] == if exists o <- taken :: o in s.outbox && s.outbox[o].taskId == t
                         then s.tasks[t].(status := Enqueued) else s.tasks[t])
  }

  lemma ClaimStamps(s: Store, taken: seq<nat>, token: nat, expiresAt: Time)
    requires forall o <- taken :: Due(s, o)
    ensures Stamps(s, ClaimRows(s, taken, token, expiresAt), taken, token, expiresAt)
  {
    var s' := ClaimRows(s, taken, token, expiresAt);
    forall t <- s.tasks
      ensures s'.tasks[t] == if exists o <- taken :: o in s.outbox && s.outbox[o].taskId == t
                             then s.tasks[t].(status := Enqueued) else s.tasks[t]
    {
      if o :| o in taken && o in s.outbox && s.outbox[o].taskId == t {
        assert Due(s, o);
        assert HasClaimedRow(s.outbox, taken, t, s.tasks[t].generation);
      }
    }
  }

  // ---- replaying ----

  // Unreplayed, and chosen by ids, type and failure class where these are given.
  predicate Replaying(s: Store, d: nat, selector: Selector) {
    && d in s.archives && !s.archives[d].replay.Some?
    && !(selector.ids != {} && d !in selector.ids)
    && !(selector.taskType.Some? && s.archives[d].taskType != selector.taskType.value)
    && !(selector.failureClass.Some? && s.archives[d].failureClass != selector.failureClass.value)
  }

  // The earlier failure comes first, then the lower id.
  predicate FailedFirst(s: Store, d: nat, e: nat) {
    && d in s.archives && e in s.archives
    && (s.archives[d].failedAt < s.archives[e].failedAt
        || (s.archives[d].failedAt == s.archives[e].failedAt && d < e))
  }

  ghost predicate InFailureOrder(s: Store, ds: seq<nat>) {
    forall i, j | 0 <= i < j < |ds| :: FailedFirst(s, ds[i], ds[j])
  }

  // The oldest of the chosen failures that nobody has locked, in their order, and all of them if there is room.
  ghost predicate TakesOldest(s: Store, taken: seq<nat>, selector: Selector, limit: nat, locked: set<nat>) {
    && |taken| <= limit
    && (forall d <- taken :: Replaying(s, d, selector) && d !in locked)
    && InFailureOrder(s, taken)
    && (forall d <- s.archives | Replaying(s, d, selector) && d !in locked && d !in taken ::
          |taken| == limit && forall e <- taken :: FailedFirst(s, e, d))
  }

  lemma MatchingIsReplaying(s: Store, d: nat, selector: Selector, locked: set<nat>)
    ensures d in Matching(s, selector, locked) <==> Replaying(s, d, selector) && d !in locked
  {}

  lemma BeforeIsFailedFirst(s: Store, d: nat, e: nat)
    requires d in s.archives && e in s.archives
    ensures Before(ArchiveColumns(s), d, e) <==> FailedFirst(s, d, e)
  {}

  // ORDER BY failed_at, id over the chosen failures.
  lemma MatchingInOrder(s: Store, selector: Selector, locked: set<nat>)
    ensures var all := OrderBy(ArchiveColumns(s), Matching(s, selector, locked));
            && InFailureOrder(s, all)
            && forall d :: d in all <==> Replaying(s, d, selector) && d !in locked
  {
    var all := OrderBy(ArchiveColumns(s), Matching(s, selector, locked));
    forall d ensures d in all <==> Replaying(s, d, selector) && d !in locked {
      MatchingIsReplaying(s, d, selector, locked);
      assert d in all <==> d in Elements(all);
    }
    forall i, j | 0 <= i < j < |all| ensures FailedFirst(s, all[i], all[j]) {
      assert all[i] in all && all[j] in all;
      BeforeIsFailedFirst(s, all[i], all[j]);
    }
  }

  lemma ReplayRowsAreOldest(s: Store, selector: Selector, limit: nat, locked: set<nat>)
    ensures TakesOldest(s, ReplayRows(s, selector, limit, locked), selector, limit, locked)
  {
    var all := OrderBy(ArchiveColumns(s), Matching(s, selector, locked));
    var taken := ReplayRows(s, selector, limit, locked);
    MatchingInOrder(s, selector, locked);
    forall d <- taken ensures d in all {
      var i :| 0 <= i < |taken| && taken[i] == d;
      assert all[i] == d;
    }
    forall d <- s.archives | Replaying(s, d, selector) && d !in locked && d !in taken
      ensures |taken| == limit && forall e <- taken :: FailedFirst(s, e, d)
    {
      var j := LeftOut(all, limit, d);
      forall e <- taken ensures FailedFirst(s, e, d) {
        var i :| 0 <= i < |taken| && taken[i] == e;
        assert all[i] == e;
      }
    }
  }

  // What replaying leaves of one failure: the mark, the audit row, and a new task with its outbox row.
  ghost predicate Replaces(s: Store, s': Store, d: nat, t: nat, maxAttempts: int, priority: int) {
    && d in s.archives && d in s'.archives
    && var a := s.archives[d];
    && s'.archives[d] == a.(replay := Some(Replacement(s.now, t)), replayGeneration := a.replayGeneration + 1)
    && Audit(d, a.replayGeneration + 1, t) in s'.audits
    && t !in s.tasks && t in s'.tasks
    && IsNewTask(s'.tasks[t], a.taskType, a.payload, maxAttempts, priority, s.now)
    && s'.tasks[t].key == ReplayKey(d, a.replayGeneration + 1)
    && s'.tasks[t].origin == Some(a.taskId) && s'.tasks[t].replayOf == Some(d)
    && (exists o <- s'.outbox :: o !in s.outbox && IsNewRow(s'.outbox[o], t, 0, s.now))
  }

  ghost predicate ReplacesAll(s: Store, s': Store, ds: seq<nat>, ts: seq<nat>, maxAttempts: int, priority: int) {
    && |ts| == |ds|
    && (forall i | 0 <= i < |ds| :: Replaces(s, s', ds[i], ts[i], maxAttempts, priority))
  }

  // Everything that was there stays, but for the marks; only replacement tasks are new.
  ghost predicate AddsOnly(s: Store, s': Store, ds: seq<nat>, ts: seq<nat>) {
    && s'.now == s.now && s'.stream == s.stream && s'.delivered == s.delivered && s'.pending == s.pending
    && s'.archives.Keys == s.archives.Keys
    && (forall d <- s.archives :: d !in ds ==> s'.archives[d] == s.archives[d])
    && (forall t <- s.tasks :: t in s'.tasks && s'.tasks[t] == s.tasks[t])
    && (forall t <- s'.tasks :: t in s.tasks || t in ts)
    && (forall o <- s.outbox :: o in s'.outbox && s'.outbox[o] == s.outbox[o])
  }

  lemma ReplayOneReplaces(s: Store, d: nat, maxAttempts: int, priority: int)
    requires Inv(s) && d in s.archives && s.archives[d].replay.None?
    ensures var s' := ReplayOne(s, d, maxAttempts, priority);
            && Replaces(s, s', d, s.nextTask, maxAttempts, priority)
            && AddsOnly(s, s', [d], [s.nextTask])
            && s'.audits == s.audits + {Audit(d, 1, s.nextTask)}
            && s'.nextTask == s.nextTask + 1
  {
    ReplayOneIs(s, d, maxAttempts, priority);
    ReplayKeyFree(s, d);
    FreshIds(s);
    ReplayedReplaces(s, d, maxAttempts, priority);
  }

  lemma ReplayedReplaces(s: Store, d: nat, maxAttempts: int, priority: int)
    requires d in s.archives && s.archives[d].replayGeneration == 0
    requires s.nextTask !in s.tasks && s.nextOutbox !in s.outbox
    ensures var s' := ReplayedStore(s, d, maxAttempts, priority);
            && Replaces(s, s', d, s.nextTask, maxAttempts, priority)
            && AddsOnly(s, s', [d], [s.nextTask])
  {
    var s' := ReplayedStore(s, d, maxAttempts, priority);
    assert IsNewRow(s'.outbox[s.nextOutbox], s.nextTask, 0, s.now);
  }

  // A replacement made earlier in the batch is still there after the next one.
  lemma ReplacesStays(s: Store, s1: Store, s': Store, e: nat, u: nat, d: nat, t: nat, maxAttempts: int, priority: int)
    requires Replaces(s, s1, e, u, maxAttempts, priority) && AddsOnly(s1, s', [d], [t]) && e != d
    requires s1.audits <= s'.audits
    ensures Replaces(s, s', e, u, maxAttempts, priority)
  {
    var o :| o in s1.outbox && o !in s.outbox && IsNewRow(s1.outbox[o], u, 0, s.now);
    assert s'.outbox[o] == s1.outbox[o];
  }

  lemma AddsOnlyMore(s: Store, s1: Store, s': Store, ds: seq<nat>, ts: seq<nat>, d: nat, t: nat)
    requires AddsOnly(s, s1, ds, ts) && AddsOnly(s1, s', [d], [t])
    ensures AddsOnly(s, s', ds + [d], ts + [t])
  {}

  // The next failure was untouched so far.
  lemma ReplacesNext(s: Store, s1: Store, s': Store, ds: seq<nat>, ts: seq<nat>, d: nat, t: nat, maxAttempts: int,
                     priority: int)
    requires AddsOnly(s, s1, ds, ts) && Replaces(s1, s', d, t, maxAttempts, priority) && d in s.archives && d !in ds
    ensures Replaces(s, s', d, t, maxAttempts, priority)
  {
    var o :| o in s'.outbox && o !in s1.outbox && IsNewRow(s'.outbox[o], t, 0, s1.now);
    assert o !in s.outbox;
  }

  lemma OneMoreReplaced(s: Store, s1: Store, s': Store, ds: seq<nat>, ts: seq<nat>, d: nat, t: nat, maxAttempts: int,
                        priority: int)
    requires ReplacesAll(s, s1, ds, ts, maxAttempts, priority) && AddsOnly(s, s1, ds, ts)
    requires Replaces(s1, s', d, t, maxAttempts, priority) && AddsOnly(s1, s', [d], [t]) && s1.audits <= s'.audits
    requires d in s.archives && d !in ds
    ensures ReplacesAll(s, s', ds + [d], ts + [t], maxAttempts, priority) && AddsOnly(s, s', ds + [d], ts + [t])
  {
    AddsOnlyMore(s, s1, s', ds, ts, d, t);
    ReplacesNext(s, s1, s', ds, ts, d, t, maxAttempts, priority);
    forall i | 0 <= i < |ds| ensures Replaces(s, s', ds[i], ts[i], maxAttempts, priority) {
      ReplacesStays(s, s1, s', ds[i], ts[i], d, t, maxAttempts, priority);
    }
  }
}
