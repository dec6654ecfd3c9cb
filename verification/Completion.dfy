// From every reachable state the programs, left to themselves, can drain the whole system.
module Completion {
  import opened Options
  import opened Ordering
  import opened Tables
  import opened Protocol
  import opened ProtocolInvariant
  import opened ProtocolRuns
  import opened Sums

  // How the programs are configured.
  datatype Settings = Settings(batch: nat, claimSeconds: real, leaseSeconds: real, minIdle: real)
  {
    predicate Valid() { batch > 0 && claimSeconds > 0.0 && leaseSeconds > 0.0 }
  }

  function Later(a: Time, b: Time): Time {
    if a <= b then b else a
  }

  // ---- what the programs do ----

  // Everybody waits, a dispatcher makes one pass, or a worker makes one turn of its loop.
  datatype Move = WaitUntil(to: Time) | DispatchPass(token: nat) | WorkerTurn(worker: string)

  // XADD and mark, row after row.
  ghost function PublishAll(r: Run, rows: seq<nat>, token: nat): Run
    decreases |rows|
  {
    if rows == [] then r
    else if rows[0] !in After(r).outbox then PublishAll(r, rows[1..], token)
    else
      var row := After(r).outbox[rows[0]];
      var event := ClaimedEvent(rows[0], row.taskId, row.generation, token);
      var published := Then(r, Publish(row.taskId, row.generation));
      PublishAll(Then(published, MarkPublished(event, |After(r).stream|)), rows[1..], token)
  }

  // claim_ready, then every claimed row published and marked.
  ghost function Passed(r: Run, settings: Settings, token: nat): Run {
    PublishAll(Then(r, ClaimReady(settings.batch, {}, token, settings.claimSeconds)),
               ReadyRows(After(r), settings.batch, {}), token)
  }

  function RunningRow(s: Store, t: nat, worker: string, seconds: real): Task
    requires t in s.tasks
  {
    s.tasks[t].(status := Running, lease := Some(Lease(worker, s.now + seconds)))
  }

  // The delivery leased and its task completed.
  ghost function CompletedRun(r: Run, m: nat, t: nat, worker: string, seconds: real): Run
    requires t in After(r).tasks
  {
    Then(Then(r, LeaseTask(m, worker, seconds)), Complete(Snapshot(t, RunningRow(After(r), t, worker, seconds))))
  }

  // A delivery is handled: leased, completed and acknowledged, or acknowledged as stale, or left alone.
  ghost function Handled(r: Run, m: nat, worker: string, seconds: real): Run {
    if m >= |After(r).stream| then r
    else
      var Message(t, g) := After(r).stream[m];
      var leased := Then(r, LeaseTask(m, worker, seconds));
      if Leasable(After(r), t, g) then Then(CompletedRun(r, m, t, worker, seconds), Ack(m))
      else if Settled(After(r).tasks, t, g) then Then(leased, Ack(m))
      else leased
  }

  function IdleIds(s: Store, minIdle: real): set<nat> {
    set m | m in s.pending && s.pending[m].idleSince + minIdle <= s.now
  }

  // Read one new entry; if there is none, reclaim the first entry that has been idle for long enough.
  ghost function Received(r: Run, settings: Settings, worker: string): (Run, Option<nat>) {
    var read := Then(r, ReadNew(worker, 1));
    var idle := IdleIds(After(read), settings.minIdle);
    if After(r).delivered < |After(r).stream| then (read, Some(After(r).delivered))
    else if idle == {} then (Then(read, Reclaim(worker, settings.minIdle, {})), None)
    else (Then(read, Reclaim(worker, settings.minIdle, {Least(idle)})), Some(Least(idle)))
  }

  // One turn of the worker's loop.
  ghost function Turned(r: Run, settings: Settings, worker: string): Run {
    var (received, message) := Received(r, settings, worker);
    if message.None? then received else Handled(received, message.value, worker, settings.leaseSeconds)
  }

  ghost function Perform(r: Run, move: Move, settings: Settings): Run {
    match move
    case WaitUntil(to) => Then(r, Tick(to))
    case DispatchPass(token) => Passed(r, settings, token)
    case WorkerTurn(worker) => Turned(r, settings, worker)
  }

  // The first move comes first.
  ghost function PerformAll(r: Run, moves: seq<Move>, settings: Settings): Run
    decreases |moves|
  {
    if moves == [] then r else PerformAll(Perform(r, moves[0], settings), moves[1..], settings)
  }

  lemma {:induction false} PerformAppended(r: Run, moves: seq<Move>, more: seq<Move>, settings: Settings)
    ensures PerformAll(r, moves + more, settings) == PerformAll(PerformAll(r, moves, settings), more, settings)
    decreases |moves|
  {
    if moves == [] {
      assert moves + more == more;
    } else {
      assert (moves + more)[1..] == moves[1..] + more;
      PerformAppended(Perform(r, moves[0], settings), moves[1..], more, settings);
    }
  }

  // ---- waiting ----

  // Every deadline of a task or an outbox row has passed.
  ghost predicate Calm(s: Store) {
    && (forall t <- s.tasks ::
          && s.tasks[t].nextRunAt <= s.now
          && (s.tasks[t].lease.Some? ==> s.tasks[t].lease.value.expiresAt <= s.now))
    && (forall o <- s.outbox :: s.outbox[o].availableAt <= s.now && ClaimFree(s.outbox[o], s.now))
  }

  ghost predicate AllIdle(s: Store, minIdle: real) {
    forall m <- s.pending :: s.pending[m].idleSince + minIdle <= s.now
  }

  ghost predicate Quiet(s: Store, minIdle: real) {
    Calm(s) && AllIdle(s, minIdle)
  }

  lemma {:induction false} Bound(times: set<Time>) returns (b: Time)
    ensures forall x <- times :: x <= b
    decreases |times|
  {
    if x: Time :| x in times {
      b := Bound(times - {x});
      b := Later(b, x);
      forall y <- times ensures y <= b {
        assert y == x || y in times - {x};
      }
    } else {
      b := 0.0;
    }
  }

  lemma TaskDeadline(tasks: map<nat, Task>) returns (b: Time)
    ensures forall t <- tasks ::
              tasks[t].nextRunAt <= b && (tasks[t].lease.Some? ==> tasks[t].lease.value.expiresAt <= b)
  {
    var starts := set t | t in tasks :: tasks[t].nextRunAt;
    var ends := set t | t in tasks && tasks[t].lease.Some? :: tasks[t].lease.value.expiresAt;
    b := Bound(starts + ends);
    forall t <- tasks
      ensures tasks[t].nextRunAt <= b && (tasks[t].lease.Some? ==> tasks[t].lease.value.expiresAt <= b)
    {
      assert tasks[t].nextRunAt in starts;
      assert tasks[t].lease.Some? ==> tasks[t].lease.value.expiresAt in ends;
    }
  }

  lemma RowDeadline(outbox: map<nat, OutboxRow>) returns (b: Time)
    ensures forall o <- outbox :: outbox[o].availableAt <= b && ClaimFree(outbox[o], b)
  {
    var starts := set o | o in outbox :: outbox[o].availableAt;
    var ends := set o | o in outbox && outbox[o].claim.Some? :: outbox[o].claim.value.expiresAt;
    b := Bound(starts + ends);
    forall o <- outbox ensures outbox[o].availableAt <= b && ClaimFree(outbox[o], b) {
      assert outbox[o].availableAt in starts;
      assert outbox[o].claim.Some? ==> outbox[o].claim.value.expiresAt in ends;
    }
  }

  lemma IdleDeadline(pending: map<nat, PendingEntry>, minIdle: real) returns (b: Time)
    ensures forall m <- pending :: pending[m].idleSince + minIdle <= b
  {
    var times := set m | m in pending :: pending[m].idleSince + minIdle;
    b := Bound(times);
    forall m <- pending ensures pending[m].idleSince + minIdle <= b {
      assert pending[m].idleSince + minIdle in times;
    }
  }

  // Nobody acts; the clock passes every deadline.
  lemma Wait(r: Run, minIdle: real) returns (to: Time)
    requires Legal(r)
    ensures Legal(Then(r, Tick(to))) && Quiet(After(Then(r, Tick(to))), minIdle)
    ensures var s, s' := After(r), After(Then(r, Tick(to)));
            s'.tasks == s.tasks && s'.stream == s.stream && s'.outbox == s.outbox
  {
    var s := After(r);
    var a := TaskDeadline(s.tasks);
    var b := RowDeadline(s.outbox);
    var c := IdleDeadline(s.pending, minIdle);
    to := Later(Later(s.now, a), Later(b, c));
  }

  // ---- dispatching ----

  // A row that may be published and marked by the dispatcher holding the token.
  predicate Publishable(s: Store, o: nat, token: nat) {
    && o in s.outbox
    && s.outbox[o].published.None?
    && s.outbox[o].claim.Some? && s.outbox[o].claim.value.token == token
    && Visible(s.now, s.tasks, s.outbox[o].taskId, s.outbox[o].generation)
  }

  ghost predicate AllPublishable(s: Store, rows: seq<nat>, token: nat) {
    forall o <- rows :: Publishable(s, o, token)
  }

  // The rows are published, their messages on the stream; nothing else changed.
  ghost predicate PublishedRows(s: Store, s': Store, rows: seq<nat>) {
    && s'.now == s.now && s'.tasks == s.tasks && s.stream <= s'.stream
    && s'.delivered == s.delivered && s'.pending == s.pending
    && s'.outbox.Keys == s.outbox.Keys
    && (forall o <- s.outbox :: o !in rows ==> s'.outbox[o] == s.outbox[o])
    && (forall o <- s.outbox :: o in rows ==>
          && s'.outbox[o].published.Some? && s'.outbox[o].claim.None?
          && s'.outbox[o].availableAt == s.outbox[o].availableAt
          && Message(s.outbox[o].taskId, s.outbox[o].generation) in s'.stream)
  }

  lemma PublishedAndMarked(s: Store, event: ClaimedEvent)
    requires Publishable(s, event.outboxId, event.token)
    requires s.outbox[event.outboxId].taskId == event.taskId && s.outbox[event.outboxId].generation == event.generation
    ensures var s1 := Next(s, Publish(event.taskId, event.generation));
            var s' := Next(s1, MarkPublished(event, |s.stream|));
            && s'.stream == s.stream + [Message(event.taskId, event.generation)]
            && PublishedRows(s, s', [event.outboxId])
            && SameDelivery(s.outbox[event.outboxId], s'.outbox[event.outboxId])
  {
    var s1 := Next(s, Publish(event.taskId, event.generation));
    assert s1.stream[|s.stream|] == Message(event.taskId, event.generation);
  }

  // XADD and mark one row.
  ghost function PublishedRow(r: Run, o: nat, token: nat): Run
    requires o in After(r).outbox
  {
    var row := After(r).outbox[o];
    var event := ClaimedEvent(o, row.taskId, row.generation, token);
    Then(Then(r, Publish(row.taskId, row.generation)), MarkPublished(event, |After(r).stream|))
  }

  lemma PublishRow(r: Run, o: nat, token: nat)
    requires Legal(r) && Publishable(After(r), o, token)
    ensures Legal(PublishedRow(r, o, token)) && Extends(r, PublishedRow(r, o, token))
    ensures PublishedRows(After(r), After(PublishedRow(r, o, token)), [o])
    ensures SameDelivery(After(r).outbox[o], After(PublishedRow(r, o, token)).outbox[o])
  {
    var s := After(r);
    var t, g := s.outbox[o].taskId, s.outbox[o].generation;
    var r1 := Then(r, Publish(t, g));
    assert After(r1).stream == s.stream + [Message(t, g)];
    PublishedAndMarked(s, ClaimedEvent(o, t, g, token));
    assert Extends(r, r1);
  }

  lemma OthersStayPublishable(s: Store, s': Store, rows: seq<nat>, o: nat, token: nat)
    requires PublishedRows(s, s', [o]) && o !in rows && AllPublishable(s, rows, token)
    ensures AllPublishable(s', rows, token)
  {
    forall p <- rows ensures Publishable(s', p, token) {
      assert Publishable(s, p, token) && s'.outbox[p] == s.outbox[p];
    }
  }

  lemma PublishedInTurn(s: Store, s1: Store, s': Store, o: nat, rest: seq<nat>)
    requires PublishedRows(s, s1, [o]) && PublishedRows(s1, s', rest) && o in s.outbox && o !in rest
    ensures PublishedRows(s, s', [o] + rest)
  {
    assert forall p :: p in [o] + rest <==> p == o || p in rest;
    assert forall p <- s.outbox :: p in rest ==> s1.outbox[p] == s.outbox[p];
    assert s.stream <= s'.stream;
    assert Message(s.outbox[o].taskId, s.outbox[o].generation) in s1.stream;
    KeptOnStream(s1.stream, s'.stream, Message(s.outbox[o].taskId, s.outbox[o].generation));
  }

  lemma KeptOnStream(stream: seq<Message>, stream': seq<Message>, m: Message)
    requires m in stream && stream <= stream'
    ensures m in stream'
  {
    var i :| 0 <= i < |stream| && stream[i] == m;
    assert stream'[i] == m;
  }

  // The dispatch loop over claimed rows.
  lemma {:induction false} AllArePublished(r: Run, rows: seq<nat>, token: nat)
    requires Legal(r) && Distinct(rows) && AllPublishable(After(r), rows, token)
    ensures Legal(PublishAll(r, rows, token)) && Extends(r, PublishAll(r, rows, token))
    ensures PublishedRows(After(r), After(PublishAll(r, rows, token)), rows)
    decreases |rows|
  {
    if rows == [] {
    } else {
      var o, rest := rows[0], rows[1..];
      assert rows == [o] + rest && o !in rest && Distinct(rest);
      assert o in rows && forall p <- rest :: p in rows;
      assert Publishable(After(r), o, token);
      var r1 := PublishedRow(r, o, token);
      PublishRow(r, o, token);
      OthersStayPublishable(After(r), After(r1), rest, o, token);
      AllArePublished(r1, rest, token);
      var r' := PublishAll(r1, rest, token);
      assert PublishAll(r, rows, token) == r';
      ExtendsTransitive(r, r1, r');
      PublishedInTurn(After(r), After(r1), After(r'), o, rest);
    }
  }

  // What one pass of a dispatcher leaves.
  ghost predicate Dispatched(s: Store, s': Store, rows: seq<nat>) {
    && s'.now == s.now && s.stream <= s'.stream && s'.delivered == s.delivered && s'.pending == s.pending
    && s'.outbox.Keys == s.outbox.Keys && OnlyEnqueues(s.tasks, s'.tasks)
    && (forall o <- s.outbox :: o !in rows ==> s'.outbox[o] == s.outbox[o])
    && (forall o <- s.outbox :: o in rows ==>
          && s'.outbox[o].published.Some? && s'.outbox[o].claim.None?
          && s'.outbox[o].availableAt == s.outbox[o].availableAt
          && Message(s.outbox[o].taskId, s.outbox[o].generation) in s'.stream)
  }

  lemma ClaimedIsPublishable(s: Store, rows: seq<nat>, o: nat, token: nat, expiresAt: Time)
    requires Inv(s) && o in rows && Ready(s, o)
    ensures Publishable(ClaimRows(s, rows, token, expiresAt), o, token)
  {
    assert OutboxRowOk(s.tasks, s.stream, s.outbox[o]);
    assert HasClaimedRow(s.outbox, rows, s.outbox[o].taskId, s.outbox[o].generation);
  }

  lemma PassDispatches(r: Run, settings: Settings, token: nat)
    requires Legal(r) && settings.Valid()
    ensures Legal(Passed(r, settings, token)) && Extends(r, Passed(r, settings, token))
    ensures Dispatched(After(r), After(Passed(r, settings, token)), ReadyRows(After(r), settings.batch, {}))
  {
    var s := After(r);
    var a := ClaimReady(settings.batch, {}, token, settings.claimSeconds);
    var r1 := Then(r, a);
    var rows, expiresAt := ClaimStep(s, a);
    assert rows == ReadyRows(s, settings.batch, {});
    ReadyRowsMatch(s, settings.batch);
    RunKeepsInv(r);
    forall o <- rows ensures Publishable(After(r1), o, token) {
      ClaimedIsPublishable(s, rows, o, token, expiresAt);
    }
    ClaimOnlyEnqueues(s, a);
    AllArePublished(r1, rows, token);
    assert Extends(r, r1);
    ExtendsTransitive(r, r1, PublishAll(r1, rows, token));
    ClaimThenPublish(s, After(r1), After(PublishAll(r1, rows, token)), rows, token, expiresAt);
  }

  lemma ReadyRowsMatch(s: Store, batch: nat)
    ensures Distinct(ReadyRows(s, batch, {}))
    ensures forall o <- ReadyRows(s, batch, {}) :: Ready(s, o)
    ensures batch > 0 && ReadyIds(s, {}) != {} ==> ReadyRows(s, batch, {}) != []
  {
    var all := OrderBy(OutboxColumns(s), ReadyIds(s, {}));
    assert Elements(all) == ReadyIds(s, {});
    if ReadyIds(s, {}) != {} {
      var o :| o in ReadyIds(s, {});
      assert o in all;
    }
  }

  lemma ClaimThenPublish(s: Store, s1: Store, s': Store, rows: seq<nat>, token: nat, expiresAt: Time)
    requires s1 == ClaimRows(s, rows, token, expiresAt) && OnlyEnqueues(s.tasks, s1.tasks)
    requires PublishedRows(s1, s', rows)
    ensures Dispatched(s, s', rows)
  {
    forall o <- s.outbox ensures SameDelivery(s1.outbox[o], s.outbox[o]) {}
  }

  // ---- emptying the outbox ----

  // A row ready after the pass was ready before it and was not dispatched.
  lemma ReadyBefore(s: Store, s': Store, rows: seq<nat>, o: nat)
    requires Dispatched(s, s', rows) && Ready(s', o)
    ensures Ready(s, o) && o !in rows
  {}

  lemma QueueShrinks(s: Store, s': Store, rows: seq<nat>)
    requires Dispatched(s, s', rows) && rows != [] && Ready(s, rows[0])
    ensures ReadyIds(s', {}) < ReadyIds(s, {})
  {
    forall o <- ReadyIds(s', {}) ensures o in ReadyIds(s, {}) {
      ReadyBefore(s, s', rows, o);
    }
    assert rows[0] in ReadyIds(s, {});
    if rows[0] in ReadyIds(s', {}) {
      ReadyBefore(s, s', rows, rows[0]);
    }
  }

  lemma {:induction false} Smaller(a: set<nat>, b: set<nat>)
    requires a < b
    ensures |a| < |b|
    decreases |a|
  {
    if a == {} {
      assert b != {};
    } else {
      var x :| x in a;
      var y :| y in b && y !in a;
      assert y in b - {x};
      Smaller(a - {x}, b - {x});
    }
  }

  // Generations stay; finished tasks stay as they are, unfinished ones stay unfinished or are done.
  ghost predicate OnlyFinishes(tasks: map<nat, Task>, tasks': map<nat, Task>) {
    forall t <- tasks ::
      && t in tasks' && tasks'[t].generation == tasks[t].generation
      && (tasks[t].Terminal() ==> tasks'[t] == tasks[t])
      && !(!tasks[t].Terminal() && tasks'[t].status.DeadLettered?)
  }

  lemma OnlyFinishesTransitive(a: map<nat, Task>, b: map<nat, Task>, c: map<nat, Task>)
    requires OnlyFinishes(a, b) && OnlyFinishes(b, c)
    ensures OnlyFinishes(a, c)
  {
    forall t <- a
      ensures t in c && c[t].generation == a[t].generation
      ensures (a[t].Terminal() ==> c[t] == a[t]) && !(!a[t].Terminal() && c[t].status.DeadLettered?)
    {
      assert t in b;
    }
  }

  // Nothing is finished yet.
  ghost predicate OnlyWaits(tasks: map<nat, Task>, tasks': map<nat, Task>) {
    forall t <- tasks ::
      && t in tasks' && tasks'[t].generation == tasks[t].generation
      && (tasks[t].Terminal() ==> tasks'[t] == tasks[t])
      && (!tasks[t].Terminal() ==> !tasks'[t].Terminal())
  }

  lemma DispatchKeepsQuiet(s: Store, s': Store, rows: seq<nat>, minIdle: real)
    requires Dispatched(s, s', rows) && Quiet(s, minIdle)
    ensures Quiet(s', minIdle) && OnlyWaits(s.tasks, s'.tasks)
  {}

  lemma OnlyWaitsTransitive(a: map<nat, Task>, b: map<nat, Task>, c: map<nat, Task>)
    requires OnlyWaits(a, b) && OnlyWaits(b, c)
    ensures OnlyWaits(a, c)
  {
    forall t <- a
      ensures t in c && c[t].generation == a[t].generation
      ensures (a[t].Terminal() ==> c[t] == a[t]) && (!a[t].Terminal() ==> !c[t].Terminal())
    {
      assert t in b;
    }
  }

  lemma PerformFirst(r: Run, move: Move, rest: seq<Move>, settings: Settings)
    ensures PerformAll(r, [move] + rest, settings) == PerformAll(Perform(r, move, settings), rest, settings)
  {
    assert ([move] + rest)[1..] == rest;
  }

  // A pass of the dispatcher leaves fewer rows ready.
  lemma OnePass(r: Run, settings: Settings, token: nat)
    requires Legal(r) && settings.Valid() && Quiet(After(r), settings.minIdle) && ReadyIds(After(r), {}) != {}
    ensures var r' := Passed(r, settings, token);
            && Legal(r') && Extends(r, r') && Quiet(After(r'), settings.minIdle)
            && OnlyWaits(After(r).tasks, After(r').tasks)
            && |ReadyIds(After(r'), {})| < |ReadyIds(After(r), {})|
  {
    PassDispatches(r, settings, token);
    DispatchShrinks(After(r), After(Passed(r, settings, token)), settings.batch);
    DispatchKeepsQuiet(After(r), After(Passed(r, settings, token)), ReadyRows(After(r), settings.batch, {}),
                       settings.minIdle);
  }

  lemma DispatchShrinks(s: Store, s': Store, batch: nat)
    requires batch > 0 && ReadyIds(s, {}) != {} && Dispatched(s, s', ReadyRows(s, batch, {}))
    ensures |ReadyIds(s', {})| < |ReadyIds(s, {})|
  {
    var rows := ReadyRows(s, batch, {});
    ReadyRowsMatch(s, batch);
    assert rows[0] in rows;
    QueueShrinks(s, s', rows);
    Smaller(ReadyIds(s', {}), ReadyIds(s, {}));
  }

  // Whole passes, with batches of any size, until no row is ready.
  lemma {:induction false} EmptyOutbox(r: Run, settings: Settings) returns (moves: seq<Move>)
    requires Legal(r) && settings.Valid() && Quiet(After(r), settings.minIdle)
    ensures var r' := PerformAll(r, moves, settings);
            && Legal(r') && Extends(r, r') && Quiet(After(r'), settings.minIdle)
            && ReadyIds(After(r'), {}) == {} && OnlyWaits(After(r).tasks, After(r').tasks)
    decreases |ReadyIds(After(r), {})|
  {
    if ReadyIds(After(r), {}) == {} {
      moves := [];
    } else {
      OnePass(r, settings, 0);
      var r1 := Perform(r, DispatchPass(0), settings);
      var rest := EmptyOutbox(r1, settings);
      moves := [DispatchPass(0)] + rest;
      PerformFirst(r, DispatchPass(0), rest, settings);
      var r' := PerformAll(r1, rest, settings);
      ExtendsTransitive(r, r1, r');
      OnlyWaitsTransitive(After(r).tasks, After(r1).tasks, After(r').tasks);
    }
  }

  // ---- emptying the stream ----

  // The outbox has nothing left to publish and nobody works.
  ghost predicate Settling(s: Store) {
    Calm(s) && ReadyIds(s, {}) == {}
  }

  // What handling a message leaves: it is acknowledged, and at most its task is finished.
  ghost predicate HandledWell(s: Store, s': Store, m: nat) {
    && s'.now == s.now && s'.outbox == s.outbox && s'.stream == s.stream && s'.delivered == s.delivered
    && s'.pending == s.pending - {m}
    && s'.tasks.Keys == s.tasks.Keys
    && (forall t <- s.tasks :: s'.tasks[t] == s.tasks[t]
          || (!s.tasks[t].Terminal() && s'.tasks[t] == s.tasks[t].(status := Done, lease := None)))
  }

  function DoneStore(s: Store, t: nat): Store
    requires t in s.tasks
  {
    s.(tasks := s.tasks[t := s.tasks[t].(status := Done, lease := None)])
  }

  lemma LeasedNext(s: Store, m: nat, t: nat, g: nat, worker: string, seconds: real)
    requires m < |s.stream| && s.stream[m] == Message(t, g) && Leasable(s, t, g)
    ensures Next(s, LeaseTask(m, worker, seconds)) == s.(tasks := s.tasks[t := RunningRow(s, t, worker, seconds)])
  {}

  lemma CompletedNext(s: Store, t: nat, worker: string, seconds: real)
    requires t in s.tasks
    ensures var row := RunningRow(s, t, worker, seconds);
            Next(s.(tasks := s.tasks[t := row]), Complete(Snapshot(t, row))) == DoneStore(s, t)
  {
    var row := RunningRow(s, t, worker, seconds);
    assert Fenced(s.(tasks := s.tasks[t := row]), Snapshot(t, row));
    assert s.tasks[t := row][t := row.(status := Done, lease := None)]
        == s.tasks[t := s.tasks[t].(status := Done, lease := None)];
  }

  lemma AcknowledgedNext(s: Store, m: nat, t: nat)
    requires t in s.tasks && !s.tasks[t].Terminal()
    ensures HandledWell(s, Next(DoneStore(s, t), Ack(m)), m)
  {}

  lemma StaleLease(s: Store, m: nat, t: nat, g: nat, worker: string, seconds: real)
    requires m < |s.stream| && s.stream[m] == Message(t, g) && !Leasable(s, t, g)
    ensures Next(s, LeaseTask(m, worker, seconds)) == s
    ensures HandledWell(s, Next(s, Ack(m)), m)
  {}

  // Nobody holds a lease, so a message is either leasable or settled.
  lemma LeasableOrSettled(r: Run, m: nat)
    requires Legal(r) && m < |After(r).stream| && Calm(After(r))
    ensures var Message(t, g) := After(r).stream[m];
            Leasable(After(r), t, g) || Settled(After(r).tasks, t, g)
  {
    LeaseRefusedExactlyWhen(r, m);
  }

  lemma CompletedIsLegal(r: Run, m: nat, t: nat, g: nat, worker: string, seconds: real)
    requires Legal(r) && seconds > 0.0 && m < After(r).delivered <= |After(r).stream|
    requires After(r).stream[m] == Message(t, g) && Leasable(After(r), t, g)
    ensures var completed := CompletedRun(r, m, t, worker, seconds);
            Legal(completed) && After(completed) == DoneStore(After(r), t)
  {
    LeasedNext(After(r), m, t, g, worker, seconds);
    CompletedNext(After(r), t, worker, seconds);
  }

  lemma HandleFresh(r: Run, m: nat, worker: string, seconds: real)
    requires Legal(r) && seconds > 0.0 && m < After(r).delivered <= |After(r).stream|
    requires Leasable(After(r), After(r).stream[m].taskId, After(r).stream[m].generation)
    ensures var r' := Handled(r, m, worker, seconds);
            Legal(r') && Extends(r, r') && HandledWell(After(r), After(r'), m)
  {
    var Message(t, g) := After(r).stream[m];
    var completed := CompletedRun(r, m, t, worker, seconds);
    CompletedIsLegal(r, m, t, g, worker, seconds);
    AcknowledgedNext(After(r), m, t);
    assert Settled(DoneStore(After(r), t).tasks, t, g);
    assert Legal(Then(completed, Ack(m)));
    assert Handled(r, m, worker, seconds) == Then(completed, Ack(m));
    ThreeSteps(r, completed.before, completed, m);
  }

  lemma HandleStale(r: Run, m: nat, worker: string, seconds: real)
    requires Legal(r) && seconds > 0.0 && m < After(r).delivered <= |After(r).stream|
    requires !Leasable(After(r), After(r).stream[m].taskId, After(r).stream[m].generation)
    requires Settled(After(r).tasks, After(r).stream[m].taskId, After(r).stream[m].generation)
    ensures var r' := Handled(r, m, worker, seconds);
            Legal(r') && Extends(r, r') && HandledWell(After(r), After(r'), m)
  {
    var s := After(r);
    var Message(t, g) := s.stream[m];
    var leased := Then(r, LeaseTask(m, worker, seconds));
    StaleLease(s, m, t, g, worker, seconds);
    assert Legal(leased) && Extends(r, leased);
    assert Extends(leased, Then(leased, Ack(m)));
    ExtendsTransitive(r, leased, Then(leased, Ack(m)));
  }

  lemma HandleIsWell(r: Run, m: nat, worker: string, seconds: real)
    requires Legal(r) && seconds > 0.0 && Calm(After(r)) && m < After(r).delivered <= |After(r).stream|
    ensures var r' := Handled(r, m, worker, seconds);
            Legal(r') && Extends(r, r') && HandledWell(After(r), After(r'), m)
  {
    LeasableOrSettled(r, m);
    if Leasable(After(r), After(r).stream[m].taskId, After(r).stream[m].generation) {
      HandleFresh(r, m, worker, seconds);
    } else {
      HandleStale(r, m, worker, seconds);
    }
  }

  lemma ThreeSteps(r: Run, leased: Run, completed: Run, m: nat)
    requires leased.Then? && leased.before == r && completed.Then? && completed.before == leased
    ensures Extends(r, Then(completed, Ack(m)))
  {
    assert Extends(r, leased);
    assert Extends(leased, completed);
    ExtendsTransitive(r, leased, completed);
    assert Extends(completed, Then(completed, Ack(m)));
    ExtendsTransitive(r, completed, Then(completed, Ack(m)));
  }

  lemma WellKeepsSettling(s: Store, s': Store, m: nat)
    requires HandledWell(s, s', m) && Settling(s)
    ensures Settling(s') && OnlyFinishes(s.tasks, s'.tasks)
  {
    forall o | Ready(s', o) ensures Ready(s, o) {
      assert s'.tasks[s.outbox[o].taskId] == s.tasks[s.outbox[o].taskId];
    }
    assert forall o <- ReadyIds(s', {}) :: o in ReadyIds(s, {});
  }

  // What a worker's turn leaves: one message fewer to read, or one fewer to acknowledge.
  ghost predicate TurnTaken(s: Store, s': Store) {
    && s'.now == s.now && s'.stream == s.stream && OnlyFinishes(s.tasks, s'.tasks)
    && (forall m <- s'.pending :: m in s.pending && s'.pending[m] == s.pending[m])
    && (if s.delivered < |s.stream| then s'.delivered == s.delivered + 1
        else s'.delivered == s.delivered && s'.pending.Keys < s.pending.Keys)
  }

  lemma ReadOne(s: Store, worker: string)
    requires s.delivered < |s.stream|
    ensures Read(s, worker, 1)
         == s.(delivered := s.delivered + 1, pending := s.pending[s.delivered := PendingEntry(worker, s.now)])
  {
    assert Positions(s.delivered, s.delivered + 1) == {s.delivered};
    assert Read(s, worker, 1).pending == s.pending[s.delivered := PendingEntry(worker, s.now)];
  }

  lemma ReadNone(s: Store, worker: string)
    requires s.delivered == |s.stream|
    ensures Read(s, worker, 1) == s
  {
    assert Read(s, worker, 1).pending == s.pending;
  }

  // An entry's consumer and idle time do not matter to what is ready, or overdue.
  lemma PendingIsNoMatter(s: Store, s': Store)
    requires s' == s.(delivered := s'.delivered, pending := s'.pending) && Settling(s)
    ensures Settling(s')
  {
    assert forall o :: Ready(s', o) <==> Ready(s, o);
    assert forall o <- ReadyIds(s', {}) :: o in ReadyIds(s, {});
  }

  lemma ReadTurn(r: Run, settings: Settings, worker: string)
    requires Legal(r) && settings.Valid() && Settling(After(r)) && After(r).delivered < |After(r).stream|
    ensures var r' := Turned(r, settings, worker);
            Legal(r') && Extends(r, r') && Settling(After(r')) && TurnTaken(After(r), After(r'))
  {
    var s := After(r);
    var read := Then(r, ReadNew(worker, 1));
    ReadOne(s, worker);
    PendingIsNoMatter(s, After(read));
    HandleIsWell(read, s.delivered, worker, settings.leaseSeconds);
    var r' := Handled(read, s.delivered, worker, settings.leaseSeconds);
    WellKeepsSettling(After(read), After(r'), s.delivered);
    assert Extends(r, read);
    ExtendsTransitive(r, read, r');
  }

  lemma PendingIsDelivered(r: Run)
    requires Legal(r)
    ensures After(r).delivered <= |After(r).stream| && forall m <- After(r).pending :: m < After(r).delivered
  {
    RunKeepsInv(r);
  }

  // Nothing is unread: the first pending entry is taken over.
  ghost function Reclaimed(r: Run, settings: Settings, worker: string): Run
    requires After(r).pending != map[]
  {
    Then(Then(r, ReadNew(worker, 1)), Reclaim(worker, settings.minIdle, {Least(After(r).pending.Keys)}))
  }

  lemma ReclaimIsLegal(r: Run, settings: Settings, worker: string)
    requires Legal(r) && AllIdle(After(r), settings.minIdle)
    requires After(r).delivered == |After(r).stream| && After(r).pending != map[]
    ensures var reclaimed := Reclaimed(r, settings, worker);
            && Legal(reclaimed) && Extends(r, reclaimed)
            && After(reclaimed) == TakeOver(After(r), worker, {Least(After(r).pending.Keys)})
  {
    var read := Then(r, ReadNew(worker, 1));
    ReadNone(After(r), worker);
    assert Extends(r, read);
    assert Extends(read, Reclaimed(r, settings, worker));
    ExtendsTransitive(r, read, Reclaimed(r, settings, worker));
  }

  lemma ReclaimedIsReceived(r: Run, settings: Settings, worker: string)
    requires AllIdle(After(r), settings.minIdle)
    requires After(r).delivered == |After(r).stream| && After(r).pending != map[]
    ensures Received(r, settings, worker)
         == (Reclaimed(r, settings, worker), Some(Least(After(r).pending.Keys)))
  {
    ReadNone(After(r), worker);
    assert IdleIds(After(r), settings.minIdle) == After(r).pending.Keys;
  }

  lemma ReclaimTurn(r: Run, settings: Settings, worker: string)
    requires Legal(r) && settings.Valid() && Settling(After(r)) && AllIdle(After(r), settings.minIdle)
    requires After(r).delivered == |After(r).stream| && After(r).pending != map[]
    ensures var r' := Turned(r, settings, worker);
            Legal(r') && Extends(r, r') && Settling(After(r')) && TurnTaken(After(r), After(r'))
  {
    var s, m := After(r), Least(After(r).pending.Keys);
    var reclaimed, r' := Reclaimed(r, settings, worker), Turned(r, settings, worker);
    ReclaimedIsReceived(r, settings, worker);
    ReclaimIsLegal(r, settings, worker);
    PendingIsDelivered(r);
    PendingIsNoMatter(s, After(reclaimed));
    HandleIsWell(reclaimed, m, worker, settings.leaseSeconds);
    WellKeepsSettling(After(reclaimed), After(r'), m);
    ExtendsTransitive(r, reclaimed, r');
    ReclaimedTurnTaken(s, After(reclaimed), After(r'), m, worker);
  }

  lemma ReclaimedTurnTaken(s: Store, s1: Store, s': Store, m: nat, worker: string)
    requires s1 == TakeOver(s, worker, {m}) && HandledWell(s1, s', m) && OnlyFinishes(s1.tasks, s'.tasks)
    requires m in s.pending && s.delivered == |s.stream|
    ensures TurnTaken(s, s')
  {
    assert m in s.pending.Keys && m !in s'.pending.Keys;
  }

  lemma StaysIdle(s: Store, s': Store, minIdle: real)
    requires TurnTaken(s, s') && AllIdle(s, minIdle)
    ensures AllIdle(s', minIdle)
  {}

  // Turn after turn, until nothing is unread and nothing is pending.
  lemma {:induction false} EmptyStream(r: Run, settings: Settings, worker: string) returns (moves: seq<Move>)
    requires Legal(r) && settings.Valid() && Settling(After(r)) && AllIdle(After(r), settings.minIdle)
    requires After(r).delivered <= |After(r).stream|
    ensures var r' := PerformAll(r, moves, settings);
            && Legal(r') && Extends(r, r') && Settling(After(r')) && OnlyFinishes(After(r).tasks, After(r').tasks)
            && After(r').stream == After(r).stream
            && After(r').delivered == |After(r').stream| && After(r').pending == map[]
    decreases |After(r).stream| - After(r).delivered, |After(r).pending.Keys|
  {
    var s := After(r);
    if s.delivered == |s.stream| && s.pending == map[] {
      moves := [];
    } else {
      var r1 := Turned(r, settings, worker);
      if s.delivered < |s.stream| {
        ReadTurn(r, settings, worker);
      } else {
        ReclaimTurn(r, settings, worker);
        Smaller(After(r1).pending.Keys, s.pending.Keys);
      }
      StaysIdle(s, After(r1), settings.minIdle);
      var rest := EmptyStream(r1, settings, worker);
      moves := [WorkerTurn(worker)] + rest;
      assert moves[1..] == rest && Perform(r, moves[0], settings) == r1;
      var r' := PerformAll(r1, rest, settings);
      ExtendsTransitive(r, r1, r');
      OnlyFinishesTransitive(s.tasks, After(r1).tasks, After(r').tasks);
    }
  }

  // ---- nothing is left ----

  // An unpublished row of an unfinished task that is not running would be ready.
  lemma UnpublishedIsReady(s: Store, o: nat, t: nat)
    requires Calm(s) && t in s.tasks && o in s.outbox && s.outbox[o].published.None?
    requires s.outbox[o].taskId == t && s.outbox[o].generation == s.tasks[t].generation
    requires !s.tasks[t].Terminal() && !s.tasks[t].status.Running?
    ensures o in ReadyIds(s, {})
  {}

  lemma NothingLeft(r: Run, t: nat)
    requires Legal(r) && Settling(After(r)) && t in After(r).tasks
    requires After(r).delivered == |After(r).stream| && After(r).pending == map[]
    ensures After(r).tasks[t].Terminal()
  {
    var s := After(r);
    if !s.tasks[t].Terminal() {
      NothingLost(r, t);
      assert !AwaitsDelivery(s, t, s.tasks[t].generation);
      var o :| o in s.outbox && s.outbox[o].taskId == t && s.outbox[o].generation == s.tasks[t].generation
        && s.outbox[o].published.None?;
      UnpublishedIsReady(s, o, t);
      assert false;
    }
  }

  // Once no row is ready, every unfinished task has its message on the stream.
  lemma MessageThere(r: Run, t: nat) returns (m: nat)
    requires Legal(r) && Settling(After(r)) && t in After(r).tasks && !After(r).tasks[t].Terminal()
    ensures m < |After(r).stream| && After(r).stream[m] == Message(t, After(r).tasks[t].generation)
  {
    var s := After(r);
    var g := s.tasks[t].generation;
    NothingLost(r, t);
    if AwaitsDelivery(s, t, g) {
      m :| 0 <= m < |s.stream| && s.stream[m] == Message(t, g) && Unacked(s, m);
    } else {
      var o :| o in s.outbox && s.outbox[o].taskId == t && s.outbox[o].generation == g && s.outbox[o].published.None?;
      UnpublishedIsReady(s, o, t);
      assert false;
    }
  }

  // ---- the whole system ----

  // The three phases one after another.
  lemma InPhases(r: Run, to: Time, passes: seq<Move>, turns: seq<Move>, settings: Settings)
    ensures PerformAll(r, [WaitUntil(to)] + passes + turns, settings)
         == PerformAll(PerformAll(Then(r, Tick(to)), passes, settings), turns, settings)
  {
    var wait := [WaitUntil(to)];
    PerformAppended(r, wait + passes, turns, settings);
    PerformAppended(r, wait, passes, settings);
    assert wait[1..] == [];
    assert PerformAll(r, wait, settings) == Then(r, Tick(to));
  }

  // Everything is finished and acknowledged; what was finished before is as it was, and nothing else was given up.
  ghost predicate Drained(s: Store, s': Store) {
    && OnlyFinishes(s.tasks, s'.tasks)
    && (forall t <- s'.tasks :: s'.tasks[t].Terminal())
    && s'.delivered == |s'.stream| && s'.pending == map[]
  }

  // Whatever was crashed, lost, expired or left pending, and however the programs are configured: if everybody waits
  // for long enough, and then only dispatchers make passes and one worker makes turns of its loop, the whole system
  // is drained: every unfinished task is done at its generation, and every message is read and acknowledged.
  lemma SystemDrains(r: Run, settings: Settings, worker: string) returns (moves: seq<Move>)
    requires Legal(r) && settings.Valid()
    ensures var r' := PerformAll(r, moves, settings);
            Legal(r') && Extends(r, r') && Drained(After(r), After(r'))
    ensures forall t <- After(r).tasks | !After(r).tasks[t].Terminal() ::
              && t in After(PerformAll(r, moves, settings)).tasks
              && After(PerformAll(r, moves, settings)).tasks[t].status.Done?
  {
    var middle, final;
    moves, middle, final := DrainInPhases(r, settings, worker);
    var s, s' := After(r), After(final);
    forall t <- s'.tasks ensures s'.tasks[t].Terminal() {
      NothingLeft(final, t);
    }
    forall t <- s.tasks | !s.tasks[t].Terminal() ensures t in s'.tasks && s'.tasks[t].status.Done? {
      assert s'.tasks[t].Terminal();
    }
  }

  lemma DrainInPhases(r: Run, settings: Settings, worker: string) returns (moves: seq<Move>, middle: Run, final: Run)
    requires Legal(r) && settings.Valid()
    ensures final == PerformAll(r, moves, settings)
    ensures Legal(middle) && Extends(r, middle) && Settling(After(middle))
    ensures OnlyWaits(After(r).tasks, After(middle).tasks)
    ensures Legal(final) && Extends(r, final) && Extends(middle, final) && Settling(After(final))
    ensures OnlyFinishes(After(r).tasks, After(final).tasks)
    ensures After(final).delivered == |After(final).stream| && After(final).pending == map[]
  {
    var to := Wait(r, settings.minIdle);
    var waited := Then(r, Tick(to));
    assert Extends(r, waited);
    var passes := EmptyOutbox(waited, settings);
    middle := PerformAll(waited, passes, settings);
    PendingIsDelivered(middle);
    var turns := EmptyStream(middle, settings, worker);
    final := PerformAll(middle, turns, settings);
    moves := [WaitUntil(to)] + passes + turns;
    InPhases(r, to, passes, turns, settings);
    ExtendsTransitive(r, waited, middle);
    ExtendsTransitive(r, middle, final);
    OnlyFinishesTransitive(After(r).tasks, After(middle).tasks, After(final).tasks);
  }

  // In particular every unfinished task can be completed in its current generation, with a message of it acknowledged.
  lemma AlwaysCompletable(r: Run, t: nat, settings: Settings, worker: string) returns (moves: seq<Move>, m: nat)
    requires Legal(r) && t in After(r).tasks && !After(r).tasks[t].Terminal() && settings.Valid()
    ensures var r' := PerformAll(r, moves, settings);
            && Legal(r') && Extends(r, r')
            && t in After(r').tasks && After(r').tasks[t].status.Done?
            && After(r').tasks[t].generation == After(r).tasks[t].generation
            && m < |After(r').stream| && After(r').stream[m] == Message(t, After(r).tasks[t].generation)
            && Acked(After(r'), m)
  {
    var middle, final;
    moves, middle, final := DrainInPhases(r, settings, worker);
    m := MessageThere(middle, t);
    RunEvolves(middle, final);
    assert t in After(final).tasks;
    NothingLeft(final, t);
  }
}
