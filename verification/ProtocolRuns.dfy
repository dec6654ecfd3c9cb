// Safety over whole runs: nothing lost, one outcome per generation, refinement, progress.
module ProtocolRuns {
  import opened Options
  import opened Tables
  import opened Protocol
  import opened ProtocolInvariant

  // ---- monotonicity along a run ----

  lemma EvolvesTransitive(a: map<nat, Task>, b: map<nat, Task>, c: map<nat, Task>)
    requires Evolves(a, b) && Evolves(b, c)
    ensures Evolves(a, c)
  {}

  lemma {:induction false} PrefixIsLegal(r: Run, r': Run)
    requires Legal(r') && Extends(r, r')
    ensures Legal(r)
  {
    if r == r' {
    } else {
      PrefixIsLegal(r, r'.before);
    }
  }

  lemma {:induction false} RowsEvolve(r: Run, r': Run)
    requires Legal(r') && Extends(r, r')
    ensures Evolves(After(r).tasks, After(r').tasks)
  {
    if r == r' {
      assert forall t <- After(r).tasks :: RowEvolves(After(r).tasks[t], After(r).tasks[t]);
    } else {
      RowsEvolve(r, r'.before);
      RunKeepsInv(r'.before);
      StepEvolves(After(r'.before), r'.action);
      EvolvesTransitive(After(r).tasks, After(r'.before).tasks, After(r').tasks);
    }
  }

  lemma {:induction false} StreamAdvances(r: Run, r': Run)
    requires Legal(r') && Extends(r, r')
    ensures After(r).now <= After(r').now
    ensures After(r).stream <= After(r').stream && After(r).delivered <= After(r').delivered
  {
    if r == r' {
    } else {
      StreamAdvances(r, r'.before);
      RunKeepsInv(r'.before);
      StepAdvances(After(r'.before), r'.action);
    }
  }

  lemma RunEvolves(r: Run, r': Run)
    requires Legal(r') && Extends(r, r')
    ensures Legal(r)
    ensures Evolves(After(r).tasks, After(r').tasks)
    ensures After(r).now <= After(r').now
    ensures After(r).stream <= After(r').stream && After(r).delivered <= After(r').delivered
  {
    PrefixIsLegal(r, r');
    RowsEvolve(r, r');
    StreamAdvances(r, r');
  }

  // The clock, the stream and the consumer group only move forward.
  predicate Advances(s: Store, s': Store) {
    && s.now <= s'.now
    && s.stream <= s'.stream
    && s.delivered <= s'.delivered
    && forall m <- s'.pending :: m in s.pending || s.delivered <= m
  }

  lemma {:induction false} ReplayAdvances(s: Store, rows: seq<nat>, maxAttempts: int, priority: int)
    ensures Advances(s, ReplayAll(s, rows, maxAttempts, priority))
  {
    if rows == [] {
    } else {
      ReplayAdvances(s, rows[..|rows| - 1], maxAttempts, priority);
    }
  }

  predicate StreamStep(a: Action) {
    a.Tick? || a.Publish? || a.ReadNew? || a.Reclaim? || a.Touch? || a.Ack?
  }

  lemma StreamStepAdvances(s: Store, a: Action)
    requires s.delivered <= |s.stream| && StreamStep(a)
    ensures Advances(s, Next(s, a))
  {}

  lemma CreateAdvances(s: Store, a: Action)
    requires a.Create?
    ensures Advances(s, Next(s, a))
  {
    var s1 := InsertTask(s, CreatedTask(s, a));
    InsertTaskAdvances(s, CreatedTask(s, a));
    var id := TaskWithKey(s1.tasks, UserKey(a.key));
    InsertOutboxAdvances(s1, id, s1.tasks[id].generation, s1.tasks[id].nextRunAt);
  }

  lemma InsertTaskAdvances(s: Store, row: Task)
    ensures Advances(s, InsertTask(s, row))
  {}

  lemma InsertOutboxAdvances(s: Store, t: nat, g: nat, at: Time)
    ensures Advances(s, InsertOutbox(s, t, g, at))
  {}

  lemma RetryAdvances(s: Store, a: Action)
    requires a.Retry?
    ensures Advances(s, Next(s, a))
  {}

  lemma TableStepAdvances(s: Store, a: Action)
    requires !a.Replay? && !a.Create? && !a.Retry? && !StreamStep(a)
    ensures Advances(s, Next(s, a))
  {}

  lemma StepAdvances(s: Store, a: Action)
    requires s.delivered <= |s.stream|
    ensures Advances(s, Next(s, a))
  {
    if a.Replay? {
      ReplayAdvances(s, ReplayRows(s, a.selector, a.limit, a.locked), a.maxAttempts, a.priority);
    } else if StreamStep(a) {
      StreamStepAdvances(s, a);
    } else if a.Create? {
      CreateAdvances(s, a);
    } else if a.Retry? {
      RetryAdvances(s, a);
    } else {
      TableStepAdvances(s, a);
    }
  }

  lemma SettledForever(r: Run, r': Run, t: nat, g: nat)
    requires Legal(r') && Extends(r, r') && Settled(After(r).tasks, t, g)
    ensures Settled(After(r').tasks, t, g)
  {
    RunEvolves(r, r');
  }

  lemma VisibleForever(r: Run, r': Run, t: nat, g: nat)
    requires Legal(r') && Extends(r, r') && Visible(After(r).now, After(r).tasks, t, g)
    ensures Visible(After(r').now, After(r').tasks, t, g)
  {
    RunEvolves(r, r');
  }

  lemma AuthenticForever(r: Run, r': Run, lease: TaskLease)
    requires Legal(r') && Extends(r, r') && Authentic(After(r), lease)
    ensures Authentic(After(r'), lease)
  {
    RunEvolves(r, r');
  }

  // Outbox rows keep their delivery, and a published row is never touched again.
  ghost predicate OutboxEvolves(outbox: map<nat, OutboxRow>, outbox': map<nat, OutboxRow>) {
    forall o <- outbox :: o in outbox' && SameDelivery(outbox[o], outbox'[o])
                          && (outbox[o].published.Some? ==> outbox'[o].published == outbox[o].published)
  }

  lemma {:induction false} ReplayEvolvesOutbox(s: Store, rows: seq<nat>, maxAttempts: int, priority: int)
    requires forall o <- s.outbox :: o < s.nextOutbox
    ensures OutboxEvolves(s.outbox, ReplayAll(s, rows, maxAttempts, priority).outbox)
    ensures var s' := ReplayAll(s, rows, maxAttempts, priority); forall o <- s'.outbox :: o < s'.nextOutbox
  {
    if rows == [] {
    } else {
      ReplayEvolvesOutbox(s, rows[..|rows| - 1], maxAttempts, priority);
      TurnEvolvesOutbox(ReplayAll(s, rows[..|rows| - 1], maxAttempts, priority), rows[|rows| - 1], maxAttempts,
                        priority);
    }
  }

  lemma TurnEvolvesOutbox(s: Store, d: nat, maxAttempts: int, priority: int)
    requires forall o <- s.outbox :: o < s.nextOutbox
    ensures OutboxEvolves(s.outbox, ReplayOne(s, d, maxAttempts, priority).outbox)
    ensures var s' := ReplayOne(s, d, maxAttempts, priority); forall o <- s'.outbox :: o < s'.nextOutbox
  {}

  lemma InsertEvolvesOutbox(s: Store, t: nat, g: nat, at: Time)
    requires forall o <- s.outbox :: o < s.nextOutbox
    ensures OutboxEvolves(s.outbox, InsertOutbox(s, t, g, at).outbox)
  {}

  lemma CreateEvolvesOutbox(s: Store, a: Action)
    requires a.Create? && forall o <- s.outbox :: o < s.nextOutbox
    ensures OutboxEvolves(s.outbox, Next(s, a).outbox)
  {
    var s1 := InsertTask(s, CreatedTask(s, a));
    var id := TaskWithKey(s1.tasks, UserKey(a.key));
    InsertEvolvesOutbox(s1, id, s1.tasks[id].generation, s1.tasks[id].nextRunAt);
  }

  lemma OtherStepEvolvesOutbox(s: Store, a: Action)
    requires forall o <- s.outbox :: o < s.nextOutbox
    requires !a.Create? && !a.Replay?
    ensures OutboxEvolves(s.outbox, Next(s, a).outbox)
  {}

  lemma StepEvolvesOutbox(s: Store, a: Action)
    requires forall o <- s.outbox :: o < s.nextOutbox
    ensures OutboxEvolves(s.outbox, Next(s, a).outbox)
  {
    match a
    case Replay(selector, limit, maxAttempts, priority, locked) =>
      ReplayEvolvesOutbox(s, ReplayRows(s, selector, limit, locked), maxAttempts, priority);
    case Create(_, _, _, _, _, _) => CreateEvolvesOutbox(s, a);
    case _ => OtherStepEvolvesOutbox(s, a);
  }

  lemma {:induction false} RunEvolvesOutbox(r: Run, r': Run)
    requires Legal(r') && Extends(r, r')
    ensures OutboxEvolves(After(r).outbox, After(r').outbox)
  {
    if r == r' {
    } else {
      RunEvolvesOutbox(r, r'.before);
      RunKeepsInv(r'.before);
      StepEvolvesOutbox(After(r'.before), r'.action);
      OutboxEvolvesTransitive(After(r).outbox, After(r'.before).outbox, After(r').outbox);
    }
  }

  lemma OutboxEvolvesTransitive(a: map<nat, OutboxRow>, b: map<nat, OutboxRow>, c: map<nat, OutboxRow>)
    requires OutboxEvolves(a, b) && OutboxEvolves(b, c)
    ensures OutboxEvolves(a, c)
  {}

  // ---- nothing is lost ----

  predicate Acked(s: Store, m: nat) {
    m < s.delivered && m !in s.pending
  }

  ghost predicate AwaitsPublication(s: Store, t: nat, g: nat) {
    exists o :: o in s.outbox && s.outbox[o].taskId == t && s.outbox[o].generation == g && s.outbox[o].published.None?
  }

  ghost predicate AwaitsDelivery(s: Store, t: nat, g: nat) {
    exists m :: 0 <= m < |s.stream| && s.stream[m] == Message(t, g) && Unacked(s, m)
  }

  // In every reachable state an unfinished task still has an unpublished outbox row or an
  // unacknowledged message of its current generation; a running one always has the message.
  lemma NothingLost(r: Run, t: nat)
    requires Legal(r) && t in After(r).tasks && !After(r).tasks[t].Terminal()
    ensures var s := After(r);
            && (AwaitsPublication(s, t, s.tasks[t].generation) || AwaitsDelivery(s, t, s.tasks[t].generation))
            && (s.tasks[t].status.Running? ==> AwaitsDelivery(s, t, s.tasks[t].generation))
  {
    RunKeepsInv(r);
    var s := After(r);
    var g := s.tasks[t].generation;
    assert HasRow(s.outbox, t, g);
    var o :| o in s.outbox && s.outbox[o].taskId == t && s.outbox[o].generation == g;
    if s.outbox[o].published.Some? {
      var m := s.outbox[o].published.value.message;
      assert s.stream[m] == Message(t, g) && Unacked(s, m);
    }
    if s.tasks[t].status.Running? {
      var m :| 0 <= m < |s.stream| && s.stream[m] == Message(t, g);
      assert Unacked(s, m);
    }
  }

  // No generation is seen on the stream before it is enqueued and due.
  lemma VisibilityOrder(r: Run, m: nat)
    requires Legal(r) && m < |After(r).stream|
    ensures var s := After(r);
            var Message(t, g) := s.stream[m];
            && t in s.tasks
            && (g < s.tasks[t].generation
                || (g == s.tasks[t].generation && s.tasks[t].nextRunAt <= s.now
                    && (s.tasks[t].status.Enqueued? || s.tasks[t].status.Running? || s.tasks[t].Terminal())))
  {
    RunKeepsInv(r);
  }

  predicate HeldBySomeone(s: Store, t: nat, g: nat) {
    && t in s.tasks
    && s.tasks[t].generation == g
    && s.tasks[t].status.Running?
    && s.tasks[t].lease.Some?
    && s.now < s.tasks[t].lease.value.expiresAt
  }

  // Hence a lease is refused only to a settled generation or while another lease is running.
  lemma LeaseRefusedExactlyWhen(r: Run, m: nat)
    requires Legal(r) && m < |After(r).stream|
    ensures var s := After(r);
            var Message(t, g) := s.stream[m];
            !Leasable(s, t, g) <==> Settled(s.tasks, t, g) || HeldBySomeone(s, t, g)
  {
    RunKeepsInv(r);
    VisibilityOrder(r, m);
    assert GoodTask(After(r).tasks[After(r).stream[m].taskId]);
  }

  // ---- acknowledgements ----

  // An acknowledged message stays acknowledged, and its generation is over for good.
  lemma {:induction false} AckIsFinal(r: Run, r': Run, m: nat)
    requires Legal(r') && Extends(r, r') && Acked(After(r), m)
    ensures Acked(After(r'), m)
    ensures var s := After(r');
            m < |s.stream| && Settled(s.tasks, s.stream[m].taskId, s.stream[m].generation)
  {
    RunKeepsInv(r');
    if r == r' {
    } else {
      AckIsFinal(r, r'.before, m);
      RunKeepsInv(r'.before);
      StepAdvances(After(r'.before), r'.action);
    }
  }

  predicate WorkerStep(a: Action) {
    a.Renew? || a.Release? || a.Complete? || a.Retry? || a.Bury?
  }

  // Whatever a worker still does for a settled generation changes nothing.
  lemma StaleDeliveryIsHarmless(s: Store, a: Action, t: nat, g: nat)
    requires Settled(s.tasks, t, g)
    requires (WorkerStep(a) && a.lease.id == t && a.lease.generation == g)
             || (a.LeaseTask? && a.message < |s.stream| && s.stream[a.message] == Message(t, g))
    ensures Next(s, a) == s
  {}

  // ---- one outcome per generation ----

  predicate Decides(s: Store, a: Action, t: nat, g: nat) {
    (a.Complete? || a.Retry? || a.Bury?) && a.lease.id == t && a.lease.generation == g && Fenced(s, a.lease)
  }

  ghost function Outcomes(r: Run, t: nat, g: nat): nat {
    match r
    case Start(_) => 0
    case Then(before, action) => Outcomes(before, t, g) + if Decides(After(before), action, t, g) then 1 else 0
  }

  // A generation is settled by exactly one successful completion, retry or dead-lettering,
  // and until it is settled there was none.
  lemma {:induction false} OneOutcomePerGeneration(r: Run, t: nat, g: nat)
    requires Legal(r)
    ensures Outcomes(r, t, g) == if Settled(After(r).tasks, t, g) then 1 else 0
  {
    if r.Start? {
    } else {
      var s, a := After(r.before), r.action;
      OneOutcomePerGeneration(r.before, t, g);
      RunKeepsInv(r.before);
      StepSettles(s, a, t, g);
    }
  }

  lemma StepSettles(s: Store, a: Action, t: nat, g: nat)
    requires Inv(s) && Enabled(s, a)
    ensures Settled(Next(s, a).tasks, t, g) <==> Settled(s.tasks, t, g) || Decides(s, a, t, g)
    ensures !(Settled(s.tasks, t, g) && Decides(s, a, t, g))
  {
    StepChangesPhase(s, a, t);
    PhaseSettles(s, a, Next(s, a).tasks, t, g);
  }

  lemma PhaseSettles(s: Store, a: Action, tasks': map<nat, Task>, t: nat, g: nat)
    requires PhaseStep(s, a, PhaseOf(s.tasks, t), PhaseOf(tasks', t), t)
    ensures Settled(tasks', t, g) <==> Settled(s.tasks, t, g) || Decides(s, a, t, g)
    ensures !(Settled(s.tasks, t, g) && Decides(s, a, t, g))
  {}

  // ---- refinement to a simple machine per task ----

  datatype Phase = Absent | Waiting(n: nat) | Active(n: nat) | Succeeded(n: nat) | Failed(n: nat)

  function PhaseOf(tasks: map<nat, Task>, t: nat): Phase {
    if t !in tasks then Absent
    else if tasks[t].status.Done? then Succeeded(tasks[t].generation)
    else if tasks[t].status.DeadLettered? then Failed(tasks[t].generation)
    else if tasks[t].status.Running? then Active(tasks[t].generation)
    else Waiting(tasks[t].generation)
  }

  // The simple machine, and the one kind of step that makes each of its moves.
  predicate Moves(a: Action, p: Phase, q: Phase) {
    match a
    case Create(_, _, _, _, _, _) => p.Absent? && q == Waiting(0)
    case Replay(_, _, _, _, _) => p.Absent? && q == Waiting(0)
    case LeaseTask(_, _, _) => p.Waiting? && q == Active(p.n)
    case Complete(_) => p.Active? && q == Succeeded(p.n)
    case Bury(_, _) => p.Active? && q == Failed(p.n)
    case Retry(_, _, _) => p.Active? && q == Waiting(p.n + 1)
    case Release(_) => p.Active? && q == Waiting(p.n)
    case _ => false
  }

  predicate PhaseStep(s: Store, a: Action, p: Phase, q: Phase, t: nat) {
    && (q == p || Moves(a, p, q))
    && ((a.Complete? || a.Retry? || a.Bury?) && q != p <==> p.Active? && Decides(s, a, t, p.n))
  }

  // Every step maps, for every task, to one move of the simple machine or to none; claiming,
  // publishing, reading, reclaiming, renewing and acknowledging map to none.
  lemma StepChangesPhase(s: Store, a: Action, t: nat)
    requires Inv(s) && Enabled(s, a)
    ensures PhaseStep(s, a, PhaseOf(s.tasks, t), PhaseOf(Next(s, a).tasks, t), t)
  {
    match a
    case Create(_, _, _, _, _, _) => CreateOnlyAdds(s, a); AddChangesPhase(s.tasks, Next(s, a).tasks, t);
    case Replay(_, _, _, _, _) => ReplayOnlyAdds(s, a); AddChangesPhase(s.tasks, Next(s, a).tasks, t);
    case ClaimReady(_, _, _, _) => ClaimOnlyEnqueues(s, a); EnqueueKeepsPhase(s.tasks, Next(s, a).tasks, t);
    case _ => OtherStepChangesPhase(s, a, t);
  }

  lemma ReplayOnlyAdds(s: Store, a: Action)
    requires Inv(s) && a.Replay? && Enabled(s, a)
    ensures OnlyAdds(s.tasks, Next(s, a).tasks)
  {
    ReplayKeepsInv(s, a);
  }

  lemma ClaimOnlyEnqueues(s: Store, a: Action)
    requires Inv(s) && a.ClaimReady?
    ensures OnlyEnqueues(s.tasks, Next(s, a).tasks)
  {
    ClaimKeepsInv(s, a);
  }

  lemma AddChangesPhase(tasks: map<nat, Task>, tasks': map<nat, Task>, t: nat)
    requires OnlyAdds(tasks, tasks')
    ensures PhaseOf(tasks', t) == PhaseOf(tasks, t) || (PhaseOf(tasks, t).Absent? && PhaseOf(tasks', t) == Waiting(0))
  {}

  lemma EnqueueKeepsPhase(tasks: map<nat, Task>, tasks': map<nat, Task>, t: nat)
    requires OnlyEnqueues(tasks, tasks')
    ensures PhaseOf(tasks', t) == PhaseOf(tasks, t)
  {}

  // The steps of a worker on the task it leased, or asks to lease.
  predicate RowAction(a: Action) {
    WorkerStep(a) || a.LeaseTask?
  }

  function TargetOf(s: Store, a: Action): nat
    requires RowAction(a)
  {
    if a.LeaseTask? then if a.message < |s.stream| then s.stream[a.message].taskId else 0 else a.lease.id
  }

  lemma PlainStepKeepsTasks(s: Store, a: Action)
    requires !a.Create? && !a.Replay? && !a.ClaimReady? && !RowAction(a)
    ensures Next(s, a).tasks == s.tasks
  {}

  lemma RowActionKeepsOthers(s: Store, a: Action, t: nat)
    requires RowAction(a) && t != TargetOf(s, a)
    ensures PhaseOf(Next(s, a).tasks, t) == PhaseOf(s.tasks, t)
  {}

  lemma LeaseStepChangesPhase(s: Store, a: Action, t: nat)
    requires a.LeaseTask? || a.Renew? || a.Release?
    ensures PhaseStep(s, a, PhaseOf(s.tasks, t), PhaseOf(Next(s, a).tasks, t), t)
  {}

  lemma CompletionChangesPhase(s: Store, lease: TaskLease, t: nat)
    ensures PhaseStep(s, Complete(lease), PhaseOf(s.tasks, t), PhaseOf(Next(s, Complete(lease)).tasks, t), t)
  {}

  lemma RetryChangesPhase(s: Store, a: Action, t: nat)
    requires a.Retry?
    ensures PhaseStep(s, a, PhaseOf(s.tasks, t), PhaseOf(Next(s, a).tasks, t), t)
  {}

  lemma BurialChangesPhase(s: Store, a: Action, t: nat)
    requires a.Bury?
    ensures PhaseStep(s, a, PhaseOf(s.tasks, t), PhaseOf(Next(s, a).tasks, t), t)
  {}

  lemma OtherStepChangesPhase(s: Store, a: Action, t: nat)
    requires !a.Create? && !a.Replay? && !a.ClaimReady?
    ensures PhaseStep(s, a, PhaseOf(s.tasks, t), PhaseOf(Next(s, a).tasks, t), t)
  {
    if !RowAction(a) {
      PlainStepKeepsTasks(s, a);
    } else if a.LeaseTask? || a.Renew? || a.Release? {
      LeaseStepChangesPhase(s, a, t);
    } else {
      match a
      case Complete(lease) => CompletionChangesPhase(s, lease, t);
      case Retry(_, _, _) => RetryChangesPhase(s, a, t);
      case Bury(_, _) => BurialChangesPhase(s, a, t);
    }
  }

  // Only a replay batch moves more than one task in one step.
  lemma OneTaskMovesPerStep(s: Store, a: Action, t: nat, u: nat)
    requires Inv(s) && Enabled(s, a) && t != u && !a.Replay?
    ensures PhaseOf(Next(s, a).tasks, t) == PhaseOf(s.tasks, t) || PhaseOf(Next(s, a).tasks, u) == PhaseOf(s.tasks, u)
  {
    match a
    case Create(_, _, _, _, _, _) => CreateTouchesOne(s, a, t); CreateTouchesOne(s, a, u);
    case ClaimReady(_, _, _, _) =>
      ClaimOnlyEnqueues(s, a);
      EnqueueKeepsPhase(s.tasks, Next(s, a).tasks, t);
    case _ => OtherStepTouchesOne(s, a, t, u);
  }

  lemma OtherStepTouchesOne(s: Store, a: Action, t: nat, u: nat)
    requires !a.Create? && !a.Replay? && !a.ClaimReady? && t != u
    ensures PhaseOf(Next(s, a).tasks, t) == PhaseOf(s.tasks, t) || PhaseOf(Next(s, a).tasks, u) == PhaseOf(s.tasks, u)
  {
    if !RowAction(a) {
      PlainStepKeepsTasks(s, a);
    } else if t != TargetOf(s, a) {
      RowActionKeepsOthers(s, a, t);
    } else {
      RowActionKeepsOthers(s, a, u);
    }
  }

  lemma CreateTouchesOne(s: Store, a: Action, t: nat)
    requires Inv(s) && a.Create?
    ensures t != s.nextTask ==> PhaseOf(Next(s, a).tasks, t) == PhaseOf(s.tasks, t)
  {
    if KeyTaken(s.tasks, UserKey(a.key)) {
      CreateAgainStutters(s, a);
    } else {
      CreateIs(s, a);
    }
  }

  // The phases task t goes through, stutters dropped.
  ghost function PhaseTrace(r: Run, t: nat): (trace: seq<Phase>)
    ensures trace != [] && trace[|trace| - 1] == PhaseOf(After(r).tasks, t)
  {
    match r
    case Start(_) => [Absent]
    case Then(before, action) =>
      var q := PhaseOf(After(r).tasks, t);
      if q == PhaseOf(After(before).tasks, t) then PhaseTrace(before, t) else PhaseTrace(before, t) + [q]
  }

  predicate SimpleMove(p: Phase, q: Phase) {
    || (p.Absent? && q == Waiting(0))
    || (p.Waiting? && q == Active(p.n))
    || (p.Active? && (q == Succeeded(p.n) || q == Failed(p.n) || q == Waiting(p.n) || q == Waiting(p.n + 1)))
  }

  predicate SimpleTrace(trace: seq<Phase>) {
    && trace != [] && trace[0] == Absent
    && forall i :: 0 <= i < |trace| - 1 ==> SimpleMove(trace[i], trace[i + 1])
  }

  lemma OneMoreMove(trace: seq<Phase>, q: Phase)
    requires SimpleTrace(trace) && SimpleMove(trace[|trace| - 1], q)
    ensures SimpleTrace(trace + [q])
  {}

  lemma MoveIsSimple(a: Action, p: Phase, q: Phase)
    requires Moves(a, p, q)
    ensures SimpleMove(p, q)
  {}

  // Seen through one task, a run of the whole system is a run of the simple machine.
  lemma {:induction false} RunRefinesSimpleMachine(r: Run, t: nat)
    requires Legal(r)
    ensures SimpleTrace(PhaseTrace(r, t))
  {
    if r.Start? {
    } else {
      RunRefinesSimpleMachine(r.before, t);
      RunKeepsInv(r.before);
      StepChangesPhase(After(r.before), r.action, t);
      var p, q := PhaseOf(After(r.before).tasks, t), PhaseOf(After(r).tasks, t);
      if q != p {
        MoveIsSimple(r.action, p, q);
        OneMoreMove(PhaseTrace(r.before, t), q);
      }
    }
  }

  // ---- attempts and progress ----

  lemma AttemptArithmetic(r: Run, t: nat)
    requires Legal(r) && t in After(r).tasks
    ensures var row := After(r).tasks[t];
            && row.attempts == row.generation + (if row.status.DeadLettered? then 1 else 0)
            && row.attempts <= row.maxAttempts
            && row.generation < row.maxAttempts
  {
    RunKeepsInv(r);
    assert GoodTask(After(r).tasks[t]);
  }

  // The leased snapshot of attempts is the row's whenever the fence lets its holder through.
  lemma SnapshotStaysAccurate(r: Run, r': Run, t: nat, lease: TaskLease)
    requires Legal(r') && Extends(r, r')
    requires t in After(r).tasks && After(r).tasks[t].lease.Some? && lease == Snapshot(t, After(r).tasks[t])
    ensures Authentic(After(r'), lease)
    ensures Fenced(After(r'), lease) ==> After(r').tasks[t].attempts == lease.attempts
  {
    RunEvolves(r, r');
    RunKeepsInv(r);
    RunKeepsInv(r');
    assert GoodTask(After(r).tasks[t]) && GoodTask(After(r').tasks[t]);
  }

  function Rank(status: Status): nat {
    match status
    case Pending => 3
    case RetryScheduled => 3
    case Enqueued => 2
    case Running => 1
    case Done => 0
    case DeadLettered => 0
  }

  // Remaining generations first, then how far the current one has come.
  function Measure(row: Task): int {
    3 * (row.maxAttempts - 1 - row.generation) + Rank(row.status)
  }

  predicate Changes(tasks: map<nat, Task>, tasks': map<nat, Task>, t: nat) {
    t in tasks && t in tasks' && tasks[t].status != tasks'[t].status
  }

  // Status changes of task t other than its insertion and its releases.
  ghost function Progressed(r: Run, t: nat): nat {
    match r
    case Start(_) => 0
    case Then(before, action) =>
      Progressed(before, t)
        + if Changes(After(before).tasks, After(r).tasks, t) && !action.Release? then 1 else 0
  }

  ghost function Released(r: Run, t: nat): nat {
    match r
    case Start(_) => 0
    case Then(before, action) =>
      Released(before, t) + if Changes(After(before).tasks, After(r).tasks, t) && action.Release? then 1 else 0
  }

  predicate MeasureStep(a: Action, tasks: map<nat, Task>, tasks': map<nat, Task>, t: nat) {
    && (t in tasks ==>
          && t in tasks'
          && tasks'[t].maxAttempts == tasks[t].maxAttempts
          && Measure(tasks'[t]) == Measure(tasks[t])
               + (if !Changes(tasks, tasks', t) then 0 else if a.Release? then 1 else -1))
    && (t !in tasks && t in tasks' ==> Measure(tasks'[t]) == 3 * tasks'[t].maxAttempts)
  }

  // Every status-changing step takes one off the measure; only a release gives one back.
  lemma StepMeasure(s: Store, a: Action, t: nat)
    requires Inv(s) && Enabled(s, a)
    ensures MeasureStep(a, s.tasks, Next(s, a).tasks, t)
  {
    match a
    case Create(_, _, _, _, _, _) => CreateOnlyAdds(s, a); AddMeasure(a, s.tasks, Next(s, a).tasks, t);
    case Replay(_, _, _, _, _) => ReplayOnlyAdds(s, a); AddMeasure(a, s.tasks, Next(s, a).tasks, t);
    case ClaimReady(_, _, _, _) => ClaimOnlyEnqueues(s, a); EnqueueMeasure(a, s.tasks, Next(s, a).tasks, t);
    case _ => OtherStepMeasure(s, a, t);
  }

  lemma AddMeasure(a: Action, tasks: map<nat, Task>, tasks': map<nat, Task>, t: nat)
    requires OnlyAdds(tasks, tasks')
    ensures MeasureStep(a, tasks, tasks', t)
  {}

  lemma EnqueueMeasure(a: Action, tasks: map<nat, Task>, tasks': map<nat, Task>, t: nat)
    requires OnlyEnqueues(tasks, tasks') && !a.Release?
    ensures MeasureStep(a, tasks, tasks', t)
  {}

  lemma OtherStepMeasure(s: Store, a: Action, t: nat)
    requires !a.Create? && !a.Replay? && !a.ClaimReady?
    ensures MeasureStep(a, s.tasks, Next(s, a).tasks, t)
  {
    OtherStepRow(s, a, t);
  }

  // How the remaining steps change one row.
  predicate RowStep(a: Action, row: Task, row': Task) {
    || row' == row
    || (a.LeaseTask? && row.status.Enqueued? && row' == row.(status := Running, lease := row'.lease))
    || ((a.LeaseTask? || a.Renew?) && row.status.Running? && row' == row.(lease := row'.lease))
    || (a.Release? && row.status.Running? && row' == row.(status := Enqueued, lease := None))
    || (a.Complete? && row.status.Running? && row' == row.(status := Done, lease := None))
    || (a.Retry? && row.status.Running? && row' == RetriedRow(row, row'.nextRunAt))
    || (a.Bury? && row.status.Running? && row' == BuriedRow(row))
  }

  lemma OtherStepRow(s: Store, a: Action, t: nat)
    requires !a.Create? && !a.Replay? && !a.ClaimReady?
    ensures Next(s, a).tasks.Keys == s.tasks.Keys
    ensures t in s.tasks ==> RowStep(a, s.tasks[t], Next(s, a).tasks[t])
  {}

  // An exact account over the whole run; so without releases a task changes status at most
  // 3 * maxAttempts times, however often it is redelivered or leased again.
  lemma {:induction false} ProgressAccount(r: Run, t: nat)
    requires Legal(r)
    ensures t in After(r).tasks ==>
              && Progressed(r, t) + Measure(After(r).tasks[t]) == 3 * After(r).tasks[t].maxAttempts + Released(r, t)
              && Progressed(r, t) <= 3 * After(r).tasks[t].maxAttempts + Released(r, t)
    ensures t !in After(r).tasks ==> Progressed(r, t) == 0 && Released(r, t) == 0
  {
    if r.Start? {
    } else {
      ProgressAccount(r.before, t);
      RunKeepsInv(r.before);
      StepMeasure(After(r.before), r.action, t);
    }
    RunKeepsInv(r);
    assert t in After(r).tasks ==> GoodTask(After(r).tasks[t]);
  }
}
