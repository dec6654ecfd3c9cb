// Worker names are shared between processes, and then the fence does not tell acquisitions apart.
module SharedNames {
  import opened Options
  import opened Tables
  import opened Protocol
  import opened ProtocolInvariant
  import opened LeaseHistory
  import opened Completion

  lemma FirstTask() returns (r: Run, t: nat)
    ensures Legal(r) && t in After(r).tasks && After(r).tasks[t].status.Pending?
  {
    var r0 := Start(0.0);
    var a := Create("X_KEYWORD_SEARCH", "{}", "first", 5, 100, None);
    RunKeepsInv(r0);
    CreateIs(After(r0), a);
    r, t := Then(r0, a), 1;
  }

  // A task that can be leased through message m, in a run of its own.
  lemma FirstDelivery() returns (r: Run, t: nat, g: nat, m: nat)
    ensures Legal(r) && m < After(r).delivered <= |After(r).stream|
    ensures After(r).stream[m] == Message(t, g) && Leasable(After(r), t, g)
  {
    var r1;
    r1, t := FirstTask();
    g := After(r1).tasks[t].generation;
    var to := Wait(r1, 60.0);
    var r2 := Then(r1, Tick(to));
    var moves := EmptyOutbox(r2, Settings(100, 60.0, 10.0, 60.0));
    var r3 := PerformAll(r2, moves, Settings(100, 60.0, 10.0, 60.0));
    m := MessageThere(r3, t);
    r := Then(r3, ReadNew("worker-1", |After(r3).stream|));
    ReadAll(r3, m, t, g);
  }

  lemma ReadAll(r: Run, m: nat, t: nat, g: nat)
    requires Legal(r) && Calm(After(r)) && t in After(r).tasks && !After(r).tasks[t].Terminal()
    requires m < |After(r).stream| && After(r).stream[m] == Message(t, g) && g == After(r).tasks[t].generation
    ensures var r' := Then(r, ReadNew("worker-1", |After(r).stream|));
            && Legal(r') && m < After(r').delivered <= |After(r').stream| && After(r').stream == After(r).stream
            && Leasable(After(r'), t, g)
  {
    PendingIsDelivered(r);
    LeasableOrSettled(r, m);
    ReadsRest(After(r), "worker-1");
  }

  lemma ReadsRest(s: Store, consumer: string)
    requires s.delivered <= |s.stream|
    ensures var s' := Next(s, ReadNew(consumer, |s.stream|));
            s' == s.(delivered := |s.stream|, pending := s'.pending)
  {}

  ghost predicate Leased(r: Run, t: nat, g: nat, m: nat, lease: TaskLease, holds: seq<Hold>) {
    && Legal(r)
    && m < After(r).delivered && m < |After(r).stream| && After(r).stream[m] == Message(t, g)
    && RunningAt(After(r).tasks, t, g)
    && After(r).tasks[t].nextRunAt <= After(r).now
    && lease == Snapshot(t, After(r).tasks[t])
    && lease.owner == "worker-1"
    && Holds(r, t, g) == holds
  }

  lemma LeaseIt(r: Run, t: nat, g: nat, m: nat) returns (r': Run, lease: TaskLease)
    requires Legal(r) && m < After(r).delivered && m < |After(r).stream| && After(r).stream[m] == Message(t, g)
    requires Leasable(After(r), t, g)
    ensures Leased(r', t, g, m, lease, Holds(r, t, g) + [Hold("worker-1", After(r).now, lease.expiresAt)])
    ensures After(r').now <= lease.expiresAt
  {
    var a := LeaseTask(m, "worker-1", 10.0);
    r' := Then(r, a);
    LeaseStep(After(r), m, t, g);
    lease := Snapshot(t, After(r').tasks[t]);
    assert Acquires(After(r), a, t, g);
  }

  lemma LeaseStep(s: Store, m: nat, t: nat, g: nat)
    requires m < |s.stream| && s.stream[m] == Message(t, g) && Leasable(s, t, g)
    ensures var s' := Next(s, LeaseTask(m, "worker-1", 10.0));
            && s'.now == s.now && s'.delivered == s.delivered && s'.stream == s.stream
            && RunningAt(s'.tasks, t, g) && s'.tasks[t].nextRunAt <= s'.now
            && s'.tasks[t].lease == Some(Lease("worker-1", s.now + 10.0))
  {}

  lemma LetExpire(r: Run, t: nat, g: nat, m: nat, lease: TaskLease, holds: seq<Hold>) returns (r': Run)
    requires Leased(r, t, g, m, lease, holds) && After(r).now <= lease.expiresAt
    ensures Leased(r', t, g, m, lease, holds) && Leasable(After(r'), t, g)
  {
    r' := Then(r, Tick(lease.expiresAt));
  }

  // An expired lease that nobody has retaken still passes the fence, so its holder may still commit.
  lemma ExpiredLeaseStillPasses() returns (r: Run, lease: TaskLease)
    ensures Legal(r) && lease.expiresAt <= After(r).now
    ensures Fenced(After(r), lease)
    ensures var holds := Holds(r, lease.id, lease.generation);
            holds != [] && holds[|holds| - 1].end == lease.expiresAt && holds[|holds| - 1].owner == lease.owner
  {
    var r0, t, g, m := FirstDelivery();
    var r1;
    r1, lease := LeaseIt(r0, t, g, m);
    r := LetExpire(r1, t, g, m, lease, Holds(r1, t, g));
  }

  // worker-1 lets its lease expire, another worker-1 acquires the generation, and the first one's
  // snapshot still passes the fence: it can commit in the other's place.
  lemma SharedNameIsNotFenced() returns (r: Run, lease: TaskLease, i: nat)
    ensures Legal(r)
    ensures var holds := Holds(r, lease.id, lease.generation);
            && i + 1 < |holds|
            && holds[i].owner == lease.owner
            && holds[i].end == lease.expiresAt
            && Fenced(After(r), lease)
  {
    var r0, t, g, m := FirstDelivery();
    var r1;
    r1, lease := LeaseIt(r0, t, g, m);
    i := |Holds(r0, t, g)|;
    var r2 := LetExpire(r1, t, g, m, lease, Holds(r1, t, g));
    var second;
    r, second := LeaseIt(r2, t, g, m);
  }
}
