// Who held the lease of one generation, and when.
module LeaseHistory {
  import opened Tables
  import opened Protocol
  import opened ProtocolInvariant
  import opened ProtocolRuns

  // One acquisition: its owner and its period of authority [start, end).
  datatype Hold = Hold(owner: string, start: Time, end: Time)

  predicate Acquires(s: Store, a: Action, t: nat, g: nat) {
    && a.LeaseTask?
    && a.message < |s.stream|
    && s.stream[a.message] == Message(t, g)
    && Leasable(s, t, g)
  }

  predicate Extended(s: Store, a: Action, t: nat, g: nat) {
    a.Renew? && a.lease.id == t && a.lease.generation == g && Renewable(s, a.lease)
  }

  // The authority ends by a decision, or is given back.
  predicate GivesUp(s: Store, a: Action, t: nat, g: nat) {
    Decides(s, a, t, g) || (a.Release? && a.lease.id == t && a.lease.generation == g && Fenced(s, a.lease))
  }

  function WithLastEnd(holds: seq<Hold>, end: Time): seq<Hold> {
    if holds == [] then [] else holds[..|holds| - 1] + [holds[|holds| - 1].(end := end)]
  }

  function Earlier(a: Time, b: Time): Time {
    if a <= b then a else b
  }

  ghost function Holds(r: Run, t: nat, g: nat): seq<Hold> {
    match r
    case Start(_) => []
    case Then(before, a) => HoldsAfter(After(before), a, Holds(before, t, g), t, g)
  }

  function HoldsAfter(s: Store, a: Action, holds: seq<Hold>, t: nat, g: nat): seq<Hold> {
    if Acquires(s, a, t, g) then holds + [Hold(a.worker, s.now, s.now + a.leaseSeconds)]
    else if Extended(s, a, t, g) then WithLastEnd(holds, s.now + a.leaseSeconds)
    else if GivesUp(s, a, t, g) && holds != [] then WithLastEnd(holds, Earlier(holds[|holds| - 1].end, s.now))
    else holds
  }

  predicate Disjoint(holds: seq<Hold>) {
    && (forall i | 0 <= i < |holds| :: holds[i].start <= holds[i].end)
    && (forall i, j :: 0 <= i < j < |holds| ==> holds[i].end <= holds[j].start)
  }

  predicate RunningAt(tasks: map<nat, Task>, t: nat, g: nat) {
    t in tasks && tasks[t].generation == g && tasks[t].status.Running? && tasks[t].lease.Some?
  }

  // The last hold is the row's lease while the generation runs, and over otherwise.
  predicate LastHoldIs(now: Time, tasks: map<nat, Task>, holds: seq<Hold>, t: nat, g: nat) {
    if RunningAt(tasks, t, g) then
      && holds != []
      && holds[|holds| - 1].owner == tasks[t].lease.value.owner
      && holds[|holds| - 1].end == tasks[t].lease.value.expiresAt
      && holds[|holds| - 1].start <= now
    else
      holds != [] ==> holds[|holds| - 1].end <= now
  }

  // Periods of authority over one generation are pairwise disjoint over every run.
  lemma {:induction false} AuthorityIsExclusive(r: Run, t: nat, g: nat)
    requires Legal(r)
    ensures Disjoint(Holds(r, t, g))
    ensures LastHoldIs(After(r).now, After(r).tasks, Holds(r, t, g), t, g)
  {
    if r.Start? {
    } else {
      AuthorityIsExclusive(r.before, t, g);
      RunKeepsInv(r.before);
      StepKeepsHolds(After(r.before), r.action, Holds(r.before, t, g), t, g);
    }
  }

  lemma StepKeepsHolds(s: Store, a: Action, holds: seq<Hold>, t: nat, g: nat)
    requires Inv(s) && Enabled(s, a)
    requires Disjoint(holds) && LastHoldIs(s.now, s.tasks, holds, t, g)
    ensures Disjoint(HoldsAfter(s, a, holds, t, g))
    ensures LastHoldIs(Next(s, a).now, Next(s, a).tasks, HoldsAfter(s, a, holds, t, g), t, g)
  {
    StepAdvances(s, a);
    if Acquires(s, a, t, g) {
      AcquireKeepsHolds(s, a, holds, t, g);
    } else if Extended(s, a, t, g) {
      ExtendKeepsHolds(s, a, holds, t, g);
    } else if GivesUp(s, a, t, g) {
      GiveUpKeepsHolds(s, a, holds, t, g);
    } else {
      QuietStep(s, a, t, g);
      QuietKeepsHolds(s.now, Next(s, a).now, s.tasks, Next(s, a).tasks, holds, t, g);
    }
  }

  lemma AcquireKeepsHolds(s: Store, a: Action, holds: seq<Hold>, t: nat, g: nat)
    requires Acquires(s, a, t, g) && a.leaseSeconds > 0.0
    requires Disjoint(holds) && LastHoldIs(s.now, s.tasks, holds, t, g)
    ensures Disjoint(HoldsAfter(s, a, holds, t, g))
    ensures LastHoldIs(s.now, Next(s, a).tasks, HoldsAfter(s, a, holds, t, g), t, g)
  {
    AppendKeepsDisjoint(holds, Hold(a.worker, s.now, s.now + a.leaseSeconds));
  }

  lemma AppendKeepsDisjoint(holds: seq<Hold>, h: Hold)
    requires Disjoint(holds) && h.start <= h.end
    requires holds != [] ==> holds[|holds| - 1].end <= h.start
    ensures Disjoint(holds + [h])
  {}

  lemma ExtendKeepsHolds(s: Store, a: Action, holds: seq<Hold>, t: nat, g: nat)
    requires Extended(s, a, t, g) && a.leaseSeconds > 0.0
    requires Disjoint(holds) && LastHoldIs(s.now, s.tasks, holds, t, g)
    ensures Disjoint(HoldsAfter(s, a, holds, t, g))
    ensures LastHoldIs(s.now, Next(s, a).tasks, HoldsAfter(s, a, holds, t, g), t, g)
  {
    LastEndKeepsDisjoint(holds, s.now + a.leaseSeconds);
  }

  lemma LastEndKeepsDisjoint(holds: seq<Hold>, end: Time)
    requires Disjoint(holds) && holds != [] && holds[|holds| - 1].start <= end
    ensures Disjoint(WithLastEnd(holds, end))
  {}

  lemma GiveUpKeepsHolds(s: Store, a: Action, holds: seq<Hold>, t: nat, g: nat)
    requires GivesUp(s, a, t, g)
    requires Disjoint(holds) && LastHoldIs(s.now, s.tasks, holds, t, g)
    ensures Disjoint(HoldsAfter(s, a, holds, t, g))
    ensures LastHoldIs(s.now, Next(s, a).tasks, HoldsAfter(s, a, holds, t, g), t, g)
    ensures Next(s, a).now == s.now
  {
    LastEndKeepsDisjoint(holds, Earlier(holds[|holds| - 1].end, s.now));
    assert !RunningAt(Next(s, a).tasks, t, g);
  }

  predicate SameAuthority(tasks: map<nat, Task>, tasks': map<nat, Task>, t: nat, g: nat) {
    && (RunningAt(tasks', t, g) <==> RunningAt(tasks, t, g))
    && (RunningAt(tasks, t, g) ==> tasks'[t].lease == tasks[t].lease)
  }

  // Any other step leaves the generation's lease as it is.
  lemma QuietStep(s: Store, a: Action, t: nat, g: nat)
    requires Inv(s) && Enabled(s, a)
    requires !Acquires(s, a, t, g) && !Extended(s, a, t, g) && !GivesUp(s, a, t, g)
    ensures SameAuthority(s.tasks, Next(s, a).tasks, t, g)
  {
    match a
    case Create(_, _, _, _, _, _) => CreateOnlyAdds(s, a); AddKeepsAuthority(s.tasks, Next(s, a).tasks, t, g);
    case Replay(_, _, _, _, _) => ReplayOnlyAdds(s, a); AddKeepsAuthority(s.tasks, Next(s, a).tasks, t, g);
    case ClaimReady(_, _, _, _) => ClaimOnlyEnqueues(s, a); EnqueueKeepsAuthority(s.tasks, Next(s, a).tasks, t, g);
    case _ => OtherQuietStep(s, a, t, g);
  }

  lemma AddKeepsAuthority(tasks: map<nat, Task>, tasks': map<nat, Task>, t: nat, g: nat)
    requires OnlyAdds(tasks, tasks')
    ensures SameAuthority(tasks, tasks', t, g)
  {}

  lemma EnqueueKeepsAuthority(tasks: map<nat, Task>, tasks': map<nat, Task>, t: nat, g: nat)
    requires OnlyEnqueues(tasks, tasks')
    ensures SameAuthority(tasks, tasks', t, g)
  {}

  lemma OtherQuietStep(s: Store, a: Action, t: nat, g: nat)
    requires !a.Create? && !a.Replay? && !a.ClaimReady?
    requires !Acquires(s, a, t, g) && !Extended(s, a, t, g) && !GivesUp(s, a, t, g)
    ensures SameAuthority(s.tasks, Next(s, a).tasks, t, g)
  {}

  lemma QuietKeepsHolds(now: Time, now': Time, tasks: map<nat, Task>, tasks': map<nat, Task>, holds: seq<Hold>,
                        t: nat, g: nat)
    requires now <= now' && SameAuthority(tasks, tasks', t, g)
    requires LastHoldIs(now, tasks, holds, t, g)
    ensures LastHoldIs(now', tasks', holds, t, g)
  {}

  // ---- fencing ----

  // The fence admits the snapshot exactly when the generation runs and was last acquired under its owner name.
  predicate FenceMatches(s: Store, holds: seq<Hold>, lease: TaskLease) {
    Fenced(s, lease) <==>
      && RunningAt(s.tasks, lease.id, lease.generation)
      && holds != []
      && holds[|holds| - 1].owner == lease.owner
  }

  lemma FenceReadsLastHold(s: Store, holds: seq<Hold>, lease: TaskLease)
    requires LastHoldIs(s.now, s.tasks, holds, lease.id, lease.generation)
    ensures FenceMatches(s, holds, lease)
  {}

  lemma FenceAdmitsExactly(r: Run, lease: TaskLease)
    requires Legal(r)
    ensures FenceMatches(After(r), Holds(r, lease.id, lease.generation), lease)
  {
    AuthorityIsExclusive(r, lease.id, lease.generation);
    FenceReadsLastHold(After(r), Holds(r, lease.id, lease.generation), lease);
  }

  predicate DistinctOwners(holds: seq<Hold>) {
    forall i, j :: 0 <= i < j < |holds| ==> holds[i].owner != holds[j].owner
  }

  // With a name per acquisition, a worker gets through the fence only if nobody acquired the
  // generation after it did.
  lemma FencedOwnerIsLatest(r: Run, lease: TaskLease, i: nat)
    requires Legal(r)
    requires i < |Holds(r, lease.id, lease.generation)|
    requires Holds(r, lease.id, lease.generation)[i].owner == lease.owner
    requires DistinctOwners(Holds(r, lease.id, lease.generation))
    requires Fenced(After(r), lease)
    ensures i == |Holds(r, lease.id, lease.generation)| - 1
  {
    FenceAdmitsExactly(r, lease);
  }
}
