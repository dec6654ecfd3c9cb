// TaskLeaseGuard: heartbeats around the work, and release on a graceful cancellation.
module LeaseGuard {
  import opened Options
  import opened Tables
  import opened Protocol
  import opened StreamQueue
  import opened Database
  import opened Collector
  import opened Statements

  // What becomes of one statement: it goes through, or it raises, before or after it was applied.
  datatype Effect = GoesThrough | RaisesBefore | RaisesAfter
  {
    predicate Applied() { !RaisesBefore? }

    predicate Raises() { !GoesThrough? }
  }

  // The statements a worker sends while it handles one delivery. A heartbeat has a statement for the row, by its
  // number, and a touch of the pending entry whose failure is swallowed.
  datatype Faults = Faults(
    lease: Effect, check: bool, renew: nat -> Effect, touch: set<nat>, complete: Effect, transition: Effect,
    guardRelease: Effect, release: Effect, ack: Effect)

  // How the guarded operation itself ends.
  datatype Outcome = Finished | FailedWith(raised: Raised) | Cancelled

  datatype Renewal = Renewed | Gone | Broken

  datatype Guarded = Returned | Threw(raised: Raised) | Lost | Interrupted

  // How often the lease was extended.
  ghost function Renewals(r: Run, lease: TaskLease): nat {
    match r
    case Start(_) => 0
    case Then(before, a) =>
      Renewals(before, lease) + if a.Renew? && a.lease == lease && Renewable(After(before), lease) then 1 else 0
  }

  lemma {:induction false} RenewalsStay(r: Run, r': Run, lease: TaskLease)
    requires Extends(r, r')
    ensures Renewals(r, lease) <= Renewals(r', lease)
  {
    if r == r' {
    } else {
      RenewalsStay(r, r'.before, lease);
    }
  }

  // At some point after r the lease was no longer valid for its holder.
  ghost predicate LostSince(r: Run, r': Run, lease: TaskLease) {
    exists at :: Extends(r, at) && Extends(at, r') && !Renewable(After(at), lease)
  }

  class TaskLeaseGuard {
    const db: Database
    const queue: RedisStreamQueue
    const leaseSeconds: real
    const heartbeatSeconds: real

    constructor (db: Database, queue: RedisStreamQueue, leaseSeconds: real, heartbeatSeconds: real)
      requires queue.db == db
      requires 0.0 < heartbeatSeconds < leaseSeconds
      ensures this.db == db && this.queue == queue
      ensures this.leaseSeconds == leaseSeconds && this.heartbeatSeconds == heartbeatSeconds
    {
      this.db := db;
      this.queue := queue;
      this.leaseSeconds := leaseSeconds;
      this.heartbeatSeconds := heartbeatSeconds;
    }

    predicate Ready() {
      queue.db == db && 0.0 < heartbeatSeconds < leaseSeconds
    }

    // The lease is extended only while it is still valid.
    method ExtendLease(lease: TaskLease) returns (owned: bool)
      requires Ready() && db.Valid()
      modifies db
      ensures db.Valid() && db.history == Then(old(db.history), Renew(lease, leaseSeconds))
      ensures owned <==> Renewable(old(db.Rows()), lease)
      ensures owned <==> StillHeld(old(db.Rows()), lease)
      ensures owned ==> MovesExpiry(old(db.Rows()), db.Rows(), lease, db.now + leaseSeconds)
      ensures owned ==> Fenced(db.Rows(), lease) && db.tasks[lease.id].lease.value.expiresAt == db.now + leaseSeconds
      ensures !owned ==> db.Rows() == old(db.Rows())
    {
      ghost var before := db.Rows();
      RenewMovesExpiry(before, lease, leaseSeconds);
      owned := Renewable(db.Rows(), lease);
      if owned {
        var expiresAt := db.now + leaseSeconds;
        db.tasks := db.tasks[lease.id := db.tasks[lease.id].(lease := Some(Lease(lease.owner, expiresAt)))];
        assert MovesExpiry(before, db.Rows(), lease, expiresAt);
        MovedExpiryIsFenced(before, db.Rows(), lease, expiresAt);
      }
      db.history := Then(db.history, Renew(lease, leaseSeconds));
    }

    // Refreshing the pending entry is optional: the row remains the fence.
    method RenewOnce(lease: TaskLease, delivery: Delivery, consumer: string, renew: Effect, touchFails: bool)
      returns (result: Renewal)
      requires Ready() && db.Valid()
      modifies db
      ensures db.Valid() && Extends(old(db.history), db.history)
      ensures result.Broken? <==> renew.Raises()
      ensures !renew.Raises() ==> (result.Renewed? <==> StillHeld(old(db.Rows()), lease))
      ensures result.Renewed? && !touchFails ==>
                db.history.Then? && db.history.action == Touch(consumer, delivery.message)
      ensures renew.Applied() && Renewable(old(db.Rows()), lease) ==>
                Renewals(db.history, lease) > Renewals(old(db.history), lease)
      ensures !renew.Applied() || !Renewable(old(db.Rows()), lease) ==> db.Rows() == old(db.Rows())
    {
      if renew.RaisesBefore? {
        return Broken;
      }
      var owned := ExtendLease(lease);
      ghost var renewed := db.history;
      if renew.Raises() {
        return Broken;
      }
      if owned && !touchFails {
        db.Interfere();
        ExtendsTransitive(old(db.history), renewed, db.history);
        ghost var r := db.history;
        var touched := queue.Touch(consumer, delivery.message);
        ExtendsTransitive(old(db.history), r, db.history);
        ExtendsTransitive(renewed, r, db.history);
        RenewalsStay(renewed, db.history, lease);
      }
      return if owned then Renewed else Gone;
    }

    method ReleaseForRecovery(lease: TaskLease) returns (ok: bool)
      requires db.Valid()
      modifies db
      ensures db.Valid() && db.history == Then(old(db.history), Release(lease))
      ensures ok <==> Fenced(old(db.Rows()), lease)
      ensures ok <==> RunsFor(old(db.Rows()), lease)
      ensures ok ==>
                && lease.id in old(db.tasks)
                && db.Rows() == old(db.Rows()).(tasks := old(db.tasks)[lease.id :=
                     old(db.tasks)[lease.id].(status := Enqueued, lease := None)])
      ensures !ok ==> db.Rows() == old(db.Rows())
    {
      ok := Fenced(db.Rows(), lease);
      if ok {
        db.tasks := db.tasks[lease.id := db.tasks[lease.id].(status := Enqueued, lease := None)];
      }
      db.history := Then(db.history, Release(lease));
    }

    // One turn of the heartbeat loop, some time after the last one.
    method Beat(lease: TaskLease, delivery: Delivery, consumer: string, renew: Effect, touchFails: bool,
                ghost start: Run)
      returns (result: Renewal)
      requires Ready() && db.Valid() && Extends(start, db.history)
      modifies db
      ensures db.Valid() && Extends(start, db.history)
      ensures result.Broken? <==> renew.Raises()
      ensures result.Renewed? ==> Renewals(db.history, lease) > Renewals(old(db.history), lease)
      ensures result.Gone? ==> LostSince(start, db.history, lease)
    {
      ghost var r := db.history;
      db.Interfere();
      ghost var r1 := db.history;
      result := RenewOnce(lease, delivery, consumer, renew, touchFails);
      RenewalsStay(r, r1, lease);
      ExtendsTransitive(start, r, r1);
      ExtendsTransitive(start, r1, db.history);
      if result.Gone? {
        assert Extends(start, r1) && Extends(r1, db.history) && !Renewable(After(r1), lease);
      }
    }

    // The operation takes as long as some number of heartbeats; losing the lease abandons it, and so does a heartbeat
    // whose statement raises.
    method RunGuarded(lease: TaskLease, delivery: Delivery, consumer: string, heartbeats: nat, faults: Faults,
                      outcome: Outcome) returns (result: Guarded)
      requires Ready() && db.Valid()
      modifies db
      ensures db.Valid() && Extends(old(db.history), db.history)
      ensures result.Returned? ==> outcome.Finished?
      ensures result.Threw? ==>
                || outcome == FailedWith(result.raised)
                || (result.raised == Unexpected
                    && (BreaksWithin(faults, heartbeats) || (outcome.Cancelled? && faults.guardRelease.Raises())))
      ensures outcome.FailedWith? && !BreaksWithin(faults, heartbeats) ==>
                result == Threw(outcome.raised) || result.Lost?
      ensures result.Interrupted? ==> outcome.Cancelled?
      ensures result.Lost? ==> heartbeats > 0 && LostSince(old(db.history), db.history, lease)
      ensures !result.Lost? && !BreaksWithin(faults, heartbeats) ==>
                Renewals(db.history, lease) >= Renewals(old(db.history), lease) + heartbeats
      ensures result.Interrupted? ==> db.history.Then? && db.history.action == Release(lease)
    {
      for beat := 0 to heartbeats
        invariant db.Valid() && Extends(old(db.history), db.history)
        invariant Renewals(db.history, lease) >= Renewals(old(db.history), lease) + beat
      {
        var renewal := Beat(lease, delivery, consumer, faults.renew(beat), beat in faults.touch, old(db.history));
        if renewal.Gone? {
          return Lost;
        }
        if renewal.Broken? {
          return Threw(Unexpected);
        }
      }
      ghost var r := db.history;
      db.Interfere();
      ExtendsTransitive(old(db.history), r, db.history);
      RenewalsStay(r, db.history, lease);
      match outcome {
        case Finished => result := Returned;
        case FailedWith(raised) => result := Threw(raised);
        case Cancelled =>
          r := db.history;
          if faults.guardRelease.Applied() {
            var released := ReleaseForRecovery(lease);
            assert Extends(r, db.history);
            ExtendsTransitive(old(db.history), r, db.history);
          }
          result := if faults.guardRelease.Raises() then Threw(Unexpected) else Interrupted;
      }
    }

    predicate BreaksWithin(faults: Faults, heartbeats: nat) {
      exists beat | 0 <= beat < heartbeats :: faults.renew(beat).Raises()
    }
  }
}
