// Replayed tasks form disjoint chains that start at tasks created by users.
module Lineage {
  import opened Options
  import opened Tables
  import opened Protocol
  import opened ProtocolInvariant

  // t was replayed and u is the replacement.
  predicate ReplacedBy(s: Store, t: nat, u: nat) {
    u in s.tasks && s.tasks[u].origin == Some(t)
  }

  lemma OriginFacts(s: Store, u: nat)
    requires Inv(s) && u in s.tasks && s.tasks[u].origin.Some?
    ensures var t := s.tasks[u].origin.value;
            && t in s.tasks && t < u
            && s.tasks[t].status.DeadLettered?
            && s.tasks[t].taskType == s.tasks[u].taskType
            && s.tasks[t].payload == s.tasks[u].payload
            && s.tasks[u].replayOf.Some?
            && s.tasks[u].replayOf.value in s.archives
            && s.archives[s.tasks[u].replayOf.value].taskId == t
            && s.archives[s.tasks[u].replayOf.value].replay.Some?
            && s.archives[s.tasks[u].replayOf.value].replay.value.taskId == u
  {
    assert GoodTask(s.tasks[u]);
    assert ReplacementOk(s.archives, u, s.tasks[u]);
    var d := s.tasks[u].replayOf.value;
    assert ArchiveOk(s.tasks, d, s.archives[d]);
  }

  // The task a user created, at the head of t's chain.
  ghost function Root(s: Store, t: nat): (root: nat)
    requires Inv(s) && t in s.tasks
    ensures root in s.tasks && root <= t
    ensures s.tasks[root].origin.None?
    decreases t
  {
    if s.tasks[t].origin.None? then t
    else
      OriginFacts(s, t);
      Root(s, s.tasks[t].origin.value)
  }

  // t comes at or before u on u's chain.
  ghost predicate Precedes(s: Store, t: nat, u: nat)
    requires Inv(s) && u in s.tasks
    decreases u
  {
    t == u || (s.tasks[u].origin.Some? && (OriginFacts(s, u); Precedes(s, t, s.tasks[u].origin.value)))
  }

  // Type and payload never change along a chain, and every earlier task of it is dead.
  lemma {:induction false} ChainKeepsWork(s: Store, t: nat, u: nat)
    requires Inv(s) && u in s.tasks && Precedes(s, t, u)
    ensures t in s.tasks && t <= u
    ensures s.tasks[t].taskType == s.tasks[u].taskType && s.tasks[t].payload == s.tasks[u].payload
    ensures t != u ==> t < u && s.tasks[t].status.DeadLettered?
    ensures Root(s, t) == Root(s, u)
    decreases u
  {
    if t == u {
    } else {
      OriginFacts(s, u);
      ChainKeepsWork(s, t, s.tasks[u].origin.value);
    }
  }

  lemma {:induction false} RootPrecedes(s: Store, t: nat)
    requires Inv(s) && t in s.tasks
    ensures Precedes(s, Root(s, t), t)
    decreases t
  {
    if s.tasks[t].origin.None? {
    } else {
      OriginFacts(s, t);
      RootPrecedes(s, s.tasks[t].origin.value);
    }
  }

  // Each task has at most one replacement.
  lemma OneReplacement(s: Store, t: nat, u: nat, v: nat)
    requires Inv(s) && ReplacedBy(s, t, u) && ReplacedBy(s, t, v)
    ensures u == v
  {
    OriginFacts(s, u);
    OriginFacts(s, v);
  }

  // The next task after t on the way to u.
  lemma {:induction false} StepTowards(s: Store, t: nat, u: nat) returns (c: nat)
    requires Inv(s) && u in s.tasks && Precedes(s, t, u) && t != u
    ensures ReplacedBy(s, t, c) && c <= u
    decreases u
  {
    OriginFacts(s, u);
    var o := s.tasks[u].origin.value;
    if o == t {
      c := u;
    } else {
      c := StepTowards(s, t, o);
    }
  }

  // Chains are linear and disjoint: tasks with one root are ordered, so they lie on one chain.
  lemma {:induction false} ChainIsLinear(s: Store, t: nat, u: nat)
    requires Inv(s) && t in s.tasks && u in s.tasks && t <= u
    ensures Root(s, t) == Root(s, u) <==> Precedes(s, t, u)
    decreases t + u
  {
    if Precedes(s, t, u) {
      ChainKeepsWork(s, t, u);
    } else if Root(s, t) == Root(s, u) {
      if s.tasks[u].origin.None? {
        assert false;
      } else {
        OriginFacts(s, u);
        var o := s.tasks[u].origin.value;
        if t <= o {
          ChainIsLinear(s, t, o);
        } else {
          ChainIsLinear(s, o, t);
          var c := StepTowards(s, o, t);
          OneReplacement(s, o, c, u);
          assert false;
        }
      }
    }
  }

  // In every reachable state: at most one archive per task, one replacement per archive, and an
  // audit row for exactly the replayed archives.
  lemma LineageOfRun(r: Run)
    requires Legal(r)
    ensures var s := After(r);
            && Inv(s)
            && (forall d, e ::
                  d in s.archives && e in s.archives && s.archives[d].taskId == s.archives[e].taskId ==> d == e)
            && (forall t <- s.tasks :: s.tasks[t].status.DeadLettered? <==> Archived(s.archives, t))
            && (forall d <- s.archives :: s.archives[d].replay.Some? ==>
                  ReplacedBy(s, s.archives[d].taskId, s.archives[d].replay.value.taskId))
            && (forall d <- s.archives :: s.archives[d].replay.Some? <==>
                  (exists a :: a in s.audits && a.deadLetter == d))
  {
    RunKeepsInv(r);
    var s := After(r);
    forall t <- s.tasks ensures s.tasks[t].status.DeadLettered? <==> Archived(s.archives, t) {
      if Archived(s.archives, t) {
        var d :| d in s.archives && s.archives[d].taskId == t;
        assert ArchiveOk(s.tasks, d, s.archives[d]);
      }
    }
    forall d | d in s.archives && s.archives[d].replay.Some?
      ensures ReplacedBy(s, s.archives[d].taskId, s.archives[d].replay.value.taskId)
      ensures exists a :: a in s.audits && a.deadLetter == d
    {
      assert ArchiveOk(s.tasks, d, s.archives[d]);
      var u := s.archives[d].replay.value.taskId;
      assert ReplacementOk(s.archives, u, s.tasks[u]);
      assert Audit(d, 1, u) in s.audits;
    }
  }
}
