// Replaying in batches of any sizes is replaying in one call.
module ReplayBatches {
  import opened Folding
  import opened Options
  import opened Ordering
  import opened Tables
  import opened Protocol
  import opened ProtocolInvariant
  import opened Statements

  // The rows a call takes first, in (failed_at, id) order, with nothing locked.
  function Queue(s: Store, selector: Selector): seq<nat> {
    OrderBy(ArchiveColumns(s), Matching(s, selector, {}))
  }

  ghost function ReplayCall(s: Store, selector: Selector, limit: nat, maxAttempts: int, priority: int): Store {
    Next(s, Replay(selector, limit, maxAttempts, priority, {}))
  }

  lemma QueueMatches(s: Store, selector: Selector)
    ensures Distinct(Queue(s, selector))
    ensures forall d <- Queue(s, selector) :: Replayable(s, d, selector)
  {
    assert Elements(Queue(s, selector)) == Matching(s, selector, {});
    forall d <- Queue(s, selector) ensures Replayable(s, d, selector) {
      assert d in Matching(s, selector, {});
    }
  }

  lemma MatchingAfter(s: Store, s': Store, selector: Selector, rows: seq<nat>)
    requires MarkedExactly(s.archives, s'.archives, rows)
    requires Elements(rows) <= Matching(s, selector, {})
    ensures Matching(s', selector, {}) == Matching(s, selector, {}) - Elements(rows)
  {}

  lemma QueueAfter(s: Store, s': Store, selector: Selector, k: nat)
    requires k <= |Queue(s, selector)| && MarkedExactly(s.archives, s'.archives, Queue(s, selector)[..k])
    ensures Queue(s', selector) == Queue(s, selector)[k..]
  {
    var rows := Queue(s, selector)[..k];
    assert Elements(rows) <= Elements(Queue(s, selector));
    MatchingAfter(s, s', selector, rows);
    var left := Matching(s', selector, {});
    assert forall d <- left :: ArchiveColumns(s')[d] == ArchiveColumns(s)[d];
    OrderByDrop(ArchiveColumns(s), Matching(s, selector, {}), k);
    OrderByColumns(ArchiveColumns(s'), ArchiveColumns(s), left);
  }

  lemma CallIs(s: Store, selector: Selector, limit: nat, maxAttempts: int, priority: int)
    returns (rows: seq<nat>, s': Store)
    ensures rows == Limit(Queue(s, selector), limit) && rows == Queue(s, selector)[..|rows|]
    ensures s' == ReplayAll(s, rows, maxAttempts, priority)
    ensures s' == ReplayCall(s, selector, limit, maxAttempts, priority)
    ensures Distinct(rows) && forall d <- rows :: d in s.archives && s.archives[d].replay.None?
  {
    rows := Limit(Queue(s, selector), limit);
    s' := ReplayAll(s, rows, maxAttempts, priority);
    QueueMatches(s, selector);
  }

  // A call takes the front of the queue, which lists the chosen failures oldest first, and leaves the rest of it for
  // the next call.
  lemma QueueAfterCall(s: Store, selector: Selector, limit: nat, maxAttempts: int, priority: int)
    requires Inv(s) && maxAttempts > 0
    ensures ReplayedWell(s, ReplayCall(s, selector, limit, maxAttempts, priority), Limit(Queue(s, selector), limit))
    ensures Queue(ReplayCall(s, selector, limit, maxAttempts, priority), selector)
         == Queue(s, selector)[|Limit(Queue(s, selector), limit)|..]
    ensures InFailureOrder(s, Queue(s, selector))
    ensures forall d :: d in Queue(s, selector) <==> Replaying(s, d, selector)
  {
    MatchingInOrder(s, selector, {});
    var rows, s' := CallIs(s, selector, limit, maxAttempts, priority);
    ReplayAllKeepsInv(s, rows, maxAttempts, priority);
    QueueAfter(s, s', selector, |rows|);
  }

  // ---- the clock only shows in timestamps ----

  function Undated(task: Task): Task {
    task.(nextRunAt := 0.0)
  }

  function UndatedRow(row: OutboxRow): OutboxRow {
    row.(availableAt := 0.0)
  }

  function UndatedArchive(a: Archive): Archive {
    a.(replay := if a.replay.Some? then Some(a.replay.value.(at := 0.0)) else None)
  }

  // Equal up to the clock and the times at which replacements were made.
  ghost predicate SameButTimes(s: Store, u: Store) {
    && s.nextTask == u.nextTask && s.nextOutbox == u.nextOutbox && s.nextArchive == u.nextArchive
    && s.stream == u.stream && s.delivered == u.delivered && s.pending == u.pending && s.audits == u.audits
    && s.tasks.Keys == u.tasks.Keys && (forall t <- s.tasks :: Undated(s.tasks[t]) == Undated(u.tasks[t]))
    && s.outbox.Keys == u.outbox.Keys && (forall o <- s.outbox :: UndatedRow(s.outbox[o]) == UndatedRow(u.outbox[o]))
    && s.archives.Keys == u.archives.Keys
    && (forall d <- s.archives :: UndatedArchive(s.archives[d]) == UndatedArchive(u.archives[d]))
  }

  lemma MarkIgnoresClock(s: Store, u: Store, d: nat, maxAttempts: int, priority: int)
    requires SameButTimes(s, u) && d in s.archives
    ensures SameButTimes(ReplayedStore(s, d, maxAttempts, priority), ReplayedStore(u, d, maxAttempts, priority))
  {
    assert UndatedArchive(s.archives[d]) == UndatedArchive(u.archives[d]);
  }

  lemma TurnIgnoresClock(s: Store, u: Store, d: nat, maxAttempts: int, priority: int)
    requires Inv(s) && Inv(u) && SameButTimes(s, u)
    requires d in s.archives && s.archives[d].replay.None?
    ensures SameButTimes(ReplayOne(s, d, maxAttempts, priority), ReplayOne(u, d, maxAttempts, priority))
  {
    assert UndatedArchive(s.archives[d]) == UndatedArchive(u.archives[d]);
    ReplayOneIs(s, d, maxAttempts, priority);
    ReplayOneIs(u, d, maxAttempts, priority);
    MarkIgnoresClock(s, u, d, maxAttempts, priority);
  }

  lemma UnreplayedInBoth(s: Store, u: Store, rows: seq<nat>)
    requires SameButTimes(s, u)
    requires forall d <- rows :: d in s.archives && s.archives[d].replay.None?
    ensures forall d <- rows :: d in u.archives && u.archives[d].replay.None?
  {
    forall d <- rows ensures d in u.archives && u.archives[d].replay.None? {
      assert UndatedArchive(s.archives[d]) == UndatedArchive(u.archives[d]);
    }
  }

  lemma {:induction false} ReplayIgnoresClock(s: Store, u: Store, rows: seq<nat>, maxAttempts: int, priority: int)
    requires Inv(s) && Inv(u) && SameButTimes(s, u) && maxAttempts > 0 && Distinct(rows)
    requires Unreplayed(s.archives, rows)
    ensures SameButTimes(ReplayAll(s, rows, maxAttempts, priority), ReplayAll(u, rows, maxAttempts, priority))
  {
    if rows == [] {
    } else {
      var init, d := rows[..|rows| - 1], rows[|rows| - 1];
      LastRow(s.archives, rows);
      ReplayIgnoresClock(s, u, init, maxAttempts, priority);
      UnreplayedInBoth(s, u, init);
      ReplayAllKeepsInv(s, init, maxAttempts, priority);
      ReplayAllKeepsInv(u, init, maxAttempts, priority);
      ReplayAllUnfolds(s, rows, maxAttempts, priority);
      ReplayAllUnfolds(u, rows, maxAttempts, priority);
      TurnIgnoresClock(ReplayAll(s, init, maxAttempts, priority), ReplayAll(u, init, maxAttempts, priority), d,
                       maxAttempts, priority);
    }
  }

  // ---- batches ----

  // Calls in turn, each after waiting some time.
  datatype Call = Call(wait: real, limit: nat)

  ghost function WaitThenCall(s: Store, selector: Selector, call: Call, maxAttempts: int, priority: int): Store {
    ReplayCall(Next(s, Tick(NotBefore(s.now, call.wait))), selector, call.limit, maxAttempts, priority)
  }

  ghost function ReplayCalls(s: Store, selector: Selector, calls: seq<Call>, maxAttempts: int, priority: int): Store
    decreases |calls|
  {
    if calls == [] then s
    else ReplayCalls(WaitThenCall(s, selector, calls[0], maxAttempts, priority), selector, calls[1..], maxAttempts,
                     priority)
  }

  // The dead letters the calls report, in the order they report them.
  ghost function Reported(s: Store, selector: Selector, calls: seq<Call>, maxAttempts: int, priority: int): seq<nat>
    decreases |calls|
  {
    if calls == [] then []
    else
      Limit(Queue(Next(s, Tick(NotBefore(s.now, calls[0].wait))), selector), calls[0].limit)
        + Reported(WaitThenCall(s, selector, calls[0], maxAttempts, priority), selector, calls[1..], maxAttempts,
                   priority)
  }

  lemma WaitKeepsQueue(s: Store, selector: Selector, wait: real) returns (s': Store)
    requires Inv(s)
    ensures s' == Next(s, Tick(NotBefore(s.now, wait)))
    ensures Inv(s') && SameButTimes(s', s) && Queue(s', selector) == Queue(s, selector)
  {
    s' := Next(s, Tick(NotBefore(s.now, wait)));
    TickKeepsInv(s, NotBefore(s.now, wait));
    assert Matching(s', selector, {}) == Matching(s, selector, {});
    OrderByColumns(ArchiveColumns(s'), ArchiveColumns(s), Matching(s, selector, {}));
  }

  lemma OneCall(s: Store, selector: Selector, call: Call, maxAttempts: int, priority: int)
    returns (waited: Store, rows: seq<nat>, s1: Store)
    requires Inv(s) && maxAttempts > 0
    ensures Inv(waited) && SameButTimes(waited, s) && Queue(waited, selector) == Queue(s, selector)
    ensures waited == Next(s, Tick(NotBefore(s.now, call.wait)))
    ensures rows == Limit(Queue(waited, selector), call.limit) && rows <= Queue(s, selector)
    ensures s1 == ReplayAll(waited, rows, maxAttempts, priority)
    ensures s1 == WaitThenCall(s, selector, call, maxAttempts, priority)
    ensures Inv(s1) && Queue(s1, selector) == Queue(s, selector)[|rows|..]
  {
    waited := WaitKeepsQueue(s, selector, call.wait);
    rows, s1 := CallIs(waited, selector, call.limit, maxAttempts, priority);
    QueueAfterCall(waited, selector, call.limit, maxAttempts, priority);
  }

  ghost predicate Replayed(s: Store, selector: Selector, taken: seq<nat>, s': Store, maxAttempts: int, priority: int) {
    && taken <= Queue(s, selector)
    && Inv(s')
    && Queue(s', selector) == Queue(s, selector)[|taken|..]
    && SameButTimes(s', ReplayAll(s, taken, maxAttempts, priority))
  }

  // Any calls with any limits and pauses replay the front of the queue, each dead letter once and in
  // order, and leave the same rows, up to times, as replaying that front in one call.
  lemma {:induction false} BatchesAreOneCall(s: Store, selector: Selector, calls: seq<Call>, maxAttempts: int,
                                             priority: int)
    requires Inv(s) && maxAttempts > 0
    ensures Replayed(s, selector, Reported(s, selector, calls, maxAttempts, priority),
                     ReplayCalls(s, selector, calls, maxAttempts, priority), maxAttempts, priority)
    decreases |calls|
  {
    if calls == [] {
      SameReflexive(s);
    } else {
      var waited, rows, s1 := OneCall(s, selector, calls[0], maxAttempts, priority);
      BatchesAreOneCall(s1, selector, calls[1..], maxAttempts, priority);
      JoinBatches(s, waited, s1, selector, rows, Reported(s1, selector, calls[1..], maxAttempts, priority),
                  ReplayCalls(s1, selector, calls[1..], maxAttempts, priority), maxAttempts, priority);
    }
  }

  lemma SameReflexive(s: Store)
    ensures SameButTimes(s, s)
  {}

  lemma JoinBatches(s: Store, waited: Store, s1: Store, selector: Selector, rows: seq<nat>, rest: seq<nat>, s': Store,
                    maxAttempts: int, priority: int)
    requires Inv(s) && Inv(waited) && SameButTimes(waited, s) && maxAttempts > 0
    requires Queue(waited, selector) == Queue(s, selector) && rows <= Queue(s, selector)
    requires s1 == ReplayAll(waited, rows, maxAttempts, priority) && Queue(s1, selector) == Queue(s, selector)[|rows|..]
    requires Replayed(s1, selector, rest, s', maxAttempts, priority)
    ensures Replayed(s, selector, rows + rest, s', maxAttempts, priority)
  {
    var all := rows + rest;
    PrefixSplit(Queue(s, selector), rows, rest);
    FoldAppend(Turn(maxAttempts, priority), waited, rows, rest);
    PrefixMatches(waited, selector, all);
    ReplayIgnoresClock(waited, s, all, maxAttempts, priority);
    SameTransitive(s', ReplayAll(waited, all, maxAttempts, priority), ReplayAll(s, all, maxAttempts, priority));
  }

  lemma PrefixSplit(q: seq<nat>, a: seq<nat>, b: seq<nat>)
    requires a <= q && b <= q[|a|..]
    ensures a + b <= q && q[|a|..][|b|..] == q[|a + b|..]
  {}

  lemma PrefixMatches(s: Store, selector: Selector, rows: seq<nat>)
    requires rows <= Queue(s, selector)
    ensures Distinct(rows) && forall d <- rows :: d in s.archives && s.archives[d].replay.None?
  {
    QueueMatches(s, selector);
    assert forall i | 0 <= i < |rows| :: rows[i] == Queue(s, selector)[i];
  }

  lemma SameTransitive(s: Store, u: Store, v: Store)
    requires SameButTimes(s, u) && SameButTimes(u, v)
    ensures SameButTimes(s, v)
  {}

  // So calling until a call comes back empty replays the whole queue as one unlimited call does.
  lemma DrainingIsOneUnlimitedCall(s: Store, selector: Selector, calls: seq<Call>, limit: nat, maxAttempts: int,
                                   priority: int)
    requires Inv(s) && maxAttempts > 0
    requires Queue(ReplayCalls(s, selector, calls, maxAttempts, priority), selector) == []
    requires |Queue(s, selector)| <= limit
    ensures Reported(s, selector, calls, maxAttempts, priority) == Queue(s, selector)
    ensures SameButTimes(ReplayCalls(s, selector, calls, maxAttempts, priority),
                         ReplayCall(s, selector, limit, maxAttempts, priority))
  {
    BatchesAreOneCall(s, selector, calls, maxAttempts, priority);
    var taken := Reported(s, selector, calls, maxAttempts, priority);
    assert |taken| == |Queue(s, selector)|;
    var rows, s' := CallIs(s, selector, limit, maxAttempts, priority);
  }

  // Each call with a positive limit shortens a non-empty queue, so draining ends.
  lemma CallShortensQueue(s: Store, selector: Selector, limit: nat, maxAttempts: int, priority: int)
    requires Inv(s) && maxAttempts > 0 && limit > 0 && Queue(s, selector) != []
    ensures |Queue(ReplayCall(s, selector, limit, maxAttempts, priority), selector)| < |Queue(s, selector)|
  {
    QueueAfterCall(s, selector, limit, maxAttempts, priority);
  }
}
