// DeadLetterReplayService: one transaction replays a batch of dead letters.
module ReplayService {
  import opened Options
  import opened Tables
  import opened Protocol
  import opened ProtocolInvariant
  import opened TaskRepository
  import opened Database
  import opened Statements

  datatype ReplayResult = ReplayResult(deadLetter: nat, replayGeneration: nat, taskId: nat)

  // The result names the archive's replacement.
  ghost predicate ResultOk(s: Store, d: nat, result: ReplayResult) {
    && d in s.archives
    && result.deadLetter == d
    && s.archives[d].replay.Some?
    && s.archives[d].replay.value.taskId == result.taskId
    && s.archives[d].replayGeneration == result.replayGeneration
  }

  // One result for each row, in the same order.
  ghost predicate ResultsOk(s: Store, rows: seq<nat>, results: seq<ReplayResult>) {
    |results| == |rows| && forall i | 0 <= i < |rows| :: ResultOk(s, rows[i], results[i])
  }

  function Ids(results: seq<ReplayResult>): (ids: seq<nat>)
    ensures |ids| == |results|
  {
    seq(|results|, i requires 0 <= i < |results| => results[i].deadLetter)
  }

  function Replacements(results: seq<ReplayResult>): (ids: seq<nat>)
    ensures |ids| == |results|
  {
    seq(|results|, i requires 0 <= i < |results| => results[i].taskId)
  }

  // The two inserts of a replay turn, and the replacement's id.
  ghost function ReplacementOf(s: Store, d: nat, maxAttempts: int, priority: int): (Store, nat)
    requires d in s.archives
  {
    var a := s.archives[d];
    var key := ReplayKey(d, a.replayGeneration + 1);
    var s1 := InsertTask(s, NewTask(a.taskType, a.payload, key, maxAttempts, priority, s.now, Some(a.taskId), Some(d)));
    var id := TaskWithKey(s1.tasks, key);
    (InsertOutbox(s1, id, s1.tasks[id].generation, s1.tasks[id].nextRunAt), id)
  }

  ghost function AuditedAndMarked(s: Store, d: nat, id: nat): Store
    requires d in s.archives
  {
    var a := s.archives[d];
    var g := a.replayGeneration + 1;
    s.(audits := if Audited(s.audits, d, g) then s.audits else s.audits + {Audit(d, g, id)},
       archives := s.archives[d := a.(replay := Some(Replacement(s.now, id)), replayGeneration := g)])
  }

  lemma InsertsKeepArchives(s: Store, d: nat, maxAttempts: int, priority: int)
    requires d in s.archives
    ensures var s' := ReplacementOf(s, d, maxAttempts, priority).0;
            s'.archives == s.archives && s'.audits == s.audits && s'.now == s.now
  {}

  lemma ReplayInTwoParts(s: Store, d: nat, maxAttempts: int, priority: int)
    requires d in s.archives
    ensures d in ReplacementOf(s, d, maxAttempts, priority).0.archives
    ensures var (s', id) := ReplacementOf(s, d, maxAttempts, priority);
            ReplayOne(s, d, maxAttempts, priority) == AuditedAndMarked(s', d, id)
  {
    InsertsKeepArchives(s, d, maxAttempts, priority);
  }

  class DeadLetterReplayService {
    const db: Database

    constructor (db: Database)
      ensures this.db == db
    {
      this.db := db;
    }

    // The replacement task and its outbox row.
    method InsertReplacement(d: nat, maxAttempts: int, priority: int) returns (id: nat)
      requires TasksOk(db.tasks, db.nextTask) && d in db.archives
      modifies db`tasks, db`nextTask, db`outbox, db`nextOutbox
      ensures (db.Rows(), id) == ReplacementOf(old(db.Rows()), d, maxAttempts, priority)
    {
      var a := db.archives[d];
      id := db.InsertTaskRow(NewTask(a.taskType, a.payload, ReplayKey(d, a.replayGeneration + 1), maxAttempts, priority,
                                     db.now, Some(a.taskId), Some(d)));
      db.InsertOutboxRow(id, db.tasks[id].generation, db.tasks[id].nextRunAt);
    }

    // The audit row and the mark.
    method AuditAndMark(d: nat, id: nat)
      requires d in db.archives
      modifies db`audits, db`archives
      ensures db.Rows() == AuditedAndMarked(old(db.Rows()), d, id)
    {
      var a := db.archives[d];
      var g := a.replayGeneration + 1;
      if !exists audit <- db.audits :: audit.deadLetter == d && audit.replayGeneration == g {
        db.audits := db.audits + {Audit(d, g, id)};
      }
      db.archives := db.archives[d := a.(replay := Some(Replacement(db.now, id)), replayGeneration := g)];
    }

    // One turn of the loop: replacement task, outbox row, audit row, mark.
    method ReplayRow(d: nat, maxAttempts: int, priority: int) returns (result: ReplayResult)
      requires TasksOk(db.tasks, db.nextTask) && d in db.archives
      modifies db`tasks, db`nextTask, db`outbox, db`nextOutbox, db`audits, db`archives
      ensures db.Rows() == ReplayOne(old(db.Rows()), d, maxAttempts, priority)
      ensures ResultOk(db.Rows(), d, result)
    {
      ghost var before := db.Rows();
      var g := db.archives[d].replayGeneration + 1;
      var id := InsertReplacement(d, maxAttempts, priority);
      AuditAndMark(d, id);
      ReplayInTwoParts(before, d, maxAttempts, priority);
      result := ReplayResult(d, g, id);
    }

    // The dead letters other services have locked are skipped. A row is selected while unreplayed
    // and stays locked, so marking it never fails.
    method Replay(selector: Selector, limit: int, maxAttempts: int, priority: int, locked: set<nat>)
      returns (results: Result<seq<ReplayResult>, Refusal>)
      requires db.Valid()
      modifies db
      ensures db.Valid()
      ensures results.Err? <==> limit <= 0 || maxAttempts <= 0
      ensures results.Err? ==> unchanged(db)
      ensures results.Ok? ==>
                && db.history == Then(old(db.history), Action.Replay(selector, limit, maxAttempts, priority, locked))
                && ResultsOk(db.Rows(), ReplayRows(old(db.Rows()), selector, limit, locked), results.value)
      // the oldest of the failures chosen, each with its replacement; nothing else is touched
      ensures results.Ok? ==>
                var (s, ids) := (old(db.Rows()), Ids(results.value));
                && TakesOldest(s, ids, selector, limit, locked)
                && ReplacesAll(s, db.Rows(), ids, Replacements(results.value), maxAttempts, priority)
                && AddsOnly(s, db.Rows(), ids, Replacements(results.value))
                && forall r <- results.value ::
                     r.deadLetter in s.archives && r.replayGeneration == s.archives[r.deadLetter].replayGeneration + 1
    {
      if limit <= 0 || maxAttempts <= 0 {
        return Err(ValueError);
      }
      var replayed := ReplaySelected(selector, limit, maxAttempts, priority, locked);
      return Ok(replayed);
    }

    static lemma ReplayStep(r: Run, selector: Selector, limit: nat, maxAttempts: int, priority: int, locked: set<nat>)
      requires Legal(r) && limit > 0 && maxAttempts > 0
      ensures var r' := Then(r, Action.Replay(selector, limit, maxAttempts, priority, locked));
              && Legal(r')
              && After(r') == ReplayAll(After(r), ReplayRows(After(r), selector, limit, locked), maxAttempts, priority)
    {}

    method ReplaySelected(selector: Selector, limit: nat, maxAttempts: int, priority: int, locked: set<nat>)
      returns (results: seq<ReplayResult>)
      requires db.Valid() && limit > 0 && maxAttempts > 0
      modifies db
      ensures db.Valid()
      ensures db.history == Then(old(db.history), Action.Replay(selector, limit, maxAttempts, priority, locked))
      ensures ResultsOk(db.Rows(), ReplayRows(old(db.Rows()), selector, limit, locked), results)
      ensures TakesOldest(old(db.Rows()), Ids(results), selector, limit, locked)
      ensures ReplacesAll(old(db.Rows()), db.Rows(), Ids(results), Replacements(results), maxAttempts, priority)
      ensures AddsOnly(old(db.Rows()), db.Rows(), Ids(results), Replacements(results))
    {
      var rows := ReplayRows(db.Rows(), selector, limit, locked);
      ReplayRowsMatch(db.Rows(), selector, limit, locked);
      ghost var before := db.history;
      ReplayRowsAreOldest(db.Rows(), selector, limit, locked);
      results := ReplayEach(rows, maxAttempts, priority);
      IdsAre(db.Rows(), rows, results);
      ReplayStep(before, selector, limit, maxAttempts, priority, locked);
      db.history := Then(db.history, Action.Replay(selector, limit, maxAttempts, priority, locked));
    }

    method ReplayEach(rows: seq<nat>, maxAttempts: int, priority: int) returns (results: seq<ReplayResult>)
      requires db.Valid() && maxAttempts > 0 && Distinct(rows) && Unreplayed(db.archives, rows)
      modifies db`tasks, db`nextTask, db`outbox, db`nextOutbox, db`audits, db`archives
      ensures db.Rows() == ReplayAll(old(db.Rows()), rows, maxAttempts, priority)
      ensures Replayed(old(db.Rows()), db.Rows(), rows, results, maxAttempts, priority)
    {
      ghost var before := db.history;
      NothingReplayed(db.Rows(), rows, maxAttempts, priority);
      results := [];
      for i := 0 to |rows|
        invariant db.Rows() == ReplayAll(After(before), rows[..i], maxAttempts, priority)
        invariant Replayed(After(before), db.Rows(), rows[..i], results, maxAttempts, priority)
      {
        var result := ReplayNext(before, rows, i, results, maxAttempts, priority);
        results := results + [result];
      }
      assert rows[..|rows|] == rows;
    }

    static lemma IdsAre(s: Store, rows: seq<nat>, results: seq<ReplayResult>)
      requires ResultsOk(s, rows, results)
      ensures Ids(results) == rows
    {
      forall i | 0 <= i < |rows| ensures Ids(results)[i] == rows[i] {
        assert ResultOk(s, rows[i], results[i]);
      }
    }

    static lemma NothingReplayed(s: Store, rows: seq<nat>, maxAttempts: int, priority: int)
      ensures s == ReplayAll(s, rows[..0], maxAttempts, priority)
      ensures Replayed(s, s, rows[..0], [], maxAttempts, priority)
    {
      assert rows[..0] == [];
    }

    method ReplayNext(ghost before: Run, rows: seq<nat>, i: nat, ghost results: seq<ReplayResult>, maxAttempts: int,
                      priority: int)
      returns (result: ReplayResult)
      requires Legal(before) && maxAttempts > 0 && i < |rows|
      requires Distinct(rows) && Unreplayed(After(before).archives, rows)
      requires db.Rows() == ReplayAll(After(before), rows[..i], maxAttempts, priority)
      requires Replayed(After(before), db.Rows(), rows[..i], results, maxAttempts, priority)
      modifies db`tasks, db`nextTask, db`outbox, db`nextOutbox, db`audits, db`archives
      ensures db.Rows() == ReplayAll(After(before), rows[..i + 1], maxAttempts, priority)
      ensures Replayed(After(before), db.Rows(), rows[..i + 1], results + [result], maxAttempts, priority)
    {
      RunKeepsInv(before);
      TurnIsSafe(After(before), rows, i, results, maxAttempts, priority);
      TurnReplaces(After(before), db.Rows(), rows, i, Replacements(results), maxAttempts, priority);
      result := ReplayRow(rows[i], maxAttempts, priority);
      OneMoreResult(db.Rows(), rows, i, results, result);
      OneMoreReplayed(After(before), db.Rows(), rows, i, results, result, maxAttempts, priority);
    }

    // One result for each row, each row replaced, and nothing else touched.
    static ghost predicate Replayed(s: Store, s': Store, rows: seq<nat>, results: seq<ReplayResult>, maxAttempts: int,
                                    priority: int)
    {
      && ResultsOk(s', rows, results)
      && ReplacesAll(s, s', rows, Replacements(results), maxAttempts, priority)
      && AddsOnly(s, s', rows, Replacements(results))
    }

    static lemma OneMoreReplayed(s: Store, s': Store, rows: seq<nat>, i: nat, results: seq<ReplayResult>,
                                 result: ReplayResult, maxAttempts: int, priority: int)
      requires i < |rows| && ResultsOk(s', rows[..i + 1], results + [result])
      requires ReplacesAll(s, s', rows[..i] + [rows[i]], Replacements(results) + [result.taskId], maxAttempts, priority)
      requires AddsOnly(s, s', rows[..i] + [rows[i]], Replacements(results) + [result.taskId])
      ensures Replayed(s, s', rows[..i + 1], results + [result], maxAttempts, priority)
    {
      assert rows[..i + 1] == rows[..i] + [rows[i]];
      assert Replacements(results + [result]) == Replacements(results) + [result.taskId];
    }

    // The turn at row i, after the earlier ones.
    static lemma TurnReplaces(before: Store, s: Store, rows: seq<nat>, i: nat, ts: seq<nat>, maxAttempts: int,
                              priority: int)
      requires Inv(before) && maxAttempts > 0 && Distinct(rows) && Unreplayed(before.archives, rows) && i < |rows|
      requires s == ReplayAll(before, rows[..i], maxAttempts, priority)
      requires ReplacesAll(before, s, rows[..i], ts, maxAttempts, priority) && AddsOnly(before, s, rows[..i], ts)
      ensures var s' := ReplayOne(s, rows[i], maxAttempts, priority);
              && ReplacesAll(before, s', rows[..i] + [rows[i]], ts + [s.nextTask], maxAttempts, priority)
              && AddsOnly(before, s', rows[..i] + [rows[i]], ts + [s.nextTask])
              && rows[i] in s'.archives && s'.archives[rows[i]].replay.Some?
              && s'.archives[rows[i]].replay.value.taskId == s.nextTask
    {
      FirstRows(before.archives, rows, i);
      ReplayAllKeepsInv(before, rows[..i], maxAttempts, priority);
      ReplayOneReplaces(s, rows[i], maxAttempts, priority);
      OneMoreReplaced(before, s, ReplayOne(s, rows[i], maxAttempts, priority), rows[..i], ts, rows[i], s.nextTask,
                      maxAttempts, priority);
    }

    static lemma OneMoreResult(s: Store, rows: seq<nat>, i: nat, results: seq<ReplayResult>, result: ReplayResult)
      requires i < |rows| && ResultsOk(s, rows[..i], results) && ResultOk(s, rows[i], result)
      ensures ResultsOk(s, rows[..i + 1], results + [result])
    {
      forall j | 0 <= j < i ensures ResultOk(s, rows[j], results[j]) {
        assert rows[..i][j] == rows[j];
      }
    }

    // The row is still unreplayed at its turn, its turn is the next one of the batch, and it leaves
    // earlier results right.
    static lemma TurnIsSafe(before: Store, rows: seq<nat>, i: nat, results: seq<ReplayResult>, maxAttempts: int,
                            priority: int)
      requires Inv(before) && maxAttempts > 0 && Distinct(rows) && Unreplayed(before.archives, rows) && i < |rows|
      requires ResultsOk(ReplayAll(before, rows[..i], maxAttempts, priority), rows[..i], results)
      ensures var s := ReplayAll(before, rows[..i], maxAttempts, priority);
              && TasksOk(s.tasks, s.nextTask) && rows[i] in s.archives
              && ReplayAll(before, rows[..i + 1], maxAttempts, priority) == ReplayOne(s, rows[i], maxAttempts, priority)
              && ResultsOk(ReplayOne(s, rows[i], maxAttempts, priority), rows[..i], results)
    {
      TurnUnfolds(before, rows, i, maxAttempts, priority);
      FirstRows(before.archives, rows, i);
      ReplayAllKeepsInv(before, rows[..i], maxAttempts, priority);
      EarlierResultsStay(ReplayAll(before, rows[..i], maxAttempts, priority), rows[..i], rows[i], results,
                         maxAttempts, priority);
    }

    static lemma FirstRows(archives: map<nat, Archive>, rows: seq<nat>, i: nat)
      requires Distinct(rows) && Unreplayed(archives, rows) && i < |rows|
      ensures Distinct(rows[..i]) && Unreplayed(archives, rows[..i])
      ensures rows[i] !in rows[..i] && rows[i] in archives && archives[rows[i]].replay.None?
    {
      assert rows[i] in rows;
      assert forall d <- rows[..i] :: d in rows;
    }

    static lemma EarlierResultsStay(s: Store, rows: seq<nat>, d: nat, results: seq<ReplayResult>, maxAttempts: int,
                                    priority: int)
      requires Inv(s) && maxAttempts > 0 && d !in rows && ResultsOk(s, rows, results)
      requires d in s.archives && s.archives[d].replay.None?
      ensures ResultsOk(ReplayOne(s, d, maxAttempts, priority), rows, results)
    {
      var s' := ReplayOneFacts(s, d, maxAttempts, priority);
      ResultsKept(s, s', rows, d, Marked(s.archives[d], s.now, s.nextTask), results);
    }

    static lemma ResultsKept(s: Store, s': Store, rows: seq<nat>, d: nat, a: Archive, results: seq<ReplayResult>)
      requires d !in rows && ResultsOk(s, rows, results)
      requires s'.archives == s.archives[d := a]
      ensures ResultsOk(s', rows, results)
    {
      forall j | 0 <= j < |rows| ensures ResultOk(s', rows[j], results[j]) {
        assert rows[j] != d && ResultOk(s, rows[j], results[j]);
      }
    }

    static lemma TurnUnfolds(before: Store, rows: seq<nat>, i: nat, maxAttempts: int, priority: int)
      requires i < |rows|
      ensures ReplayAll(before, rows[..i + 1], maxAttempts, priority)
           == ReplayOne(ReplayAll(before, rows[..i], maxAttempts, priority), rows[i], maxAttempts, priority)
    {
      assert rows[..i + 1][..i] == rows[..i];
    }
  }
}
