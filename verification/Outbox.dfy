// DurableOutboxDispatcher: claim, then publish, then mark.
module Outbox {
  import opened Options
  import opened Tables
  import opened Protocol
  import opened ProtocolInvariant
  import opened ProtocolRuns
  import opened TaskRepository
  import opened Database
  import opened Statements

  function OutboxIds(events: seq<ClaimedEvent>): seq<nat> {
    seq(|events|, i requires 0 <= i < |events| => events[i].outboxId)
  }

  // The most urgent due rows in their order, as they were, stamped with the token; nothing else is touched.
  ghost predicate Claims(s: Store, s': Store, events: seq<ClaimedEvent>, batch: nat, locked: set<nat>, token: nat,
                         seconds: real)
  {
    && TakesMostUrgent(s, OutboxIds(events), batch, locked)
    && Stamps(s, s', OutboxIds(events), token, s.now + seconds)
    && forall e <- events ::
         && e.outboxId in s.outbox && e.token == token
         && e.taskId == s.outbox[e.outboxId].taskId && e.generation == s.outbox[e.outboxId].generation
  }

  // What a dispatcher may rely on about an event it claimed, whatever happens meanwhile.
  ghost predicate Dispatchable(s: Store, e: ClaimedEvent) {
    && Visible(s.now, s.tasks, e.taskId, e.generation)
    && e.outboxId in s.outbox
    && s.outbox[e.outboxId].taskId == e.taskId
    && s.outbox[e.outboxId].generation == e.generation
  }

  lemma DispatchableForever(r: Run, r': Run, e: ClaimedEvent)
    requires Legal(r') && Extends(r, r') && Dispatchable(After(r), e)
    ensures Dispatchable(After(r'), e)
  {
    VisibleForever(r, r', e.taskId, e.generation);
    RunEvolvesOutbox(r, r');
  }

  lemma OnStreamForever(r: Run, r': Run, e: ClaimedEvent)
    requires Legal(r') && Extends(r, r') && OnStream(After(r), e)
    ensures OnStream(After(r'), e)
  {
    RunEvolves(r, r');
    assert After(r).stream <= After(r').stream;
    var m :| 0 <= m < |After(r).stream| && After(r).stream[m] == Message(e.taskId, e.generation);
    assert After(r').stream[m] == After(r).stream[m];
  }

  function EventOf(s: Store, o: nat, token: nat): ClaimedEvent
    requires o in s.outbox
  {
    ClaimedEvent(o, s.outbox[o].taskId, s.outbox[o].generation, token)
  }

  // One turn of the claim loop, as the two UPDATE statements.
  function ClaimOne(s: Store, o: nat, token: nat, expiresAt: Time): Store
    requires o in s.outbox
  {
    var t, g := s.outbox[o].taskId, s.outbox[o].generation;
    s.(outbox := s.outbox[o := Stamped(s.outbox[o], token, expiresAt)],
       tasks := if t in s.tasks && s.tasks[t].generation == g && s.tasks[t].Waiting() then
                  s.tasks[t := s.tasks[t].(status := Enqueued)] else s.tasks)
  }

  lemma ClaimOneMore(s: Store, rows: seq<nat>, o: nat, token: nat, expiresAt: Time)
    requires o in s.outbox && o !in rows
    ensures ClaimOne(ClaimRows(s, rows, token, expiresAt), o, token, expiresAt)
         == ClaimRows(s, rows + [o], token, expiresAt)
  {
    var s1, s2 := ClaimRows(s, rows, token, expiresAt), ClaimRows(s, rows + [o], token, expiresAt);
    assert ClaimOne(s1, o, token, expiresAt).outbox == s2.outbox;
    forall t <- s.tasks ensures ClaimOne(s1, o, token, expiresAt).tasks[t] == s2.tasks[t] {
      assert HasClaimedRow(s.outbox, rows + [o], t, s.tasks[t].generation) <==>
             HasClaimedRow(s.outbox, rows, t, s.tasks[t].generation)
             || (s.outbox[o].taskId == t && s.outbox[o].generation == s.tasks[t].generation);
    }
    assert ClaimOne(s1, o, token, expiresAt).tasks == s2.tasks;
  }

  // The event of a claimed row: its claim is held, its task is enqueued and it may be published.
  ghost predicate ClaimedEventOk(s: Store, o: nat, e: ClaimedEvent) {
    && e.outboxId == o
    && Dispatchable(s, e)
    && HoldsClaim(s, e)
    && s.tasks[e.taskId].status.Enqueued?
  }

  ghost predicate ClaimedEvents(s: Store, rows: seq<nat>, events: seq<ClaimedEvent>) {
    |events| == |rows| && forall j | 0 <= j < |rows| :: ClaimedEventOk(s, rows[j], events[j])
  }

  ghost predicate IsPublished(s: Store, o: nat) {
    o in s.outbox && s.outbox[o].published.Some?
  }

  ghost predicate OnStream(s: Store, e: ClaimedEvent) {
    Message(e.taskId, e.generation) in s.stream
  }

  // Halfway through a dispatch: the remaining events may still be published, the counted ones are, and
  // every event so far that the stream did not refuse is on it.
  ghost predicate Dispatching(r0: Run, r: Run, rows: seq<nat>, events: seq<ClaimedEvent>, addFails: set<nat>,
                              published: seq<nat>, i: nat)
  {
    && Extends(r0, r)
    && |events| == |rows| && i <= |rows|
    && AllDispatchable(After(r), rows, events)
    && AllPublished(After(r), rows, addFails, published, i)
    && AllSent(After(r), rows, events, addFails, i)
  }

  ghost predicate AllDispatchable(s: Store, rows: seq<nat>, events: seq<ClaimedEvent>)
    requires |events| == |rows|
  {
    forall j | 0 <= j < |events| :: events[j].outboxId == rows[j] && Dispatchable(s, events[j])
  }

  ghost predicate AllPublished(s: Store, rows: seq<nat>, addFails: set<nat>, published: seq<nat>, i: nat)
    requires i <= |rows|
  {
    && |published| <= i
    && Distinct(published)
    && (forall o <- published :: o in rows[..i] && o !in addFails && IsPublished(s, o))
  }

  ghost predicate AllSent(s: Store, rows: seq<nat>, events: seq<ClaimedEvent>, addFails: set<nat>, i: nat)
    requires |events| == |rows| && i <= |rows|
  {
    forall j | 0 <= j < i :: rows[j] !in addFails ==> OnStream(s, events[j])
  }

  class DurableOutboxDispatcher {
    const db: Database
    const claimSeconds: real

    constructor (db: Database, claimSeconds: real)
      requires claimSeconds > 0.0
      ensures this.db == db && this.claimSeconds == claimSeconds
    {
      this.db := db;
      this.claimSeconds := claimSeconds;
    }

    // One turn of the claim loop: stamp the row, enqueue its task.
    method ClaimRow(o: nat, token: nat, expiresAt: Time)
      requires o in db.outbox
      modifies db`outbox, db`tasks
      ensures db.Rows() == ClaimOne(old(db.Rows()), o, token, expiresAt)
    {
      var t, g := db.outbox[o].taskId, db.outbox[o].generation;
      db.outbox := db.outbox[o := Stamped(db.outbox[o], token, expiresAt)];
      if t in db.tasks && db.tasks[t].generation == g && db.tasks[t].Waiting() {
        db.tasks := db.tasks[t := db.tasks[t].(status := Enqueued)];
      }
    }

    // One turn of the claim loop, after i rows.
    method ClaimNext(ghost before: Store, rows: seq<nat>, i: nat, token: nat, expiresAt: Time)
      returns (event: ClaimedEvent)
      requires i < |rows| && Distinct(rows) && rows[i] in before.outbox
      requires db.Rows() == ClaimRows(before, rows[..i], token, expiresAt)
      modifies db`outbox, db`tasks
      ensures db.Rows() == ClaimRows(before, rows[..i + 1], token, expiresAt)
      ensures event == EventOf(before, rows[i], token)
    {
      var o := rows[i];
      TakeSnoc(rows, i);
      ClaimOneMore(before, rows[..i], o, token, expiresAt);
      event := ClaimedEvent(o, db.outbox[o].taskId, db.outbox[o].generation, token);
      ClaimRow(o, token, expiresAt);
    }

    method ClaimEach(rows: seq<nat>, token: nat, expiresAt: Time) returns (claimed: seq<ClaimedEvent>)
      requires Distinct(rows) && forall o <- rows :: o in db.outbox
      modifies db`outbox, db`tasks
      ensures db.Rows() == ClaimRows(old(db.Rows()), rows, token, expiresAt)
      ensures |claimed| == |rows|
      ensures forall j | 0 <= j < |rows| :: rows[j] in old(db.outbox) &&
                claimed[j] == EventOf(old(db.Rows()), rows[j], token)
    {
      ghost var before := db.Rows();
      ClaimNone(before, token, expiresAt);
      claimed := [];
      for i := 0 to |rows|
        invariant |claimed| == i
        invariant db.Rows() == ClaimRows(before, rows[..i], token, expiresAt)
        invariant forall j | 0 <= j < i :: claimed[j] == EventOf(before, rows[j], token)
      {
        var event := ClaimNext(before, rows, i, token, expiresAt);
        claimed := claimed + [event];
      }
      TakeAll(rows);
    }

    // The rows other dispatchers have locked are skipped.
    method ClaimReady(batch: int, locked: set<nat>, token: nat) returns (result: Result<seq<ClaimedEvent>, Refusal>)
      requires db.Valid() && claimSeconds > 0.0
      modifies db
      ensures db.Valid()
      ensures result.Err? <==> batch <= 0
      ensures result.Err? ==> unchanged(db)
      ensures result.Ok? ==>
                && db.history == Then(old(db.history), Action.ClaimReady(batch, locked, token, claimSeconds))
                && ClaimedEvents(db.Rows(), ReadyRows(old(db.Rows()), batch, locked), result.value)
                && Claims(old(db.Rows()), db.Rows(), result.value, batch, locked, token, claimSeconds)
    {
      if batch <= 0 {
        return Err(ValueError);
      }
      var claimed := ClaimDue(batch, locked, token);
      return Ok(claimed);
    }

    method ClaimDue(batch: nat, locked: set<nat>, token: nat) returns (claimed: seq<ClaimedEvent>)
      requires db.Valid() && claimSeconds > 0.0 && batch > 0
      modifies db
      ensures db.Valid()
      ensures db.history == Then(old(db.history), Action.ClaimReady(batch, locked, token, claimSeconds))
      ensures ClaimedEvents(db.Rows(), ReadyRows(old(db.Rows()), batch, locked), claimed)
      ensures Claims(old(db.Rows()), db.Rows(), claimed, batch, locked, token, claimSeconds)
    {
      var rows := ReadyRows(db.Rows(), batch, locked);
      var expiresAt := db.now + claimSeconds;
      ghost var a := Action.ClaimReady(batch, locked, token, claimSeconds);
      ClaimIsLegal(db.history, a, rows, expiresAt);
      RowsAreReady(db.Rows(), batch, locked);
      ReadyRowsAreMostUrgent(db.Rows(), batch, locked);
      claimed := ClaimEach(rows, token, expiresAt);
      ClaimedAreDispatchable(old(db.history), rows, claimed, token, expiresAt);
      ClaimClaims(old(db.Rows()), rows, claimed, batch, locked, token, claimSeconds);
      db.history := Then(db.history, a);
    }

    static lemma ClaimClaims(s: Store, rows: seq<nat>, claimed: seq<ClaimedEvent>, batch: nat, locked: set<nat>,
                             token: nat, seconds: real)
      requires TakesMostUrgent(s, rows, batch, locked) && |claimed| == |rows|
      requires forall j | 0 <= j < |rows| :: rows[j] in s.outbox && claimed[j] == EventOf(s, rows[j], token)
      ensures Claims(s, ClaimRows(s, rows, token, s.now + seconds), claimed, batch, locked, token, seconds)
    {
      EventsSayTheRows(s, rows, claimed, token);
      ClaimStamps(s, rows, token, s.now + seconds);
    }

    static lemma EventsSayTheRows(s: Store, rows: seq<nat>, claimed: seq<ClaimedEvent>, token: nat)
      requires |claimed| == |rows|
      requires forall j | 0 <= j < |rows| :: rows[j] in s.outbox && claimed[j] == EventOf(s, rows[j], token)
      ensures OutboxIds(claimed) == rows
      ensures forall e <- claimed ::
                && e.outboxId in s.outbox && e.token == token
                && e.taskId == s.outbox[e.outboxId].taskId && e.generation == s.outbox[e.outboxId].generation
    {}

    static lemma ClaimIsLegal(r: Run, a: Action, rows: seq<nat>, expiresAt: Time)
      requires Legal(r) && a.ClaimReady? && Enabled(After(r), a)
      requires rows == ReadyRows(After(r), a.batch, a.locked) && expiresAt == After(r).now + a.claimSeconds
      ensures Legal(Then(r, a)) && After(Then(r, a)) == ClaimRows(After(r), rows, a.token, expiresAt)
    {
      AfterClaim(r, a);
      ClaimBatchIs(After(r), a, rows, expiresAt);
    }

    static lemma AfterClaim(r: Run, a: Action)
      requires Legal(r) && a.ClaimReady? && Enabled(After(r), a)
      ensures Legal(Then(r, a))
      ensures After(Then(r, a)) == ClaimBatch(After(r), a.batch, a.locked, a.token, a.claimSeconds)
    {}

    static lemma ClaimBatchIs(s: Store, a: Action, rows: seq<nat>, expiresAt: Time)
      requires a.ClaimReady?
      requires rows == ReadyRows(s, a.batch, a.locked) && expiresAt == s.now + a.claimSeconds
      ensures ClaimBatch(s, a.batch, a.locked, a.token, a.claimSeconds) == ClaimRows(s, rows, a.token, expiresAt)
    {}

    static lemma ClaimedAreDispatchable(r: Run, rows: seq<nat>, claimed: seq<ClaimedEvent>, token: nat, expiresAt: Time)
      requires Legal(r) && |claimed| == |rows|
      requires forall o <- rows :: Ready(After(r), o)
      requires forall j | 0 <= j < |rows| ::
                 rows[j] in After(r).outbox && claimed[j] == EventOf(After(r), rows[j], token)
      ensures ClaimedEvents(ClaimRows(After(r), rows, token, expiresAt), rows, claimed)
    {
      RunKeepsInv(r);
      forall j | 0 <= j < |rows|
        ensures ClaimedEventOk(ClaimRows(After(r), rows, token, expiresAt), rows[j], claimed[j])
      {
        ClaimedIsDispatchable(After(r), rows, rows[j], token, expiresAt);
      }
    }

    static lemma ClaimNone(s: Store, token: nat, expiresAt: Time)
      ensures ClaimRows(s, [], token, expiresAt) == s
    {
      var s' := ClaimRows(s, [], token, expiresAt);
      assert s'.outbox == s.outbox && s'.tasks == s.tasks;
    }

    static lemma RowsAreReady(s: Store, batch: nat, locked: set<nat>)
      ensures Distinct(ReadyRows(s, batch, locked))
      ensures forall o <- ReadyRows(s, batch, locked) :: Ready(s, o)
    {}

    static lemma ClaimedIsDispatchable(s: Store, rows: seq<nat>, o: nat, token: nat, expiresAt: Time)
      requires Inv(s) && o in rows && Ready(s, o)
      ensures Dispatchable(ClaimRows(s, rows, token, expiresAt), EventOf(s, o, token))
      ensures HoldsClaim(ClaimRows(s, rows, token, expiresAt), EventOf(s, o, token))
      ensures ClaimRows(s, rows, token, expiresAt).tasks[s.outbox[o].taskId].status.Enqueued?
    {
      assert OutboxRowOk(s.tasks, s.stream, s.outbox[o]);
      assert HasClaimedRow(s.outbox, rows, s.outbox[o].taskId, s.outbox[o].generation);
    }

    // XADD. By the time the row is marked, anybody may have run.
    method AddEntry(event: ClaimedEvent) returns (message: nat)
      requires db.Valid() && Dispatchable(db.Rows(), event)
      modifies db
      ensures db.Valid() && Extends(old(db.history), db.history) && Dispatchable(db.Rows(), event)
      ensures message < |db.stream| && db.stream[message] == Message(event.taskId, event.generation)
    {
      message := |db.stream|;
      db.stream := db.stream + [Message(event.taskId, event.generation)];
      db.history := Then(db.history, Publish(event.taskId, event.generation));
      ghost var added := db.history;
      db.Interfere();
      EntryStays(added, db.history, message);
      DispatchableForever(added, db.history, event);
      ExtendsTransitive(old(db.history), added, db.history);
    }

    static lemma EntryStays(r: Run, r': Run, message: nat)
      requires Legal(r') && Extends(r, r') && message < |After(r).stream|
      ensures message < |After(r').stream| && After(r').stream[message] == After(r).stream[message]
    {
      RunEvolves(r, r');
    }

    // UPDATE ... WHERE claim_token = ... AND published_at IS NULL
    method MarkRow(event: ClaimedEvent, message: nat) returns (owned: bool)
      requires db.Valid() && Dispatchable(db.Rows(), event)
      requires message < |db.stream| && db.stream[message] == Message(event.taskId, event.generation)
      modifies db
      ensures db.Valid() && db.history == Then(old(db.history), MarkPublished(event, message))
      ensures db.stream == old(db.stream) && Dispatchable(db.Rows(), event)
      ensures owned <==> HoldsClaim(old(db.Rows()), event)
      ensures owned <==>
                && event.outboxId in old(db.outbox) && old(db.outbox)[event.outboxId].published.None?
                && old(db.outbox)[event.outboxId].claim.Some?
                && old(db.outbox)[event.outboxId].claim.value.token == event.token
      ensures owned ==>
                db.outbox == old(db.outbox)[event.outboxId :=
                  old(db.outbox)[event.outboxId].(published := Some(Publication(db.now, message)), claim := None)]
      ensures !owned ==> db.outbox == old(db.outbox)
      ensures db.tasks == old(db.tasks)
    {
      owned := HoldsClaim(db.Rows(), event);
      if owned {
        db.outbox := db.outbox[event.outboxId :=
          db.outbox[event.outboxId].(published := Some(Publication(db.now, message)), claim := None)];
      }
      db.history := Then(db.history, MarkPublished(event, message));
    }

    // XADD, then mark. A lost claim leaves the stream entry behind.
    method PublishClaimed(event: ClaimedEvent, addFails: bool) returns (result: Result<nat, Refusal>)
      requires db.Valid() && Dispatchable(db.Rows(), event)
      modifies db
      ensures db.Valid() && Extends(old(db.history), db.history)
      ensures Dispatchable(db.Rows(), event)
      ensures !addFails ==> OnStream(db.Rows(), event)
      ensures if addFails then result == Err(RedisError) else result.Ok? || result == Err(ClaimLost)
      ensures result == Err(ClaimLost) ==> db.history.Then? && !HoldsClaim(After(db.history.before), event)
      ensures result.Ok? ==>
                && db.outbox[event.outboxId].published.Some?
                && db.outbox[event.outboxId].published.value.message == result.value
                && result.value < |db.stream| && db.stream[result.value] == Message(event.taskId, event.generation)
    {
      if addFails {
        return Err(RedisError);
      }
      var message := AddEntry(event);
      var owned := MarkRow(event, message);
      return if owned then Ok(message) else Err(ClaimLost);
    }

    method RecordFailure(event: ClaimedEvent)
      requires db.Valid()
      modifies db
      ensures db.Valid() && db.history == Then(old(db.history), Action.RecordFailure(event))
      ensures db.Rows() == old(db.Rows()).(outbox := db.outbox)
      // the claim goes exactly if it is the event's and the row is unpublished
      ensures if && event.outboxId in old(db.outbox) && old(db.outbox)[event.outboxId].published.None?
                 && old(db.outbox)[event.outboxId].claim.Some?
                 && old(db.outbox)[event.outboxId].claim.value.token == event.token
              then db.outbox == old(db.outbox)[event.outboxId := old(db.outbox)[event.outboxId].(claim := None)]
              else db.outbox == old(db.outbox)
    {
      if HoldsClaim(db.Rows(), event) {
        db.outbox := db.outbox[event.outboxId := db.outbox[event.outboxId].(claim := None)];
      }
      db.history := Then(db.history, Action.RecordFailure(event));
    }

    // addFails tells for which events the stream refuses the entry.
    method DispatchReady(batch: int, locked: set<nat>, token: nat, addFails: set<nat>)
      returns (dispatched: Result<nat, Refusal>, ghost published: seq<nat>, ghost claimed: seq<nat>)
      requires db.Valid() && claimSeconds > 0.0
      modifies db
      ensures db.Valid() && Extends(old(db.history), db.history)
      ensures dispatched.Err? <==> batch <= 0
      ensures dispatched.Ok? ==>
                && dispatched.value == |published| <= batch
                && Distinct(published)
                && TakesMostUrgent(old(db.Rows()), claimed, batch, locked)
                && (forall o <- published :: o in claimed && o !in addFails && IsPublished(db.Rows(), o))
                && (forall o <- claimed ::
                      o !in addFails ==>
                        o in db.outbox && Message(db.outbox[o].taskId, db.outbox[o].generation) in db.stream)
    {
      published := [];
      var claim := ClaimReady(batch, locked, token);
      if claim.Err? {
        return Err(claim.error), [], [];
      }
      ghost var rows := ReadyRows(old(db.Rows()), batch, locked);
      RowsAreReady(old(db.Rows()), batch, locked);
      ReadyRowsAreMostUrgent(old(db.Rows()), batch, locked);
      var count;
      count, published := DispatchEach(claim.value, addFails, old(db.history), rows);
      return Ok(count), published, rows;
    }

    // The dispatch loop over the events claimed for the rows.
    method DispatchEach(events: seq<ClaimedEvent>, addFails: set<nat>, ghost r0: Run, ghost rows: seq<nat>)
      returns (count: nat, ghost published: seq<nat>)
      requires db.Valid() && Distinct(rows) && Dispatching(r0, db.history, rows, events, addFails, [], 0)
      modifies db
      ensures db.Valid() && Extends(r0, db.history)
      ensures count == |published| <= |rows| && Distinct(published)
      ensures forall o <- published :: o in rows && o !in addFails && IsPublished(db.Rows(), o)
      ensures forall o <- rows ::
                o !in addFails ==>
                  o in db.outbox && Message(db.outbox[o].taskId, db.outbox[o].generation) in db.stream
    {
      count, published := 0, [];
      for i := 0 to |events|
        invariant db.Valid() && Dispatching(r0, db.history, rows, events, addFails, published, i)
        invariant count == |published|
      {
        var ok := DispatchOne(events[i], addFails, r0, rows, events, published, i);
        if ok {
          count := count + 1;
          published := published + [rows[i]];
        }
      }
      TakeAll(rows);
      AllOnStream(r0, db.history, rows, events, addFails, published);
    }

    static lemma AllOnStream(r0: Run, r: Run, rows: seq<nat>, events: seq<ClaimedEvent>, addFails: set<nat>,
                             published: seq<nat>)
      requires Dispatching(r0, r, rows, events, addFails, published, |rows|)
      ensures forall o <- rows :: o !in addFails ==>
                var s := After(r); o in s.outbox && Message(s.outbox[o].taskId, s.outbox[o].generation) in s.stream
    {
      forall o <- rows | o !in addFails
        ensures var s := After(r); o in s.outbox && Message(s.outbox[o].taskId, s.outbox[o].generation) in s.stream
      {
        var j :| 0 <= j < |rows| && rows[j] == o;
        assert Dispatchable(After(r), events[j]) && OnStream(After(r), events[j]);
      }
    }

    // One turn of the dispatch loop.
    method DispatchOne(event: ClaimedEvent, addFails: set<nat>, ghost r0: Run, ghost rows: seq<nat>,
                       ghost events: seq<ClaimedEvent>, ghost published: seq<nat>, ghost i: nat) returns (ok: bool)
      requires db.Valid() && Distinct(rows) && i < |rows|
      requires Dispatching(r0, db.history, rows, events, addFails, published, i) && event == events[i]
      modifies db
      ensures db.Valid()
      ensures Dispatching(r0, db.history, rows, events, addFails, if ok then published + [rows[i]] else published,
                          i + 1)
    {
      ghost var r := db.history;
      db.Interfere();
      Carry(r0, r, db.history, rows, events, addFails, published, i);
      r := db.history;
      var result := PublishClaimed(event, event.outboxId in addFails);
      Carry(r0, r, db.history, rows, events, addFails, published, i);
      ok := result.Ok?;
      if ok {
        OneMorePublished(r0, db.history, rows, events, addFails, published, i);
      } else {
        r := db.history;
        RecordFailure(event);
        Carry(r0, r, db.history, rows, events, addFails, published, i);
        NextEvent(r0, db.history, rows, events, addFails, published, i);
      }
    }

    static lemma TakeSnoc(rows: seq<nat>, i: nat)
      requires i < |rows|
      ensures rows[..i + 1] == rows[..i] + [rows[i]]
    {}

    static lemma TakeAll(rows: seq<nat>)
      ensures rows[..|rows|] == rows
    {}

    static lemma NextEvent(r0: Run, r: Run, rows: seq<nat>, events: seq<ClaimedEvent>, addFails: set<nat>,
                           published: seq<nat>, i: nat)
      requires Dispatching(r0, r, rows, events, addFails, published, i) && i < |rows|
      requires rows[i] !in addFails ==> OnStream(After(r), events[i])
      ensures Dispatching(r0, r, rows, events, addFails, published, i + 1)
    {
      StillPublished(After(r), rows, addFails, published, i);
    }

    static lemma StillPublished(s: Store, rows: seq<nat>, addFails: set<nat>, published: seq<nat>, i: nat)
      requires i < |rows| && AllPublished(s, rows, addFails, published, i)
      ensures AllPublished(s, rows, addFails, published, i + 1)
    {
      assert rows[..i + 1] == rows[..i] + [rows[i]];
    }

    static lemma PublishedToo(s: Store, rows: seq<nat>, addFails: set<nat>, published: seq<nat>, i: nat)
      requires i < |rows| && Distinct(rows) && AllPublished(s, rows, addFails, published, i)
      requires IsPublished(s, rows[i]) && rows[i] !in addFails
      ensures AllPublished(s, rows, addFails, published + [rows[i]], i + 1)
    {
      assert rows[..i + 1] == rows[..i] + [rows[i]];
      assert rows[i] !in rows[..i];
    }

    static lemma OneMorePublished(r0: Run, r: Run, rows: seq<nat>, events: seq<ClaimedEvent>, addFails: set<nat>,
                                  published: seq<nat>, i: nat)
      requires Dispatching(r0, r, rows, events, addFails, published, i) && i < |rows|
      requires Distinct(rows) && IsPublished(After(r), rows[i]) && OnStream(After(r), events[i]) && rows[i] !in addFails
      ensures Dispatching(r0, r, rows, events, addFails, published + [rows[i]], i + 1)
    {
      PublishedToo(After(r), rows, addFails, published, i);
    }

    static lemma PublishedStay(s: Store, s': Store, rows: seq<nat>, addFails: set<nat>, published: seq<nat>, i: nat)
      requires i <= |rows| && AllPublished(s, rows, addFails, published, i) && OutboxEvolves(s.outbox, s'.outbox)
      ensures AllPublished(s', rows, addFails, published, i)
    {}

    // What the dispatch loop knows survives any continuation of the run.
    static lemma Carry(r0: Run, r: Run, r': Run, rows: seq<nat>, events: seq<ClaimedEvent>, addFails: set<nat>,
                       published: seq<nat>, i: nat)
      requires Legal(r') && Extends(r, r') && Dispatching(r0, r, rows, events, addFails, published, i)
      ensures Dispatching(r0, r', rows, events, addFails, published, i)
    {
      ExtendsTransitive(r0, r, r');
      RunEvolvesOutbox(r, r');
      PublishedStay(After(r), After(r'), rows, addFails, published, i);
      forall j | 0 <= j < |events| ensures Dispatchable(After(r'), events[j]) {
        DispatchableForever(r, r', events[j]);
      }
      forall j | 0 <= j < i && rows[j] !in addFails ensures OnStream(After(r'), events[j]) {
        OnStreamForever(r, r', events[j]);
      }
    }
  }
}
