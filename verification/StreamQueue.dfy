// RedisStreamQueue: the worker's side of the stream.
module StreamQueue {
  import opened Tables
  import opened Protocol
  import opened Database

  datatype Delivery = Delivery(message: nat, taskId: nat, generation: nat)

  // The delivery is an entry of the stream that some consumer was given.
  ghost predicate Genuine(s: Store, d: Delivery) {
    d.message < s.delivered && d.message < |s.stream| && s.stream[d.message] == Message(d.taskId, d.generation)
  }

  // A genuine delivery that the pending list now ascribes to the consumer, fresh.
  ghost predicate HandedTo(s: Store, d: Delivery, consumer: string) {
    Genuine(s, d) && d.message in s.pending && s.pending[d.message] == PendingEntry(consumer, s.now)
  }

  class RedisStreamQueue {
    const db: Database

    constructor (db: Database)
      ensures this.db == db
    {
      this.db := db;
    }

    // XREADGROUP with ">": the next entries nobody was given yet, oldest first.
    method ReadNew(consumer: string, count: nat) returns (deliveries: seq<Delivery>)
      requires db.Valid()
      modifies db
      ensures db.Valid() && db.history == Then(old(db.history), Action.ReadNew(consumer, count))
      ensures db.delivered == old(db.delivered) + |deliveries|
      ensures |deliveries| == count || (|deliveries| < count && db.delivered == |db.stream|)
      ensures forall i | 0 <= i < |deliveries| ::
                deliveries[i].message == old(db.delivered) + i && HandedTo(db.Rows(), deliveries[i], consumer)
      ensures db.Rows() == old(db.Rows()).(delivered := db.delivered, pending := db.pending)
      ensures forall m <- old(db.pending) :: m in db.pending && db.pending[m] == old(db.pending)[m]
      ensures db.pending.Keys == old(db.pending).Keys + set i | 0 <= i < |deliveries| :: deliveries[i].message
    {
      db.GroupFacts();
      ghost var before := db.Rows();
      var first, upTo := TakeNew(consumer, count);
      db.history := Then(db.history, Action.ReadNew(consumer, count));
      ReadFacts(before, consumer, count, upTo);
      deliveries := DescribeNew(first, upTo, consumer);
      ReadKeys(before, db.Rows(), first, upTo, deliveries);
    }

    method TakeNew(consumer: string, count: nat) returns (first: nat, upTo: nat)
      requires db.delivered <= |db.stream|
      modifies db`pending, db`delivered
      ensures db.Rows() == Read(old(db.Rows()), consumer, count)
      ensures first == old(db.delivered)
      ensures upTo == db.delivered == if first + count < |db.stream| then first + count else |db.stream|
    {
      first := db.delivered;
      upTo := if first + count < |db.stream| then first + count else |db.stream|;
      db.pending := Read(db.Rows(), consumer, count).pending;
      db.delivered := upTo;
    }

    static lemma ReadFacts(s: Store, consumer: string, count: nat, upTo: nat)
      requires s.delivered <= |s.stream| && forall m <- s.pending :: m < s.delivered
      requires upTo == if s.delivered + count < |s.stream| then s.delivered + count else |s.stream|
      ensures var s' := Read(s, consumer, count);
              && s' == s.(delivered := upTo, pending := s'.pending)
              && (forall m <- s.pending :: m in s'.pending && s'.pending[m] == s.pending[m])
              && (forall m | s.delivered <= m < upTo ::
                    m in s'.pending && s'.pending[m] == PendingEntry(consumer, s.now))
              && s'.pending.Keys == s.pending.Keys + Positions(s.delivered, upTo)
    {}

    method DescribeNew(first: nat, upTo: nat, consumer: string) returns (deliveries: seq<Delivery>)
      requires first <= upTo == db.delivered <= |db.stream|
      requires forall m | first <= m < upTo :: m in db.pending && db.pending[m] == PendingEntry(consumer, db.now)
      ensures |deliveries| == upTo - first
      ensures forall i | 0 <= i < |deliveries| ::
                deliveries[i].message == first + i && HandedTo(db.Rows(), deliveries[i], consumer)
    {
      deliveries := [];
      for m := first to upTo
        invariant |deliveries| == m - first
        invariant forall i | 0 <= i < |deliveries| ::
                    deliveries[i].message == first + i && HandedTo(db.Rows(), deliveries[i], consumer)
      {
        deliveries := deliveries + [Delivery(m, db.stream[m].taskId, db.stream[m].generation)];
      }
    }

    static lemma ReadKeys(s: Store, s': Store, first: nat, upTo: nat, deliveries: seq<Delivery>)
      requires |deliveries| == upTo - first && forall i | 0 <= i < |deliveries| :: deliveries[i].message == first + i
      requires s'.pending.Keys == s.pending.Keys + Positions(first, upTo)
      ensures s'.pending.Keys == s.pending.Keys + set i | 0 <= i < |deliveries| :: deliveries[i].message
    {
      var messages := set i | 0 <= i < |deliveries| :: deliveries[i].message;
      forall m ensures m in messages <==> m in Positions(first, upTo) {
        if first <= m < upTo {
          assert deliveries[m - first].message == m;
        }
      }
    }

    // The reply lists entries that are now the consumer's, in the given order.
    method Describe(messages: seq<nat>, consumer: string) returns (deliveries: seq<Delivery>)
      requires db.delivered <= |db.stream|
      requires forall i | 0 <= i < |messages| ::
                 messages[i] < db.delivered && messages[i] in db.pending &&
                   db.pending[messages[i]] == PendingEntry(consumer, db.now)
      ensures |deliveries| == |messages|
      ensures forall i | 0 <= i < |messages| ::
                deliveries[i].message == messages[i] && HandedTo(db.Rows(), deliveries[i], consumer)
    {
      deliveries := [];
      for i := 0 to |messages|
        invariant |deliveries| == i
        invariant forall j | 0 <= j < i ::
                    deliveries[j].message == messages[j] && HandedTo(db.Rows(), deliveries[j], consumer)
      {
        var Message(taskId, generation) := db.stream[messages[i]];
        deliveries := deliveries + [Delivery(messages[i], taskId, generation)];
      }
    }

    // XAUTOCLAIM: the server picks pending entries that have been idle long enough.
    method Reclaim(consumer: string, minIdle: real, count: nat, picked: seq<nat>) returns (deliveries: seq<Delivery>)
      requires db.Valid()
      requires |picked| <= count
      requires forall m <- picked :: m in db.pending && db.pending[m].idleSince + minIdle <= db.now
      modifies db
      ensures db.Valid()
      ensures db.history == Then(old(db.history), Action.Reclaim(consumer, minIdle, set m | m in picked))
      ensures |deliveries| == |picked|
      ensures forall i | 0 <= i < |picked| ::
                deliveries[i].message == picked[i] && HandedTo(db.Rows(), deliveries[i], consumer)
      ensures forall m <- old(db.pending) :: m in db.pending && (m in picked || db.pending[m] == old(db.pending)[m])
    {
      db.GroupFacts();
      db.pending := TakeOver(db.Rows(), consumer, set m | m in picked).pending;
      db.history := Then(db.history, Action.Reclaim(consumer, minIdle, set m | m in picked));
      assert forall i | 0 <= i < |picked| :: picked[i] in picked;
      deliveries := Describe(picked, consumer);
    }

    // XCLAIM of one entry with no minimum idle time; entries no longer pending are not claimed.
    method Touch(consumer: string, message: nat) returns (touched: bool)
      requires db.Valid()
      modifies db
      ensures db.Valid() && db.history == Then(old(db.history), Action.Touch(consumer, message))
      ensures touched <==> message in old(db.pending)
      ensures db.Rows() == old(db.Rows()).(pending := db.pending) && db.pending.Keys == old(db.pending).Keys
      ensures forall m <- db.pending ::
                db.pending[m] == if m == message then PendingEntry(consumer, db.now) else old(db.pending)[m]
    {
      ghost var before := db.Rows();
      touched := message in db.pending;
      if touched {
        db.pending := db.pending[message := PendingEntry(consumer, db.now)];
      }
      db.history := Then(db.history, Action.Touch(consumer, message));
      assert db.pending == TakeOver(before, consumer, {message}).pending;
    }

    method Ack(message: nat)
      requires db.Valid()
      requires message < |db.stream|
      requires Settled(db.tasks, db.stream[message].taskId, db.stream[message].generation)
      modifies db
      ensures db.Valid() && db.history == Then(old(db.history), Action.Ack(message))
      ensures db.Rows() == old(db.Rows()).(pending := old(db.pending) - {message})
    {
      db.pending := db.pending - {message};
      db.history := Then(db.history, Action.Ack(message));
    }
  }
}
