// What delivering a batch again leaves when records carry no capture time, or when others persist in between.
module Interleaving {
  import opened Absorption
  import opened Collector
  import opened FeedTables
  import opened Folding
  import opened Options
  import opened Persistence

  // ---- looking at some columns only ----

  // Everything but the times; what the newest record decides; what it decides, but the times.
  datatype Aspect = Untimed | Newest | NewestUntimed

  // A tweet's id is its key.
  function RowThrough(a: Aspect, row: FeedRow): FeedRow {
    match a
    case Untimed => row.(ingestedAt := 0, firstSeenAt := 0, lastSeenAt := 0)
    case Newest => row.(tweetId := "", ingestedAt := 0, firstSeenAt := 0, sourceCreatedAt := None)
    case NewestUntimed =>
      row.(tweetId := "", ingestedAt := 0, firstSeenAt := 0, sourceCreatedAt := None, lastSeenAt := 0)
  }

  // The newest record decides nothing about an observation but that there is one.
  function SeenThrough(a: Aspect, o: Seen): Seen {
    if a.Untimed? then o.(capturedAt := 0) else Observation("", 0, 0, 0, Provenance(None, None, None, None))
  }

  function FeedThrough(a: Aspect, feed: map<string, FeedRow>): map<string, FeedRow> {
    map t | t in feed :: RowThrough(a, feed[t])
  }

  function Through(a: Aspect, v: View): View {
    View(FeedThrough(a, v.feed), map k | k in v.observations :: SeenThrough(a, v.observations[k]))
  }

  lemma MergeThrough(a: Aspect, row: FeedRow, excluded: FeedRow)
    ensures RowThrough(a, Merge(row, excluded)) == Merge(RowThrough(a, row), RowThrough(a, excluded))
  {}

  lemma FeedsThrough(a: Aspect, feed: map<string, FeedRow>, other: map<string, FeedRow>)
    ensures FeedThrough(a, MergeFeeds(feed, other)) == MergeFeeds(FeedThrough(a, feed), FeedThrough(a, other))
  {
    var left, right := FeedThrough(a, MergeFeeds(feed, other)), MergeFeeds(FeedThrough(a, feed), FeedThrough(a, other));
    forall t ensures Lookup(left, t) == Lookup(right, t) {
      if t in feed && t in other {
        MergeThrough(a, feed[t], other[t]);
      }
    }
    SameLookups(left, right);
  }

  lemma CombineThrough(a: Aspect, v: View, w: View)
    ensures Through(a, Combine(v, w)) == Combine(Through(a, v), Through(a, w))
  {
    FeedsThrough(a, v.feed, w.feed);
    assert Through(a, Combine(v, w)).observations == Through(a, w).observations + Through(a, v).observations;
  }

  // The clock is not among the columns looked at.
  predicate ClockFree(a: Aspect, items: seq<Item>, parse: Parser) {
    a.Newest? ==> Timed(items, parse)
  }

  lemma ItemThrough(a: Aspect, item: Item, doc: Document, origin: Origin, now: Time, other: Time, fns: TextFunctions)
    requires a.Newest? ==> doc.capturedAt.Some?
    ensures Through(a, ItemView(item, doc, origin, now, fns)) == Through(a, ItemView(item, doc, origin, other, fns))
  {}

  ghost function Batch(items: seq<Item>, parse: Parser, origin: Origin, clock: Clock, fns: TextFunctions): View {
    Total(BatchViews(items, parse, origin, clock, fns))
  }

  lemma {:induction false} BatchThrough(a: Aspect, items: seq<Item>, parse: Parser, origin: Origin, clock: Clock,
                                        other: Clock, fns: TextFunctions)
    requires ClockFree(a, items, parse)
    ensures Through(a, Batch(items, parse, origin, clock, fns)) == Through(a, Batch(items, parse, origin, other, fns))
  {
    if items == [] {
    } else {
      var n := |items| - 1;
      assert items[..n + 1] == items && items[n] in items;
      BatchThrough(a, items[..n], parse, origin, clock, other, fns);
      OneMoreItem(NOTHING, items, n, parse, origin, clock, fns);
      OneMoreItem(NOTHING, items, n, parse, origin, other, fns);
      var doc := parse(items[n].body);
      if doc.Some? {
        ItemThrough(a, items[n], doc.value, origin, clock(n), other(n), fns);
        CombineThrough(a, Batch(items[..n], parse, origin, clock, fns),
                       ItemView(items[n], doc.value, origin, clock(n), fns));
        CombineThrough(a, Batch(items[..n], parse, origin, other, fns),
                       ItemView(items[n], doc.value, origin, other(n), fns));
      }
    }
  }

  // A part of the batch is its beginning, whatever the clock said then.
  lemma PartThrough(a: Aspect, items: seq<Item>, upTo: nat, parse: Parser, origin: Origin, clock: Clock, other: Clock,
                    fns: TextFunctions)
    returns (rest: View)
    requires upTo <= |items| && ClockFree(a, items, parse)
    ensures Through(a, Batch(items, parse, origin, clock, fns))
         == Combine(Through(a, Batch(items[..upTo], parse, origin, other, fns)), rest)
  {
    var all, part := BatchViews(items, parse, origin, clock, fns), BatchViews(items[..upTo], parse, origin, clock, fns);
    PartOfBatch(items, upTo, parse, origin, clock, fns);
    var more := all[|part|..];
    assert all == part + more;
    FoldAppend(Combine, NOTHING, part, more);
    PersistedIsTotal(Total(part), more);
    CombineThrough(a, Total(part), Total(more));
    assert forall item <- items[..upTo] :: item in items;
    BatchThrough(a, items[..upTo], parse, origin, clock, other, fns);
    rest := Through(a, Total(more));
  }

  // ---- what happens before the last pass ----

  // A pass of this batch, or whatever others persist.
  datatype Event = Delivered(pass: Pass) | Other(view: View)

  ghost function AfterEvents(v: View, items: seq<Item>, events: seq<Event>, parse: Parser, origin: Origin,
                             fns: TextFunctions): View
  {
    if events == [] then v
    else
      var before := AfterEvents(v, items, events[..|events| - 1], parse, origin, fns);
      match events[|events| - 1]
      case Delivered(pass) =>
        if pass.upTo <= |items| then Persisted(before, BatchViews(items[..pass.upTo], parse, origin, pass.clock, fns))
        else before
      case Other(view) => Combine(before, view)
  }

  function OthersOnly(events: seq<Event>): seq<View> {
    if events == [] then []
    else
      OthersOnly(events[..|events| - 1]) +
      match events[|events| - 1]
      case Delivered(_) => []
      case Other(view) => [view]
  }

  lemma OneMoreOther(v: View, events: seq<Event>)
    requires events != []
    ensures var before, last := events[..|events| - 1], events[|events| - 1];
            Persisted(v, OthersOnly(events))
            == if last.Other? then Combine(Persisted(v, OthersOnly(before)), last.view)
               else Persisted(v, OthersOnly(before))
  {
    var before, last := OthersOnly(events[..|events| - 1]), events[|events| - 1];
    if last.Other? {
      assert (before + [last.view])[..|before|] == before;
    } else {
      assert before + [] == before;
    }
  }

  // ---- the newest record decides ----

  lemma NewestRowOverrides(a: Aspect, p: FeedRow, y: FeedRow)
    requires !a.Untimed?
    ensures var p', y' := RowThrough(a, p), RowThrough(a, y); Merge(p', Merge(y', p')) == Merge(y', p')
  {}

  lemma NewestFeedOverrides(a: Aspect, p: map<string, FeedRow>, y: map<string, FeedRow>)
    requires !a.Untimed?
    ensures var p', y' := FeedThrough(a, p), FeedThrough(a, y);
            MergeFeeds(p', MergeFeeds(y', p')) == MergeFeeds(y', p')
  {
    var p', y' := FeedThrough(a, p), FeedThrough(a, y);
    forall t ensures Lookup(MergeFeeds(p', MergeFeeds(y', p')), t) == Lookup(MergeFeeds(y', p'), t) {
      MergedLookup(p', MergeFeeds(y', p'), t);
      MergedLookup(y', p', t);
      JoinIsABand(Lookup(p', t), Lookup(p', t), Lookup(p', t));
      if t in p && t in y {
        NewestRowOverrides(a, p[t], y[t]);
      }
    }
    SameLookups(MergeFeeds(p', MergeFeeds(y', p')), MergeFeeds(y', p'));
  }

  lemma NewestOverrides(a: Aspect, p: View, y: View)
    requires !a.Untimed?
    ensures Combine(Through(a, p), Combine(Through(a, y), Through(a, p))) == Combine(Through(a, y), Through(a, p))
  {
    var p', y' := Through(a, p), Through(a, y);
    NewestFeedOverrides(a, p.feed, y.feed);
    assert (p'.observations + y'.observations) + p'.observations == p'.observations + y'.observations;
  }

  // An early p makes no difference when what comes in between is overridden by a later p.
  lemma EarlyPartIsDropped(v: View, p: View, y: View, r: View)
    requires Combine(p, Combine(y, p)) == Combine(y, p)
    ensures Combine(Combine(Combine(v, p), y), Combine(p, r)) == Combine(Combine(v, y), Combine(p, r))
  {
    CombineIsABand(Combine(Combine(v, p), y), p, r);
    CombineIsABand(v, p, y);
    CombineIsABand(v, Combine(p, y), p);
    CombineIsABand(p, y, p);
    CombineIsABand(v, y, p);
    CombineIsABand(Combine(v, y), p, r);
  }

  lemma CombineThreeThrough(a: Aspect, v: View, y: View, w: View)
    ensures Through(a, Combine(Combine(v, y), w)) == Combine(Combine(Through(a, v), Through(a, y)), Through(a, w))
  {
    CombineThrough(a, Combine(v, y), w);
    CombineThrough(a, v, y);
  }

  // Between a part and the last pass there is nothing, or only what the newest record decides is looked at.
  predicate Droppable(a: Aspect, y: View) {
    a.Untimed? ==> y == NOTHING
  }

  lemma PartIsOverridden(a: Aspect, v: View, y: View, items: seq<Item>, upTo: nat, parse: Parser, origin: Origin,
                         clock: Clock, other: Clock, fns: TextFunctions)
    requires upTo <= |items| && ClockFree(a, items, parse) && Droppable(a, y)
    ensures var w := Batch(items, parse, origin, clock, fns);
            Through(a, Combine(Combine(Combine(v, Batch(items[..upTo], parse, origin, other, fns)), y), w))
            == Through(a, Combine(Combine(v, y), w))
  {
    var w, part := Batch(items, parse, origin, clock, fns), Batch(items[..upTo], parse, origin, other, fns);
    var rest := PartThrough(a, items, upTo, parse, origin, clock, other, fns);
    var p, y' := Through(a, part), Through(a, y);
    if a.Untimed? {
      assert y' == NOTHING;
      CombineIsABand(p, p, p);
    } else {
      NewestOverrides(a, part, y);
    }
    EarlyPartIsDropped(Through(a, v), p, y', rest);
    CombineThreeThrough(a, Combine(v, part), y, w);
    CombineThrough(a, v, part);
    CombineThreeThrough(a, v, y, w);
  }

  // Only what others persisted matters, when something of theirs may still follow.
  lemma {:induction false} EventsAreOverridden(a: Aspect, v: View, y: View, items: seq<Item>, events: seq<Event>,
                                               parse: Parser, origin: Origin, clock: Clock, fns: TextFunctions)
    requires ClockFree(a, items, parse) && Droppable(a, y) && (a.Untimed? ==> OthersOnly(events) == [])
    ensures var w := Batch(items, parse, origin, clock, fns);
            Through(a, Combine(Combine(AfterEvents(v, items, events, parse, origin, fns), y), w))
            == Through(a, Combine(Combine(Persisted(v, OthersOnly(events)), y), w))
    decreases |events|
  {
    if events == [] {
    } else {
      var rest := events[..|events| - 1];
      var before := AfterEvents(v, items, rest, parse, origin, fns);
      OneMoreOther(v, events);
      match events[|events| - 1]
      case Other(view) =>
        EventsAreOverridden(a, v, Combine(view, y), items, rest, parse, origin, clock, fns);
        CombineIsABand(before, view, y);
        CombineIsABand(Persisted(v, OthersOnly(rest)), view, y);
      case Delivered(pass) =>
        EventsAreOverridden(a, v, y, items, rest, parse, origin, clock, fns);
        if pass.upTo <= |items| {
          PersistedIsTotal(before, BatchViews(items[..pass.upTo], parse, origin, pass.clock, fns));
          PartIsOverridden(a, before, y, items, pass.upTo, parse, origin, clock, pass.clock, fns);
        }
    }
  }

  lemma LastPassDecides(a: Aspect, v: View, items: seq<Item>, events: seq<Event>, parse: Parser, origin: Origin,
                        clock: Clock, single: Clock, fns: TextFunctions)
    requires ClockFree(a, items, parse) && (a.Untimed? ==> OthersOnly(events) == [])
    ensures Through(a, Persisted(AfterEvents(v, items, events, parse, origin, fns),
                                 BatchViews(items, parse, origin, clock, fns)))
            == Through(a, Persisted(Persisted(v, OthersOnly(events)), BatchViews(items, parse, origin, single, fns)))
  {
    var after, others := AfterEvents(v, items, events, parse, origin, fns), Persisted(v, OthersOnly(events));
    var w, w' := Batch(items, parse, origin, clock, fns), Batch(items, parse, origin, single, fns);
    EventsAreOverridden(a, v, NOTHING, items, events, parse, origin, clock, fns);
    CombineIsABand(after, after, after);
    CombineIsABand(others, others, others);
    PersistedIsTotal(after, BatchViews(items, parse, origin, clock, fns));
    PersistedIsTotal(others, BatchViews(items, parse, origin, single, fns));
    BatchThrough(a, items, parse, origin, clock, single, fns);
    CombineThrough(a, others, w);
    CombineThrough(a, others, w');
  }

  // Whether or not records say when they were captured: any number of interrupted passes and a complete one leave what
  // one complete pass leaves, but for the times of the tweets and the capture times of the observations.
  lemma RedeliveryUpToTimes(v: View, items: seq<Item>, events: seq<Event>, parse: Parser, origin: Origin, clock: Clock,
                            single: Clock, fns: TextFunctions)
    requires OthersOnly(events) == []
    ensures Through(Untimed, Persisted(AfterEvents(v, items, events, parse, origin, fns),
                                       BatchViews(items, parse, origin, clock, fns)))
            == Through(Untimed, Persisted(v, BatchViews(items, parse, origin, single, fns)))
  {
    LastPassDecides(Untimed, v, items, events, parse, origin, clock, single, fns);
  }

  // Others may persist anything between the passes: text, hash, counters, conversation, last-seen time and the set of
  // observations are as if all the others had come first and then one pass; without capture times the last-seen
  // time is not.
  lemma InterleavedRedelivery(v: View, items: seq<Item>, events: seq<Event>, parse: Parser, origin: Origin,
                              clock: Clock, single: Clock, fns: TextFunctions)
    ensures var after := Persisted(AfterEvents(v, items, events, parse, origin, fns),
                                   BatchViews(items, parse, origin, clock, fns));
            var atOnce := Persisted(Persisted(v, OthersOnly(events)), BatchViews(items, parse, origin, single, fns));
            && Through(NewestUntimed, after) == Through(NewestUntimed, atOnce)
            && (Timed(items, parse) ==> Through(Newest, after) == Through(Newest, atOnce))
  {
    LastPassDecides(NewestUntimed, v, items, events, parse, origin, clock, single, fns);
    if Timed(items, parse) {
      LastPassDecides(Newest, v, items, events, parse, origin, clock, single, fns);
    }
  }

  // ---- the first record decides ----

  // The columns that are written once, and the observations.
  predicate SameFirsts(v: View, w: View) {
    && v.observations == w.observations
    && v.feed.Keys == w.feed.Keys
    && forall t <- v.feed ::
         && v.feed[t].ingestedAt == w.feed[t].ingestedAt
         && v.feed[t].firstSeenAt == w.feed[t].firstSeenAt
         && v.feed[t].sourceCreatedAt == w.feed[t].sourceCreatedAt
  }

  // Nothing in p is a first any more.
  predicate Covers(v: View, p: View) {
    && p.observations.Keys <= v.observations.Keys
    && p.feed.Keys <= v.feed.Keys
    && forall t <- p.feed :: p.feed[t].sourceCreatedAt.Some? ==> v.feed[t].sourceCreatedAt.Some?
  }

  lemma CoveredSettlesNothing(v: View, p: View)
    requires Covers(v, p)
    ensures SameFirsts(Combine(v, p), v)
  {
    assert Combine(v, p).observations == v.observations;
  }

  lemma SameFirstsCombine(v: View, w: View, x: View)
    requires SameFirsts(v, w)
    ensures SameFirsts(Combine(v, x), Combine(w, x))
  {}

  lemma CoversForever(v: View, p: View, x: View)
    requires Covers(v, p)
    ensures Covers(Combine(v, x), p)
  {}

  lemma BatchCovers(v: View, items: seq<Item>, upTo: nat, parse: Parser, origin: Origin, clock: Clock, other: Clock,
                    fns: TextFunctions)
    requires upTo <= |items|
    ensures Covers(Combine(v, Batch(items, parse, origin, clock, fns)),
                   Batch(items[..upTo], parse, origin, other, fns))
  {
    var w, p := Batch(items, parse, origin, clock, fns), Batch(items[..upTo], parse, origin, other, fns);
    var rest := PartThrough(Untimed, items, upTo, parse, origin, clock, other, fns);
    CoversThrough(w, p, rest);
  }

  lemma CoversThrough(w: View, p: View, rest: View)
    requires Through(Untimed, w) == Combine(Through(Untimed, p), rest)
    ensures Covers(w, p)
  {
    var w', p' := Through(Untimed, w), Through(Untimed, p);
    forall k <- p.observations ensures k in w.observations {
      assert k in p'.observations && k in w'.observations;
    }
    forall t <- p.feed ensures t in w.feed && (p.feed[t].sourceCreatedAt.Some? ==> w.feed[t].sourceCreatedAt.Some?) {
      assert t in p'.feed && t in w'.feed;
      assert w'.feed[t].sourceCreatedAt == w.feed[t].sourceCreatedAt;
    }
  }

  lemma {:induction false} EventsGrow(v: View, items: seq<Item>, events: seq<Event>, parse: Parser, origin: Origin,
                                      fns: TextFunctions)
    ensures Grows(v, AfterEvents(v, items, events, parse, origin, fns))
  {
    if events == [] {
      GrowsReflexive(v);
    } else {
      var rest, last := events[..|events| - 1], events[|events| - 1];
      var before := AfterEvents(v, items, rest, parse, origin, fns);
      EventsGrow(v, items, rest, parse, origin, fns);
      if last.Other? {
        assert Grows(before, Combine(before, last.view));
      } else if last.pass.upTo <= |items| {
        PersistedIsTotal(before, BatchViews(items[..last.pass.upTo], parse, origin, last.pass.clock, fns));
      } else {
        GrowsReflexive(before);
      }
      GrowsTransitive(v, before, AfterEvents(v, items, events, parse, origin, fns));
    }
  }

  // After a complete pass no further pass of the batch changes a first-kept column or an observation, whatever others
  // persist in between.
  lemma {:induction false} FirstsAreSettled(v: View, items: seq<Item>, events: seq<Event>, parse: Parser,
                                            origin: Origin, clock: Clock, fns: TextFunctions)
    ensures var w := Persisted(v, BatchViews(items, parse, origin, clock, fns));
            SameFirsts(AfterEvents(w, items, events, parse, origin, fns), Persisted(w, OthersOnly(events)))
    decreases |events|
  {
    var w := Persisted(v, BatchViews(items, parse, origin, clock, fns));
    if events == [] {
    } else {
      var rest := events[..|events| - 1];
      var before := AfterEvents(w, items, rest, parse, origin, fns);
      FirstsAreSettled(v, items, rest, parse, origin, clock, fns);
      OneMoreOther(w, events);
      match events[|events| - 1]
      case Other(view) =>
        SameFirstsCombine(before, Persisted(w, OthersOnly(rest)), view);
      case Delivered(pass) =>
        if pass.upTo <= |items| {
          SettledByFirstPass(v, items, rest, pass, parse, origin, clock, fns);
        }
    }
  }

  lemma SettledByFirstPass(v: View, items: seq<Item>, events: seq<Event>, pass: Pass, parse: Parser, origin: Origin,
                           clock: Clock, fns: TextFunctions)
    requires pass.upTo <= |items|
    ensures var w := Persisted(v, BatchViews(items, parse, origin, clock, fns));
            var before := AfterEvents(w, items, events, parse, origin, fns);
            SameFirsts(Persisted(before, BatchViews(items[..pass.upTo], parse, origin, pass.clock, fns)), before)
  {
    var w := Persisted(v, BatchViews(items, parse, origin, clock, fns));
    var before := AfterEvents(w, items, events, parse, origin, fns);
    var part := Batch(items[..pass.upTo], parse, origin, pass.clock, fns);
    PersistedIsTotal(v, BatchViews(items, parse, origin, clock, fns));
    BatchCovers(v, items, pass.upTo, parse, origin, clock, pass.clock, fns);
    EventsGrow(w, items, events, parse, origin, fns);
    var x :| before == Combine(w, x);
    CoversForever(w, part, x);
    PersistedIsTotal(before, BatchViews(items[..pass.upTo], parse, origin, pass.clock, fns));
    CoveredSettlesNothing(before, part);
  }

  // ---- when a second pass changes nothing at all ----

  // The record is no news for the last-seen time.
  predicate NoNewer(w: View, doc: Option<Document>, at: Time) {
    doc.Some? ==> doc.value.tweetId in w.feed && CaptureTime(doc.value, at) <= w.feed[doc.value.tweetId].lastSeenAt
  }

  ghost predicate SameLastSeen(v: View, w: View) {
    forall t <- v.feed :: t in w.feed && w.feed[t].lastSeenAt == v.feed[t].lastSeenAt
  }

  ghost predicate SeenLater(v: View, w: View) {
    forall t <- v.feed :: t in w.feed && v.feed[t].lastSeenAt <= w.feed[t].lastSeenAt
  }

  // Every record of the pass is of a tweet already there.
  ghost predicate AllKnown(w: View, items: seq<Item>, parse: Parser) {
    forall i | 0 <= i < |items| && parse(items[i].body).Some? :: parse(items[i].body).value.tweetId in w.feed
  }

  ghost predicate NoneNewer(w: View, items: seq<Item>, n: nat, parse: Parser, clock: Clock)
    requires n <= |items|
  {
    forall i | 0 <= i < n :: NoNewer(w, parse(items[i].body), clock(i))
  }

  // The last-seen times moved forward, and not at all exactly if no record so far was newer.
  ghost predicate Moved(w: View, u: View, items: seq<Item>, n: nat, parse: Parser, clock: Clock)
    requires n <= |items|
  {
    SeenLater(w, u) && (SameLastSeen(w, u) <==> NoneNewer(w, items, n, parse, clock))
  }

  lemma {:induction false} LastSeenMoves(w: View, items: seq<Item>, n: nat, parse: Parser, origin: Origin,
                                         clock: Clock, fns: TextFunctions)
    requires n <= |items| && AllKnown(w, items, parse)
    ensures Moved(w, Persisted(w, BatchViews(items[..n], parse, origin, clock, fns)), items, n, parse, clock)
  {
    if n == 0 {
    } else {
      LastSeenMoves(w, items, n - 1, parse, origin, clock, fns);
      OneMoreItem(w, items, n - 1, parse, origin, clock, fns);
      OneMoreMoves(w, Persisted(w, BatchViews(items[..n - 1], parse, origin, clock, fns)),
                   Persisted(w, BatchViews(items[..n], parse, origin, clock, fns)), items, n - 1, parse, origin, clock,
                   fns);
    }
  }

  lemma OneMoreMoves(w: View, u: View, u': View, items: seq<Item>, n: nat, parse: Parser, origin: Origin, clock: Clock,
                     fns: TextFunctions)
    requires n < |items| && AllKnown(w, items, parse) && Moved(w, u, items, n, parse, clock)
    requires var doc := parse(items[n].body);
             u' == if doc.Some? then Combine(u, ItemView(items[n], doc.value, origin, clock(n), fns)) else u
    ensures Moved(w, u', items, n + 1, parse, clock)
  {
    var doc := parse(items[n].body);
    if doc.Some? {
      OneRecordSeen(w, u, items[n], doc.value, origin, clock(n), fns);
    }
    assert NoneNewer(w, items, n + 1, parse, clock)
      <==> NoneNewer(w, items, n, parse, clock) && NoNewer(w, doc, clock(n));
  }

  lemma OneRecordSeen(w: View, u: View, item: Item, doc: Document, origin: Origin, now: Time, fns: TextFunctions)
    requires SeenLater(w, u) && doc.tweetId in w.feed
    ensures var u' := Combine(u, ItemView(item, doc, origin, now, fns));
            && SeenLater(w, u')
            && (SameLastSeen(w, u') <==> SameLastSeen(w, u) && NoNewer(w, Some(doc), now))
  {
    var u' := Combine(u, ItemView(item, doc, origin, now, fns));
    var t := doc.tweetId;
    assert u'.feed[t].lastSeenAt == Max(u.feed[t].lastSeenAt, CaptureTime(doc, now));
    assert forall x <- w.feed :: x != t ==> u'.feed[x] == u.feed[x];
    if SameLastSeen(w, u') {
      forall x <- w.feed ensures u.feed[x].lastSeenAt == w.feed[x].lastSeenAt {
        assert u'.feed[x].lastSeenAt == w.feed[x].lastSeenAt;
      }
    }
  }

  lemma NoNewerForever(w: View, w': View, doc: Option<Document>, at: Time)
    requires SeenLater(w, w') && NoNewer(w, doc, at)
    ensures NoNewer(w', doc, at)
  {}

  lemma RecordIsSeen(w: View, item: Item, doc: Document, origin: Origin, now: Time, fns: TextFunctions)
    ensures var w' := Combine(w, ItemView(item, doc, origin, now, fns));
            SeenLater(w, w') && NoNewer(w', Some(doc), now)
  {}

  lemma OneMoreSeen(w: View, w': View, items: seq<Item>, n: nat, parse: Parser, origin: Origin, clock: Clock,
                    fns: TextFunctions)
    requires n < |items| && NoneNewer(w, items, n, parse, clock)
    requires var doc := parse(items[n].body);
             w' == if doc.Some? then Combine(w, ItemView(items[n], doc.value, origin, clock(n), fns)) else w
    ensures NoneNewer(w', items, n + 1, parse, clock)
  {
    var doc := parse(items[n].body);
    if doc.Some? {
      RecordIsSeen(w, items[n], doc.value, origin, clock(n), fns);
      forall i | 0 <= i < n ensures NoNewer(w', parse(items[i].body), clock(i)) {
        NoNewerForever(w, w', parse(items[i].body), clock(i));
      }
    }
  }

  // After a pass every record of it is known and no news at the time it was persisted.
  lemma {:induction false} PassIsSeen(v: View, items: seq<Item>, n: nat, parse: Parser, origin: Origin, clock: Clock,
                                      fns: TextFunctions)
    requires n <= |items|
    ensures NoneNewer(Persisted(v, BatchViews(items[..n], parse, origin, clock, fns)), items, n, parse, clock)
  {
    if n == 0 {
    } else {
      PassIsSeen(v, items, n - 1, parse, origin, clock, fns);
      OneMoreItem(v, items, n - 1, parse, origin, clock, fns);
      OneMoreSeen(Persisted(v, BatchViews(items[..n - 1], parse, origin, clock, fns)),
                  Persisted(v, BatchViews(items[..n], parse, origin, clock, fns)), items, n - 1, parse, origin, clock,
                  fns);
    }
  }

  lemma SameInEveryColumn(v: View, w: View)
    requires Through(Untimed, v) == Through(Untimed, w) && SameFirsts(v, w) && SameLastSeen(v, w)
    ensures v == w
  {
    forall t <- v.feed ensures v.feed[t] == w.feed[t] {
      assert Through(Untimed, v).feed[t] == Through(Untimed, w).feed[t];
    }
    assert v.feed == w.feed;
  }

  // A record without a capture time is no news at the later time.
  predicate NothingNewer(w: View, doc: Option<Document>, later: Time) {
    doc.Some? && doc.value.capturedAt.None? ==>
      doc.value.tweetId in w.feed && later <= w.feed[doc.value.tweetId].lastSeenAt
  }

  // A second complete pass changes nothing at all exactly when every record without a capture time comes no later
  // than its tweet was last seen.
  lemma BatchAbsorbedExactlyWhen(v: View, items: seq<Item>, parse: Parser, origin: Origin, clock: Clock, later: Clock,
                                 fns: TextFunctions)
    ensures var w := Persisted(v, BatchViews(items, parse, origin, clock, fns));
            Persisted(w, BatchViews(items, parse, origin, later, fns)) == w
            <==> forall i | 0 <= i < |items| :: NothingNewer(w, parse(items[i].body), later(i))
  {
    var w := Persisted(v, BatchViews(items, parse, origin, clock, fns));
    var again := Persisted(w, BatchViews(items, parse, origin, later, fns));
    SecondPass(v, items, parse, origin, clock, later, fns);
    if SameLastSeen(w, again) {
      SameInEveryColumn(w, again);
    }
  }

  lemma SecondPass(v: View, items: seq<Item>, parse: Parser, origin: Origin, clock: Clock, later: Clock,
                   fns: TextFunctions)
    ensures var w := Persisted(v, BatchViews(items, parse, origin, clock, fns));
            var again := Persisted(w, BatchViews(items, parse, origin, later, fns));
            && Through(Untimed, w) == Through(Untimed, again) && SameFirsts(w, again)
            && (SameLastSeen(w, again) <==>
                  forall i | 0 <= i < |items| :: NothingNewer(w, parse(items[i].body), later(i)))
  {
    var w := Persisted(v, BatchViews(items, parse, origin, clock, fns));
    assert items[..|items|] == items;
    SecondPassUpToTimes(v, items, parse, origin, clock, later, fns);
    PassIsSeen(v, items, |items|, parse, origin, clock, fns);
    LastSeenMoves(w, items, |items|, parse, origin, later, fns);
    forall i | 0 <= i < |items|
      ensures NoNewer(w, parse(items[i].body), later(i)) <==> NothingNewer(w, parse(items[i].body), later(i))
    {
      assert NoNewer(w, parse(items[i].body), clock(i));
    }
  }

  lemma SecondPassUpToTimes(v: View, items: seq<Item>, parse: Parser, origin: Origin, clock: Clock, later: Clock,
                            fns: TextFunctions)
    ensures var w := Persisted(v, BatchViews(items, parse, origin, clock, fns));
            var again := Persisted(w, BatchViews(items, parse, origin, later, fns));
            Through(Untimed, w) == Through(Untimed, again) && SameFirsts(w, again)
  {
    var w := Persisted(v, BatchViews(items, parse, origin, clock, fns));
    var first, second := Pass(|items|, clock), Pass(|items|, later);
    OneCompletePass(v, items, first, parse, origin, fns);
    OneCompletePass(w, items, second, parse, origin, fns);
    RedeliveryUpToTimes(v, items, [Delivered(first)], parse, origin, later, clock, fns);
    FirstsAreSettled(v, items, [Delivered(second)], parse, origin, clock, fns);
  }

  lemma OneCompletePass(v: View, items: seq<Item>, pass: Pass, parse: Parser, origin: Origin, fns: TextFunctions)
    requires pass.upTo == |items|
    ensures AfterEvents(v, items, [Delivered(pass)], parse, origin, fns)
         == Persisted(v, BatchViews(items, parse, origin, pass.clock, fns))
    ensures OthersOnly([Delivered(pass)]) == []
  {
    assert items[..|items|] == items;
    assert [Delivered(pass)][..0] == [];
  }
}
