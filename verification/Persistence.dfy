// persist_documents, and what delivering a batch again leaves behind.
module Persistence {
  import opened Absorption
  import opened AnalyticsParser
  import opened Collector
  import opened Counters
  import opened FeedTables
  import opened ObservationKeys
  import opened Options
  import opened Rollups

  // Validation of a collected record: None when it is rejected.
  type Parser = string -> Option<Document>

  // What the clock says when each record is persisted.
  type Clock = nat -> Time

  // The task a batch was collected for.
  datatype Origin = Origin(task: nat, generation: nat)

  function NonEmpty(s: Option<string>): Option<string> {
    if s.Some? && s.value == "" then None else s
  }

  function ProvenanceOf(item: Item, origin: Origin): Provenance {
    Provenance(Some(origin.task), Some(origin.generation), NonEmpty(item.adapter), NonEmpty(item.version))
  }

  function KeyOf(origin: Origin, doc: Document): string {
    TaskObservationKey(origin.task, origin.generation, doc)
  }

  ghost function ItemView(item: Item, doc: Document, origin: Origin, now: Time, fns: TextFunctions): View {
    Single(KeyOf(origin, doc), doc, CaptureTime(doc, now), ProvenanceOf(item, origin), fns)
  }

  // What the accepted records contribute, in order.
  ghost function BatchViews(items: seq<Item>, parse: Parser, origin: Origin, clock: Clock,
                            fns: TextFunctions): seq<View> {
    if items == [] then []
    else
      var n := |items| - 1;
      var doc := parse(items[n].body);
      BatchViews(items[..n], parse, origin, clock, fns) +
      if doc.None? then [] else [ItemView(items[n], doc.value, origin, clock(n), fns)]
  }

  // The first `upTo` records that were accepted are in the feed.
  ghost predicate AllStored(v: View, items: seq<Item>, upTo: nat, parse: Parser, origin: Origin)
    requires upTo <= |items|
  {
    forall i | 0 <= i < upTo :: parse(items[i].body).Some? ==>
      Stored(v, KeyOf(origin, parse(items[i].body).value), parse(items[i].body).value)
  }

  lemma AllStoredForever(v: View, w: View, items: seq<Item>, upTo: nat, parse: Parser, origin: Origin)
    requires upTo <= |items| && Grows(v, w) && AllStored(v, items, upTo, parse, origin)
    ensures AllStored(w, items, upTo, parse, origin)
  {
    forall i | 0 <= i < upTo && parse(items[i].body).Some?
      ensures Stored(w, KeyOf(origin, parse(items[i].body).value), parse(items[i].body).value)
    {
      StoredForever(v, w, KeyOf(origin, parse(items[i].body).value), parse(items[i].body).value);
    }
  }

  // ---- the observation a record leaves ----

  // Under its key: of its tweet, with its own counters and capture time, and who collected it.
  predicate OwnObservation(v: View, item: Item, doc: Document, origin: Origin, now: Time) {
    && KeyOf(origin, doc) in v.observations
    && var o := v.observations[KeyOf(origin, doc)];
    && o.subject == doc.tweetId && o.likes == doc.likes && o.retweets == doc.retweets
    && o.capturedAt == (if doc.capturedAt.Some? then doc.capturedAt.value else now)
    && o.provenance.task == Some(origin.task) && o.provenance.generation == Some(origin.generation)
    && (item.adapter != Some("") ==> o.provenance.adapter == item.adapter)
    && (item.adapter == Some("") ==> o.provenance.adapter == None)
    && (item.version != Some("") ==> o.provenance.version == item.version)
    && (item.version == Some("") ==> o.provenance.version == None)
  }

  // Accepted, and no record accepted before it in the batch is of the same tweet of the same platform.
  predicate FirstOfItsTweet(items: seq<Item>, i: nat, parse: Parser)
    requires i < |items|
  {
    && parse(items[i].body).Some?
    && forall j | 0 <= j < i && parse(items[j].body).Some? ::
         !SameTweet(parse(items[j].body).value, parse(items[i].body).value)
  }

  predicate SameTweet(doc: Document, other: Document) {
    doc.post.platform == other.post.platform && doc.tweetId == other.tweetId
  }

  ghost predicate PlainPlatforms(items: seq<Item>, parse: Parser) {
    forall item <- items :: parse(item.body).Some? ==> ColonFree(parse(item.body).value.post.platform)
  }

  // Nobody else uses the key: either nobody else persists, or not under this key.
  predicate Reserved(key: string, alone: bool, keys: set<string>) {
    alone || key in keys
  }

  // Each of the first n records that is the first of its tweet, and whose key is reserved and was not used before,
  // has left its own observation.
  ghost predicate OwnObservations(before: View, now: View, items: seq<Item>, n: nat, parse: Parser, origin: Origin,
                                  clock: Clock, alone: bool, keys: set<string>)
    requires n <= |items|
  {
    forall i | 0 <= i < n && FirstOfItsTweet(items, i, parse) ::
      var doc := parse(items[i].body).value;
      Reserved(KeyOf(origin, doc), alone, keys) && KeyOf(origin, doc) !in before.observations ==>
        OwnObservation(now, items[i], doc, origin, clock(i))
  }

  // The reserved keys in use are those used before, and those of the records persisted.
  ghost predicate KeysUsed(before: View, now: View, items: seq<Item>, n: nat, parse: Parser, origin: Origin,
                           alone: bool, keys: set<string>)
    requires n <= |items|
  {
    forall k <- now.observations :: Reserved(k, alone, keys) ==>
      k in before.observations || UsedByBatch(k, items, n, parse, origin)
  }

  ghost predicate UsedByBatch(k: string, items: seq<Item>, n: nat, parse: Parser, origin: Origin)
    requires n <= |items|
  {
    exists j | 0 <= j < n :: parse(items[j].body).Some? && KeyOf(origin, parse(items[j].body).value) == k
  }

  // The key of the first record of a tweet is not used by the records before it.
  lemma KeyIsUnused(items: seq<Item>, i: nat, parse: Parser, origin: Origin)
    requires i < |items| && FirstOfItsTweet(items, i, parse) && PlainPlatforms(items, parse)
    ensures !UsedByBatch(KeyOf(origin, parse(items[i].body).value), items, i, parse, origin)
  {
    var doc := parse(items[i].body).value;
    assert items[i] in items;
    forall j | 0 <= j < i && parse(items[j].body).Some?
      ensures KeyOf(origin, parse(items[j].body).value) != KeyOf(origin, doc)
    {
      assert items[j] in items;
      TaskKeysAgreeExactlyWhen(origin.task, origin.generation, parse(items[j].body).value,
                               origin.task, origin.generation, doc);
    }
  }

  // An observation stays whatever is combined later.
  lemma OwnStays(v: View, w: View, item: Item, doc: Document, origin: Origin, now: Time)
    requires Grows(v, w) && OwnObservation(v, item, doc, origin, now)
    ensures OwnObservation(w, item, doc, origin, now)
  {}

  lemma OwnAllStay(before: View, v: View, w: View, items: seq<Item>, n: nat, parse: Parser, origin: Origin,
                   clock: Clock, alone: bool, keys: set<string>)
    requires n <= |items| && Grows(v, w)
    requires OwnObservations(before, v, items, n, parse, origin, clock, alone, keys)
    ensures OwnObservations(before, w, items, n, parse, origin, clock, alone, keys)
  {
    forall i | 0 <= i < n && FirstOfItsTweet(items, i, parse)
      ensures var doc := parse(items[i].body).value;
              Reserved(KeyOf(origin, doc), alone, keys) && KeyOf(origin, doc) !in before.observations ==>
                OwnObservation(w, items[i], doc, origin, clock(i))
    {
      var doc := parse(items[i].body).value;
      if Reserved(KeyOf(origin, doc), alone, keys) && KeyOf(origin, doc) !in before.observations {
        OwnStays(v, w, items[i], doc, origin, clock(i));
      }
    }
  }

  lemma OneMoreOwn(before: View, v: View, w: View, items: seq<Item>, i: nat, parse: Parser, origin: Origin,
                   clock: Clock, alone: bool, keys: set<string>, fns: TextFunctions)
    requires i < |items| && PlainPlatforms(items, parse)
    requires var doc := parse(items[i].body);
             w == if doc.Some? then Combine(v, ItemView(items[i], doc.value, origin, clock(i), fns)) else v
    requires Grows(v, w) && KeysUsed(before, v, items, i, parse, origin, alone, keys)
    requires OwnObservations(before, v, items, i, parse, origin, clock, alone, keys)
    ensures KeysUsed(before, w, items, i + 1, parse, origin, alone, keys)
    ensures OwnObservations(before, w, items, i + 1, parse, origin, clock, alone, keys)
  {
    OwnAllStay(before, v, w, items, i, parse, origin, clock, alone, keys);
    OneMoreKey(before, v, w, items, i, parse, origin, clock, alone, keys, fns);
    if FirstOfItsTweet(items, i, parse) {
      var doc := parse(items[i].body).value;
      var key := KeyOf(origin, doc);
      KeyIsUnused(items, i, parse, origin);
      if Reserved(key, alone, keys) && key !in before.observations {
        assert key !in v.observations;
        LeavesItsOwn(v, items[i], doc, origin, clock(i), fns);
      }
    }
  }

  lemma LeavesItsOwn(v: View, item: Item, doc: Document, origin: Origin, now: Time, fns: TextFunctions)
    requires KeyOf(origin, doc) !in v.observations
    ensures OwnObservation(Combine(v, ItemView(item, doc, origin, now, fns)), item, doc, origin, now)
  {}

  lemma OneMoreKey(before: View, v: View, w: View, items: seq<Item>, i: nat, parse: Parser, origin: Origin,
                   clock: Clock, alone: bool, keys: set<string>, fns: TextFunctions)
    requires i < |items| && KeysUsed(before, v, items, i, parse, origin, alone, keys)
    requires var doc := parse(items[i].body);
             w == if doc.Some? then Combine(v, ItemView(items[i], doc.value, origin, clock(i), fns)) else v
    ensures KeysUsed(before, w, items, i + 1, parse, origin, alone, keys)
  {
    forall k <- w.observations | Reserved(k, alone, keys)
      ensures k in before.observations || UsedByBatch(k, items, i + 1, parse, origin)
    {
      if k in v.observations && k !in before.observations {
        assert UsedByBatch(k, items, i, parse, origin);
      }
    }
  }

  // ---- persisting ----

  // Whether the record was stored.
  method PersistDocument(db: AnalyticsDatabase, parse: Parser, origin: Origin, item: Item, now: Time)
    returns (stored: bool)
    requires db.Valid()
    modifies db
    ensures db.Valid()
    ensures stored <==> parse(item.body).Some?
    ensures db.Contents() ==
            if stored then Combine(old(db.Contents()), ItemView(item, parse(item.body).value, origin, now, db.fns))
            else old(db.Contents())
  {
    var document := parse(item.body);
    if document.None? {
      return false;
    }
    ghost var _ := db.UpsertInsightRecord(document.value,
                                          Some(KeyOf(origin, document.value)), ProvenanceOf(item, origin), now);
    return true;
  }

  lemma OneMoreStored(v: View, w: View, items: seq<Item>, i: nat, parse: Parser, origin: Origin, now: Time,
                      fns: TextFunctions)
    requires i < |items| && AllStored(v, items, i, parse, origin)
    requires var doc := parse(items[i].body);
             w == if doc.Some? then Combine(v, ItemView(items[i], doc.value, origin, now, fns)) else v
    ensures AllStored(w, items, i + 1, parse, origin) && Grows(v, w)
  {
    GrowsReflexive(v);
    AllStoredForever(v, w, items, i, parse, origin);
  }

  // What is known after i records: those accepted are stored and counted, with their observations; if nobody else
  // persisted meanwhile, nothing else happened to the tables.
  ghost predicate Progress(before: View, now: View, items: seq<Item>, i: nat, stored: nat, alone: bool,
                           keys: set<string>, parse: Parser, origin: Origin, clock: Clock, fns: TextFunctions)
  {
    && i <= |items|
    && Grows(before, now)
    && AllStored(now, items, i, parse, origin)
    && stored == |BatchViews(items[..i], parse, origin, clock, fns)|
    && (alone ==> now == Persisted(before, BatchViews(items[..i], parse, origin, clock, fns)))
    && Observing(before, now, items, i, parse, origin, clock, alone, keys)
  }

  ghost predicate Observing(before: View, now: View, items: seq<Item>, i: nat, parse: Parser, origin: Origin,
                            clock: Clock, alone: bool, keys: set<string>)
    requires i <= |items|
  {
    PlainPlatforms(items, parse) ==>
      && KeysUsed(before, now, items, i, parse, origin, alone, keys)
      && OwnObservations(before, now, items, i, parse, origin, clock, alone, keys)
  }

  lemma OtherProcesses(before: View, v: View, w: View, items: seq<Item>, i: nat, stored: nat, keys: set<string>,
                       parse: Parser, origin: Origin, clock: Clock, fns: TextFunctions)
    requires Progress(before, v, items, i, stored, false, keys, parse, origin, clock, fns)
    requires Grows(v, w) && LeavesAlone(v, w, keys)
    ensures Progress(before, w, items, i, stored, false, keys, parse, origin, clock, fns)
  {
    AllStoredForever(v, w, items, i, parse, origin);
    GrowsTransitive(before, v, w);
    if PlainPlatforms(items, parse) {
      OwnAllStay(before, v, w, items, i, parse, origin, clock, false, keys);
    }
  }

  lemma OneMoreRecord(before: View, v: View, w: View, items: seq<Item>, i: nat, stored: nat, alone: bool,
                      keys: set<string>, parse: Parser, origin: Origin, clock: Clock, fns: TextFunctions)
    requires i < |items| && Progress(before, v, items, i, stored, alone, keys, parse, origin, clock, fns)
    requires var doc := parse(items[i].body);
             w == if doc.Some? then Combine(v, ItemView(items[i], doc.value, origin, clock(i), fns)) else v
    ensures Progress(before, w, items, i + 1, if parse(items[i].body).Some? then stored + 1 else stored, alone, keys,
                     parse, origin, clock, fns)
  {
    OneMoreItem(before, items, i, parse, origin, clock, fns);
    OneMoreStored(v, w, items, i, parse, origin, clock(i), fns);
    GrowsTransitive(before, v, w);
    if PlainPlatforms(items, parse) {
      OneMoreOwn(before, v, w, items, i, parse, origin, clock, alone, keys, fns);
    }
  }

  // One turn of the loop.
  method PersistNext(db: AnalyticsDatabase, parse: Parser, origin: Origin, items: seq<Item>, i: nat, clock: Clock,
                     alone: bool, ghost keys: set<string>, ghost before: View, ghost count: nat)
    returns (stored: bool)
    requires db.Valid() && i < |items|
    requires Progress(before, db.Contents(), items, i, count, alone, keys, parse, origin, clock, db.fns)
    modifies db
    ensures db.Valid()
    ensures Progress(before, db.Contents(), items, i + 1, if stored then count + 1 else count, alone, keys, parse,
                     origin, clock, db.fns)
  {
    ghost var v := db.Contents();
    if !alone {
      db.Interfere(keys);
      OtherProcesses(before, v, db.Contents(), items, i, count, keys, parse, origin, clock, db.fns);
    }
    v := db.Contents();
    stored := PersistDocument(db, parse, origin, items[i], clock(i));
    OneMoreRecord(before, v, db.Contents(), items, i, count, alone, keys, parse, origin, clock, db.fns);
  }

  lemma NothingYet(v: View, items: seq<Item>, alone: bool, keys: set<string>, parse: Parser, origin: Origin,
                   clock: Clock, fns: TextFunctions)
    ensures Progress(v, v, items, 0, 0, alone, keys, parse, origin, clock, fns)
  {
    assert items[..0] == [];
    GrowsReflexive(v);
  }

  lemma AllDone(before: View, now: View, items: seq<Item>, stored: nat, alone: bool, keys: set<string>, parse: Parser,
                origin: Origin, clock: Clock, fns: TextFunctions)
    requires Progress(before, now, items, |items|, stored, alone, keys, parse, origin, clock, fns)
    ensures AllStored(now, items, |items|, parse, origin) && Grows(before, now)
    ensures PlainPlatforms(items, parse) ==>
              OwnObservations(before, now, items, |items|, parse, origin, clock, alone, keys)
    ensures stored == |BatchViews(items, parse, origin, clock, fns)|
    ensures alone ==> now == Persisted(before, BatchViews(items, parse, origin, clock, fns))
  {
    assert items[..|items|] == items;
  }

  // Other processes may persist records meanwhile, unless this one is alone; nobody else uses the reserved keys.
  method PersistDocuments(db: AnalyticsDatabase, parse: Parser, origin: Origin, items: seq<Item>, clock: Clock,
                          alone: bool, ghost keys: set<string>)
    returns (stored: nat, rejected: nat)
    requires db.Valid()
    modifies db
    ensures db.Valid()
    ensures AllStored(db.Contents(), items, |items|, parse, origin)
    ensures Grows(old(db.Contents()), db.Contents())
    ensures alone ==> db.Contents() == Persisted(old(db.Contents()), BatchViews(items, parse, origin, clock, db.fns))
    ensures PlainPlatforms(items, parse) ==>
              OwnObservations(old(db.Contents()), db.Contents(), items, |items|, parse, origin, clock, alone, keys)
    ensures stored == |BatchViews(items, parse, origin, clock, db.fns)| && stored + rejected == |items|
  {
    stored, rejected := 0, 0;
    ghost var before := db.Contents();
    NothingYet(before, items, alone, keys, parse, origin, clock, db.fns);
    for i := 0 to |items|
      invariant db.Valid() && stored + rejected == i
      invariant Progress(before, db.Contents(), items, i, stored, alone, keys, parse, origin, clock, db.fns)
    {
      var ok := PersistNext(db, parse, origin, items, i, clock, alone, keys, before, stored);
      if ok {
        stored := stored + 1;
      } else {
        rejected := rejected + 1;
      }
    }
    AllDone(before, db.Contents(), items, stored, alone, keys, parse, origin, clock, db.fns);
  }

  lemma OneMoreItem(v: View, items: seq<Item>, i: nat, parse: Parser, origin: Origin, clock: Clock, fns: TextFunctions)
    requires i < |items|
    ensures BatchViews(items[..i + 1], parse, origin, clock, fns) ==
            BatchViews(items[..i], parse, origin, clock, fns) +
            if parse(items[i].body).None? then []
            else [ItemView(items[i], parse(items[i].body).value, origin, clock(i), fns)]
    ensures Persisted(v, BatchViews(items[..i + 1], parse, origin, clock, fns)) ==
            if parse(items[i].body).None? then Persisted(v, BatchViews(items[..i], parse, origin, clock, fns))
            else Combine(Persisted(v, BatchViews(items[..i], parse, origin, clock, fns)),
                         ItemView(items[i], parse(items[i].body).value, origin, clock(i), fns))
  {
    assert items[..i + 1][..i] == items[..i];
    var views := BatchViews(items[..i], parse, origin, clock, fns);
    if parse(items[i].body).Some? {
      var view := ItemView(items[i], parse(items[i].body).value, origin, clock(i), fns);
      assert (views + [view])[..|views|] == views;
    } else {
      assert views + [] == views;
    }
  }

  // ---- delivering a batch again ----

  // Every accepted record says when it was captured.
  predicate Timed(items: seq<Item>, parse: Parser) {
    forall item <- items :: parse(item.body).Some? ==> parse(item.body).value.capturedAt.Some?
  }

  lemma {:induction false} TimedBatchesIgnoreTheClock(items: seq<Item>, parse: Parser, origin: Origin, clock: Clock,
                                                      other: Clock, fns: TextFunctions)
    requires Timed(items, parse)
    ensures BatchViews(items, parse, origin, clock, fns) == BatchViews(items, parse, origin, other, fns)
  {
    if items == [] {
    } else {
      assert items[|items| - 1] in items;
      TimedBatchesIgnoreTheClock(items[..|items| - 1], parse, origin, clock, other, fns);
    }
  }

  lemma {:induction false} PartOfBatch(items: seq<Item>, cut: nat, parse: Parser, origin: Origin, clock: Clock,
                                       fns: TextFunctions)
    requires cut <= |items|
    ensures BatchViews(items[..cut], parse, origin, clock, fns) <= BatchViews(items, parse, origin, clock, fns)
    decreases |items| - cut
  {
    if cut == |items| {
      assert items[..cut] == items;
    } else {
      OneMoreItem(NOTHING, items, cut, parse, origin, clock, fns);
      PartOfBatch(items, cut + 1, parse, origin, clock, fns);
    }
  }

  // A pass that got as far as `upTo` records.
  datatype Pass = Pass(upTo: nat, clock: Clock)

  ghost function AfterPasses(v: View, items: seq<Item>, passes: seq<Pass>, parse: Parser, origin: Origin,
                           fns: TextFunctions): View
  {
    if passes == [] then v
    else
      var last := passes[|passes| - 1];
      var before := AfterPasses(v, items, passes[..|passes| - 1], parse, origin, fns);
      if last.upTo <= |items| then Persisted(before, BatchViews(items[..last.upTo], parse, origin, last.clock, fns))
      else before
  }

  // Any number of interrupted passes followed by a complete one leave what one complete pass leaves,
  // even when a tweet occurs several times in the batch with different text or counters.
  lemma {:induction false} RedeliveryLeavesOnePass(v: View, items: seq<Item>, passes: seq<Pass>, parse: Parser,
                                                   origin: Origin, clock: Clock, single: Clock, fns: TextFunctions)
    requires Timed(items, parse)
    ensures Persisted(AfterPasses(v, items, passes, parse, origin, fns), BatchViews(items, parse, origin, clock, fns))
            == Persisted(v, BatchViews(items, parse, origin, single, fns))
    decreases |passes|
  {
    TimedBatchesIgnoreTheClock(items, parse, origin, clock, single, fns);
    if passes == [] {
    } else {
      var rest, last := passes[..|passes| - 1], passes[|passes| - 1];
      var before := AfterPasses(v, items, rest, parse, origin, fns);
      RedeliveryLeavesOnePass(v, items, rest, parse, origin, clock, single, fns);
      if last.upTo <= |items| {
        var batch := BatchViews(items, parse, origin, clock, fns);
        TimedBatchesIgnoreTheClock(items, parse, origin, last.clock, clock, fns);
        PartOfBatch(items, last.upTo, parse, origin, last.clock, fns);
        var part := BatchViews(items[..last.upTo], parse, origin, last.clock, fns);
        assert part == batch[..|part|];
        PrefixIsAbsorbed(before, batch, |part|);
      }
    }
  }

  // ---- counters and observations ----

  function SightingOf(item: Item, doc: Document, origin: Origin, now: Time): Sighting {
    Sighting(KeyOf(origin, doc), doc, CaptureTime(doc, now), ProvenanceOf(item, origin))
  }

  // The accepted records as they are persisted.
  ghost function BatchSightings(items: seq<Item>, parse: Parser, origin: Origin, clock: Clock): seq<Sighting> {
    if items == [] then []
    else
      var n := |items| - 1;
      var doc := parse(items[n].body);
      BatchSightings(items[..n], parse, origin, clock) +
      if doc.None? then []
      else [SightingOf(items[n], doc.value, origin, clock(n))]
  }

  lemma {:induction false} SightingsPersist(v: View, items: seq<Item>, parse: Parser, origin: Origin, clock: Clock,
                                            fns: TextFunctions)
    ensures AfterSightings(v, BatchSightings(items, parse, origin, clock), fns)
            == Persisted(v, BatchViews(items, parse, origin, clock, fns))
  {
    if items == [] {
    } else {
      var n := |items| - 1;
      SightingsPersist(v, items[..n], parse, origin, clock, fns);
      var doc := parse(items[n].body);
      var sightings := BatchSightings(items[..n], parse, origin, clock);
      var views := BatchViews(items[..n], parse, origin, clock, fns);
      if doc.None? {
        assert sightings + [] == sightings && views + [] == views;
      } else {
        var sighting := SightingOf(items[n], doc.value, origin, clock(n));
        assert (sightings + [sighting])[..|sightings|] == sightings;
        assert (views + [ViewOfSighting(sighting, fns)])[..|views|] == views;
      }
    }
  }

  // Persisting a batch leaves every counter preserved by an observation exactly when each counter offered is matched
  // by the feed before or by a record of the same tweet that was the first under its key.
  lemma CountersPreservedExactlyWhen(v: View, c: Counter, items: seq<Item>, parse: Parser, origin: Origin, clock: Clock,
                                     fns: TextFunctions)
    requires Consistent(v, c) && Attained(v, c)
    ensures var sightings := BatchSightings(items, parse, origin, clock);
            Attained(Persisted(v, BatchViews(items, parse, origin, clock, fns)), c)
            <==> forall i | 0 <= i < |sightings| :: Matched(v, c, sightings, i)
    ensures Consistent(Persisted(v, BatchViews(items, parse, origin, clock, fns)), c)
  {
    SightingsPersist(v, items, parse, origin, clock, fns);
    BatchAttainedExactlyWhen(v, c, BatchSightings(items, parse, origin, clock), fns);
  }

  // Databases with the same contents up to ids have the same rollups, and the same contributions up to ids.
  lemma SameContentsSameTables(feed: Feed, other: Feed, fns: TextFunctions,
                               contributions: Contributions, contributions': Contributions,
                               rollups: map<Bucket, Rollup>, rollups': map<Bucket, Rollup>)
    requires UniqueTweets(feed) && UniqueTweets(other) && ByTweet(feed) == ByTweet(other)
    requires ContributionsAccurate(contributions, feed, fns) && ContributionsAccurate(contributions', other, fns)
    requires RollupsAccurate(rollups, feed, fns) && RollupsAccurate(rollups', other, fns)
    ensures rollups == rollups'
    ensures forall i <- feed, j <- other, k | feed[i].tweetId == other[j].tweetId ::
              Lookup(contributions, ContributionKey(i, k)) == Lookup(contributions', ContributionKey(j, k))
  {
    forall b ensures Lookup(rollups, b) == Lookup(rollups', b) {
      assert Lookup(rollups, b) == RollupOf(feed, fns, b) && Lookup(rollups', b) == RollupOf(other, fns, b);
      RollupsIgnoreIds(feed, other, fns, b);
    }
    SameLookups(rollups, rollups');
    forall i <- feed, j <- other, k | feed[i].tweetId == other[j].tweetId
      ensures Lookup(contributions, ContributionKey(i, k)) == Lookup(contributions', ContributionKey(j, k))
    {
      ContributionsIgnoreIds(feed, other, fns, i, j, k);
      assert Lookup(contributions, ContributionKey(i, k)) == ContributionOf(feed, fns, ContributionKey(i, k));
      assert Lookup(contributions', ContributionKey(j, k)) == ContributionOf(other, fns, ContributionKey(j, k));
    }
  }
}
