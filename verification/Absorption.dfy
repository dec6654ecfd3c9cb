// Redelivery absorption: the tables up to internal ids, as an idempotent semigroup of upserts.
module Absorption {
  import opened FeedTables
  import opened Folding
  import opened Options

  type Seen = Observation<string>

  // The canonical feed by tweet and the observations by key. Contributions and rollups are
  // functions of the feed.
  datatype View = View(feed: map<string, FeedRow>, observations: map<string, Seen>)

  const NOTHING := View(map[], map[])

  function MergeFeeds(a: map<string, FeedRow>, b: map<string, FeedRow>): map<string, FeedRow> {
    map t | t in a.Keys + b.Keys ::
      if t !in a then b[t] else if t !in b then a[t] else Merge(a[t], b[t])
  }

  // First wins: ON CONFLICT (observation_key) DO NOTHING
  function Combine(a: View, b: View): View {
    View(MergeFeeds(a.feed, b.feed), b.observations + a.observations)
  }

  // What one document contributes.
  function Single(key: string, doc: Document, captured: Time, provenance: Provenance, fns: TextFunctions): View {
    View(map[doc.tweetId := ProposedRow(doc, captured, fns)],
         map[key := Observation(doc.tweetId, captured, doc.likes, doc.retweets, provenance)])
  }

  // ---- the algebra ----

  // Whichever way the conflicts are grouped, the row is the same; merging a row again changes nothing.
  lemma MergeIsABand(a: FeedRow, b: FeedRow, c: FeedRow)
    ensures Merge(Merge(a, b), c) == Merge(a, Merge(b, c))
    ensures Merge(a, a) == a
  {}

  function Join(a: Option<FeedRow>, b: Option<FeedRow>): Option<FeedRow> {
    if a.None? then b else if b.None? then a else Some(Merge(a.value, b.value))
  }

  lemma JoinIsABand(a: Option<FeedRow>, b: Option<FeedRow>, c: Option<FeedRow>)
    ensures Join(Join(a, b), c) == Join(a, Join(b, c)) && Join(a, a) == a
  {
    if a.Some? && b.Some? && c.Some? {
      MergeIsABand(a.value, b.value, c.value);
    }
  }

  lemma MergedLookup(a: map<string, FeedRow>, b: map<string, FeedRow>, t: string)
    ensures Lookup(MergeFeeds(a, b), t) == Join(Lookup(a, t), Lookup(b, t))
  {}

  lemma FeedsAssociate(a: map<string, FeedRow>, b: map<string, FeedRow>, c: map<string, FeedRow>)
    ensures MergeFeeds(MergeFeeds(a, b), c) == MergeFeeds(a, MergeFeeds(b, c))
  {
    forall t ensures Lookup(MergeFeeds(MergeFeeds(a, b), c), t) == Lookup(MergeFeeds(a, MergeFeeds(b, c)), t) {
      MergedLookup(MergeFeeds(a, b), c, t);
      MergedLookup(a, b, t);
      MergedLookup(a, MergeFeeds(b, c), t);
      MergedLookup(b, c, t);
      JoinIsABand(Lookup(a, t), Lookup(b, t), Lookup(c, t));
    }
    SameLookups(MergeFeeds(MergeFeeds(a, b), c), MergeFeeds(a, MergeFeeds(b, c)));
  }

  lemma FeedsAreIdempotent(a: map<string, FeedRow>)
    ensures MergeFeeds(a, a) == a && MergeFeeds(a, map[]) == a && MergeFeeds(map[], a) == a
  {
    forall t ensures Lookup(MergeFeeds(a, a), t) == Lookup(a, t) {
      MergedLookup(a, a, t);
      JoinIsABand(Lookup(a, t), Lookup(a, t), Lookup(a, t));
    }
    SameLookups(MergeFeeds(a, a), a);
  }

  lemma ObservationsAreABand(a: map<string, Seen>, b: map<string, Seen>, c: map<string, Seen>)
    ensures c + (b + a) == (c + b) + a && a + a == a && map[] + a == a == a + map[]
  {}

  lemma CombineIsABand(a: View, b: View, c: View)
    ensures Combine(Combine(a, b), c) == Combine(a, Combine(b, c))
    ensures Combine(a, a) == a
    ensures Combine(a, NOTHING) == a && Combine(NOTHING, a) == a
  {
    FeedsAssociate(a.feed, b.feed, c.feed);
    FeedsAreIdempotent(a.feed);
    ObservationsAreABand(a.observations, b.observations, c.observations);
  }

  // w is v after further upserts.
  ghost predicate Grows(v: View, w: View) {
    exists x :: w == Combine(v, x)
  }

  lemma GrowsReflexive(v: View)
    ensures Grows(v, v)
  {
    CombineIsABand(v, v, v);
    assert v == Combine(v, NOTHING);
  }

  lemma GrowsTransitive(u: View, v: View, w: View)
    requires Grows(u, v) && Grows(v, w)
    ensures Grows(u, w)
  {
    var x, y :| v == Combine(u, x) && w == Combine(v, y);
    CombineIsABand(u, x, y);
  }

  // No observation under the keys is new.
  predicate LeavesAlone(v: View, w: View, keys: set<string>) {
    forall k <- w.observations :: k in keys ==> k in v.observations
  }

  // The document is in the feed, its counters and its observation with it.
  predicate Stored(v: View, key: string, doc: Document) {
    && doc.tweetId in v.feed
    && doc.likes <= v.feed[doc.tweetId].likes
    && doc.retweets <= v.feed[doc.tweetId].retweets
    && key in v.observations
  }

  lemma StoredForever(v: View, w: View, key: string, doc: Document)
    requires Grows(v, w) && Stored(v, key, doc)
    ensures Stored(w, key, doc)
  {}

  // ---- persisting a batch ----

  ghost function Total(views: seq<View>): View {
    Fold(Combine, NOTHING, views)
  }

  ghost function Persisted(v: View, views: seq<View>): View {
    Fold(Combine, v, views)
  }

  lemma {:induction false} PersistedIsTotal(v: View, views: seq<View>)
    ensures Persisted(v, views) == Combine(v, Total(views))
  {
    if views == [] {
      CombineIsABand(v, v, v);
    } else {
      var before, last := views[..|views| - 1], views[|views| - 1];
      PersistedIsTotal(v, before);
      CombineIsABand(v, Total(before), last);
    }
  }

  // A part of the batch, then the whole batch, is the whole batch.
  lemma PrefixIsAbsorbed(v: View, batch: seq<View>, cut: nat)
    requires cut <= |batch|
    ensures Persisted(Persisted(v, batch[..cut]), batch) == Persisted(v, batch)
  {
    var prefix, rest := batch[..cut], batch[cut..];
    var p, r := Total(prefix), Total(rest);
    assert batch == prefix + rest;
    FoldAppend(Combine, NOTHING, prefix, rest);
    PersistedIsTotal(p, rest);
    PersistedIsTotal(v, prefix);
    PersistedIsTotal(v, batch);
    PersistedIsTotal(Persisted(v, prefix), batch);
    CombineIsABand(v, p, Combine(p, r));
    CombineIsABand(p, p, r);
  }

  predicate Within(batch: seq<View>, cuts: seq<nat>) {
    forall i | 0 <= i < |cuts| :: cuts[i] <= |batch|
  }

  ghost function Attempted(v: View, batch: seq<View>, cuts: seq<nat>): View
    requires Within(batch, cuts)
  {
    if cuts == [] then v
    else Persisted(Attempted(v, batch, cuts[..|cuts| - 1]), batch[..cuts[|cuts| - 1]])
  }

  // However many attempts stopped wherever they stopped, one full pass at the end leaves what a
  // single full pass would have left.
  lemma {:induction false} RedeliveryIsAbsorbed(v: View, batch: seq<View>, cuts: seq<nat>)
    requires Within(batch, cuts)
    ensures Persisted(Attempted(v, batch, cuts), batch) == Persisted(v, batch)
    decreases |cuts|
  {
    if cuts == [] {
    } else {
      var before := cuts[..|cuts| - 1];
      PrefixIsAbsorbed(Attempted(v, batch, before), batch, cuts[|cuts| - 1]);
      RedeliveryIsAbsorbed(v, batch, before);
    }
  }

  // ---- documents without a capture time ----

  function Again(v: View, key: string, doc: Document, at: Time, provenance: Provenance, fns: TextFunctions): View {
    Combine(v, Single(key, doc, CaptureTime(doc, at), provenance, fns))
  }

  // What persisting the same document once more can still change.
  lemma OnlyLastSeenMoves(v: View, key: string, doc: Document, at: Time, later: Time, provenance: Provenance,
                          fns: TextFunctions)
    ensures var once := Again(v, key, doc, at, provenance, fns);
            var row := once.feed[doc.tweetId];
            Again(once, key, doc, later, provenance, fns)
            == once.(feed := once.feed[doc.tweetId := row.(lastSeenAt := Max(row.lastSeenAt, CaptureTime(doc, later)))])
  {
    var once := Again(v, key, doc, at, provenance, fns);
    var again := Again(once, key, doc, later, provenance, fns);
    assert again.observations == once.observations;
    var row := once.feed[doc.tweetId];
    assert again.feed == once.feed[doc.tweetId := row.(lastSeenAt := Max(row.lastSeenAt, CaptureTime(doc, later)))];
  }

  // Persisting one document again, at a later time and with the same key, is absorbed exactly when the
  // document says when it was captured or nothing newer has been missed.
  lemma AbsorbedExactlyWhen(v: View, key: string, doc: Document, at: Time, later: Time, provenance: Provenance,
                            fns: TextFunctions)
    requires at <= later
    ensures var once := Again(v, key, doc, at, provenance, fns);
            Again(once, key, doc, later, provenance, fns) == once
            <==> doc.capturedAt.Some? || later <= once.feed[doc.tweetId].lastSeenAt
  {
    OnlyLastSeenMoves(v, key, doc, at, later, provenance, fns);
    var once := Again(v, key, doc, at, provenance, fns);
    var row := once.feed[doc.tweetId];
    assert doc.capturedAt.Some? ==> doc.capturedAt.value <= row.lastSeenAt;
    if Max(row.lastSeenAt, CaptureTime(doc, later)) == row.lastSeenAt {
      assert once.feed[doc.tweetId := row] == once.feed;
    } else {
      assert once.feed[doc.tweetId := row.(lastSeenAt := CaptureTime(doc, later))][doc.tweetId] != row;
    }
  }

  // ---- counters are maxima over everything offered, not over what was observed ----

  // A second sighting under the same key raises the canonical counter but leaves no observation of its own.
  lemma CounterMayExceedObservations(key: string, doc: Document, at: Time, provenance: Provenance, fns: TextFunctions)
    ensures var first := Single(key, doc, at, provenance, fns);
            var second := Single(key, doc.(likes := doc.likes + 1), at, provenance, fns);
            var v := Combine(first, second);
            v.feed[doc.tweetId].likes == doc.likes + 1 &&
              forall k <- v.observations :: v.observations[k].likes == doc.likes
  {}
}
