// Canonical counters are the greatest values offered. When do observation rows preserve them?
module Counters {
  import opened Absorption
  import opened FeedTables

  datatype Counter = Likes | Retweets
  {
    function InRow(row: FeedRow): nat {
      match this
      case Likes => row.likes
      case Retweets => row.retweets
    }

    function Seen(o: Absorption.Seen): nat {
      match this
      case Likes => o.likes
      case Retweets => o.retweets
    }

    function Offered(doc: Document): nat {
      match this
      case Likes => doc.likes
      case Retweets => doc.retweets
    }
  }

  // Every observation is of a tweet of the feed and does not exceed its counters.
  ghost predicate Consistent(v: View, c: Counter) {
    forall k <- v.observations ::
      v.observations[k].subject in v.feed && c.Seen(v.observations[k]) <= c.InRow(v.feed[v.observations[k].subject])
  }

  // Observation k preserves the counter of tweet t.
  predicate Preserves(v: View, c: Counter, t: string, k: string)
    requires t in v.feed
  {
    k in v.observations && v.observations[k].subject == t && c.Seen(v.observations[k]) == c.InRow(v.feed[t])
  }

  // Every canonical counter is preserved by some observation.
  ghost predicate Attained(v: View, c: Counter) {
    forall t <- v.feed :: exists k :: Preserves(v, c, t, k)
  }

  // ---- one document ----

  // The key is new, or the counter offered is no news.
  predicate KeepsAttained(v: View, c: Counter, key: string, doc: Document) {
    key !in v.observations || (doc.tweetId in v.feed && c.Offered(doc) <= c.InRow(v.feed[doc.tweetId]))
  }

  lemma CombineKeepsConsistent(v: View, c: Counter, key: string, doc: Document, captured: Time, provenance: Provenance,
                               fns: TextFunctions)
    requires Consistent(v, c)
    ensures Consistent(Combine(v, Single(key, doc, captured, provenance, fns)), c)
  {}

  // The row of the document after the upsert, and where its observation comes from.
  lemma CounterAfter(v: View, c: Counter, key: string, doc: Document, captured: Time, provenance: Provenance,
                     fns: TextFunctions)
    ensures var w := Combine(v, Single(key, doc, captured, provenance, fns));
            && w.feed.Keys == v.feed.Keys + {doc.tweetId}
            && (forall t <- v.feed :: t != doc.tweetId ==> w.feed[t] == v.feed[t])
            && c.InRow(w.feed[doc.tweetId])
               == (if doc.tweetId in v.feed then Max(c.InRow(v.feed[doc.tweetId]), c.Offered(doc)) else c.Offered(doc))
            && w.observations.Keys == v.observations.Keys + {key}
            && (forall k <- v.observations :: w.observations[k] == v.observations[k])
            && (key !in v.observations ==>
                  w.observations[key].subject == doc.tweetId && c.Seen(w.observations[key]) == c.Offered(doc))
  {}

  lemma AttainedIfKept(v: View, c: Counter, key: string, doc: Document, captured: Time, provenance: Provenance,
                       fns: TextFunctions)
    requires Attained(v, c) && KeepsAttained(v, c, key, doc)
    ensures Attained(Combine(v, Single(key, doc, captured, provenance, fns)), c)
  {
    CounterAfter(v, c, key, doc, captured, provenance, fns);
    var w := Combine(v, Single(key, doc, captured, provenance, fns));
    forall t <- w.feed ensures exists k :: Preserves(w, c, t, k) {
      if t in v.feed && c.InRow(w.feed[t]) == c.InRow(v.feed[t]) {
        var k :| Preserves(v, c, t, k);
        assert Preserves(w, c, t, k);
      } else {
        assert Preserves(w, c, t, key);
      }
    }
  }

  lemma NotAttainedOtherwise(v: View, c: Counter, key: string, doc: Document, captured: Time, provenance: Provenance,
                             fns: TextFunctions)
    requires Consistent(v, c) && !KeepsAttained(v, c, key, doc)
    ensures !Attained(Combine(v, Single(key, doc, captured, provenance, fns)), c)
  {
    CounterAfter(v, c, key, doc, captured, provenance, fns);
    var w := Combine(v, Single(key, doc, captured, provenance, fns));
    forall k ensures !Preserves(w, c, doc.tweetId, k) {
      if k in v.observations {
        assert v.observations[k].subject in v.feed;
      }
    }
    assert doc.tweetId in w.feed;
  }

  // One upsert leaves every counter preserved exactly when its observation key is new or the counter it
  // offers does not exceed the canonical one.
  lemma AttainedExactlyWhen(v: View, c: Counter, key: string, doc: Document, captured: Time, provenance: Provenance,
                            fns: TextFunctions)
    requires Consistent(v, c) && Attained(v, c)
    ensures Attained(Combine(v, Single(key, doc, captured, provenance, fns)), c) <==> KeepsAttained(v, c, key, doc)
  {
    if KeepsAttained(v, c, key, doc) {
      AttainedIfKept(v, c, key, doc, captured, provenance, fns);
    } else {
      NotAttainedOtherwise(v, c, key, doc, captured, provenance, fns);
    }
  }

  // Both counters at once.
  ghost predicate CountersFollow(v: View, w: View, key: string, doc: Document) {
    forall c :: Attained(v, c) ==> (Attained(w, c) <==> KeepsAttained(v, c, key, doc))
  }

  lemma CountersFollowUpsert(v: View, key: string, doc: Document, captured: Time, provenance: Provenance,
                             fns: TextFunctions)
    requires Consistent(v, Likes) && Consistent(v, Retweets)
    ensures CountersFollow(v, Combine(v, Single(key, doc, captured, provenance, fns)), key, doc)
  {
    forall c | Attained(v, c)
      ensures Attained(Combine(v, Single(key, doc, captured, provenance, fns)), c) <==> KeepsAttained(v, c, key, doc)
    {
      assert c == Likes || c == Retweets;
      AttainedExactlyWhen(v, c, key, doc, captured, provenance, fns);
    }
  }

  // ---- a whole batch ----

  // A document as it is persisted.
  datatype Sighting = Sighting(key: string, doc: Document, captured: Time, provenance: Provenance)

  function ViewOfSighting(s: Sighting, fns: TextFunctions): View {
    Single(s.key, s.doc, s.captured, s.provenance, fns)
  }

  ghost function AfterSightings(v: View, sightings: seq<Sighting>, fns: TextFunctions): View {
    if sightings == [] then v
    else
      var n := |sightings| - 1;
      Combine(AfterSightings(v, sightings[..n], fns), ViewOfSighting(sightings[n], fns))
  }

  // Sighting j leaves an observation: nobody used its key before.
  predicate LeavesObservation(v: View, sightings: seq<Sighting>, j: nat)
    requires j < |sightings|
  {
    sightings[j].key !in v.observations && forall i | 0 <= i < j :: sightings[i].key != sightings[j].key
  }

  // What is offered by sighting i is matched by the feed before the batch, or by a sighting of the same tweet
  // that leaves an observation.
  predicate Matched(v: View, c: Counter, sightings: seq<Sighting>, i: nat)
    requires i < |sightings|
  {
    var doc := sightings[i].doc;
    || (doc.tweetId in v.feed && c.Offered(doc) <= c.InRow(v.feed[doc.tweetId]))
    || (exists j | 0 <= j < |sightings| :: MatchedBy(v, c, sightings, i, j))
  }

  predicate MatchedBy(v: View, c: Counter, sightings: seq<Sighting>, i: nat, j: nat)
    requires i < |sightings| && j < |sightings|
  {
    && LeavesObservation(v, sightings, j)
    && sightings[j].doc.tweetId == sightings[i].doc.tweetId
    && c.Offered(sightings[i].doc) <= c.Offered(sightings[j].doc)
  }

  // The counters after the batch: no less than before or than anything offered, and one of these.
  ghost predicate IsGreatest(v: View, w: View, c: Counter, sightings: seq<Sighting>, t: string)
    requires t in w.feed
  {
    && (t in v.feed ==> c.InRow(v.feed[t]) <= c.InRow(w.feed[t]))
    && (forall i | 0 <= i < |sightings| && sightings[i].doc.tweetId == t ::
          c.Offered(sightings[i].doc) <= c.InRow(w.feed[t]))
    && ((t in v.feed && c.InRow(w.feed[t]) == c.InRow(v.feed[t]))
        || exists i | 0 <= i < |sightings| ::
             sightings[i].doc.tweetId == t && c.Offered(sightings[i].doc) == c.InRow(w.feed[t]))
  }

  ghost predicate AllGreatest(v: View, w: View, c: Counter, sightings: seq<Sighting>) {
    && (forall t <- v.feed :: t in w.feed)
    && (forall i | 0 <= i < |sightings| :: sightings[i].doc.tweetId in w.feed)
    && (forall t <- w.feed :: IsGreatest(v, w, c, sightings, t))
  }

  // How one more sighting changes the counters.
  ghost predicate CountsOne(u: View, w: View, c: Counter, doc: Document) {
    && w.feed.Keys == u.feed.Keys + {doc.tweetId}
    && (forall t <- u.feed :: t != doc.tweetId ==> w.feed[t] == u.feed[t])
    && c.InRow(w.feed[doc.tweetId])
       == (if doc.tweetId in u.feed then Max(c.InRow(u.feed[doc.tweetId]), c.Offered(doc)) else c.Offered(doc))
  }

  lemma {:induction false} GreatestAfter(v: View, c: Counter, sightings: seq<Sighting>, fns: TextFunctions)
    ensures AllGreatest(v, AfterSightings(v, sightings, fns), c, sightings)
    decreases |sightings|
  {
    if sightings == [] {
      assert AfterSightings(v, sightings, fns) == v;
    } else {
      var n := |sightings| - 1;
      GreatestAfter(v, c, sightings[..n], fns);
      var u := AfterSightings(v, sightings[..n], fns);
      var last := sightings[n];
      CounterAfter(u, c, last.key, last.doc, last.captured, last.provenance, fns);
      OneMoreCounted(v, u, AfterSightings(v, sightings, fns), c, sightings);
    }
  }

  lemma OneMoreCounted(v: View, u: View, w: View, c: Counter, sightings: seq<Sighting>)
    requires sightings != [] && AllGreatest(v, u, c, sightings[..|sightings| - 1])
    requires CountsOne(u, w, c, sightings[|sightings| - 1].doc)
    ensures AllGreatest(v, w, c, sightings)
  {
    var before := sightings[..|sightings| - 1];
    forall i | 0 <= i < |before| ensures sightings[i].doc.tweetId in u.feed {
      assert before[i] == sightings[i];
    }
    forall t <- w.feed ensures IsGreatest(v, w, c, sightings, t) {
      OneMoreIsGreatest(v, u, w, c, sightings, t);
    }
  }

  lemma OneMoreIsGreatest(v: View, u: View, w: View, c: Counter, sightings: seq<Sighting>, t: string)
    requires sightings != [] && t in w.feed && CountsOne(u, w, c, sightings[|sightings| - 1].doc)
    requires forall x <- v.feed :: x in u.feed
    requires forall i | 0 <= i < |sightings| - 1 :: sightings[i].doc.tweetId in u.feed
    requires t in u.feed ==> IsGreatest(v, u, c, sightings[..|sightings| - 1], t)
    ensures IsGreatest(v, w, c, sightings, t)
  {
    var n := |sightings| - 1;
    var before := sightings[..n];
    forall i | 0 <= i < |sightings| && sightings[i].doc.tweetId == t
      ensures c.Offered(sightings[i].doc) <= c.InRow(w.feed[t])
    {
      if i < n {
        assert before[i] == sightings[i];
      }
    }
    if t in u.feed && c.InRow(w.feed[t]) == c.InRow(u.feed[t]) {
      if !(t in v.feed && c.InRow(u.feed[t]) == c.InRow(v.feed[t])) {
        var i :| 0 <= i < |before| && before[i].doc.tweetId == t && c.Offered(before[i].doc) == c.InRow(u.feed[t]);
        assert sightings[i] == before[i];
      }
    } else {
      assert sightings[n].doc.tweetId == t && c.Offered(sightings[n].doc) == c.InRow(w.feed[t]);
    }
  }

  function ObservationOf(s: Sighting): Seen {
    Observation(s.doc.tweetId, s.captured, s.doc.likes, s.doc.retweets, s.provenance)
  }

  // The observations after the batch: those before, and one for each sighting that leaves one.
  ghost predicate ObservationsAre(v: View, w: View, sightings: seq<Sighting>) {
    && (forall k <- v.observations :: k in w.observations && w.observations[k] == v.observations[k])
    && (forall j | 0 <= j < |sightings| :: sightings[j].key in w.observations)
    && (forall j | 0 <= j < |sightings| && LeavesObservation(v, sightings, j) ::
          w.observations[sightings[j].key] == ObservationOf(sightings[j]))
    && (forall k <- w.observations :: k in v.observations || LeftBy(v, sightings, k))
  }

  ghost predicate LeftBy(v: View, sightings: seq<Sighting>, k: string) {
    exists j | 0 <= j < |sightings| :: LeavesObservation(v, sightings, j) && sightings[j].key == k
  }

  lemma {:induction false} ObservationsAfter(v: View, sightings: seq<Sighting>, fns: TextFunctions)
    ensures ObservationsAre(v, AfterSightings(v, sightings, fns), sightings)
    decreases |sightings|
  {
    if sightings == [] {
      assert AfterSightings(v, sightings, fns) == v;
    } else {
      var n := |sightings| - 1;
      ObservationsAfter(v, sightings[..n], fns);
      OneMoreObserved(v, AfterSightings(v, sightings[..n], fns), AfterSightings(v, sightings, fns), sightings);
    }
  }

  lemma OneMoreObserved(v: View, u: View, w: View, sightings: seq<Sighting>)
    requires sightings != [] && ObservationsAre(v, u, sightings[..|sightings| - 1])
    requires var last := sightings[|sightings| - 1];
             w.observations == map[last.key := ObservationOf(last)] + u.observations
    ensures ObservationsAre(v, w, sightings)
  {
    var n := |sightings| - 1;
    var before, last := sightings[..n], sightings[n];
    assert forall j | 0 <= j < n :: before[j] == sightings[j];
    forall j | 0 <= j < |sightings| && LeavesObservation(v, sightings, j)
      ensures sightings[j].key in w.observations && w.observations[sightings[j].key] == ObservationOf(sightings[j])
    {
      if j < n {
        assert LeavesObservation(v, before, j) && before[j] == sightings[j];
      } else {
        FirstOfItsKey(v, u, sightings);
      }
    }
    forall k <- w.observations ensures k in v.observations || LeftBy(v, sightings, k) {
      LeftByOneMore(v, u, sightings, k);
    }
  }

  lemma FirstOfItsKey(v: View, u: View, sightings: seq<Sighting>)
    requires sightings != [] && ObservationsAre(v, u, sightings[..|sightings| - 1])
    ensures LeavesObservation(v, sightings, |sightings| - 1) <==> sightings[|sightings| - 1].key !in u.observations
  {
    var n := |sightings| - 1;
    var before, key := sightings[..n], sightings[n].key;
    assert forall j | 0 <= j < n :: before[j] == sightings[j];
    if key in u.observations && key !in v.observations {
      assert LeftBy(v, before, key);
    }
  }

  lemma LeftByOneMore(v: View, u: View, sightings: seq<Sighting>, k: string)
    requires sightings != [] && ObservationsAre(v, u, sightings[..|sightings| - 1])
    requires k in u.observations || k == sightings[|sightings| - 1].key
    ensures k in v.observations || LeftBy(v, sightings, k)
  {
    var n := |sightings| - 1;
    var before := sightings[..n];
    if k in u.observations {
      if k !in v.observations {
        var j :| 0 <= j < |before| && LeavesObservation(v, before, j) && before[j].key == k;
        assert sightings[j] == before[j] && forall i | 0 <= i < j :: before[i] == sightings[i];
        assert LeavesObservation(v, sightings, j);
      }
    } else {
      FirstOfItsKey(v, u, sightings);
    }
  }

  lemma {:induction false} SightingsKeepConsistent(v: View, c: Counter, sightings: seq<Sighting>, fns: TextFunctions)
    requires Consistent(v, c)
    ensures Consistent(AfterSightings(v, sightings, fns), c)
    decreases |sightings|
  {
    if sightings == [] {
    } else {
      var before, last := sightings[..|sightings| - 1], sightings[|sightings| - 1];
      SightingsKeepConsistent(v, c, before, fns);
      CombineKeepsConsistent(AfterSightings(v, before, fns), c, last.key, last.doc, last.captured, last.provenance,
                             fns);
    }
  }

  // A batch leaves every counter preserved exactly when every counter it offers is matched; observations never
  // exceed the counters, so the same holds of the next batch.
  lemma BatchAttainedExactlyWhen(v: View, c: Counter, sightings: seq<Sighting>, fns: TextFunctions)
    requires Consistent(v, c) && Attained(v, c)
    ensures Attained(AfterSightings(v, sightings, fns), c) <==>
              forall i | 0 <= i < |sightings| :: Matched(v, c, sightings, i)
    ensures Consistent(AfterSightings(v, sightings, fns), c)
  {
    SightingsKeepConsistent(v, c, sightings, fns);
    var w := AfterSightings(v, sightings, fns);
    GreatestAfter(v, c, sightings, fns);
    ObservationsAfter(v, sightings, fns);
    if Attained(w, c) {
      forall i | 0 <= i < |sightings| ensures Matched(v, c, sightings, i) {
        AttainedIsMatched(v, w, c, sightings, i);
      }
    }
    if forall i | 0 <= i < |sightings| :: Matched(v, c, sightings, i) {
      forall t <- w.feed ensures exists k :: Preserves(w, c, t, k) {
        MatchedIsAttained(v, w, c, sightings, t);
      }
    }
  }

  lemma AttainedIsMatched(v: View, w: View, c: Counter, sightings: seq<Sighting>, i: nat)
    requires Consistent(v, c) && Attained(w, c) && i < |sightings|
    requires sightings[i].doc.tweetId in w.feed && IsGreatest(v, w, c, sightings, sightings[i].doc.tweetId)
    requires ObservationsAre(v, w, sightings)
    ensures Matched(v, c, sightings, i)
  {
    var t := sightings[i].doc.tweetId;
    var k :| Preserves(w, c, t, k);
    if k in v.observations {
      assert v.observations[k].subject == t;
    } else {
      var j :| 0 <= j < |sightings| && LeavesObservation(v, sightings, j) && sightings[j].key == k;
      assert MatchedBy(v, c, sightings, i, j);
    }
  }

  lemma MatchedIsAttained(v: View, w: View, c: Counter, sightings: seq<Sighting>, t: string)
    requires Attained(v, c) && t in w.feed && IsGreatest(v, w, c, sightings, t)
    requires forall i | 0 <= i < |sightings| :: Matched(v, c, sightings, i)
    requires ObservationsAre(v, w, sightings)
    ensures exists k :: Preserves(w, c, t, k)
  {
    if t in v.feed && c.InRow(w.feed[t]) == c.InRow(v.feed[t]) {
      var k :| Preserves(v, c, t, k);
      assert Preserves(w, c, t, k);
    } else {
      var i :| 0 <= i < |sightings| && sightings[i].doc.tweetId == t &&
        c.Offered(sightings[i].doc) == c.InRow(w.feed[t]);
      assert Matched(v, c, sightings, i);
      var j :| 0 <= j < |sightings| && MatchedBy(v, c, sightings, i, j);
      assert Preserves(w, c, t, sightings[j].key);
    }
  }
}
