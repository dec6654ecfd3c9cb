// upsert_insight_record: one transaction that keeps the derived tables in step with the canonical feed.
module AnalyticsParser {
  import opened Absorption
  import opened Counters
  import opened FeedTables
  import opened Options
  import opened Rollups

  type Contributions = map<ContributionKey, Contribution>

  // ON CONFLICT (insight_id, keyword) DO UPDATE keeps the window and the greater likes.
  function Contribute(existing: Option<Contribution>, window: Time, likes: nat): Contribution {
    if existing.None? then Contribution(window, likes) else existing.value.(likes := Max(existing.value.likes, likes))
  }

  // The contributions after upserting those of one item for the given keywords.
  ghost predicate Contributed(before: Contributions, after: Contributions, id: nat, keywords: set<string>,
                              window: Time, likes: nat) {
    forall key :: Lookup(after, key) ==
      if key.insight == id && key.keyword in keywords then Some(Contribute(Lookup(before, key), window, likes))
      else Lookup(before, key)
  }

  // What the observation rows and the feed agree on.
  ghost predicate Observed(feed: Feed, o: Observation<nat>) {
    && o.subject in feed
    && o.likes <= feed[o.subject].likes
    && o.retweets <= feed[o.subject].retweets
    && o.capturedAt <= feed[o.subject].lastSeenAt
  }

  ghost predicate AllObserved(feed: Feed, observations: map<string, Observation<nat>>) {
    forall k <- observations :: Observed(feed, observations[k])
  }

  function SeenAs(feed: Feed, o: Observation<nat>): Seen
    requires o.subject in feed
  {
    Observation(feed[o.subject].tweetId, o.capturedAt, o.likes, o.retweets, o.provenance)
  }

  function ViewOf(feed: Feed, observations: map<string, Observation<nat>>): View
    requires UniqueTweets(feed)
    requires forall k <- observations :: observations[k].subject in feed
  {
    View(ByTweet(feed), AllSeen(feed, observations))
  }

  function AllSeen(feed: Feed, observations: map<string, Observation<nat>>): map<string, Seen>
    requires forall k <- observations :: observations[k].subject in feed
  {
    map k | k in observations :: SeenAs(feed, observations[k])
  }

  // The feed's counters are at or above every observation, also up to ids.
  lemma ViewIsConsistent(feed: Feed, observations: map<string, Observation<nat>>, c: Counter)
    requires UniqueTweets(feed) && AllObserved(feed, observations)
    requires forall k <- observations :: observations[k].subject in feed
    ensures Consistent(ViewOf(feed, observations), c)
  {
    var v := ViewOf(feed, observations);
    forall k <- v.observations
      ensures v.observations[k].subject in v.feed
      ensures c.Seen(v.observations[k]) <= c.InRow(v.feed[v.observations[k].subject])
    {
      assert Observed(feed, observations[k]);
    }
  }

  lemma OneMoreSeen(feed: Feed, feed': Feed, key: string, o: Observation<nat>, before: map<string, Observation<nat>>)
    requires o.subject in feed'
    requires forall k <- before :: before[k].subject in feed && before[k].subject in feed'
    requires forall k <- before :: SeenAs(feed', before[k]) == SeenAs(feed, before[k])
    ensures AllSeen(feed', map[key := o] + before) == map[key := SeenAs(feed', o)] + AllSeen(feed, before)
  {}

  // The row of the tweet in the new feed, and nothing else changed.
  ghost predicate Upserted(feed: Feed, feed': Feed, id: nat, row: FeedRow) {
    && id in feed'
    && feed' == feed[id := feed'[id]]
    && (if id in feed then feed[id].tweetId == row.tweetId && feed'[id] == Merge(feed[id], row)
        else feed'[id] == row && forall i <- feed :: feed[i].tweetId != row.tweetId)
  }

  lemma UpsertKeepsTweetsUnique(feed: Feed, feed': Feed, id: nat, row: FeedRow)
    requires UniqueTweets(feed) && Upserted(feed, feed', id, row)
    ensures UniqueTweets(feed') && feed'[id].tweetId == row.tweetId
  {
    forall i <- feed', j <- feed' | feed'[i].tweetId == feed'[j].tweetId ensures i == j {
      assert i != id ==> i in feed && feed[i] == feed'[i];
      assert j != id ==> j in feed && feed[j] == feed'[j];
    }
  }

  lemma LookupByTweet(feed: Feed, i: nat)
    requires UniqueTweets(feed) && i in feed
    ensures Lookup(ByTweet(feed), feed[i].tweetId) == Some(feed[i])
  {}

  lemma NoSuchTweet(feed: Feed, t: string)
    requires UniqueTweets(feed) && forall i <- feed :: feed[i].tweetId != t
    ensures Lookup(ByTweet(feed), t) == None
  {}

  lemma UpsertedView(feed: Feed, feed': Feed, id: nat, row: FeedRow)
    requires UniqueTweets(feed) && UniqueTweets(feed') && Upserted(feed, feed', id, row)
    ensures ByTweet(feed') == MergeFeeds(ByTweet(feed), map[row.tweetId := row])
  {
    var single := map[row.tweetId := row];
    forall t ensures Lookup(ByTweet(feed'), t) == Lookup(MergeFeeds(ByTweet(feed), single), t) {
      MergedLookup(ByTweet(feed), single, t);
      if t == row.tweetId {
        LookupByTweet(feed', id);
        if id in feed {
          LookupByTweet(feed, id);
        } else {
          NoSuchTweet(feed, t);
        }
      } else {
        OtherTweetsKeep(feed, feed', id, row, t);
      }
    }
    SameLookups(ByTweet(feed'), MergeFeeds(ByTweet(feed), single));
  }

  lemma OtherTweetKept(feed: Feed, feed': Feed, id: nat, row: FeedRow, i: nat)
    requires Upserted(feed, feed', id, row) && i in feed && feed[i].tweetId != row.tweetId
    ensures i in feed' && feed'[i] == feed[i]
  {}

  lemma OtherTweetNotAdded(feed: Feed, feed': Feed, id: nat, row: FeedRow, t: string)
    requires Upserted(feed, feed', id, row) && t != row.tweetId
    requires forall i <- feed :: feed[i].tweetId != t
    ensures forall i <- feed' :: feed'[i].tweetId != t
  {}

  lemma OtherTweetsKeep(feed: Feed, feed': Feed, id: nat, row: FeedRow, t: string)
    requires UniqueTweets(feed) && UniqueTweets(feed') && Upserted(feed, feed', id, row)
    requires t != row.tweetId
    ensures Lookup(ByTweet(feed'), t) == Lookup(ByTweet(feed), t)
  {
    if i :| i in feed && feed[i].tweetId == t {
      OtherTweetKept(feed, feed', id, row, i);
      LookupByTweet(feed, i);
      LookupByTweet(feed', i);
    } else {
      OtherTweetNotAdded(feed, feed', id, row, t);
      NoSuchTweet(feed, t);
      NoSuchTweet(feed', t);
    }
  }

  lemma UpsertKeepsObserved(feed: Feed, feed': Feed, id: nat, row: FeedRow, observations: map<string, Observation<nat>>)
    requires Upserted(feed, feed', id, row) && AllObserved(feed, observations)
    ensures AllObserved(feed', observations)
    ensures forall k <- observations :: SeenAs(feed', observations[k]) == SeenAs(feed, observations[k])
  {
    forall k <- observations
      ensures Observed(feed', observations[k]) && SeenAs(feed', observations[k]) == SeenAs(feed, observations[k])
    {
      assert Observed(feed, observations[k]);
    }
  }

  // The contributions of the item for other keywords are gone.
  ghost predicate OthersDeleted(before: Contributions, after: Contributions, id: nat, keywords: set<string>) {
    forall key :: Lookup(after, key) ==
      if key.insight == id && key.keyword !in keywords then None else Lookup(before, key)
  }

  // The rows of the given buckets are what the contributions aggregate to.
  ghost predicate Rebuilt(contributions: Contributions, before: map<Bucket, Rollup>, after: map<Bucket, Rollup>,
                          bs: set<Bucket>) {
    forall b :: Lookup(after, b) == if b in bs then NonZero(Aggregate(contributions, b)) else Lookup(before, b)
  }

  // After the upsert of the current keywords and the delete of the others, contributions are accurate.
  lemma ContributionsFollow(feed: Feed, feed': Feed, id: nat, row: FeedRow, fns: TextFunctions,
                            before: Contributions, middle: Contributions, after: Contributions)
    requires Upserted(feed, feed', id, row) && ContributionsAccurate(before, feed, fns)
    requires Contributed(before, middle, id, fns.keywords(row.post.text), Hour(feed'[id].firstSeenAt), feed'[id].likes)
    requires OthersDeleted(middle, after, id, fns.keywords(row.post.text))
    ensures ContributionsAccurate(after, feed', fns)
  {
    forall key ensures Lookup(after, key) == ContributionOf(feed', fns, key) {
      assert Lookup(before, key) == ContributionOf(feed, fns, key);
    }
  }

  // The buckets the old contributions of an item were in.
  function BucketsOf(contributions: Contributions, id: nat): set<Bucket> {
    set key | key in contributions && key.insight == id :: Bucket(key.keyword, contributions[key].window)
  }

  lemma ListedItemsContribute(feed: Feed, fns: TextFunctions, contributions: Contributions, id: nat, b: Bucket)
    requires ContributionsAccurate(contributions, feed, fns) && id in Items(feed, fns, b)
    ensures b in BucketsOf(contributions, id)
  {
    var key := ContributionKey(id, b.keyword);
    assert Lookup(contributions, key) == ContributionOf(feed, fns, key);
  }

  // Every bucket outside the item's old and new ones keeps its meaning, so rebuilding those is enough.
  lemma RollupsFollow(feed: Feed, feed': Feed, id: nat, row: FeedRow, fns: TextFunctions,
                      before: Contributions, after: Contributions,
                      rollups: map<Bucket, Rollup>, rollups': map<Bucket, Rollup>, affected: set<Bucket>)
    requires Upserted(feed, feed', id, row)
    requires ContributionsAccurate(before, feed, fns) && ContributionsAccurate(after, feed', fns)
    requires BucketsOf(before, id) + BucketsOf(after, id) <= affected
    requires RollupsAccurate(rollups, feed, fns) && Rebuilt(after, rollups, rollups', affected)
    ensures RollupsAccurate(rollups', feed', fns)
  {
    forall b ensures Lookup(rollups', b) == RollupOf(feed', fns, b) {
      AggregateIsAccurate(after, feed', fns, b);
      if b !in affected {
        assert id !in Items(feed, fns, b) by {
          if id in Items(feed, fns, b) {
            ListedItemsContribute(feed, fns, before, id, b);
            assert false;
          }
        }
        assert id !in Items(feed', fns, b) by {
          if id in Items(feed', fns, b) {
            ListedItemsContribute(feed', fns, after, id, b);
            assert false;
          }
        }
        UnaffectedBucket(feed, feed', fns, id, b);
        assert Lookup(rollups, b) == RollupOf(feed, fns, b);
      }
    }
  }

  // ---- the two tables written first, column by column ----

  // A new row holds the document. An existing one keeps its id and its firsts, takes the newer text, keeps the greater
  // counters and the later sighting, and fills in what is missing. No other row is touched.
  ghost predicate WritesItem(before: Feed, after: Feed, id: nat, doc: Document, captured: Time, fns: TextFunctions) {
    && id in after && after == before[id := after[id]]
    && var row := after[id];
    && row.tweetId == doc.tweetId && row.post == doc.post && row.textHash == fns.hash(doc.post.text)
    && if id !in before then
         && (forall i <- before :: before[i].tweetId != doc.tweetId)
         && row.likes == doc.likes && row.retweets == doc.retweets
         && row.conversation == doc.conversation && row.sourceCreatedAt == doc.sourceCreatedAt
         && row.ingestedAt == row.firstSeenAt == row.lastSeenAt == captured
       else
         var former := before[id];
         && former.tweetId == doc.tweetId
         && row.likes == (if former.likes < doc.likes then doc.likes else former.likes)
         && row.retweets == (if former.retweets < doc.retweets then doc.retweets else former.retweets)
         && row.conversation == (if doc.conversation.Some? then doc.conversation else former.conversation)
         && row.sourceCreatedAt
            == (if former.sourceCreatedAt.Some? then former.sourceCreatedAt else doc.sourceCreatedAt)
         && row.ingestedAt == former.ingestedAt && row.firstSeenAt == former.firstSeenAt
         && row.lastSeenAt == (if former.lastSeenAt < captured then captured else former.lastSeenAt)
  }

  // The observation is added, unless its key is taken.
  ghost predicate WritesObservation(before: map<string, Observation<nat>>, after: map<string, Observation<nat>>,
                                    key: string, id: nat, doc: Document, captured: Time, provenance: Provenance)
  {
    if key in before then after == before
    else
      && key in after && after == before[key := after[key]]
      && after[key].subject == id && after[key].capturedAt == captured
      && after[key].likes == doc.likes && after[key].retweets == doc.retweets
      && after[key].provenance == provenance
  }

  // Captured when the document says, or now; under the key given, or else one made of platform, tweet and capture time.
  ghost predicate WritesRecord(before: Feed, after: Feed, seen: map<string, Observation<nat>>,
                               seen': map<string, Observation<nat>>, id: nat, doc: Document,
                               observationKey: Option<string>, provenance: Provenance, now: Time, fns: TextFunctions)
  {
    var captured := if doc.capturedAt.Some? then doc.capturedAt.value else now;
    && WritesItem(before, after, id, doc, captured, fns)
    && (observationKey.Some? && observationKey.value != "" ==>
          WritesObservation(seen, seen', observationKey.value, id, doc, captured, provenance))
    && (observationKey.None? || observationKey.value == "" ==>
          WritesObservation(seen, seen', doc.post.platform + ":" + doc.tweetId + ":" + fns.isoFormat(captured), id, doc,
                            captured, provenance))
  }

  lemma RecordIsWritten(before: Feed, after: Feed, seen: map<string, Observation<nat>>,
                        seen': map<string, Observation<nat>>, id: nat, doc: Document, observationKey: Option<string>,
                        provenance: Provenance, now: Time, fns: TextFunctions)
    requires var captured := CaptureTime(doc, now);
             && WritesItem(before, after, id, doc, captured, fns)
             && WritesObservation(seen, seen', ObservationKey(observationKey, doc, captured, fns), id, doc, captured,
                                  provenance)
    ensures WritesRecord(before, after, seen, seen', id, doc, observationKey, provenance, now, fns)
  {}

  lemma UpsertWritesItem(before: Feed, after: Feed, id: nat, doc: Document, captured: Time, fns: TextFunctions)
    requires Upserted(before, after, id, ProposedRow(doc, captured, fns))
    ensures WritesItem(before, after, id, doc, captured, fns)
  {}

  // The buckets the transaction rebuilds.
  function Affected(before: Contributions, id: nat, keywords: set<string>, window: Time): set<Bucket> {
    BucketsOf(before, id) + set k | k in keywords :: Bucket(k, window)
  }

  lemma AffectedCoversNew(feed': Feed, fns: TextFunctions, before: Contributions, after: Contributions, id: nat)
    requires id in feed' && ContributionsAccurate(after, feed', fns)
    ensures Affected(before, id, fns.keywords(feed'[id].post.text), Hour(feed'[id].firstSeenAt))
            == BucketsOf(before, id) + BucketsOf(after, id)
  {
    var keywords, window := fns.keywords(feed'[id].post.text), Hour(feed'[id].firstSeenAt);
    forall k ensures Lookup(after, ContributionKey(id, k)) ==
                     if k in keywords then Some(Contribution(window, feed'[id].likes)) else None
    {
      var key := ContributionKey(id, k);
      assert Lookup(after, key) == ContributionOf(feed', fns, key);
    }
    forall b ensures b in BucketsOf(after, id) <==> b in set k | k in keywords :: Bucket(k, window) {
      assert Lookup(after, ContributionKey(id, b.keyword)) ==
             if b.keyword in keywords then Some(Contribution(window, feed'[id].likes)) else None;
    }
  }

  lemma ObservationFollows(feed: Feed, feed': Feed, id: nat, doc: Document, captured: Time, fns: TextFunctions,
                           key: string, provenance: Provenance,
                           before: map<string, Observation<nat>>, after: map<string, Observation<nat>>)
    requires UniqueTweets(feed) && UniqueTweets(feed') && Upserted(feed, feed', id, ProposedRow(doc, captured, fns))
    requires AllObserved(feed, before)
    requires after == map[key := Observation(id, captured, doc.likes, doc.retweets, provenance)] + before
    ensures AllObserved(feed', after)
    ensures forall k <- before :: before[k].subject in feed
    ensures forall k <- after :: after[k].subject in feed'
    ensures ViewOf(feed', after) == Combine(ViewOf(feed, before), Single(key, doc, captured, provenance, fns))
  {
    UpsertKeepsObserved(feed, feed', id, ProposedRow(doc, captured, fns), before);
    forall k <- before ensures before[k].subject in feed {
      assert Observed(feed, before[k]);
    }
    forall k <- after ensures Observed(feed', after[k]) {
      if k in before {
        assert Observed(feed', before[k]);
      }
    }
    OneMoreSeen(feed, feed', key, Observation(id, captured, doc.likes, doc.retweets, provenance), before);
    UpsertedView(feed, feed', id, ProposedRow(doc, captured, fns));
  }

  class AnalyticsDatabase {
    const fns: TextFunctions

    var feed: Feed
    var nextInsight: nat
    var observations: map<string, Observation<nat>>
    var contributions: Contributions
    var rollups: map<Bucket, Rollup>

    ghost predicate Keyed()
      reads this`feed, this`nextInsight
    {
      UniqueTweets(feed) && forall i <- feed :: i < nextInsight
    }

    ghost predicate Valid()
      reads this
    {
      && Keyed()
      && AllObserved(feed, observations)
      && (forall k <- observations :: observations[k].subject in feed)
      && ContributionsAccurate(contributions, feed, fns)
      && RollupsAccurate(rollups, feed, fns)
    }

    // The tables up to internal ids.
    ghost function Contents(): View
      requires Valid()
      reads this
    {
      ViewOf(feed, observations)
    }

    constructor (fns: TextFunctions)
      ensures Valid() && this.fns == fns && Contents() == NOTHING
    {
      this.fns := fns;
      feed, nextInsight, observations, contributions, rollups := map[], 1, map[], map[], map[];
    }

    // Other processes persist records meanwhile, but none under the given keys.
    method Interfere(ghost keys: set<string>)
      requires Valid()
      modifies this
      ensures Valid() && Grows(old(Contents()), Contents())
      ensures LeavesAlone(old(Contents()), Contents(), keys)
    {
      CombineIsABand(Contents(), Contents(), Contents());
      assert Contents() == Combine(Contents(), NOTHING);
    }

    // INSERT ... ON CONFLICT (original_tweet_id) DO UPDATE ... RETURNING insight_id
    method UpsertFeed(row: FeedRow) returns (id: nat)
      requires Keyed()
      modifies this`feed, this`nextInsight
      ensures Keyed() && Upserted(old(feed), feed, id, row)
    {
      ghost var before := feed;
      if existing :| existing in feed && feed[existing].tweetId == row.tweetId {
        id := existing;
        feed := feed[id := Merge(feed[id], row)];
      } else {
        id := nextInsight;
        feed := feed[id := row];
      }
      nextInsight := nextInsight + 1;
      UpsertKeepsTweetsUnique(before, feed, id, row);
    }

    // ON CONFLICT (insight_id, keyword), keyword after keyword
    method UpsertContributions(id: nat, keywords: set<string>, window: Time, likes: nat)
      modifies this`contributions
      ensures Contributed(old(contributions), contributions, id, keywords, window, likes)
    {
      var todo := keywords;
      while todo != {}
        invariant todo <= keywords
        invariant Contributed(old(contributions), contributions, id, keywords - todo, window, likes)
        decreases |todo|
      {
        var keyword :| keyword in todo;
        var key := ContributionKey(id, keyword);
        assert Lookup(contributions, key) == Lookup(old(contributions), key);
        contributions := contributions[key := Contribute(Lookup(contributions, key), window, likes)];
        todo := todo - {keyword};
      }
    }

    method DeleteOtherContributions(id: nat, keywords: set<string>)
      modifies this`contributions
      ensures OthersDeleted(old(contributions), contributions, id, keywords)
    {
      contributions := map key | key in contributions && (key.insight != id || key.keyword in keywords) ::
        contributions[key];
    }

    // The bucket's row becomes what the contributions aggregate to; no row where the count is zero.
    method RebuildRollupBucket(b: Bucket)
      modifies this`rollups
      ensures Lookup(rollups, b) == NonZero(Aggregate(contributions, b))
      ensures forall other :: other != b ==> Lookup(rollups, other) == Lookup(old(rollups), other)
    {
      var aggregate := Aggregate(contributions, b);
      if aggregate.count == 0 {
        rollups := rollups - {b};
        return;
      }
      rollups := rollups[b := aggregate];
    }

    method RebuildRollupBuckets(affected: set<Bucket>)
      modifies this`rollups
      ensures Rebuilt(contributions, old(rollups), rollups, affected)
    {
      var todo := affected;
      while todo != {}
        invariant todo <= affected
        invariant Rebuilt(contributions, old(rollups), rollups, affected - todo)
        decreases |todo|
      {
        var b :| b in todo;
        RebuildRollupBucket(b);
        todo := todo - {b};
      }
    }

    // The canonical row and, unless its key is taken, the observation.
    method StoreItem(doc: Document, captured: Time, key: string, provenance: Provenance) returns (id: nat)
      requires Keyed() && AllObserved(feed, observations)
      requires forall k <- observations :: observations[k].subject in feed
      modifies this`feed, this`nextInsight, this`observations
      ensures Keyed() && AllObserved(feed, observations)
      ensures forall k <- observations :: observations[k].subject in feed
      ensures Upserted(old(feed), feed, id, ProposedRow(doc, captured, fns))
      ensures WritesItem(old(feed), feed, id, doc, captured, fns)
      ensures WritesObservation(old(observations), observations, key, id, doc, captured, provenance)
      ensures ViewOf(feed, observations)
              == Combine(old(ViewOf(feed, observations)), Single(key, doc, captured, provenance, fns))
    {
      id := UpsertFeed(ProposedRow(doc, captured, fns));
      UpsertWritesItem(old(feed), feed, id, doc, captured, fns);
      var o := Observation(id, captured, doc.likes, doc.retweets, provenance);
      if key !in observations {
        observations := observations[key := o];
      }
      assert observations == map[key := o] + old(observations);
      ObservationFollows(old(feed), feed, id, doc, captured, fns, key, provenance, old(observations), observations);
    }

    // The item's contributions follow its row. The affected buckets are those it was in or now is in.
    method RefreshContributions(ghost before: Feed, id: nat, ghost row: FeedRow, keywords: set<string>)
      returns (affected: set<Bucket>)
      requires Upserted(before, feed, id, row) && keywords == fns.keywords(row.post.text)
      requires ContributionsAccurate(contributions, before, fns)
      modifies this`contributions
      ensures ContributionsAccurate(contributions, feed, fns)
      ensures affected == BucketsOf(old(contributions), id) + BucketsOf(contributions, id)
    {
      var window := Hour(feed[id].firstSeenAt);
      affected := Affected(contributions, id, keywords, window);
      UpsertContributions(id, keywords, window, feed[id].likes);
      ghost var middle := contributions;
      DeleteOtherContributions(id, keywords);
      ContributionsFollow(before, feed, id, row, fns, old(contributions), middle, contributions);
      AffectedCoversNew(feed, fns, old(contributions), contributions, id);
    }

    // The contributions of the item, and the rollups of the buckets they were in or are in now.
    method RefreshDerived(ghost before: Feed, id: nat, ghost row: FeedRow, keywords: set<string>)
      requires Upserted(before, feed, id, row) && keywords == fns.keywords(row.post.text)
      requires ContributionsAccurate(contributions, before, fns) && RollupsAccurate(rollups, before, fns)
      modifies this`contributions, this`rollups
      ensures ContributionsAccurate(contributions, feed, fns) && RollupsAccurate(rollups, feed, fns)
      ensures forall b :: b !in BucketsOf(old(contributions), id) && b !in BucketsOf(contributions, id) ==>
                Lookup(rollups, b) == Lookup(old(rollups), b)
    {
      var affected := RefreshContributions(before, id, row, keywords);
      RebuildRollupBuckets(affected);
      RollupsFollow(before, feed, id, row, fns, old(contributions), contributions, old(rollups), rollups, affected);
    }

    // Counters stay preserved by observations exactly when the key is new or the counter offered is no news.
    lemma CountersOfContents(key: string, doc: Document, captured: Time, provenance: Provenance)
      requires Valid()
      ensures CountersFollow(Contents(), Combine(Contents(), Single(key, doc, captured, provenance, fns)), key, doc)
    {
      ViewIsConsistent(feed, observations, Likes);
      ViewIsConsistent(feed, observations, Retweets);
      CountersFollowUpsert(Contents(), key, doc, captured, provenance, fns);
    }

    // One transaction. The derived tables stay functions of the feed; only the buckets of the item's old
    // and new keywords are touched; up to internal ids the tables become Combine(old, Single).
    method UpsertInsightRecord(doc: Document, observationKey: Option<string>, provenance: Provenance, now: Time)
      returns (ghost id: nat)
      requires Valid()
      modifies this
      ensures Valid()
      ensures var captured := CaptureTime(doc, now);
              Contents() == Combine(old(Contents()),
                Single(ObservationKey(observationKey, doc, captured, fns), doc, captured, provenance, fns))
      ensures CountersFollow(old(Contents()), Contents(),
                             ObservationKey(observationKey, doc, CaptureTime(doc, now), fns), doc)
      ensures WritesRecord(old(feed), feed, old(observations), observations, id, doc, observationKey, provenance, now,
                           fns)
      ensures forall b :: b !in BucketsOf(old(contributions), id) && b !in BucketsOf(contributions, id) ==>
                Lookup(rollups, b) == Lookup(old(rollups), b)
    {
      var captured := CaptureTime(doc, now);
      var key := ObservationKey(observationKey, doc, captured, fns);
      CountersOfContents(key, doc, captured, provenance);
      var insight := StoreItem(doc, captured, key, provenance);
      id := insight;
      RecordIsWritten(old(feed), feed, old(observations), observations, id, doc, observationKey, provenance, now, fns);
      RefreshDerived(old(feed), insight, ProposedRow(doc, captured, fns), fns.keywords(doc.post.text));
    }
  }
}
