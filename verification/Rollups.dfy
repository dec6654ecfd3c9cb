// What the contribution and rollup tables mean: pure functions of the canonical feed.
module Rollups {
  import opened FeedTables
  import opened Options
  import opened Sums

  type Feed = map<nat, FeedRow>

  ghost predicate UniqueTweets(feed: Feed) {
    forall i <- feed, j <- feed :: feed[i].tweetId == feed[j].tweetId ==> i == j
  }

  // ---- the meaning of the derived tables ----

  function ContributionOf(feed: Feed, fns: TextFunctions, key: ContributionKey): Option<Contribution> {
    if key.insight in feed && key.keyword in fns.keywords(feed[key.insight].post.text) then
      Some(Contribution(Hour(feed[key.insight].firstSeenAt), feed[key.insight].likes))
    else None
  }

  // The items first seen in the bucket's hour whose current text has the keyword.
  function Items(feed: Feed, fns: TextFunctions, b: Bucket): set<nat> {
    set i | i in feed && b.keyword in fns.keywords(feed[i].post.text) && Hour(feed[i].firstSeenAt) == b.window
  }

  function Likes(feed: Feed): map<nat, nat> {
    map i | i in feed :: feed[i].likes
  }

  // No row where the count is zero.
  function RollupOf(feed: Feed, fns: TextFunctions, b: Bucket): Option<Rollup> {
    var items := Items(feed, fns, b);
    if items == {} then None else Some(Rollup(|items|, Sum(Likes(feed), items)))
  }

  ghost predicate ContributionsAccurate(contributions: map<ContributionKey, Contribution>, feed: Feed,
                                        fns: TextFunctions) {
    forall key :: Lookup(contributions, key) == ContributionOf(feed, fns, key)
  }

  ghost predicate RollupsAccurate(rollups: map<Bucket, Rollup>, feed: Feed, fns: TextFunctions) {
    forall b :: Lookup(rollups, b) == RollupOf(feed, fns, b)
  }

  // ---- the aggregate query ----

  function Contributors(contributions: map<ContributionKey, Contribution>, b: Bucket): set<nat> {
    set key | key in contributions && key.keyword == b.keyword && contributions[key].window == b.window :: key.insight
  }

  function ContributedLikes(contributions: map<ContributionKey, Contribution>, b: Bucket): map<nat, nat> {
    map i | i in Contributors(contributions, b) && ContributionKey(i, b.keyword) in contributions ::
      contributions[ContributionKey(i, b.keyword)].likes
  }

  // SELECT COUNT(*), COALESCE(SUM(engagement_likes), 0) ... WHERE keyword = ... AND window_timestamp = ...
  function Aggregate(contributions: map<ContributionKey, Contribution>, b: Bucket): Rollup {
    var ids := Contributors(contributions, b);
    assert ids <= ContributedLikes(contributions, b).Keys;
    Rollup(|ids|, Sum(ContributedLikes(contributions, b), ids))
  }

  function NonZero(rollup: Rollup): Option<Rollup> {
    if rollup.count == 0 then None else Some(rollup)
  }

  // Aggregating accurate contributions gives what the feed means.
  lemma AggregateIsAccurate(contributions: map<ContributionKey, Contribution>, feed: Feed, fns: TextFunctions,
                            b: Bucket)
    requires ContributionsAccurate(contributions, feed, fns)
    ensures NonZero(Aggregate(contributions, b)) == RollupOf(feed, fns, b)
  {
    var ids := Contributors(contributions, b);
    var items := Items(feed, fns, b);
    forall i ensures i in ids <==> i in items {
      var key := ContributionKey(i, b.keyword);
      assert Lookup(contributions, key) == ContributionOf(feed, fns, key);
    }
    assert ids == items;
    forall i <- ids ensures ContributedLikes(contributions, b)[i] == Likes(feed)[i] {
      var key := ContributionKey(i, b.keyword);
      assert Lookup(contributions, key) == ContributionOf(feed, fns, key);
    }
    SumRenamed(ContributedLikes(contributions, b), ids, Likes(feed), items, map i | i in ids :: i);
  }

  // ---- what one upsert can change ----

  // A bucket that lists the changed item neither before nor after keeps its meaning.
  lemma UnaffectedBucket(feed: Feed, feed': Feed, fns: TextFunctions, id: nat, b: Bucket)
    requires id in feed' && feed'.Keys == feed.Keys + {id}
    requires forall i <- feed :: i != id ==> feed'[i] == feed[i]
    requires id !in Items(feed, fns, b) && id !in Items(feed', fns, b)
    ensures RollupOf(feed', fns, b) == RollupOf(feed, fns, b)
  {
    var items := Items(feed, fns, b);
    assert Items(feed', fns, b) == items;
    SumRenamed(Likes(feed), items, Likes(feed'), items, map i | i in items :: i);
  }

  // ---- independence of internal ids ----

  function ByTweet(feed: Feed): (view: map<string, FeedRow>)
    requires UniqueTweets(feed)
    ensures forall t :: t in view <==> exists i <- feed :: feed[i].tweetId == t
    ensures forall i <- feed :: feed[i].tweetId in view && view[feed[i].tweetId] == feed[i]
  {
    map i | i in feed :: feed[i].tweetId := feed[i]
  }

  ghost function IdOf(feed: Feed, row: FeedRow): (i: nat)
    requires exists i <- feed :: feed[i] == row
    ensures i in feed && feed[i] == row
  {
    var i :| i in feed && feed[i] == row;
    i
  }

  lemma HasCounterpart(feed: Feed, other: Feed, i: nat)
    requires UniqueTweets(feed) && UniqueTweets(other) && ByTweet(feed) == ByTweet(other) && i in feed
    ensures exists j <- other :: other[j] == feed[i]
  {
    assert feed[i].tweetId in ByTweet(other);
    var j :| j in other && other[j].tweetId == feed[i].tweetId;
    assert other[j] == ByTweet(other)[feed[i].tweetId] == feed[i];
  }

  ghost function Renaming(feed: Feed, other: Feed, items: set<nat>): (rename: map<nat, nat>)
    requires UniqueTweets(feed) && UniqueTweets(other) && ByTweet(feed) == ByTweet(other) && items <= feed.Keys
    ensures rename.Keys == items
    ensures forall i <- items :: rename[i] in other && other[rename[i]] == feed[i]
  {
    map i | i in items :: (HasCounterpart(feed, other, i); IdOf(other, feed[i]))
  }

  // Feeds that agree up to internal ids have the same rollups.
  lemma RollupsIgnoreIds(feed: Feed, other: Feed, fns: TextFunctions, b: Bucket)
    requires UniqueTweets(feed) && UniqueTweets(other) && ByTweet(feed) == ByTweet(other)
    ensures RollupOf(feed, fns, b) == RollupOf(other, fns, b)
  {
    var items, images := Items(feed, fns, b), Items(other, fns, b);
    var rename := Renaming(feed, other, items);
    forall j <- images ensures exists i <- items :: rename[i] == j {
      HasCounterpart(other, feed, j);
      var i :| i in feed && feed[i] == other[j];
      assert i in items && other[rename[i]] == other[j];
    }
    SumRenamed(Likes(feed), items, Likes(other), images, rename);
  }

  // ... and the same contributions.
  lemma ContributionsIgnoreIds(feed: Feed, other: Feed, fns: TextFunctions, i: nat, j: nat, keyword: string)
    requires UniqueTweets(feed) && UniqueTweets(other) && ByTweet(feed) == ByTweet(other)
    requires i in feed && j in other && feed[i].tweetId == other[j].tweetId
    ensures ContributionOf(feed, fns, ContributionKey(i, keyword)) ==
              ContributionOf(other, fns, ContributionKey(j, keyword))
  {
    assert ByTweet(feed)[feed[i].tweetId] == ByTweet(other)[other[j].tweetId];
  }
}
