// The tables the ingestion writes: canonical feed, observations, keyword contributions, hourly rollups.
module FeedTables {
  import opened Options

  // Microseconds since the epoch, in UTC.
  type Time = int

  const MICROSECONDS_PER_HOUR := 3_600_000_000

  // replace(minute=0, second=0, microsecond=0)
  function Hour(at: Time): (start: Time)
    ensures start <= at < start + 60 * 60 * 1_000_000 && start % (60 * 60 * 1_000_000) == 0
  {
    at - at % MICROSECONDS_PER_HOUR
  }

  datatype Sentiment = Unlabelled | Positive | Negative | Neutral

  // The columns every new version of a post overwrites.
  datatype Post = Post(platform: string, authorId: string, authorHandle: string, text: string, sentiment: Sentiment)

  // A validated record.
  datatype Document = Document(
    tweetId: string, post: Post, likes: nat, retweets: nat, conversation: Option<string>,
    sourceCreatedAt: Option<Time>, capturedAt: Option<Time>)

  // A row of social_insights_feed.
  datatype FeedRow = FeedRow(
    tweetId: string, post: Post, textHash: string, likes: nat, retweets: nat, conversation: Option<string>,
    sourceCreatedAt: Option<Time>, ingestedAt: Time, firstSeenAt: Time, lastSeenAt: Time)

  // Who collected an observation.
  datatype Provenance = Provenance(task: Option<nat>, generation: Option<nat>, adapter: Option<string>,
                                   version: Option<string>)

  // A row of social_ingestion_observations; the observed object is known by I.
  datatype Observation<I> = Observation(subject: I, capturedAt: Time, likes: nat, retweets: nat, provenance: Provenance)

  datatype ContributionKey = ContributionKey(insight: nat, keyword: string)

  // A row of keyword_rollup_contributions.
  datatype Contribution = Contribution(window: Time, likes: nat)

  datatype Bucket = Bucket(keyword: string, window: Time)

  // A row of keyword_hourly_rollups.
  datatype Rollup = Rollup(count: nat, likes: nat)

  // The text functions of the ingestion, whatever they are.
  datatype TextFunctions = TextFunctions(keywords: string -> set<string>, hash: string -> string,
                                         isoFormat: Time -> string)

  function Lookup<K, V>(m: map<K, V>, k: K): Option<V> {
    if k in m then Some(m[k]) else None
  }

  lemma SameLookups<K, V>(a: map<K, V>, b: map<K, V>)
    requires forall k :: Lookup(a, k) == Lookup(b, k)
    ensures a == b
  {
    forall k ensures k in a <==> k in b {
      assert Lookup(a, k) == Lookup(b, k);
    }
    forall k | k in a ensures a[k] == b[k] {
      assert Lookup(a, k) == Lookup(b, k);
    }
  }

  function Max(a: int, b: int): int {
    if a <= b then b else a
  }

  function Coalesce<T>(a: Option<T>, b: Option<T>): Option<T> {
    if a.Some? then a else b
  }

  // ---- the feed upsert ----

  function CaptureTime(doc: Document, now: Time): Time {
    if doc.capturedAt.Some? then doc.capturedAt.value else now
  }

  // The row INSERT proposes.
  function ProposedRow(doc: Document, captured: Time, fns: TextFunctions): FeedRow {
    FeedRow(doc.tweetId, doc.post, fns.hash(doc.post.text), doc.likes, doc.retweets, doc.conversation,
            doc.sourceCreatedAt, captured, captured, captured)
  }

  // ON CONFLICT (original_tweet_id) DO UPDATE
  function Merge(row: FeedRow, excluded: FeedRow): FeedRow {
    row.(post := excluded.post,
         textHash := excluded.textHash,
         likes := Max(row.likes, excluded.likes),
         retweets := Max(row.retweets, excluded.retweets),
         conversation := Coalesce(excluded.conversation, row.conversation),
         sourceCreatedAt := Coalesce(row.sourceCreatedAt, excluded.sourceCreatedAt),
         lastSeenAt := Max(row.lastSeenAt, excluded.lastSeenAt))
  }

  // ---- observation keys ----

  function Decimal(n: nat): string {
    (if n < 10 then [] else Decimal(n / 10)) + ["0123456789"[n % 10]]
  }

  function TaskObservationKey(task: nat, generation: nat, doc: Document): string {
    "task:" + Decimal(task) + ":generation:" + Decimal(generation) + ":" + doc.post.platform + ":" + doc.tweetId
  }

  function ObservationKey(given: Option<string>, doc: Document, captured: Time, fns: TextFunctions): string {
    if given.Some? && given.value != "" then given.value
    else doc.post.platform + ":" + doc.tweetId + ":" + fns.isoFormat(captured)
  }
}
