// IngestionExecutor: one adapter call under a token lease, and the page loop with failover.
module Collector {
  import opened Options
  import opened TokenPool
  import opened TokenRepository

  datatype CollectionKind =
    AuthenticationFailure | RateLimited | TransientNetworkFailure | CollectorChanged | PermanentTaskFailure
  {
    predicate Retryable() { !PermanentTaskFailure? }

    predicate SessionFault() { AuthenticationFailure? || RateLimited? }

    function FailureClass(): string {
      match this
      case AuthenticationFailure => "authentication_failure"
      case RateLimited => "rate_limited"
      case TransientNetworkFailure => "transient_network_failure"
      case CollectorChanged => "collector_changed"
      case PermanentTaskFailure => "permanent_task_failure"
    }
  }

  datatype CollectionError = CollectionError(kind: CollectionKind, retryAfter: Option<real>)

  // Anything else an adapter or the database raises is unexpected.
  datatype Raised = Collection(error: CollectionError) | Unexpected

  // A collected record; the collector's provenance is filled in only where it is missing.
  datatype Item = Item(body: string, adapter: Option<string>, version: Option<string>)

  datatype Batch = Batch(items: seq<Item>, nextCursor: Option<string>, adapter: string, version: string)

  datatype Request = Request(query: string, product: string, cursor: Option<string>, pageSize: int)

  // What the plan asks for, page after page.
  datatype Search = Search(query: string, product: string, first: Option<string>, pageSize: int)
  {
    function At(cursor: Option<string>): Request {
      Request(query, product, if Blank(cursor) then None else cursor, pageSize)
    }
  }

  datatype Adapter = Adapter(name: string, requiresSession: bool)

  datatype Attempt = Delivers(batch: Batch) | Raises(raised: Raised)
  {
    function Result(): Result<Batch, Raised> {
      match this
      case Delivers(batch) => Ok(batch)
      case Raises(raised) => Err(raised)
    }
  }

  // An adapter call, and whether the statement that closes its lease goes through.
  datatype Session = Session(attempt: Attempt, closes: bool)

  // How the lease of an attempt is closed.
  function Closing(attempt: Attempt, lease: TokenLease, cooldownSeconds: real): PoolAction {
    match attempt
    case Delivers(_) => PoolAction.RecordSuccess(lease)
    case Raises(Collection(error)) =>
      if error.kind.SessionFault() then PoolAction.MarkCooldown(lease, cooldownSeconds)
      else PoolAction.ReleaseLease(lease)
    case Raises(Unexpected) => PoolAction.ReleaseLease(lease)
  }

  // A session fault cools the token down, anything delivered is recorded, and any other end releases the lease.
  predicate ClosesAs(a: PoolAction, attempt: Attempt, lease: TokenLease, cooldownSeconds: real) {
    match attempt
    case Delivers(_) => a == PoolAction.RecordSuccess(lease)
    case Raises(Unexpected) => a == PoolAction.ReleaseLease(lease)
    case Raises(Collection(error)) =>
      match error.kind
      case AuthenticationFailure => a == PoolAction.MarkCooldown(lease, cooldownSeconds)
      case RateLimited => a == PoolAction.MarkCooldown(lease, cooldownSeconds)
      case _ => a == PoolAction.ReleaseLease(lease)
  }

  function WithProvenance(item: Item, batch: Batch): Item {
    item.(adapter := if item.adapter.None? then Some(batch.adapter) else item.adapter,
          version := if item.version.None? then Some(batch.version) else item.version)
  }

  function StampedItems(batch: Batch): (items: seq<Item>)
    ensures |items| == |batch.items|
  {
    seq(|batch.items|, i requires 0 <= i < |batch.items| => WithProvenance(batch.items[i], batch))
  }

  function AllItems(batches: seq<Batch>): seq<Item> {
    if batches == [] then [] else AllItems(batches[..|batches| - 1]) + StampedItems(batches[|batches| - 1])
  }

  predicate Blank(cursor: Option<string>) {
    cursor.None? || cursor.value == ""
  }

  // The cursor the next page starts from.
  function CursorAfter(first: Option<string>, batches: seq<Batch>): Option<string> {
    if batches == [] then first else batches[|batches| - 1].nextCursor
  }

  // What the adapters do when asked for a page: primary, failover, recovery.
  type Script = (nat, nat, Request) -> Session

  // What stays the same over all calls of one collection.
  datatype Calls = Calls(
    primary: Adapter, recovery: Option<Adapter>, script: Script, worker: string, locked: set<nat>, leaseSeconds: real)

  // One call of the session wrapper: with which adapter, under which name and for what, what the adapter did, how far
  // the pool had come, which lease was taken, and what came of it.
  datatype Try = Try(
    adapter: Adapter, owner: string, request: Request, session: Session, before: PoolRun, lease: Option<TokenLease>,
    result: Result<Batch, Raised>)
  {
    // The adapter's result, unless its lease could not be had or could not be closed.
    predicate Honest() {
      if !adapter.requiresSession then lease.None? && Passes()
      else if lease.Some? then if session.closes then Passes() else result == Err(Unexpected)
      else result == Err(Unexpected) || result == Err(Collection(CollectionError(AuthenticationFailure, None)))
    }

    predicate Passes() {
      match session.attempt
      case Delivers(batch) => result == Ok(batch)
      case Raises(raised) => result == Err(raised)
    }

    predicate Closed() { lease.Some? ==> session.closes }
  }

  const NO_SESSION := Collection(CollectionError(AuthenticationFailure, None))

  predicate Made(t: Try, adapter: Adapter, owner: string, request: Request, session: Session) {
    && t.adapter == adapter && t.owner == owner && t.request == request && t.session == session
    && t.Honest()
  }

  predicate Handled(result: Result<Batch, Raised>) {
    result.Err? && result.error.Collection?
  }

  // The session calls made for a page, in order, and what comes of them: the primary adapter, one failover to another
  // session after a session fault, and the recovery adapter for whatever failure is left.
  predicate Resolves(tried: seq<Try>, calls: Calls, page: nat, request: Request, result: Result<Batch, Raised>) {
    && tried != [] && result == tried[|tried| - 1].result
    && Made(tried[0], calls.primary, calls.worker, request, calls.script(page, 0, request))
    && if !Handled(tried[0].result) then |tried| == 1
       else if tried[0].result.error.error.kind in {AuthenticationFailure, RateLimited} then
         && |tried| >= 2
         && Made(tried[1], calls.primary, calls.worker + ":failover", request, calls.script(page, 1, request))
         && if !Handled(tried[1].result) || calls.recovery.None? then |tried| == 2
            else |tried| == 3 && Recovers(tried[2], calls, page, request)
       else if calls.recovery.None? then |tried| == 1
       else |tried| == 2 && Recovers(tried[1], calls, page, request)
  }

  predicate Recovers(t: Try, calls: Calls, page: nat, request: Request)
    requires calls.recovery.Some?
  {
    Made(t, calls.recovery.value, calls.worker + ":recovery", request, calls.script(page, 2, request))
  }

  // What the run of the pool says about a call made between r0 and r: if the adapter needs a session, its checkout is a
  // step of the run, the lease is the one that step granted, and it is gone if it could be closed.
  ghost predicate Accounted(t: Try, r0: PoolRun, r: PoolRun, calls: Calls) {
    && Extends(r0, t.before)
    && if !t.adapter.requiresSession then t.lease.None? && Extends(t.before, r)
       else
         && Extends(Step(t.before, Checkout(t.owner, calls.leaseSeconds, calls.locked)), r)
         && match Choose(After(t.before), t.owner, calls.locked)
            case NoToken =>
              t.lease.None? && t.result == Err(Collection(CollectionError(AuthenticationFailure, None)))
            case AlreadyHeld(_) => t.lease.None? && t.result == Err(Unexpected)
            case Chosen(token) =>
              && t.lease.Some? && t.lease.value.tokenId == token && t.lease.value.owner == t.owner
              && t.lease.value.leaseId == After(t.before).nextLease
              && (t.session.closes ==> t.lease.value.leaseId !in After(r).leases)
  }

  lemma StaysAccounted(t: Try, r0: PoolRun, r: PoolRun, r': PoolRun, calls: Calls)
    requires Accounted(t, r0, r, calls) && Extends(r, r')
    ensures Accounted(t, r0, r', calls)
  {
    if !t.adapter.requiresSession {
      ExtendsTransitive(t.before, r, r');
    } else {
      var taken := Step(t.before, Checkout(t.owner, calls.leaseSeconds, calls.locked));
      ExtendsTransitive(taken, r, r');
      if t.lease.Some? {
        GrantedId(t.before, t.owner, calls.leaseSeconds, calls.locked);
        RunEvolves(taken, r);
        RunEvolves(r, r');
      }
    }
  }

  // A checkout that grants a lease uses up its id.
  lemma GrantedId(r: PoolRun, owner: string, seconds: real, locked: set<nat>)
    requires Choose(After(r), owner, locked).Chosen?
    ensures After(r).nextLease < After(Step(r, Checkout(owner, seconds, locked))).nextLease
  {
    var t := Choose(After(r), owner, locked).token;
    assert t in Candidates(Purged(After(r)), locked);
  }

  // Every call is accounted for, so every lease taken and closed is gone.
  ghost predicate GivenBack(tried: seq<Try>, r0: PoolRun, r: PoolRun, calls: Calls) {
    forall i | 0 <= i < |tried| :: Accounted(tried[i], r0, r, calls)
  }

  lemma StaysGivenBack(tried: seq<Try>, r0: PoolRun, r: PoolRun, r': PoolRun, calls: Calls)
    requires GivenBack(tried, r0, r, calls) && Extends(r, r')
    ensures GivenBack(tried, r0, r', calls)
  {
    forall i | 0 <= i < |tried| ensures Accounted(tried[i], r0, r', calls) {
      StaysAccounted(tried[i], r0, r, r', calls);
    }
  }

  // An earlier starting point does as well.
  lemma AccountedSince(tried: seq<Try>, r: PoolRun, r0: PoolRun, r': PoolRun, calls: Calls)
    requires GivenBack(tried, r0, r', calls) && Extends(r, r0)
    ensures GivenBack(tried, r, r', calls)
  {
    forall i | 0 <= i < |tried| ensures Accounted(tried[i], r, r', calls) {
      assert Accounted(tried[i], r0, r', calls);
      ExtendsTransitive(r, r0, tried[i].before);
    }
  }

  // No lease was left open.
  predicate AllClosed(tried: seq<Try>) {
    forall i | 0 <= i < |tried| :: tried[i].Closed()
  }

  // The names a worker checks tokens out under.
  function NamesOf(worker: string): set<string> {
    {worker, worker + ":failover", worker + ":recovery"}
  }

  // The pages delivered: each by the calls made for the request its predecessor's cursor makes.
  predicate PagesDeliver(pages: seq<seq<Try>>, calls: Calls, search: Search, batches: seq<Batch>) {
    && |pages| == |batches|
    && (batches == [] ||
        (var n := |batches| - 1;
         && PagesDeliver(pages[..n], calls, search, batches[..n])
         && (n > 0 ==> !Blank(batches[n - 1].nextCursor))
         && Resolves(pages[n], calls, n, search.At(CursorAfter(search.first, batches[..n])), Ok(batches[n]))))
  }

  // All calls of a collection: those of the pages delivered, and of the page that failed, if one did.
  predicate PagesResolve(pages: seq<seq<Try>>, calls: Calls, search: Search, batches: seq<Batch>,
                         failure: Option<Raised>)
  {
    if failure.None? then PagesDeliver(pages, calls, search, batches)
    else
      && |pages| == |batches| + 1
      && PagesDeliver(pages[..|batches|], calls, search, batches)
      && (batches != [] ==> !Blank(batches[|batches| - 1].nextCursor))
      && Resolves(pages[|batches|], calls, |batches|, search.At(CursorAfter(search.first, batches)), Err(failure.value))
  }

  // The call asks for what is planned: query, product and page size, and the cursor given, unless it is empty.
  predicate AsksFor(t: Try, search: Search, cursor: Option<string>) {
    && t.request.query == search.query && t.request.product == search.product
    && t.request.pageSize == search.pageSize
    && t.request.cursor == if cursor.Some? && cursor.value != "" then cursor else None
  }

  // Every call of the first page starts from the planned cursor, and of a later page where the one before ended.
  ghost predicate PagesAsk(pages: seq<seq<Try>>, search: Search, batches: seq<Batch>) {
    && |pages| <= |batches| + 1
    && forall i | 0 <= i < |pages| ::
         PageAsks(pages[i], search, if i == 0 then search.first else batches[i - 1].nextCursor)
  }

  predicate PageAsks(tried: seq<Try>, search: Search, cursor: Option<string>) {
    forall k | 0 <= k < |tried| :: AsksFor(tried[k], search, cursor)
  }

  lemma ResolvedPageAsks(tried: seq<Try>, calls: Calls, page: nat, search: Search, cursor: Option<string>,
                         result: Result<Batch, Raised>)
    requires Resolves(tried, calls, page, search.At(cursor), result)
    ensures PageAsks(tried, search, cursor)
  {
    assert |tried| <= 3;
    forall k | 0 <= k < |tried| ensures AsksFor(tried[k], search, cursor) {
      assert k == 0 || k == 1 || k == 2;
    }
  }

  lemma {:induction false} DeliveredPagesAsk(pages: seq<seq<Try>>, calls: Calls, search: Search, batches: seq<Batch>)
    requires PagesDeliver(pages, calls, search, batches)
    ensures PagesAsk(pages, search, batches)
    decreases |batches|
  {
    if batches == [] {
    } else {
      var n := |batches| - 1;
      DeliveredPagesAsk(pages[..n], calls, search, batches[..n]);
      forall i | 0 <= i < |pages|
        ensures PageAsks(pages[i], search, if i == 0 then search.first else batches[i - 1].nextCursor)
      {
        if i < n {
          assert pages[..n][i] == pages[i];
          assert i > 0 ==> batches[..n][i - 1] == batches[i - 1];
        } else {
          ResolvedPageAsks(pages[n], calls, n, search, CursorAfter(search.first, batches[..n]), Ok(batches[n]));
        }
      }
    }
  }

  lemma ResolvedPagesAsk(pages: seq<seq<Try>>, calls: Calls, search: Search, batches: seq<Batch>,
                         failure: Option<Raised>)
    requires PagesResolve(pages, calls, search, batches, failure)
    ensures PagesAsk(pages, search, batches)
  {
    if failure.None? {
      DeliveredPagesAsk(pages, calls, search, batches);
    } else {
      var n := |batches|;
      DeliveredPagesAsk(pages[..n], calls, search, batches);
      ResolvedPageAsks(pages[n], calls, n, search, CursorAfter(search.first, batches), Err(failure.value));
      assert forall i | 0 <= i < n :: pages[..n][i] == pages[i];
    }
  }

  // Every page but the last leads on, and the last does not, unless the limit was reached.
  predicate LeadsOn(batch: Batch) {
    batch.nextCursor.Some? && batch.nextCursor.value != ""
  }

  ghost predicate Chained(batches: seq<Batch>) {
    forall i | 0 <= i < |batches| - 1 :: LeadsOn(batches[i])
  }

  predicate AtEnd(batches: seq<Batch>, maxPages: nat) {
    |batches| == maxPages || (batches != [] && !LeadsOn(batches[|batches| - 1]))
  }

  lemma {:induction false} DeliveredAreChained(pages: seq<seq<Try>>, calls: Calls, search: Search, batches: seq<Batch>)
    requires PagesDeliver(pages, calls, search, batches)
    ensures Chained(batches)
    decreases |batches|
  {
    if batches == [] {
    } else {
      var n := |batches| - 1;
      DeliveredAreChained(pages[..n], calls, search, batches[..n]);
      forall i | 0 <= i < n ensures LeadsOn(batches[i]) {
        assert i < n - 1 ==> LeadsOn(batches[..n][i]);
      }
    }
  }

  lemma PagesHangTogether(pages: seq<seq<Try>>, calls: Calls, search: Search, batches: seq<Batch>,
                          failure: Option<Raised>)
    requires PagesResolve(pages, calls, search, batches, failure)
    ensures PagesAsk(pages, search, batches) && Chained(batches)
    ensures failure.Some? && batches != [] ==> LeadsOn(batches[|batches| - 1])
  {
    ResolvedPagesAsk(pages, calls, search, batches, failure);
    if failure.None? {
      DeliveredAreChained(pages, calls, search, batches);
    } else {
      DeliveredAreChained(pages[..|batches|], calls, search, batches);
    }
  }

  // Where the items of page i start.
  function Offset(batches: seq<Batch>, i: nat): nat
    requires i <= |batches|
  {
    if i == 0 then 0 else Offset(batches, i - 1) + |batches[i - 1].items|
  }

  lemma {:induction false} OffsetOfFront(batches: seq<Batch>, n: nat, i: nat)
    requires i <= n <= |batches|
    ensures Offset(batches[..n], i) == Offset(batches, i)
  {
    if i == 0 {
    } else {
      OffsetOfFront(batches, n, i - 1);
    }
  }

  // Batch after batch, item after item, as they were delivered; only a missing collector is filled in.
  lemma {:induction false} ItemsComeInOrder(batches: seq<Batch>, i: nat, k: nat)
    requires i < |batches| && k < |batches[i].items|
    ensures |AllItems(batches)| == Offset(batches, |batches|)
    ensures Offset(batches, i) + k < |AllItems(batches)|
    ensures var (given, item, batch) := (batches[i].items[k], AllItems(batches)[Offset(batches, i) + k], batches[i]);
            && item.body == given.body
            && (if given.adapter.Some? then item.adapter == given.adapter else item.adapter == Some(batch.adapter))
            && (if given.version.Some? then item.version == given.version else item.version == Some(batch.version))
  {
    var n := |batches| - 1;
    OffsetOfFront(batches, n, n);
    OffsetOfFront(batches, n, i);
    if i < n {
      ItemsComeInOrder(batches[..n], i, k);
    } else {
      ItemsAreCounted(batches[..n]);
    }
  }

  lemma {:induction false} ItemsAreCounted(batches: seq<Batch>)
    ensures |AllItems(batches)| == Offset(batches, |batches|)
  {
    if batches == [] {
    } else {
      ItemsAreCounted(batches[..|batches| - 1]);
      OffsetOfFront(batches, |batches| - 1, |batches| - 1);
    }
  }

  ghost predicate AllGivenBack(pages: seq<seq<Try>>, r0: PoolRun, r: PoolRun, calls: Calls) {
    forall i | 0 <= i < |pages| :: GivenBack(pages[i], r0, r, calls)
  }

  lemma OneMorePage(pages: seq<seq<Try>>, tried: seq<Try>, r0: PoolRun, r: PoolRun, r': PoolRun, calls: Calls)
    requires AllGivenBack(pages, r0, r, calls) && GivenBack(tried, r, r', calls) && Extends(r0, r) && Extends(r, r')
    ensures AllGivenBack(pages + [tried], r0, r', calls)
  {
    forall i | 0 <= i < |pages| ensures GivenBack(pages[i], r0, r', calls) {
      StaysGivenBack(pages[i], r0, r, r', calls);
    }
    AccountedSince(tried, r0, r, r', calls);
  }

  // The next page delivers, or ends the collection.
  lemma OnePageMore(pages: seq<seq<Try>>, tried: seq<Try>, calls: Calls, search: Search, batches: seq<Batch>,
                    batch: Result<Batch, Raised>)
    requires PagesDeliver(pages, calls, search, batches)
    requires batches != [] ==> !Blank(batches[|batches| - 1].nextCursor)
    requires Resolves(tried, calls, |batches|, search.At(CursorAfter(search.first, batches)), batch)
    ensures batch.Err? ==> PagesResolve(pages + [tried], calls, search, batches, Some(batch.error))
    ensures batch.Ok? ==>
              var batches' := batches + [batch.value];
              && PagesDeliver(pages + [tried], calls, search, batches')
              && AllItems(batches') == AllItems(batches) + StampedItems(batch.value)
              && CursorAfter(search.first, batches') == batch.value.nextCursor
  {
    assert (pages + [tried])[..|pages|] == pages;
    if batch.Ok? {
      assert (batches + [batch.value])[..|batches|] == batches;
    }
  }

  // Only the last call of a page can leave a lease open, and then the page ends with an unexpected failure.
  lemma OpenLeaseEndsThePage(tried: seq<Try>, calls: Calls, page: nat, request: Request, result: Result<Batch, Raised>)
    requires Resolves(tried, calls, page, request, result)
    ensures AllClosed(tried[..|tried| - 1])
    ensures result != Err(Unexpected) ==> AllClosed(tried)
  {
    assert |tried| <= 3;
    forall i | 0 <= i < |tried| ensures tried[i].Honest() {
      assert i == 0 || i == 1 || i == 2;
    }
    forall i | 0 <= i < |tried| - 1 ensures tried[i].Closed() {
      assert i == 0 || i == 1;
      assert Handled(tried[i].result);
    }
    assert tried[|tried| - 1].Honest();
  }

  class IngestionExecutor {
    const pool: TokenRepository
    const primary: Adapter
    const recovery: Option<Adapter>
    const leaseSeconds: real
    const cooldownSeconds: real

    constructor (pool: TokenRepository, primary: Adapter, recovery: Option<Adapter>, leaseSeconds: real,
                 cooldownSeconds: real)
      requires leaseSeconds > 0.0
      ensures this.pool == pool && this.primary == primary && this.recovery == recovery
      ensures this.leaseSeconds == leaseSeconds && this.cooldownSeconds == cooldownSeconds
    {
      this.pool := pool;
      this.primary := primary;
      this.recovery := recovery;
      this.leaseSeconds := leaseSeconds;
      this.cooldownSeconds := cooldownSeconds;
    }

    method Close(attempt: Attempt, lease: TokenLease)
      requires pool.Valid()
      modifies pool
      ensures pool.Valid() && pool.history == Step(old(pool.history), Closing(attempt, lease, cooldownSeconds))
    {
      match attempt {
        case Delivers(_) => pool.RecordSuccess(lease);
        case Raises(Collection(error)) =>
          if error.kind.SessionFault() {
            pool.MarkCooldown(lease, cooldownSeconds);
          } else {
            pool.ReleaseLease(lease);
          }
        case Raises(Unexpected) => pool.ReleaseLease(lease);
      }
    }

    // Whichever way an attempt is closed, and whatever happened since the checkout, its lease is gone.
    static lemma ClosedLeaseIsGone(taken: PoolRun, closing: PoolRun, attempt: Attempt, lease: TokenLease, seconds: real)
      requires Extends(taken, closing) && lease.leaseId in After(taken).leases
      requires lease.leaseId < After(taken).nextLease && After(taken).leases[lease.leaseId].owner == lease.owner
      ensures var closed := Next(After(closing), Closing(attempt, lease, seconds));
              lease.leaseId !in closed.leases && lease.leaseId < closed.nextLease
    {
      RunEvolves(taken, closing);
    }

    // The adapter works while others use the pool; then the lease is closed, if the statement goes through, and
    // nothing is left of it.
    method UseLease(session: Session, lease: TokenLease, ghost names: set<string>)
      requires pool.Valid() && lease.leaseId in pool.leases && lease.leaseId < pool.nextLease
      requires pool.leases[lease.leaseId].owner == lease.owner
      modifies pool
      ensures pool.Valid() && Extends(old(pool.history), pool.history) && lease.leaseId < pool.nextLease
      ensures session.closes ==>
                && lease.leaseId !in pool.leases && pool.history.Step?
                && pool.history.action == Closing(session.attempt, lease, cooldownSeconds)
      ensures pool.NoNewLeases(names, old(pool.leases))
    {
      ghost var taken := pool.history;
      pool.Interfere(names);
      ghost var closing := pool.history;
      ghost var leases := pool.leases;
      RunEvolves(taken, closing);
      if session.closes {
        Close(session.attempt, lease);
        ClosedLeaseIsGone(taken, closing, session.attempt, lease, cooldownSeconds);
        StepEvolves(After(closing), pool.history.action);
        assert forall l <- pool.leases :: l in leases && pool.leases[l] == leases[l];
        assert Extends(closing, pool.history);
        ExtendsTransitive(taken, closing, pool.history);
      }
    }

    function CallsFor(script: Script, worker: string, locked: set<nat>): Calls {
      Calls(primary, recovery, script, worker, locked, leaseSeconds)
    }

    // Whatever happens meanwhile, the lease taken is gone on the way out, unless closing it fails.
    method CollectWithSession(adapter: Adapter, request: Request, session: Session, owner: string,
                              ghost names: set<string>, ghost calls: Calls, locked: set<nat>)
      returns (result: Result<Batch, Raised>, ghost tried: Try)
      requires pool.Valid() && leaseSeconds > 0.0
      requires calls.locked == locked && calls.leaseSeconds == leaseSeconds
      modifies pool
      ensures pool.Valid() && Extends(old(pool.history), pool.history)
      ensures Made(tried, adapter, owner, request, session) && tried.result == result
      ensures tried.before == old(pool.history) && Accounted(tried, old(pool.history), pool.history, calls)
      ensures tried.Closed() ==> pool.NoNewLeases(names, old(pool.leases))
      ensures adapter.requiresSession <==> pool.history != old(pool.history)
      ensures tried.lease.Some? && session.closes ==>
                && pool.history.Step?
                && ClosesAs(pool.history.action, session.attempt, tried.lease.value, cooldownSeconds)
    {
      ghost var before := pool.history;
      result := session.attempt.Result();
      if !adapter.requiresSession {
        tried := Try(adapter, owner, request, session, before, None, result);
        return;
      }
      var checkout := pool.CheckoutToken(owner, leaseSeconds, locked);
      ghost var taken := pool.history;
      if checkout.Err? || checkout.value.None? {
        result := Err(if checkout.Err? then Unexpected else NO_SESSION);
        tried := Try(adapter, owner, request, session, before, None, result);
        Continues(before, taken, taken);
        return;
      }
      var held := checkout.value.value;
      UseLease(session, held, names);
      Continues(before, taken, pool.history);
      if !session.closes {
        result := Err(Unexpected);
      }
      tried := Try(adapter, owner, request, session, before, Some(held), result);
    }

    static lemma Continues(before: PoolRun, taken: PoolRun, r: PoolRun)
      requires taken.Step? && taken.before == before && Extends(taken, r)
      ensures Extends(before, r) && r != before
    {
      assert Extends(before, taken);
      ExtendsTransitive(before, taken, r);
      Longer(taken, r);
    }

    static lemma {:induction false} Longer(r: PoolRun, r': PoolRun)
      requires Extends(r, r')
      ensures r' == r || r < r'
    {
      if r == r' {
      } else {
        Longer(r, r'.before);
      }
    }

    // A call of a page, some time after the earlier ones.
    method TryAgain(adapter: Adapter, request: Request, session: Session, owner: string, ghost calls: Calls,
                    locked: set<nat>, ghost r0: PoolRun, ghost tried: seq<Try>)
      returns (result: Result<Batch, Raised>, ghost tried': seq<Try>)
      requires pool.Valid() && leaseSeconds > 0.0 && Extends(r0, pool.history)
      requires calls.locked == locked && calls.leaseSeconds == leaseSeconds
      requires GivenBack(tried, r0, pool.history, calls)
      requires AllClosed(tried) ==> pool.NoNewLeases(NamesOf(calls.worker), After(r0).leases)
      modifies pool
      ensures pool.Valid() && Extends(r0, pool.history)
      ensures |tried'| == |tried| + 1 && tried' == tried + [tried'[|tried|]]
      ensures Made(tried'[|tried|], adapter, owner, request, session) && tried'[|tried|].result == result
      ensures GivenBack(tried', r0, pool.history, calls)
      ensures AllClosed(tried') ==> pool.NoNewLeases(NamesOf(calls.worker), After(r0).leases)
    {
      ghost var r, names := pool.history, NamesOf(calls.worker);
      pool.Interfere(names);
      ghost var r1 := pool.history;
      ghost var last;
      result, last := CollectWithSession(adapter, request, session, owner, names, calls, locked);
      tried' := tried + [last];
      ExtendsTransitive(r, r1, pool.history);
      ExtendsTransitive(r0, r, r1);
      ExtendsTransitive(r0, r, pool.history);
      OneMoreTry(tried, last, r0, r, r1, pool.history, calls);
    }

    static lemma OneMoreTry(tried: seq<Try>, last: Try, r0: PoolRun, r: PoolRun, r1: PoolRun, r': PoolRun, calls: Calls)
      requires GivenBack(tried, r0, r, calls) && Extends(r, r') && Extends(r0, r1) && Accounted(last, r1, r', calls)
      ensures GivenBack(tried + [last], r0, r', calls)
      ensures AllClosed(tried + [last]) <==> AllClosed(tried) && last.Closed()
    {
      StaysGivenBack(tried, r0, r, r', calls);
      ExtendsTransitive(r0, r1, last.before);
      var all := tried + [last];
      forall i | 0 <= i < |all| ensures Accounted(all[i], r0, r', calls) {
        if i < |tried| {
          assert all[i] == tried[i];
        }
      }
      if AllClosed(all) {
        assert forall i | 0 <= i < |tried| :: tried[i] == all[i];
        assert all[|tried|] == last;
      }
    }

    // One page: the primary adapter, one failover to another session, the recovery adapter.
    method CollectPage(script: Script, page: nat, request: Request, worker: string, locked: set<nat>)
      returns (result: Result<Batch, Raised>, ghost tried: seq<Try>)
      requires pool.Valid() && leaseSeconds > 0.0
      modifies pool
      ensures pool.Valid() && Extends(old(pool.history), pool.history)
      ensures Resolves(tried, CallsFor(script, worker, locked), page, request, result)
      ensures GivenBack(tried, old(pool.history), pool.history, CallsFor(script, worker, locked))
      ensures AllClosed(tried) ==> pool.NoNewLeases(NamesOf(worker), old(pool.leases))
    {
      ghost var r0, calls := pool.history, CallsFor(script, worker, locked);
      result, tried := TryAgain(primary, request, script(page, 0, request), worker, calls, locked, r0, []);
      if result.Ok? || result.error.Unexpected? {
        return;
      }
      if result.error.error.kind.SessionFault() {
        result, tried :=
          TryAgain(primary, request, script(page, 1, request), worker + ":failover", calls, locked, r0, tried);
        if result.Ok? || result.error.Unexpected? {
          return;
        }
      }
      if recovery.None? {
        return;
      }
      result, tried :=
        TryAgain(recovery.value, request, script(page, 2, request), worker + ":recovery", calls, locked, r0, tried);
    }

    // Whether it returns or raises, every call it made is accounted for in the run of the pool, and every lease it took
    // and could close is gone; if it does not raise an unexpected failure, all are. Every call asks for the planned
    // search, from where the page before ended.
    method Collect(script: Script, search: Search, maxPages: nat, worker: string, locked: set<nat>)
      returns (result: Result<(seq<Item>, Option<string>), Raised>, ghost batches: seq<Batch>,
               ghost pages: seq<seq<Try>>)
      requires pool.Valid() && leaseSeconds > 0.0
      modifies pool
      ensures pool.Valid() && Extends(old(pool.history), pool.history)
      ensures PagesResolve(pages, CallsFor(script, worker, locked), search, batches,
                           if result.Ok? then None else Some(result.error))
      ensures AllGivenBack(pages, old(pool.history), pool.history, CallsFor(script, worker, locked))
      ensures result != Err(Unexpected) ==> forall i | 0 <= i < |pages| :: AllClosed(pages[i])
      ensures result != Err(Unexpected) ==> pool.NoNewLeases(NamesOf(worker), old(pool.leases))
      ensures |batches| <= maxPages
      ensures result.Ok? ==>
                && result.value.0 == AllItems(batches)
                && result.value.1 == (if batches == [] then search.first else batches[|batches| - 1].nextCursor)
                && AtEnd(batches, maxPages)
      ensures result.Err? ==> |batches| < maxPages && (batches != [] ==> LeadsOn(batches[|batches| - 1]))
      ensures PagesAsk(pages, search, batches) && Chained(batches)
    {
      result, batches, pages := CollectPages(script, search, maxPages, worker, locked);
      PagesHangTogether(pages, CallsFor(script, worker, locked), search, batches,
                        if result.Ok? then None else Some(result.error));
    }

    // The page loop.
    method CollectPages(script: Script, search: Search, maxPages: nat, worker: string, locked: set<nat>)
      returns (result: Result<(seq<Item>, Option<string>), Raised>, ghost batches: seq<Batch>,
               ghost pages: seq<seq<Try>>)
      requires pool.Valid() && leaseSeconds > 0.0
      modifies pool
      ensures pool.Valid() && Extends(old(pool.history), pool.history)
      ensures PagesResolve(pages, CallsFor(script, worker, locked), search, batches,
                           if result.Ok? then None else Some(result.error))
      ensures AllGivenBack(pages, old(pool.history), pool.history, CallsFor(script, worker, locked))
      ensures result != Err(Unexpected) ==> forall i | 0 <= i < |pages| :: AllClosed(pages[i])
      ensures result != Err(Unexpected) ==> pool.NoNewLeases(NamesOf(worker), old(pool.leases))
      ensures |batches| <= maxPages && (result.Err? ==> |batches| < maxPages)
      ensures result.Ok? ==>
                && result.value == (AllItems(batches), CursorAfter(search.first, batches))
                && (|batches| == maxPages || (batches != [] && Blank(result.value.1)))
    {
      var items: seq<Item> := [];
      var cursor := search.first;
      batches, pages := [], [];
      ghost var calls := CallsFor(script, worker, locked);
      for page := 0 to maxPages
        invariant pool.Valid() && Extends(old(pool.history), pool.history)
        invariant |batches| == page && PagesDeliver(pages, calls, search, batches)
        invariant AllGivenBack(pages, old(pool.history), pool.history, calls)
        invariant forall i | 0 <= i < |pages| :: AllClosed(pages[i])
        invariant pool.NoNewLeases(NamesOf(worker), old(pool.leases))
        invariant items == AllItems(batches) && cursor == CursorAfter(search.first, batches)
        invariant page > 0 ==> !Blank(cursor)
      {
        var batch;
        ghost var tried;
        batch, tried := CollectNext(script, page, search.At(cursor), worker, locked, old(pool.history), pages);
        OnePageMore(pages, tried, calls, search, batches, batch);
        pages := pages + [tried];
        if batch.Err? {
          return Err(batch.error), batches, pages;
        }
        items := items + StampedItems(batch.value);
        cursor := batch.value.nextCursor;
        batches := batches + [batch.value];
        if Blank(cursor) {
          break;
        }
      }
      result := Ok((items, cursor));
    }

    // One turn of the page loop.
    method CollectNext(script: Script, page: nat, request: Request, worker: string, locked: set<nat>,
                       ghost r0: PoolRun, ghost pages: seq<seq<Try>>)
      returns (batch: Result<Batch, Raised>, ghost tried: seq<Try>)
      requires pool.Valid() && leaseSeconds > 0.0 && Extends(r0, pool.history)
      requires AllGivenBack(pages, r0, pool.history, CallsFor(script, worker, locked))
      requires pool.NoNewLeases(NamesOf(worker), After(r0).leases)
      modifies pool
      ensures pool.Valid() && Extends(r0, pool.history)
      ensures Resolves(tried, CallsFor(script, worker, locked), page, request, batch)
      ensures AllGivenBack(pages + [tried], r0, pool.history, CallsFor(script, worker, locked))
      ensures batch != Err(Unexpected) ==> AllClosed(tried) && pool.NoNewLeases(NamesOf(worker), After(r0).leases)
    {
      ghost var r, calls := pool.history, CallsFor(script, worker, locked);
      batch, tried := CollectPage(script, page, request, worker, locked);
      ExtendsTransitive(r0, r, pool.history);
      OneMorePage(pages, tried, r0, r, pool.history, calls);
      OpenLeaseEndsThePage(tried, calls, page, request, batch);
    }
  }
}
