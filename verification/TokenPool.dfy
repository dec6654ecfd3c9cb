// The pool of service tokens and their leases, one atomic step per transaction.
module TokenPool {
  import opened Options
  import opened Ordering

  type Time = real

  datatype TokenStatus = Active | Cooldown | Revoked

  // A row of service_tokens.
  datatype Token = Token(status: TokenStatus, cooldownUntil: Option<Time>, lastLeasedAt: Option<Time>,
                         maxConcurrency: nat)

  // A row of service_token_leases.
  datatype LeaseRow = LeaseRow(tokenId: nat, owner: string, expiresAt: Time)

  datatype Pool = Pool(now: Time, tokens: map<nat, Token>, leases: map<nat, LeaseRow>, nextLease: nat)

  // What checkout_token hands out.
  datatype TokenLease = TokenLease(leaseId: nat, tokenId: nat, owner: string, expiresAt: Time)

  datatype PoolAction =
    | Tick(to: Time)
    | Checkout(owner: string, leaseSeconds: real, locked: set<nat>)
    | RecordSuccess(lease: TokenLease)
    | ReleaseLease(lease: TokenLease)
    | MarkCooldown(lease: TokenLease, cooldownSeconds: real)
    | RecoverExpiredCooldowns
    | Administer(token: nat, status: TokenStatus, cooldownUntil: Option<Time>)

  function Live(p: Pool, t: nat): set<nat> {
    set l | l in p.leases && p.leases[l].tokenId == t && p.now < p.leases[l].expiresAt
  }

  predicate Eligible(p: Pool, t: nat, locked: set<nat>) {
    && t in p.tokens
    && p.tokens[t].status.Active?
    && (p.tokens[t].cooldownUntil.None? || p.tokens[t].cooldownUntil.value <= p.now)
    && |Live(p, t)| < p.tokens[t].maxConcurrency
    && t !in locked
  }

  // Never leased first, then the least recently leased.
  function TokenColumns(p: Pool): Columns {
    map t | t in p.tokens ::
      if p.tokens[t].lastLeasedAt.None? then (0.0, 0.0) else (1.0, p.tokens[t].lastLeasedAt.value)
  }

  function Candidates(p: Pool, locked: set<nat>): set<nat> {
    set t | t in p.tokens && Eligible(p, t, locked)
  }

  // DELETE ... WHERE lease_expires_at <= NOW()
  function Purged(p: Pool): Pool {
    p.(leases := map l | l in p.leases && p.now < p.leases[l].expiresAt :: p.leases[l])
  }

  datatype Choice = Chosen(token: nat) | NoToken | AlreadyHeld(token: nat)

  predicate Holds(p: Pool, t: nat, owner: string) {
    exists l <- p.leases :: p.leases[l].tokenId == t && p.leases[l].owner == owner
  }

  // What the checkout query selects; (token_id, lease_owner) is unique among the leases.
  function Choose(p: Pool, owner: string, locked: set<nat>): Choice {
    var q := Purged(p);
    if Candidates(q, locked) == {} then NoToken
    else
      var t := First(TokenColumns(q), Candidates(q, locked));
      if Holds(q, t, owner) then AlreadyHeld(t) else Chosen(t)
  }

  function Granted(p: Pool, t: nat, owner: string, seconds: real): Pool
    requires t in p.tokens
  {
    p.(leases := p.leases[p.nextLease := LeaseRow(t, owner, p.now + seconds)],
       nextLease := p.nextLease + 1,
       tokens := p.tokens[t := p.tokens[t].(lastLeasedAt := Some(p.now))])
  }

  // The unique violation rolls everything back but the serial.
  function CheckOut(p: Pool, owner: string, seconds: real, locked: set<nat>): Pool {
    match Choose(p, owner, locked)
    case NoToken => Purged(p)
    case AlreadyHeld(_) => p.(nextLease := p.nextLease + 1)
    case Chosen(t) => if t in p.tokens then Granted(Purged(p), t, owner, seconds) else p
  }

  // DELETE ... WHERE id = ... AND lease_owner = ...
  function Dropped(p: Pool, lease: TokenLease): Pool {
    if lease.leaseId in p.leases && p.leases[lease.leaseId].owner == lease.owner then
      p.(leases := p.leases - {lease.leaseId})
    else p
  }

  function CooledDown(p: Pool, lease: TokenLease, seconds: real): Pool {
    if lease.tokenId in p.tokens then
      p.(tokens := p.tokens[lease.tokenId :=
        p.tokens[lease.tokenId].(status := Cooldown, cooldownUntil := Some(p.now + seconds))])
    else p
  }

  function Recovered(token: Token, now: Time): Token {
    if token.status.Cooldown? && token.cooldownUntil.Some? && token.cooldownUntil.value <= now then
      token.(status := Active, cooldownUntil := None)
    else token
  }

  function Next(p: Pool, a: PoolAction): Pool {
    match a
    case Tick(to) => if p.now <= to then p.(now := to) else p
    case Checkout(owner, seconds, locked) => CheckOut(p, owner, seconds, locked)
    case RecordSuccess(lease) => Dropped(p, lease)
    case ReleaseLease(lease) => Dropped(p, lease)
    case MarkCooldown(lease, seconds) => Dropped(CooledDown(p, lease, seconds), lease)
    case RecoverExpiredCooldowns => p.(tokens := map t | t in p.tokens :: Recovered(p.tokens[t], p.now))
    case Administer(t, status, cooldownUntil) =>
      if t in p.tokens then
        p.(tokens := p.tokens[t := p.tokens[t].(status := status, cooldownUntil := cooldownUntil)])
      else p
  }

  // ---- runs ----

  datatype PoolRun = Begin(at: Time, tokens: map<nat, Token>) | Step(before: PoolRun, action: PoolAction)

  function After(r: PoolRun): Pool {
    match r
    case Begin(at, tokens) => Pool(at, map t | t in tokens :: tokens[t].(lastLeasedAt := None), map[], 1)
    case Step(before, action) => Next(After(before), action)
  }

  ghost predicate Extends(r: PoolRun, r': PoolRun) {
    r == r' || (r'.Step? && Extends(r, r'.before))
  }

  lemma {:induction false} ExtendsTransitive(r0: PoolRun, r1: PoolRun, r2: PoolRun)
    requires Extends(r0, r1) && Extends(r1, r2)
    ensures Extends(r0, r2)
  {
    if r1 == r2 {
    } else {
      ExtendsTransitive(r0, r1, r2.before);
    }
  }

  // ---- safety ----

  // No token carries more unexpired leases than its concurrency, and serials are fresh.
  ghost predicate Safe(p: Pool) {
    && (forall t <- p.tokens :: |Live(p, t)| <= p.tokens[t].maxConcurrency)
    && (forall l <- p.leases :: l < p.nextLease && p.leases[l].tokenId in p.tokens)
    && (forall t <- p.tokens :: p.tokens[t].lastLeasedAt.Some? ==> p.tokens[t].lastLeasedAt.value <= p.now)
  }

  lemma FewerLeases(p: Pool, q: Pool, t: nat)
    requires Live(q, t) <= Live(p, t)
    ensures |Live(q, t)| <= |Live(p, t)|
  {
    SubsetSize(Live(q, t), Live(p, t));
  }

  lemma {:induction false} SubsetSize(a: set<nat>, b: set<nat>)
    requires a <= b
    ensures |a| <= |b|
    decreases |a|
  {
    if a == {} {
    } else {
      var x :| x in a;
      SubsetSize(a - {x}, b - {x});
    }
  }

  lemma GrantKeepsSafe(p: Pool, t: nat, owner: string, seconds: real)
    requires Safe(p) && Eligible(p, t, {}) && seconds > 0.0
    ensures Safe(Granted(p, t, owner, seconds))
  {
    var q := Granted(p, t, owner, seconds);
    forall u <- q.tokens ensures |Live(q, u)| <= q.tokens[u].maxConcurrency {
      if u == t {
        assert Live(q, t) == Live(p, t) + {p.nextLease};
      } else {
        assert Live(q, u) == Live(p, u);
      }
    }
  }

  lemma PurgeKeepsSafe(p: Pool)
    requires Safe(p)
    ensures Safe(Purged(p))
    ensures forall t :: Live(Purged(p), t) == Live(p, t)
  {
    forall t ensures Live(Purged(p), t) == Live(p, t) {
    }
  }

  lemma CheckoutKeepsSafe(p: Pool, owner: string, seconds: real, locked: set<nat>)
    requires Safe(p) && seconds > 0.0
    ensures Safe(CheckOut(p, owner, seconds, locked))
  {
    PurgeKeepsSafe(p);
    match Choose(p, owner, locked)
    case NoToken =>
    case AlreadyHeld(_) =>
      var q := p.(nextLease := p.nextLease + 1);
      assert forall t :: Live(q, t) == Live(p, t);
    case Chosen(t) =>
      assert Eligible(Purged(p), t, locked);
      GrantKeepsSafe(Purged(p), t, owner, seconds);
  }

  // Steps other than checkout never add a lease, and never let one live longer.
  lemma OtherStepShrinks(p: Pool, a: PoolAction)
    requires !a.Checkout?
    ensures forall l <- Next(p, a).leases :: l in p.leases && Next(p, a).leases[l] == p.leases[l]
    ensures p.now <= Next(p, a).now
    ensures Next(p, a).nextLease == p.nextLease && Next(p, a).tokens.Keys == p.tokens.Keys
    ensures forall t <- p.tokens :: Next(p, a).tokens[t].maxConcurrency == p.tokens[t].maxConcurrency
                                    && Next(p, a).tokens[t].lastLeasedAt == p.tokens[t].lastLeasedAt
  {}

  lemma ShrinkKeepsSafe(p: Pool, q: Pool)
    requires Safe(p)
    requires forall l <- q.leases :: l in p.leases && q.leases[l] == p.leases[l]
    requires p.now <= q.now && q.nextLease == p.nextLease && q.tokens.Keys == p.tokens.Keys
    requires forall t <- p.tokens :: q.tokens[t].maxConcurrency == p.tokens[t].maxConcurrency
                                     && q.tokens[t].lastLeasedAt == p.tokens[t].lastLeasedAt
    ensures Safe(q)
  {
    forall t <- q.tokens ensures |Live(q, t)| <= q.tokens[t].maxConcurrency {
      assert Live(q, t) <= Live(p, t);
      FewerLeases(p, q, t);
    }
  }

  lemma OtherStepKeepsSafe(p: Pool, a: PoolAction)
    requires Safe(p) && !a.Checkout?
    ensures Safe(Next(p, a))
  {
    OtherStepShrinks(p, a);
    ShrinkKeepsSafe(p, Next(p, a));
  }

  ghost predicate Legal(r: PoolRun) {
    match r
    case Begin(_, _) => true
    case Step(before, action) => Legal(before) && (action.Checkout? ==> action.leaseSeconds > 0.0)
  }

  // Over every run, unexpired leases per token never exceed its concurrency.
  lemma {:induction false} PoolSafety(r: PoolRun)
    requires Legal(r)
    ensures Safe(After(r))
  {
    match r
    case Begin(_, _) =>
      assert forall t :: Live(After(r), t) == {};
    case Step(before, action) =>
      PoolSafety(before);
      if action.Checkout? {
        CheckoutKeepsSafe(After(before), action.owner, action.leaseSeconds, action.locked);
      } else {
        OtherStepKeepsSafe(After(before), action);
      }
  }

  // ---- lease identities ----

  // Rows never change, serials are never reused.
  predicate LeasesEvolve(p: Pool, q: Pool) {
    && p.now <= q.now
    && p.nextLease <= q.nextLease
    && forall l <- q.leases :: (l in p.leases && q.leases[l] == p.leases[l]) || p.nextLease <= l
  }

  lemma StepEvolves(p: Pool, a: PoolAction)
    ensures LeasesEvolve(p, Next(p, a))
  {}

  lemma {:induction false} RunEvolves(r: PoolRun, r': PoolRun)
    requires Extends(r, r')
    ensures LeasesEvolve(After(r), After(r'))
    ensures Legal(r') ==> Legal(r)
  {
    if r == r' {
    } else {
      RunEvolves(r, r'.before);
      StepEvolves(After(r'.before), r'.action);
    }
  }

  // A lease that is gone never comes back.
  lemma GoneForever(r: PoolRun, r': PoolRun, l: nat)
    requires Extends(r, r') && l < After(r).nextLease && l !in After(r).leases
    ensures l !in After(r').leases && l < After(r').nextLease
  {
    RunEvolves(r, r');
  }
}
