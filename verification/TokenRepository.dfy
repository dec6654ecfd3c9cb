// TokenRepository: the token tables, updated in place by one transaction per method.
module TokenRepository {
  import opened Options
  import opened Ordering
  import opened TokenPool

  // Why a checkout raised: the owner already holds an unexpired lease of the selected token.
  datatype CheckoutError = UniqueViolation

  // ---- what the statements say, column by column ----

  // Active, not cooling down, not locked by anybody, and with room for one more unexpired lease.
  predicate Usable(p: Pool, t: nat, locked: set<nat>) {
    && t in p.tokens && t !in locked
    && p.tokens[t].status == Active
    && !(p.tokens[t].cooldownUntil.Some? && p.now < p.tokens[t].cooldownUntil.value)
    && |set l | l in p.leases && p.leases[l].tokenId == t && !(p.leases[l].expiresAt <= p.now)|
       < p.tokens[t].maxConcurrency
  }

  // Never leased before ever leased, then the one leased longer ago, then the lower id.
  predicate LongerUnused(p: Pool, t: nat, u: nat) {
    && t in p.tokens && u in p.tokens
    && match (p.tokens[t].lastLeasedAt, p.tokens[u].lastLeasedAt)
       case (None, None) => t < u
       case (None, Some(_)) => true
       case (Some(_), None) => false
       case (Some(at), Some(at')) => at < at' || (at == at' && t < u)
  }

  ghost predicate IsNext(p: Pool, t: nat, locked: set<nat>) {
    Usable(p, t, locked) && forall u <- p.tokens :: Usable(p, u, locked) && u != t ==> LongerUnused(p, t, u)
  }

  ghost predicate HasLease(p: Pool, t: nat, owner: string) {
    exists l <- p.leases :: p.leases[l].tokenId == t && p.leases[l].owner == owner && p.now < p.leases[l].expiresAt
  }

  // Expired leases are gone, every other one is as it was.
  predicate OnlyExpiredGone(p: Pool, leases: map<nat, LeaseRow>) {
    && (forall l <- p.leases :: p.now < p.leases[l].expiresAt ==> l in leases && leases[l] == p.leases[l])
    && (forall l <- leases :: l in p.leases && p.now < p.leases[l].expiresAt)
  }

  lemma EligibleIsUsable(p: Pool, t: nat, locked: set<nat>)
    ensures Eligible(Purged(p), t, locked) <==> Usable(p, t, locked)
  {
    assert Live(Purged(p), t)
        == set l | l in p.leases && p.leases[l].tokenId == t && !(p.leases[l].expiresAt <= p.now);
  }

  lemma BeforeIsLongerUnused(p: Pool, t: nat, u: nat)
    requires t in p.tokens && u in p.tokens
    ensures Before(TokenColumns(Purged(p)), t, u) <==> LongerUnused(p, t, u)
  {}

  lemma FirstIsNext(p: Pool, locked: set<nat>)
    ensures Candidates(Purged(p), locked) == {} <==> forall t <- p.tokens :: !Usable(p, t, locked)
    ensures Candidates(Purged(p), locked) != {} ==>
              IsNext(p, First(TokenColumns(Purged(p)), Candidates(Purged(p), locked)), locked)
  {
    var q := Purged(p);
    forall t <- p.tokens ensures t in Candidates(q, locked) <==> Usable(p, t, locked) {
      EligibleIsUsable(p, t, locked);
    }
    if Candidates(q, locked) != {} {
      var t := First(TokenColumns(q), Candidates(q, locked));
      EligibleIsUsable(p, t, locked);
      forall u <- p.tokens | Usable(p, u, locked) && u != t ensures LongerUnused(p, t, u) {
        BeforeIsLongerUnused(p, t, u);
      }
    }
  }

  lemma HoldsIsHasLease(p: Pool, t: nat, owner: string)
    ensures Holds(Purged(p), t, owner) <==> HasLease(p, t, owner)
  {
    if HasLease(p, t, owner) {
      var l :| l in p.leases && p.leases[l].tokenId == t && p.leases[l].owner == owner && p.now < p.leases[l].expiresAt;
      assert l in Purged(p).leases;
    }
  }

  // The lease goes if it is its owner's; every other one stays.
  predicate OnlyTheOwnersIsGone(before: map<nat, LeaseRow>, after: map<nat, LeaseRow>, lease: TokenLease) {
    && (lease.leaseId in before && before[lease.leaseId].owner == lease.owner ==> after == before - {lease.leaseId})
    && (!(lease.leaseId in before && before[lease.leaseId].owner == lease.owner) ==> after == before)
  }

  // Over since the cooldown's end.
  predicate CooledOff(token: Token, now: Time) {
    token.status == Cooldown && token.cooldownUntil.Some? && !(now < token.cooldownUntil.value)
  }

  // The outcome of a checkout: none usable; or the next one is leased; or its caller holds it already.
  ghost predicate ChecksOut(p: Pool, q: Pool, owner: string, seconds: real, locked: set<nat>,
                            result: Result<Option<TokenLease>, CheckoutError>)
  {
    match result
    case Ok(None) =>
      (forall t <- p.tokens :: !Usable(p, t, locked)) && OnlyExpiredGone(p, q.leases) && q.tokens == p.tokens
    case Ok(Some(lease)) =>
      && IsNext(p, lease.tokenId, locked) && !HasLease(p, lease.tokenId, owner)
      && lease == TokenLease(p.nextLease, lease.tokenId, owner, p.now + seconds)
      && lease.leaseId in q.leases && q.leases[lease.leaseId] == LeaseRow(lease.tokenId, owner, p.now + seconds)
      && OnlyExpiredGone(p, q.leases - {lease.leaseId})
      && lease.tokenId in p.tokens
      && q.tokens == p.tokens[lease.tokenId := p.tokens[lease.tokenId].(lastLeasedAt := Some(p.now))]
    case Err(UniqueViolation) =>
      && (exists t <- p.tokens :: IsNext(p, t, locked) && HasLease(p, t, owner))
      && q.leases == p.leases && q.tokens == p.tokens
  }

  class TokenRepository {
    var now: Time
    var tokens: map<nat, Token>
    var leases: map<nat, LeaseRow>
    var nextLease: nat

    ghost var history: PoolRun

    function Rows(): Pool
      reads this`now, this`tokens, this`leases, this`nextLease
    {
      Pool(now, tokens, leases, nextLease)
    }

    ghost predicate Valid()
      reads this
    {
      Legal(history) && After(history) == Rows()
    }

    constructor (at: Time, tokens: map<nat, Token>)
      ensures Valid() && history == Begin(at, tokens)
    {
      now := at;
      this.tokens := map t | t in tokens :: tokens[t].(lastLeasedAt := None);
      leases, nextLease := map[], 1;
      history := Begin(at, tokens);
    }

    // Other workers use the pool meanwhile; none of them goes by the given names.
    method Interfere(ghost names: set<string>)
      requires Valid()
      modifies this
      ensures Valid() && Extends(old(history), history)
      ensures NoNewLeases(names, old(leases))
    {}

    // Every lease held under the names was there before.
    ghost predicate NoNewLeases(names: set<string>, before: map<nat, LeaseRow>)
      reads this`leases
    {
      forall l <- leases :: leases[l].owner in names ==> l in before && before[l] == leases[l]
    }

    lemma FreshLeases()
      requires Valid()
      ensures forall l <- leases :: l < nextLease
    {
      PoolSafety(history);
    }

    method CheckoutToken(owner: string, leaseSeconds: real, locked: set<nat>)
      returns (result: Result<Option<TokenLease>, CheckoutError>)
      requires Valid() && leaseSeconds > 0.0
      modifies this
      ensures Valid() && history == Step(old(history), Checkout(owner, leaseSeconds, locked))
      ensures match Choose(old(Rows()), owner, locked)
              case NoToken => result == Ok(None)
              case AlreadyHeld(_) => result == Err(UniqueViolation)
              case Chosen(t) => result.Ok? && result.value.Some? && result.value.value.tokenId == t
      ensures result.Err? ==> leases == old(leases) && tokens == old(tokens)
      ensures result == Ok(None) ==> leases == Purged(old(Rows())).leases && tokens == old(tokens)
      ensures result.Ok? && result.value.Some? ==>
                && var lease := result.value.value;
                && Eligible(Purged(old(Rows())), lease.tokenId, locked)
                && lease.leaseId == old(nextLease) && lease.leaseId !in old(leases) && nextLease == lease.leaseId + 1
                && lease.owner == owner && lease.expiresAt == now + leaseSeconds
                && leases
                   == Purged(old(Rows())).leases[lease.leaseId := LeaseRow(lease.tokenId, owner, lease.expiresAt)]
      ensures ChecksOut(old(Rows()), Rows(), owner, leaseSeconds, locked, result)
    {
      FreshLeases();
      ghost var before := Rows();
      FirstIsNext(before, locked);
      var purged := Purged(Rows());
      var ids := Candidates(purged, locked);
      if ids == {} {
        leases := purged.leases;
        result := Ok(None);
      } else {
        var t := First(TokenColumns(purged), ids);
        HoldsIsHasLease(before, t, owner);
        if Holds(purged, t, owner) {
          result := Err(UniqueViolation);
        } else {
          leases := purged.leases[nextLease := LeaseRow(t, owner, now + leaseSeconds)];
          tokens := tokens[t := tokens[t].(lastLeasedAt := Some(now))];
          result := Ok(Some(TokenLease(nextLease, t, owner, now + leaseSeconds)));
          assert leases - {nextLease} == purged.leases;
        }
        nextLease := nextLease + 1;
      }
      assert Rows() == CheckOut(before, owner, leaseSeconds, locked);
      history := Step(history, Checkout(owner, leaseSeconds, locked));
    }

    // DELETE ... WHERE id AND lease_owner
    method DeleteLease(lease: TokenLease)
      modifies this`leases
      ensures Rows() == Dropped(old(Rows()), lease)
      ensures OnlyTheOwnersIsGone(old(leases), leases, lease)
    {
      if lease.leaseId in leases && leases[lease.leaseId].owner == lease.owner {
        leases := leases - {lease.leaseId};
      }
    }

    method RecordSuccess(lease: TokenLease)
      requires Valid()
      modifies this
      ensures Valid() && history == Step(old(history), PoolAction.RecordSuccess(lease))
      ensures tokens == old(tokens) && OnlyTheOwnersIsGone(old(leases), leases, lease)
    {
      DeleteLease(lease);
      history := Step(history, PoolAction.RecordSuccess(lease));
    }

    method ReleaseLease(lease: TokenLease)
      requires Valid()
      modifies this
      ensures Valid() && history == Step(old(history), PoolAction.ReleaseLease(lease))
      ensures tokens == old(tokens) && OnlyTheOwnersIsGone(old(leases), leases, lease)
    {
      DeleteLease(lease);
      history := Step(history, PoolAction.ReleaseLease(lease));
    }

    // Whatever the status was, it becomes COOLDOWN.
    method MarkCooldown(lease: TokenLease, cooldownSeconds: real)
      requires Valid()
      modifies this
      ensures Valid() && history == Step(old(history), PoolAction.MarkCooldown(lease, cooldownSeconds))
      ensures tokens == if lease.tokenId !in old(tokens) then old(tokens)
                        else old(tokens)[lease.tokenId := old(tokens)[lease.tokenId].(
                               status := Cooldown, cooldownUntil := Some(now + cooldownSeconds))]
      ensures OnlyTheOwnersIsGone(old(leases), leases, lease)
    {
      ghost var before := Rows();
      if lease.tokenId in tokens {
        tokens := tokens[lease.tokenId :=
          tokens[lease.tokenId].(status := Cooldown, cooldownUntil := Some(now + cooldownSeconds))];
      }
      assert Rows() == CooledDown(before, lease, cooldownSeconds);
      DeleteLease(lease);
      history := Step(history, PoolAction.MarkCooldown(lease, cooldownSeconds));
    }

    method RecoverCooldowns() returns (count: nat)
      requires Valid()
      modifies this
      ensures Valid() && history == Step(old(history), RecoverExpiredCooldowns)
      // exactly the cooldowns that are over become active again, and are counted
      ensures count == |set t | t in old(tokens) && CooledOff(old(tokens)[t], now)|
      ensures tokens.Keys == old(tokens).Keys && leases == old(leases)
      ensures forall t <- tokens ::
                tokens[t] == if CooledOff(old(tokens)[t], now) then
                               old(tokens)[t].(status := Active, cooldownUntil := None)
                             else old(tokens)[t]
    {
      assert (set t | t in tokens && Recovered(tokens[t], now) != tokens[t])
          == set t | t in tokens && CooledOff(tokens[t], now);
      count := |set t | t in tokens && Recovered(tokens[t], now) != tokens[t]|;
      tokens := map t | t in tokens :: Recovered(tokens[t], now);
      history := Step(history, RecoverExpiredCooldowns);
    }
  }
}
