// What keeps a revoked token revoked, and what does not.
module TokenRevocation {
  import opened Options
  import opened TokenPool

  predicate RevokedIn(p: Pool, t: nat) {
    t in p.tokens && p.tokens[t].status.Revoked?
  }

  // The steps that overwrite a revoked status: a cooldown of a lease of the token, or an administrator.
  predicate Overwrites(a: PoolAction, t: nat) {
    || (a.MarkCooldown? && a.lease.tokenId == t)
    || (a.Administer? && a.token == t && !a.status.Revoked?)
  }

  // A step leaves a revoked token revoked exactly when it does not overwrite the status.
  lemma RevokedAfterStepExactlyWhen(p: Pool, a: PoolAction, t: nat)
    requires RevokedIn(p, t)
    ensures RevokedIn(Next(p, a), t) <==> !Overwrites(a, t)
  {}

  // A token that was revoked and no longer is was overwritten in between.
  lemma {:induction false} OverwrittenBetween(r: PoolRun, r': PoolRun, t: nat) returns (at: PoolRun)
    requires Extends(r, r') && RevokedIn(After(r), t) && !RevokedIn(After(r'), t)
    ensures at.Step? && Overwrites(at.action, t) && Extends(r, at.before) && Extends(at, r')
  {
    if RevokedIn(After(r'.before), t) {
      RevokedAfterStepExactlyWhen(After(r'.before), r'.action, t);
      at := r';
    } else {
      at := OverwrittenBetween(r, r'.before, t);
    }
  }

  // A revoked token is handed out again only after a cooldown or an administrator overwrote its status.
  lemma CheckedOutOnlyAfterOverwriting(r: PoolRun, r': PoolRun, owner: string, locked: set<nat>, t: nat)
    returns (at: PoolRun)
    requires Extends(r, r') && RevokedIn(After(r), t)
    requires Choose(After(r'), owner, locked) == Chosen(t)
    ensures at.Step? && Overwrites(at.action, t) && Extends(r, at.before) && Extends(at, r')
  {
    ChosenIsActive(After(r'), owner, locked, t);
    at := OverwrittenBetween(r, r', t);
  }

  lemma ChosenIsActive(p: Pool, owner: string, locked: set<nat>, t: nat)
    requires Choose(p, owner, locked) == Chosen(t)
    ensures t in p.tokens && p.tokens[t].status.Active?
  {
    assert t in Candidates(Purged(p), locked);
  }

  // Without any administrator: whoever still uses the revoked token and cools it down revives it, because the
  // recovery makes every token active whose cooldown is over.
  lemma CooldownRevivesRevoked(p: Pool, t: nat, lease: TokenLease, seconds: real)
    requires RevokedIn(p, t) && lease.tokenId == t && seconds >= 0.0
    ensures var cooled := Next(p, PoolAction.MarkCooldown(lease, seconds));
            var recovered := Next(Next(cooled, Tick(p.now + seconds)), RecoverExpiredCooldowns);
            t in recovered.tokens && recovered.tokens[t].status.Active?
  {
    var cooled := Next(p, PoolAction.MarkCooldown(lease, seconds));
    assert t in cooled.tokens && cooled.now == p.now;
    assert cooled.tokens[t].status.Cooldown? && cooled.tokens[t].cooldownUntil == Some(p.now + seconds);
  }

  // That happens to a lease taken before the revocation.
  lemma RevokedWhileLeased(r: PoolRun, owner: string, seconds: real, t: nat) returns (r': PoolRun, lease: TokenLease)
    requires Legal(r) && seconds > 0.0 && Choose(After(r), owner, {}) == Chosen(t)
    ensures Legal(r') && Extends(r, r') && RevokedIn(After(r'), t)
    ensures lease.tokenId == t && lease.leaseId in After(r').leases &&
              After(r').leases[lease.leaseId].owner == lease.owner
  {
    ChosenIsActive(After(r), owner, {}, t);
    var leased := Step(r, Checkout(owner, seconds, {}));
    lease := TokenLease(After(r).nextLease, t, owner, After(r).now + seconds);
    r' := Step(leased, Administer(t, Revoked, None));
    assert Extends(r, leased);
  }
}
