// Least-recently-leased selection is fair.
module TokenFairness {
  import opened Options
  import opened Ordering
  import opened TokenPool

  function Length(r: PoolRun): nat {
    match r
    case Begin(_, _) => 0
    case Step(before, _) => 1 + Length(before)
  }

  // The run after its first k steps.
  function Prefix(r: PoolRun, k: nat): (prefix: PoolRun)
    requires k <= Length(r)
    ensures Length(prefix) == k
  {
    if k == Length(r) then r else Prefix(r.before, k)
  }

  lemma {:induction false} PrefixStep(r: PoolRun, k: nat)
    requires k < Length(r)
    ensures Prefix(r, k + 1).Step? && Prefix(r, k + 1).before == Prefix(r, k)
  {
    if k + 1 < Length(r) {
      PrefixStep(r.before, k);
    }
  }

  function StateAt(r: PoolRun, k: nat): Pool
    requires k <= Length(r)
  {
    After(Prefix(r, k))
  }

  function ActionAt(r: PoolRun, k: nat): PoolAction
    requires k < Length(r)
  {
    PrefixStep(r, k);
    Prefix(r, k + 1).action
  }

  // The token step k hands out, if it is a successful checkout.
  function Pick(r: PoolRun, k: nat): Option<nat>
    requires k < Length(r)
  {
    var a := ActionAt(r, k);
    if !a.Checkout? then None
    else
      match Choose(StateAt(r, k), a.owner, a.locked)
      case Chosen(t) => Some(t)
      case _ => None
  }

  // The last of the first k steps that handed out t.
  function LastPick(r: PoolRun, k: nat, t: nat): (h: Option<nat>)
    requires k <= Length(r)
    ensures h.Some? ==> h.value < k && Pick(r, h.value) == Some(t)
    ensures forall i | 0 <= i < k && Pick(r, i) == Some(t) :: h.Some? && i <= h.value
  {
    if k == 0 then None
    else if Pick(r, k - 1) == Some(t) then Some(k - 1)
    else LastPick(r, k - 1, t)
  }

  // Successful checkouts happen at strictly increasing times.
  ghost predicate StrictTimes(r: PoolRun) {
    forall i, j :: 0 <= i < j < Length(r) && Pick(r, i).Some? && Pick(r, j).Some? ==>
                     StateAt(r, i).now < StateAt(r, j).now
  }

  predicate WasEligible(r: PoolRun, k: nat, t: nat)
    requires k < Length(r)
  {
    ActionAt(r, k).Checkout? && Eligible(Purged(StateAt(r, k)), t, ActionAt(r, k).locked)
  }

  lemma StepKeepsOrdering(p: Pool, a: PoolAction, t: nat)
    requires t in p.tokens
    ensures Next(p, a).tokens.Keys == p.tokens.Keys
    ensures Next(p, a).tokens[t].lastLeasedAt
         == if a.Checkout? && Choose(p, a.owner, a.locked) == Chosen(t) then Some(p.now) else p.tokens[t].lastLeasedAt
  {}

  // The ordering column records the time of the token's last checkout.
  lemma {:induction false} ColumnIsLastPick(r: PoolRun, k: nat, t: nat)
    requires k <= Length(r) && t in StateAt(r, k).tokens
    ensures StateAt(r, k).tokens[t].lastLeasedAt
         == if LastPick(r, k, t).Some? then Some(StateAt(r, LastPick(r, k, t).value).now) else None
    decreases k
  {
    if k == 0 {
      BeginIsFirst(r);
    } else {
      PrefixStep(r, k - 1);
      var p, a := StateAt(r, k - 1), ActionAt(r, k - 1);
      assert StateAt(r, k) == Next(p, a);
      SameTokens(p, a);
      StepKeepsOrdering(p, a, t);
      ColumnIsLastPick(r, k - 1, t);
    }
  }

  lemma SameTokens(p: Pool, a: PoolAction)
    ensures Next(p, a).tokens.Keys == p.tokens.Keys
  {}

  lemma {:induction false} BeginIsFirst(r: PoolRun)
    ensures Prefix(r, 0).Begin?
  {
    if r.Begin? {
    } else {
      BeginIsFirst(r.before);
    }
  }

  // Between two checkouts of x, every other token that is eligible at the second was checked out.
  lemma CheckoutsTakeTurns(r: PoolRun, i: nat, j: nat, x: nat, y: nat) returns (k: nat)
    requires StrictTimes(r) && i < j < Length(r)
    requires Pick(r, i) == Some(x) && Pick(r, j) == Some(x)
    requires x != y && WasEligible(r, j, y)
    ensures i < k < j && Pick(r, k) == Some(y)
  {
    var q, a := Purged(StateAt(r, j)), ActionAt(r, j);
    assert IsFirst(TokenColumns(q), Candidates(q, a.locked), x);
    assert y in Candidates(q, a.locked);
    assert Before(TokenColumns(q), x, y);
    ColumnIsLastPick(r, j, x);
    ColumnIsLastPick(r, j, y);
    k := LastPick(r, j, y).value;
  }

  // ---- within one round ----

  lemma {:induction false} Pigeonhole(xs: seq<nat>, holes: set<nat>) returns (i: nat, j: nat)
    requires forall x <- xs :: x in holes
    requires |xs| > |holes|
    ensures i < j < |xs| && xs[i] == xs[j]
    decreases |xs|
  {
    var last := |xs| - 1;
    assert xs[last] in holes;
    if m :| 0 <= m < last && xs[m] == xs[last] {
      return m, last;
    }
    i, j := Pigeonhole(xs[..last], holes - {xs[last]});
  }

  // steps are consecutive successful checkouts: every successful checkout from the first to the last.
  ghost predicate Consecutive(r: PoolRun, steps: seq<nat>) {
    && (forall i | 0 <= i < |steps| :: steps[i] < Length(r) && Pick(r, steps[i]).Some?)
    && (forall i, j | 0 <= i < j < |steps| :: steps[i] < steps[j])
    && (forall k | 0 <= k < Length(r) && Pick(r, k).Some? && steps != [] && steps[0] <= k <= steps[|steps| - 1] ::
          k in steps)
  }

  function Picks(r: PoolRun, steps: seq<nat>): (picks: seq<nat>)
    requires forall i | 0 <= i < |steps| :: steps[i] < Length(r) && Pick(r, steps[i]).Some?
    ensures |picks| == |steps|
    ensures forall i | 0 <= i < |steps| :: Pick(r, steps[i]) == Some(picks[i])
  {
    if steps == [] then [] else [Pick(r, steps[0]).value] + Picks(r, steps[1..])
  }

  lemma OthersPicked(r: PoolRun, steps: seq<nat>, y: nat)
    requires forall i | 0 <= i < |steps| :: steps[i] < Length(r) && Pick(r, steps[i]).Some?
    requires forall i | 0 <= i < |steps| :: Pick(r, steps[i]) != Some(y)
    ensures forall x <- Picks(r, steps) :: x in After(r).tokens.Keys - {y}
  {
    forall i | 0 <= i < |steps| ensures Picks(r, steps)[i] in After(r).tokens.Keys - {y} {
      PickIsToken(r, steps[i], Picks(r, steps)[i]);
    }
  }

  // A token eligible at each of N consecutive checkouts, N being the number of tokens, is handed
  // out by one of them.
  lemma ServedWithinOneRound(r: PoolRun, steps: seq<nat>, y: nat) returns (i: nat)
    requires StrictTimes(r) && Consecutive(r, steps)
    requires |steps| > 0 && |steps| == |After(r).tokens|
    requires forall i | 0 <= i < |steps| :: WasEligible(r, steps[i], y)
    ensures i < |steps| && Pick(r, steps[i]) == Some(y)
  {
    if m :| 0 <= m < |steps| && Pick(r, steps[m]) == Some(y) {
      return m;
    }
    OthersPicked(r, steps, y);
    assert WasEligible(r, steps[0], y);
    TokensStay(r, steps[0]);
    var others := After(r).tokens.Keys - {y};
    assert |others| < |steps|;
    var a, b := Pigeonhole(Picks(r, steps), others);
    assert Picks(r, steps)[a] in others;
    var k := CheckoutsTakeTurns(r, steps[a], steps[b], Picks(r, steps)[a], y);
    StepsIncrease(r, steps, 0, a);
    StepsIncrease(r, steps, b, |steps| - 1);
    InRangeIsAStep(r, steps, k);
    assert false;
  }

  lemma InRangeIsAStep(r: PoolRun, steps: seq<nat>, k: nat)
    requires Consecutive(r, steps) && steps != [] && k < Length(r)
    requires Pick(r, k).Some? && steps[0] <= k <= steps[|steps| - 1]
    ensures k in steps
  {}

  lemma StepsIncrease(r: PoolRun, steps: seq<nat>, a: nat, b: nat)
    requires Consecutive(r, steps) && a <= b < |steps|
    ensures steps[a] <= steps[b] < Length(r)
  {}

  lemma {:induction false} TokensStay(r: PoolRun, k: nat)
    requires k <= Length(r)
    ensures StateAt(r, k).tokens.Keys == After(r).tokens.Keys
  {
    if k < Length(r) {
      TokensStay(r.before, k);
      SameTokens(After(r.before), r.action);
    }
  }

  lemma PickIsToken(r: PoolRun, k: nat, t: nat)
    requires k < Length(r) && Pick(r, k) == Some(t)
    ensures t in After(r).tokens
  {
    TokensStay(r, k);
  }
}
