// The meaning of SQL's SUM over rows keyed by id.
module Sums {

  predicate IsLeast(ids: set<nat>, i: nat) {
    i in ids && forall j <- ids :: i <= j
  }

  lemma {:induction false} LeastExists(ids: set<nat>)
    requires ids != {}
    ensures exists i :: IsLeast(ids, i)
    decreases |ids|
  {
    var k :| k in ids;
    var rest := ids - {k};
    assert ids == rest + {k};
    if rest == {} {
      assert IsLeast(ids, k);
    } else {
      LeastExists(rest);
      var i :| IsLeast(rest, i);
      assert IsLeast(ids, if i <= k then i else k);
    }
  }

  function Least(ids: set<nat>): (i: nat)
    requires ids != {}
    ensures IsLeast(ids, i)
  {
    LeastExists(ids);
    var i :| IsLeast(ids, i);
    i
  }

  function Sum(values: map<nat, nat>, ids: set<nat>): nat
    requires ids <= values.Keys
    decreases |ids|
  {
    if ids == {} then 0
    else
      var i := Least(ids);
      values[i] + Sum(values, ids - {i})
  }

  // Any row may be taken out first.
  lemma {:induction false} SumTakesOut(values: map<nat, nat>, ids: set<nat>, i: nat)
    requires ids <= values.Keys && i in ids
    ensures Sum(values, ids) == values[i] + Sum(values, ids - {i})
    decreases |ids|
  {
    var least := Least(ids);
    if i == least {
    } else {
      SumTakesOut(values, ids - {least}, i);
      SumTakesOut(values, ids - {i}, least);
      assert ids - {least} - {i} == ids - {i} - {least};
    }
  }

  // The sum depends on the rows' values, not on their ids.
  lemma {:induction false} SumRenamed(values: map<nat, nat>, ids: set<nat>, other: map<nat, nat>, images: set<nat>,
                                      rename: map<nat, nat>)
    requires ids <= values.Keys && images <= other.Keys && ids <= rename.Keys
    requires forall i <- ids :: rename[i] in images && other[rename[i]] == values[i]
    requires forall i <- ids, j <- ids :: rename[i] == rename[j] ==> i == j
    requires forall k <- images :: exists i <- ids :: rename[i] == k
    ensures |ids| == |images| && Sum(values, ids) == Sum(other, images)
    decreases |ids|
  {
    if ids == {} {
      assert images == {};
    } else {
      var i := Least(ids);
      var k := rename[i];
      SumRenamed(values, ids - {i}, other, images - {k}, rename);
      SumTakesOut(other, images, k);
    }
  }
}
