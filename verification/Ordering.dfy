// The meaning of SQL's ORDER BY (two columns, then the row id) on rows keyed by id.
module Ordering {

  // The values of the two ORDER BY columns of every row.
  type Columns = map<nat, (real, real)>

  predicate Before(rows: Columns, i: nat, j: nat)
    requires i in rows && j in rows
  {
    var (a, b) := rows[i];
    var (c, d) := rows[j];
    a < c || (a == c && (b < d || (b == d && i < j)))
  }

  predicate IsFirst(rows: Columns, ids: set<nat>, i: nat)
    requires ids <= rows.Keys
  {
    i in ids && forall j <- ids :: j == i || Before(rows, i, j)
  }

  lemma {:induction false} FirstExists(rows: Columns, ids: set<nat>)
    requires ids <= rows.Keys && ids != {}
    ensures exists i :: IsFirst(rows, ids, i)
    decreases |ids|
  {
    var k :| k in ids;
    var rest := ids - {k};
    assert ids == rest + {k};
    if rest == {} {
      assert IsFirst(rows, ids, k);
    } else {
      FirstExists(rows, rest);
      var i :| IsFirst(rows, rest, i);
      var least := if Before(rows, i, k) then i else k;
      forall j | j in ids ensures j == least || Before(rows, least, j) {
        assert j == k || j in rest;
      }
      assert IsFirst(rows, ids, least);
    }
  }

  function First(rows: Columns, ids: set<nat>): (i: nat)
    requires ids <= rows.Keys && ids != {}
    ensures IsFirst(rows, ids, i)
  {
    FirstExists(rows, ids);
    var i :| IsFirst(rows, ids, i);
    i
  }

  // The given ids, first row first.
  function OrderBy(rows: Columns, ids: set<nat>): (r: seq<nat>)
    requires ids <= rows.Keys
    ensures Elements(r) == ids
    ensures forall i, j :: 0 <= i < j < |r| ==> r[j] in ids && r[i] in ids && Before(rows, r[i], r[j])
    decreases |ids|
  {
    if ids == {} then []
    else
      var i := First(rows, ids);
      [i] + OrderBy(rows, ids - {i})
  }

  function Limit(ids: seq<nat>, n: nat): (r: seq<nat>)
    ensures r <= ids && |r| <= n
  {
    if n < |ids| then ids[..n] else ids
  }

  // What a limit leaves out comes later, and only when the limit is reached.
  lemma LeftOut(ids: seq<nat>, n: nat, i: nat) returns (j: nat)
    requires i in ids && i !in Limit(ids, n)
    ensures |Limit(ids, n)| == n <= j < |ids| && ids[j] == i
  {
    j :| 0 <= j < |ids| && ids[j] == i;
    assert j < |Limit(ids, n)| ==> Limit(ids, n)[j] == ids[j];
  }

  function Elements(ids: seq<nat>): (r: set<nat>)
    ensures forall i :: i in r <==> i in ids
  {
    set i | i in ids
  }

  lemma DropHead(ids: set<nat>, head: nat, tail: seq<nat>)
    ensures ids - Elements([head] + tail) == ids - {head} - Elements(tail)
  {}

  lemma SplitAfterHead(head: nat, tail: seq<nat>, k: nat)
    requires 0 < k <= |tail| + 1
    ensures ([head] + tail)[..k] == [head] + tail[..k - 1]
    ensures ([head] + tail)[k..] == tail[k - 1..]
  {}

  lemma OrderByUnfolds(rows: Columns, ids: set<nat>)
    requires ids <= rows.Keys && ids != {}
    ensures First(rows, ids) in ids
    ensures OrderBy(rows, ids) == [First(rows, ids)] + OrderBy(rows, ids - {First(rows, ids)})
  {}

  // Dropping the first k rows of an ordered result is the same as ordering what is left.
  lemma {:induction false} OrderByDrop(rows: Columns, ids: set<nat>, k: nat)
    requires ids <= rows.Keys
    requires k <= |OrderBy(rows, ids)|
    ensures OrderBy(rows, ids - Elements(OrderBy(rows, ids)[..k])) == OrderBy(rows, ids)[k..]
    decreases k
  {
    if k == 0 {
      assert ids - Elements(OrderBy(rows, ids)[..0]) == ids;
    } else {
      OrderByUnfolds(rows, ids);
      var head := First(rows, ids);
      var rest := ids - {head};
      var tail := OrderBy(rows, rest);
      SplitAfterHead(head, tail, k);
      DropHead(ids, head, tail[..k - 1]);
      OrderByDrop(rows, rest, k - 1);
    }
  }

  // Only the ordering columns of the ordered rows matter.
  lemma {:induction false} OrderByColumns(rows: Columns, other: Columns, ids: set<nat>)
    requires ids <= rows.Keys && ids <= other.Keys
    requires forall i <- ids :: rows[i] == other[i]
    ensures OrderBy(rows, ids) == OrderBy(other, ids)
    decreases |ids|
  {
    if ids == {} {
    } else {
      var i, j := First(rows, ids), First(other, ids);
      assert i == j by {
        assert Before(rows, i, j) == Before(other, i, j) && Before(rows, j, i) == Before(other, j, i);
      }
      OrderByColumns(rows, other, ids - {i});
    }
  }
}
