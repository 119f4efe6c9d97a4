/** Sums and extrema of finite integer maps. They are defined by picking any key, so
    everything proved here holds whatever order a hash set is iterated in. */
module Sums {

  /** Removing a key takes one term of size c out of |m| * c. */
  lemma OneTermLess<K>(m: map<K, int>, k: K, c: int)
    requires k in m
    ensures |m - {k}| == |m| - 1
    ensures |m| * c == |m - {k}| * c + c
  {
    assert (m - {k}).Keys == m.Keys - {k};
    var n := |m - {k}|;
    assert (n + 1) * c == n * c + c;
  }

  ghost function Sum<K>(m: map<K, int>): int {
    if m == map[] then 0 else
      var k :| k in m;
      m[k] + Sum(m - {k})
  }

  /** Any key may be taken out first. */
  lemma {:induction false} SumTake<K>(m: map<K, int>, k: K)
    requires k in m
    ensures Sum(m) == m[k] + Sum(m - {k})
    decreases |m|
  {
    var j :| j in m && Sum(m) == m[j] + Sum(m - {j});
    if j != k {
      SumTake(m - {j}, k);
      SumTake(m - {k}, j);
      assert m - {j} - {k} == m - {k} - {j};
    }
  }

  lemma SumPut<K>(m: map<K, int>, k: K, x: int)
    ensures Sum(m[k := x]) == Sum(m) - (if k in m then m[k] else 0) + x
  {
    SumTake(m[k := x], k);
    assert m[k := x] - {k} == m - {k};
    if k in m { SumTake(m, k); } else { assert m - {k} == m; }
  }

  lemma {:induction false} SumAdd<K>(m: map<K, int>, n: map<K, int>, r: map<K, int>)
    requires m.Keys == n.Keys == r.Keys
    requires forall k :: k in r ==> r[k] == m[k] + n[k]
    ensures Sum(r) == Sum(m) + Sum(n)
    decreases |m|
  {
    if m == map[] {
      assert n == map[] && r == map[];
    } else {
      var k :| k in m;
      SumAdd(m - {k}, n - {k}, r - {k});
      SumTake(m, k); SumTake(n, k); SumTake(r, k);
    }
  }

  lemma {:induction false} SumShift<K>(m: map<K, int>, c: int, r: map<K, int>)
    requires m.Keys == r.Keys
    requires forall k :: k in r ==> r[k] == m[k] - c
    ensures Sum(r) == Sum(m) - |m| * c
    decreases |m|
  {
    if m == map[] {
      assert r == map[];
    } else {
      var k :| k in m;
      SumShift(m - {k}, c, r - {k});
      SumTake(m, k); SumTake(r, k);
      OneTermLess(m, k, c);
    }
  }

  lemma {:induction false} SumAtMost<K>(m: map<K, int>, c: int)
    requires forall k :: k in m ==> m[k] <= c
    ensures Sum(m) <= |m| * c
    decreases |m|
  {
    if m != map[] {
      var k :| k in m;
      SumAtMost(m - {k}, c);
      SumTake(m, k);
      OneTermLess(m, k, c);
    }
  }

  lemma {:induction false} SumAtLeast<K>(m: map<K, int>, c: int)
    requires forall k :: k in m ==> m[k] >= c
    ensures Sum(m) >= |m| * c
    decreases |m|
  {
    if m != map[] {
      var k :| k in m;
      SumAtLeast(m - {k}, c);
      SumTake(m, k);
      OneTermLess(m, k, c);
    }
  }

  ghost function Restrict<K>(m: map<K, int>, s: set<K>): (r: map<K, int>)
    ensures r.Keys == m.Keys * s
    ensures forall k :: k in r ==> r[k] == m[k]
  {
    map k | k in m && k in s :: m[k]
  }

  /** Summing fewer non-negative terms gives no more. */
  lemma {:induction false} SumOfPart<K>(m: map<K, int>, s: set<K>)
    requires forall k :: k in m ==> m[k] >= 0
    ensures 0 <= Sum(Restrict(m, s)) <= Sum(m)
    decreases |m|
  {
    if m == map[] {
      assert Restrict(m, s) == map[];
    } else {
      var k :| k in m;
      SumOfPart(m - {k}, s);
      SumTake(m, k);
      if k in s {
        SumTake(Restrict(m, s), k);
        assert Restrict(m, s) - {k} == Restrict(m - {k}, s);
      } else {
        assert Restrict(m, s) == Restrict(m - {k}, s);
      }
    }
  }

  ghost function MaxOf<K>(m: map<K, int>): (x: int)
    requires m != map[]
    ensures exists k :: k in m && m[k] == x
    ensures forall k :: k in m ==> m[k] <= x
    decreases |m|
  {
    var k :| k in m;
    if m - {k} == map[] then
      assert forall j :: j in m ==> j == k || j in m - {k};
      m[k]
    else
      var rest := MaxOf(m - {k});
      assert forall j :: j in m ==> j == k || j in m - {k};
      if m[k] > rest then m[k] else rest
  }

  ghost function MinOf<K>(m: map<K, int>): (x: int)
    requires m != map[]
    ensures exists k :: k in m && m[k] == x
    ensures forall k :: k in m ==> m[k] >= x
    decreases |m|
  {
    var k :| k in m;
    if m - {k} == map[] then
      assert forall j :: j in m ==> j == k || j in m - {k};
      m[k]
    else
      var rest := MinOf(m - {k});
      assert forall j :: j in m ==> j == k || j in m - {k};
      if m[k] < rest then m[k] else rest
  }
}
