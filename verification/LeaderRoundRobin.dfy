/** Equal power: the election is an exact round robin in descending address order. */
module LeaderRoundRobin {
  import opened Sums
  import opened LeaderSelection
  import opened LeaderFairness
  import LeaderBounds

  ghost predicate EqualStart(v: Validators, power: nat) {
    && v != map[] && power > 0
    && forall a :: a in v ==> v[a] == Validator(power, 0)
  }

  /** `ring` lists the validators from the largest address down. */
  ghost predicate Descending(ring: seq<Address>, v: Validators) {
    && (forall i, j :: 0 <= i < j < |ring| ==> ring[i] > ring[j])
    && (forall i :: 0 <= i < |ring| ==> ring[i] in v)
    && (forall a :: a in v ==> a in ring)
  }

  /** Every set of validators has such a ring. */
  lemma {:induction false} RingExists(v: Validators) returns (ring: seq<Address>)
    ensures Descending(ring, v)
    decreases |v|
  {
    if v == map[] {
      ring := [];
    } else {
      var top := LargestAddress(v.Keys);
      assert (v - {top}).Keys == v.Keys - {top};
      var tail := RingExists(v - {top});
      ring := [top] + tail;
      assert forall a :: a in v ==> a == top || a in tail;
    }
  }

  lemma {:induction false} LargestAddress(keys: set<Address>) returns (top: Address)
    requires keys != {}
    ensures top in keys && forall a :: a in keys ==> a <= top
    decreases |keys|
  {
    var some :| some in keys;
    var rest := keys - {some};
    assert forall a :: a in keys ==> a == some || a in rest;
    if rest == {} {
      top := some;
    } else {
      var other := LargestAddress(rest);
      top := if other > some then other else some;
    }
  }

  lemma SameRing(ring: seq<Address>, v: Validators, r: Validators)
    requires Descending(ring, v) && r.Keys == v.Keys
    ensures Descending(ring, r)
  {
  }

  lemma {:induction false} RingSize(ring: seq<Address>, keys: set<Address>)
    requires forall i, j :: 0 <= i < j < |ring| ==> ring[i] > ring[j]
    requires keys == set i | 0 <= i < |ring| :: ring[i]
    ensures |keys| == |ring|
    decreases |ring|
  {
    if ring != [] {
      var last := |ring| - 1;
      var rest := keys - {ring[last]};
      assert rest == set i | 0 <= i < |ring[..last]| :: ring[..last][i];
      RingSize(ring[..last], rest);
    }
  }

  lemma EqualTotal(v: Validators, power: nat, ring: seq<Address>)
    requires EqualStart(v, power) && Descending(ring, v)
    ensures |ring| == |v| > 0 && Total(v) == Times(|ring|, power) > 0
  {
    RingSize(ring, v.Keys);
    EqualSum(Powers(v), power);
    assert |Powers(v)| == |v| by { assert Powers(v).Keys == v.Keys; }
  }

  lemma EqualSum(w: map<Address, int>, power: nat)
    requires w != map[] && power > 0 && forall a :: a in w ==> w[a] == power
    ensures Sum(w) == Times(|w|, power) > 0
  {
    SumAtMost(w, power); SumAtLeast(w, power);
    TimesIsProduct(|w|, power);
  }

  /** `done` validators of the ring have been elected in the current lap. */
  ghost predicate Lap(v: Validators, ring: seq<Address>, done: nat, x: int, t: int) {
    && done < |ring|
    && forall i :: 0 <= i < |ring| ==>
      ring[i] in v && v[ring[i]].priority == x - (if i < done then t else 0)
  }

  lemma LapLeader(v: Validators, power: nat, ring: seq<Address>, done: nat, x: int)
    requires v != map[] && Descending(ring, v) && Total(v) > 0
    requires forall a :: a in v ==> v[a].power == power
    requires Lap(v, ring, done, x, Total(v))
    ensures Proposer(v) == ring[done]
  {
    var r := Raise(v);
    forall b | b in r
      ensures AtLeast(r, ring[done], b)
    {
      var i :| 0 <= i < |ring| && ring[i] == b;
    }
    assert Leads(r, ring[done]);
  }

  lemma LapAdvances(v: Validators, power: nat, ring: seq<Address>, done: nat, x: int, next: nat, y: int)
    requires v != map[] && Descending(ring, v) && Total(v) > 0
    requires forall a :: a in v ==> v[a].power == power
    requires Lap(v, ring, done, x, Total(v))
    requires if done + 1 == |ring| then next == y == 0 && x + power == Total(v) else next == done + 1 && y == x + power
    ensures Lap(Selected(v), ring, next, y, Total(v))
  {
    LapLeader(v, power, ring, done, x);
    forall i | 0 <= i < |ring|
      ensures ring[i] in Selected(v)
      ensures Selected(v)[ring[i]].priority == x + power - (if i <= done then Total(v) else 0)
    {
      SelectedEntry(v, ring[i]);
    }
  }

  lemma LapNeverScales(v: Validators, ring: seq<Address>, done: nat, x: int)
    requires v != map[] && Descending(ring, v)
    requires Lap(v, ring, done, x, Total(v))
    ensures !ScalingFires(v)
  {
    var lo, hi := LeaderBounds.Extremes(v);
    var i :| 0 <= i < |ring| && ring[i] == lo;
    var j :| 0 <= j < |ring| && ring[j] == hi;
  }

  /** Whose turn it is in round k of a ring of n: k mod n, counted up round by round. */
  ghost function Turn(k: nat, n: nat): (t: nat)
    requires n > 0
    ensures t < n
  {
    if k == 0 then 0 else if Turn(k - 1, n) + 1 == n then 0 else Turn(k - 1, n) + 1
  }

  lemma {:induction false} TurnIsRemainder(k: nat, n: nat)
    requires n > 0
    ensures Turn(k, n) == k % n
  {
    if k == 0 {
      QuotientUnique(0, n, 0, 0);
    } else {
      TurnIsRemainder(k - 1, n);
      NextTurn(k - 1, n);
    }
  }

  lemma NextTurn(k: nat, n: nat)
    requires n > 0
    ensures (k + 1) % n == if k % n + 1 == n then 0 else k % n + 1
  {
    var q, r := k / n, k % n;
    assert k + 1 == n * q + (r + 1);
    if r + 1 < n {
      QuotientUnique(k + 1, n, q, r + 1);
    } else {
      assert n * q + n == n * (q + 1);
      QuotientUnique(k + 1, n, q + 1, 0);
    }
  }

  lemma QuotientUnique(k: int, n: int, q: int, r: int)
    requires n > 0 && 0 <= r < n && k == n * q + r
    ensures k % n == r
  {
    var q0, r0 := k / n, k % n;
    assert n * (q0 - q) == r - r0;
    if q0 > q {
      TimesMonotone(n, 1, q0 - q);
    } else if q0 < q {
      TimesMonotone(n, q0 - q, -1);
    }
  }

  ghost predicate InLap(v: Validators, power: nat, ring: seq<Address>, k: nat)
    requires Electable(v) && ring != []
  {
    var turn := Turn(k, |ring|);
    Lap(Rounds(v, k), ring, turn, Times(turn, power), Total(v))
  }

  /** The whole state after k rounds, in closed form. */
  lemma {:induction false} StateAfter(v: Validators, power: nat, ring: seq<Address>, k: nat)
    requires EqualStart(v, power) && Descending(ring, v)
    ensures |ring| == |v| > 0 && Electable(v) && Unscaled(v, k)
    ensures InLap(v, power, ring, k)
  {
    EqualTotal(v, power, ring);
    if k > 0 {
      StateAfter(v, power, ring, k - 1);
      PlainLap(v, power, ring, k - 1);
      LapStep(v, power, ring, k);
    }
  }

  lemma LapStep(v: Validators, power: nat, ring: seq<Address>, k: nat)
    requires EqualStart(v, power) && Descending(ring, v) && ring != []
    requires Electable(v) && k > 0 && InLap(v, power, ring, k - 1)
    requires Round(Rounds(v, k - 1)) == Selected(Rounds(v, k - 1))
    ensures InLap(v, power, ring, k)
  {
    hide Round, Selected, Lap, Descending, Total, Electable;
    EqualTotal(v, power, ring);
    var turn, next := Turn(k - 1, |ring|), Turn(k, |ring|);
    TurnAdvances(|ring|, power, k);
    LapAdvancesFrom(v, Rounds(v, k - 1), power, ring, turn, Times(turn, power), next, Times(next, power));
  }

  lemma TurnAdvances(n: nat, power: nat, k: nat)
    requires n > 0 && k > 0
    ensures var turn, next := Turn(k - 1, n), Turn(k, n);
      if turn + 1 == n then next == Times(next, power) == 0 && Times(turn, power) + power == Times(n, power)
      else next == turn + 1 && Times(next, power) == Times(turn, power) + power
  {
  }

  lemma LapAdvancesFrom(v: Validators, now: Validators, power: nat, ring: seq<Address>,
                        done: nat, x: int, next: nat, y: int)
    requires EqualStart(v, power) && Descending(ring, v) && Total(v) > 0
    requires now.Keys == v.Keys && Total(now) == Total(v) && forall a :: a in v ==> now[a].power == v[a].power
    requires Lap(now, ring, done, x, Total(v))
    requires if done + 1 == |ring| then next == y == 0 && x + power == Total(v) else next == done + 1 && y == x + power
    ensures Lap(Selected(now), ring, next, y, Total(v))
  {
    LapAdvances(now, power, ring, done, x, next, y);
  }

  /** Centring and scaling do nothing. */
  lemma PlainLap(v: Validators, power: nat, ring: seq<Address>, k: nat)
    requires EqualStart(v, power) && Descending(ring, v) && ring != []
    requires Electable(v) && Unscaled(v, k) && InLap(v, power, ring, k)
    ensures Unscaled(v, k + 1) && Prepared(Rounds(v, k)) == Rounds(v, k)
    ensures Round(Rounds(v, k)) == Selected(Rounds(v, k)) && RoundLeader(Rounds(v, k)) == Proposer(Rounds(v, k))
  {
    hide Lap, Descending, Round, RoundLeader, Selected, Proposer;
    var now, turn := Rounds(v, k), Turn(k, |ring|);
    AlwaysSolvent(v, k);
    CenterIsNoOp(now);
    SameRing(ring, v, now);
    LapNeverScales(now, ring, turn, Times(turn, power));
    PlainRound(now);
  }

  /** Round k elects the (k mod n)-th largest address, and centring and scaling are no-ops. */
  lemma ExactRoundRobin(v: Validators, power: nat, ring: seq<Address>, k: nat)
    requires EqualStart(v, power) && Descending(ring, v)
    ensures |ring| == |v| > 0 && Electable(v)
    ensures LeaderAt(v, k) == ring[Turn(k, |ring|)]
    ensures Prepared(Rounds(v, k)) == Rounds(v, k)
  {
    hide Lap, Descending, Round, Selected, Proposer;
    StateAfter(v, power, ring, k);
    PlainLap(v, power, ring, k);
    var turn := Turn(k, |ring|);
    SameRing(ring, v, Rounds(v, k));
    LapLeader(Rounds(v, k), power, ring, turn, Times(turn, power));
  }

  /** After every full lap the state is back where it started. */
  lemma LapsReturn(v: Validators, power: nat, ring: seq<Address>, k: nat)
    requires EqualStart(v, power) && Descending(ring, v)
    requires ring != [] && Turn(k, |ring|) == 0
    ensures Electable(v) && Rounds(v, k) == v
  {
    hide Lap, Descending, Round;
    StateAfter(v, power, ring, k);
    LapOver(Rounds(v, k), v, power, ring);
  }

  lemma LapOver(r: Validators, v: Validators, power: nat, ring: seq<Address>)
    requires EqualStart(v, power) && Descending(ring, v)
    requires r.Keys == v.Keys && forall a :: a in r ==> r[a].power == power
    requires Lap(r, ring, 0, 0, Total(v))
    ensures r == v
  {
    forall a | a in v
      ensures r[a] == v[a]
    {
      var i :| 0 <= i < |ring| && ring[i] == a;
    }
  }

  /** Any n consecutive rounds elect every validator ... */
  lemma EveryWindowElectsAll(v: Validators, power: nat, ring: seq<Address>, start: nat, a: Address)
    returns (k: nat)
    requires EqualStart(v, power) && Descending(ring, v) && a in v
    ensures Electable(v) && start <= k < start + |v| && LeaderAt(v, k) == a
  {
    EqualTotal(v, power, ring);
    var i: nat :| i < |ring| && ring[i] == a;
    k := TurnInWindow(start, |ring|, i);
    ExactRoundRobin(v, power, ring, k);
  }

  /** ... exactly once. */
  lemma WindowElectsOnce(v: Validators, power: nat, ring: seq<Address>, j: nat, k: nat)
    requires EqualStart(v, power) && Descending(ring, v) && j < k < j + |v|
    ensures Electable(v) && LeaderAt(v, j) != LeaderAt(v, k)
  {
    hide LeaderAt, Rounds, Total, Electable, Prepared;
    EqualTotal(v, power, ring);
    ExactRoundRobin(v, power, ring, j);
    ExactRoundRobin(v, power, ring, k);
    if LeaderAt(v, j) == LeaderAt(v, k) {
      RingInjective(ring, Turn(j, |ring|), Turn(k, |ring|));
      SameTurn(j, k, |ring|);
    }
  }

  lemma RingInjective(ring: seq<Address>, i: nat, j: nat)
    requires forall i, j :: 0 <= i < j < |ring| ==> ring[i] > ring[j]
    requires i < |ring| && j < |ring| && ring[i] == ring[j]
    ensures i == j
  {
  }

  lemma TurnInWindow(start: nat, n: nat, i: nat) returns (k: nat)
    requires i < n
    ensures start <= k < start + n && Turn(k, n) == i
  {
    var q, r := start / n, start % n;
    if r <= i {
      k := start + (i - r);
      QuotientUnique(k, n, q, i);
    } else {
      k := start + (n + i - r);
      assert n * q + n == n * (q + 1);
      QuotientUnique(k, n, q + 1, i);
    }
    TurnIsRemainder(k, n);
  }

  lemma SameTurn(j: nat, k: nat, n: nat)
    requires n > 0 && Turn(j, n) == Turn(k, n) && j < k + n && k < j + n
    ensures j == k
  {
    TurnIsRemainder(j, n);
    TurnIsRemainder(k, n);
    var p, q := j / n, k / n;
    assert j - k == n * (p - q);
    if p > q {
      TimesMonotone(n, 1, p - q);
    } else if p < q {
      TimesMonotone(n, p - q, -1);
    }
  }
}
