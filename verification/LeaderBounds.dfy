/** One centre / scale / select round forces every priority into a band around zero,
    whatever the priorities were before; inside the band nothing overflows an i64. */
module LeaderBounds {
  import opened Sums
  import opened LeaderSelection

  ghost predicate Straddles(v: Validators) {
    && (exists a :: a in v && v[a].priority <= 0)
    && (exists a :: a in v && v[a].priority >= 0)
  }

  /** Truncation leaves a remainder smaller than the number of validators, so centred
      priorities cannot all be positive, nor all negative. */
  lemma CenterStraddles(v: Validators)
    requires v != map[]
    ensures Straddles(Center(v))
  {
    var c := Center(v);
    var average := Average(v);
    SumShift(Priorities(v), average, Priorities(c));
    assert |Priorities(v)| == |v| by { assert Priorities(v).Keys == v.Keys; }
    assert |Priorities(c)| == |v| by { assert Priorities(c).Keys == v.Keys; }
    assert -|v| < Sum(Priorities(c)) < |v|;
    if forall a :: a in c ==> c[a].priority > 0 {
      SumAtLeast(Priorities(c), 1);
    }
    if forall a :: a in c ==> c[a].priority < 0 {
      SumAtMost(Priorities(c), -1);
    }
  }

  /** The factor f is rounded down, so dividing by it overshoots by at most one part in f. */
  lemma OvershootAtMost(x: int, d: int, t: int, f: int)
    requires t > 0 && f >= ONE_E3
    requires f * x <= d * ONE_E3 < t * f + t
    ensures 1000 * x <= 1001 * t
  {
    TimesMonotone(t, ONE_E3, f);
    assert 1000 * (f * x) <= 1001 * (t * f);
    assert f * (1000 * x) == 1000 * (f * x) && f * (1001 * t + 1) == 1001 * (t * f) + f;
    CancelTimes(f, 1000 * x, 1001 * t + 1);
  }

  lemma ScaledEntry(v: Validators, a: Address)
    requires Electable(v) && ScalingFires(v) && a in v
    ensures a in Scale(v) && var f, p, q := ScaleFactor(v), v[a].priority, Scale(v)[a].priority;
      && (p >= 0 ==> 0 <= f * q <= p * ONE_E3 && q >= 0)
      && (p <= 0 ==> p * ONE_E3 <= f * q <= 0 && q <= 0)
  {
  }

  lemma ScaleStraddles(v: Validators)
    requires Electable(v) && Straddles(v) && ScalingFires(v)
    ensures Scale(v) != map[] && Straddles(Scale(v))
  {
    var lo :| lo in v && v[lo].priority <= 0;
    var hi :| hi in v && v[hi].priority >= 0;
    ScaledEntry(v, lo);
    ScaledEntry(v, hi);
  }

  lemma Extremes(v: Validators) returns (lo: Address, hi: Address)
    requires v != map[]
    ensures lo in v && hi in v && Spread(v) == v[hi].priority - v[lo].priority
    ensures forall a :: a in v ==> v[lo].priority <= v[a].priority <= v[hi].priority
  {
    var m := Priorities(v);
    var least, greatest := MinOf(m), MaxOf(m);
    assert Spread(v) == greatest - least;
    lo :| lo in m && m[lo] == least;
    hi :| hi in m && m[hi] == greatest;
    assert m[lo] == v[lo].priority && m[hi] == v[hi].priority;
    assert forall a :: a in v ==> m[a] == v[a].priority;
  }

  /** Scaling keeps the signs and divides the spread by the factor. */
  lemma ScaledSpread(v: Validators)
    requires Electable(v) && Straddles(v) && ScalingFires(v)
    ensures Scale(v) != map[] && Straddles(Scale(v))
    ensures ScaleFactor(v) * Spread(Scale(v)) <= Spread(v) * ONE_E3
  {
    ScaleStraddles(v);
    var bottom, top := Extremes(v);
    var lo, hi := Extremes(Scale(v));
    ScaledEntry(v, lo);
    ScaledEntry(v, hi);
    ScaledExtremes(ScaleFactor(v), v[hi].priority, Scale(v)[hi].priority, v[top].priority,
                   v[lo].priority, Scale(v)[lo].priority, v[bottom].priority,
                   Spread(v), Spread(Scale(v)));
  }

  lemma ScaledExtremes(f: int, ph: int, qh: int, top: int, pl: int, ql: int, bottom: int,
                       d: int, scaled: int)
    requires f > 0 && bottom <= 0 <= top && ph <= top && bottom <= pl
    requires (ph >= 0 ==> f * qh <= ph * ONE_E3) && (ph <= 0 ==> f * qh <= 0)
    requires (pl <= 0 ==> pl * ONE_E3 <= f * ql) && (pl >= 0 ==> 0 <= f * ql)
    requires d == top - bottom && scaled == qh - ql
    ensures f * scaled <= d * ONE_E3
  {
    assert f * (qh - ql) == f * qh - f * ql;
  }

  /** The spread a round starts selecting from: at most 1.001 times the threshold 2T. */
  lemma PreparedSpread(v: Validators)
    requires Electable(v) && Straddles(v)
    ensures Electable(Scale(v)) && Straddles(Scale(v)) && Total(Scale(v)) == Total(v)
    ensures 1000 * Spread(Scale(v)) <= 2002 * Total(v)
  {
    SameShape(v, Scale(v));
    if ScalingFires(v) {
      ScaledSpread(v);
      OvershootAtMost(Spread(Scale(v)), Spread(v), 2 * Total(v), ScaleFactor(v));
    }
  }

  lemma ScaleBand(v: Validators)
    requires Electable(v) && Straddles(v)
    ensures forall a :: a in v ==> -2002 * Total(v) <= 1000 * Scale(v)[a].priority <= 2002 * Total(v)
    ensures exists a :: a in v && Scale(v)[a].priority >= 0
  {
    PreparedSpread(v);
    SpreadCovers(Scale(v));
    var hi :| hi in Scale(v) && Scale(v)[hi].priority >= 0;
    assert hi in v;
  }

  /** What rounding a division toward zero drops, as an amount of the dividend. */
  function Lost(a: int, b: int): (r: int)
    requires b > 0
    ensures 0 <= r < b
  {
    if a >= 0 then a - b * TruncDiv(a, b) else b * TruncDiv(a, b) - a
  }

  lemma TruncMonotone(x: int, y: int, b: int)
    requires b > 0 && x <= y
    ensures TruncDiv(x, b) <= TruncDiv(y, b)
  {
    var qx, qy := TruncDiv(x, b), TruncDiv(y, b);
    if x >= 0 || y <= 0 {
      assert b * (qy + 1) == b * qy + b;
      CancelTimes(b, qx, qy + 1);
    }
  }

  /** Scaling is monotone, so the scaled extremes are those of the old extremes. */
  lemma ScaledEnds(v: Validators, lo: Address, hi: Address)
    requires Electable(v) && ScalingFires(v) && lo in v && hi in v
    requires forall a :: a in v ==> v[lo].priority <= v[a].priority <= v[hi].priority
    ensures Scale(v) != map[]
    ensures Spread(Scale(v)) ==
        TruncDiv(v[hi].priority * ONE_E3, ScaleFactor(v)) - TruncDiv(v[lo].priority * ONE_E3, ScaleFactor(v))
  {
    assert lo in Scale(v);
    var bottom, top := Extremes(Scale(v));
    var f := ScaleFactor(v);
    TruncMonotone(v[top].priority * ONE_E3, v[hi].priority * ONE_E3, f);
    TruncMonotone(v[lo].priority * ONE_E3, v[bottom].priority * ONE_E3, f);
    assert Scale(v)[hi].priority <= Scale(v)[top].priority && Scale(v)[bottom].priority <= Scale(v)[lo].priority;
  }

  /** The spread comes down to the threshold 2T exactly if rounding the factor down lost no more
      than rounding the two extreme priorities toward zero made up for. */
  lemma ThresholdMetIff(v: Validators, lo: Address, hi: Address)
    requires Electable(v) && Straddles(v) && ScalingFires(v) && lo in v && hi in v
    requires forall a :: a in v ==> v[lo].priority <= v[a].priority <= v[hi].priority
    ensures Scale(v) != map[]
    ensures Spread(Scale(v)) <= 2 * Total(v) <==>
      Lost(Spread(v) * ONE_E3, 2 * Total(v)) <=
        Lost(v[hi].priority * ONE_E3, ScaleFactor(v)) + Lost(v[lo].priority * ONE_E3, ScaleFactor(v))
  {
    ScaledEnds(v, lo, hi);
    var bottom, top := Extremes(v);
    var f, t, p, q := ScaleFactor(v), 2 * Total(v), v[hi].priority, v[lo].priority;
    LostAbove(Spread(v) * ONE_E3, t);
    LostAbove(p * ONE_E3, f);
    LostBelow(q * ONE_E3, f);
    LossesBalance(f, t, TruncDiv(p * ONE_E3, f), TruncDiv(q * ONE_E3, f), p * ONE_E3, q * ONE_E3,
                  Lost(Spread(v) * ONE_E3, t), Lost(p * ONE_E3, f), Lost(q * ONE_E3, f));
  }

  lemma LostAbove(a: int, b: int)
    requires a >= 0 && b > 0
    ensures b * TruncDiv(a, b) + Lost(a, b) == a
  {
  }

  lemma LostBelow(a: int, b: int)
    requires a <= 0 && b > 0
    ensures b * TruncDiv(a, b) - Lost(a, b) == a
  {
  }

  lemma LossesBalance(f: int, t: int, ph: int, ql: int, x: int, y: int, factor: int, above: int, below: int)
    requires f > 0 && t * f + factor == x - y && f * ph + above == x && f * ql - below == y
    ensures ph - ql <= t <==> factor <= above + below
  {
    assert f * (ph - ql) == f * ph - f * ql && t * f == f * t;
    if ph - ql <= t {
      TimesMonotone(f, ph - ql, t);
    } else {
      TimesMonotone(f, t + 1, ph - ql);
      assert f * (t + 1) == f * t + f;
    }
  }

  /** In general it does not: with T = 1000, two centred priorities 2001 apart are left as they
      are by a round's preparation, the factor being rounded down to one. */
  lemma ScalingCanMissThreshold(v: Validators)
    requires v == map[1 := Validator(1000, -1000), 2 := Validator(0, 1001)]
    ensures Electable(v) && Center(v) == v && ScalingFires(v)
    ensures Prepared(v) == v && Spread(v) == 2001 > 2 * Total(v)
  {
    hide Sum, Total, Spread;
    MissTotals(v);
    assert Average(v) == TruncDiv(1, 2) == 0;
    assert Center(v) == v;
    assert ScaleFactor(v) == TruncDiv(2001000, 2000) == 1000;
    forall a | a in v
      ensures Scale(v)[a] == v[a]
    {
      assert TruncDiv(v[a].priority * ONE_E3, 1000) == v[a].priority;
    }
  }

  lemma MissTotals(v: Validators)
    requires v == map[1 := Validator(1000, -1000), 2 := Validator(0, 1001)]
    ensures |v| == 2 && Total(v) == 1000 && Sum(Priorities(v)) == 1 && Spread(v) == 2001
  {
    hide Sum, MaxOf, MinOf;
    PairSum(1000, 0);
    PairSum(-1000, 1001);
    PairExtremes(-1000, 1001);
    assert Powers(v) == Pair(1000, 0);
    assert Priorities(v) == Pair(-1000, 1001);
    assert v.Keys == {1, 2};
  }

  lemma PairExtremes(x: int, y: int)
    requires x <= y
    ensures Pair(x, y) != map[] && MinOf(Pair(x, y)) == x && MaxOf(Pair(x, y)) == y
  {
    assert Pair(x, y)[1] == x && Pair(x, y)[2] == y;
  }

  ghost function Pair(x: int, y: int): map<Address, int> {
    map[1 := x, 2 := y]
  }

  lemma PairSum(x: int, y: int)
    ensures Sum(Pair(x, y)) == x + y
  {
    var none: map<Address, int> := map[];
    SumPut(none, 1, x);
    SumPut(none[1 := x], 2, y);
    assert none[1 := x][2 := y] == Pair(x, y);
  }

  lemma SpreadCovers(v: Validators)
    requires v != map[] && Straddles(v)
    ensures forall a :: a in v ==> -Spread(v) <= v[a].priority <= Spread(v)
  {
    var lo, hi := Extremes(v);
  }

  ghost predicate InBand(v: Validators) {
    forall a :: a in v ==> -2002 * Total(v) <= 1000 * v[a].priority <= 3002 * Total(v)
  }

  /** Self-stabilisation: from ANY priorities, one round lands in the band. */
  lemma RoundStabilises(v: Validators)
    requires Electable(v)
    ensures Round(v).Keys == v.Keys && Total(Round(v)) == Total(v)
    ensures InBand(Round(v))
  {
    RoundShape(v);
    CenterStraddles(v);
    var c := Center(v);
    ScaleBand(c);
    var s := Scale(c);
    var t := Total(v);
    forall a | a in v
      ensures -2002 * t <= 1000 * Round(v)[a].priority <= 3002 * t
    {
      PowerAtMostTotal(s, a);
      var hi :| hi in s && s[hi].priority >= 0;
      SelectedEntry(s, a, hi);
    }
  }

  lemma PowerAtMostTotal(v: Validators, a: Address)
    requires a in v
    ensures v[a].power <= Total(v)
  {
    SumTake(Powers(v), a);
    SumAtLeast(Powers(v) - {a}, 0);
  }

  /** One entry after `proposer_selection`; only the leader pays, and it had at least
      what any witness of a non-negative priority had. */
  lemma SelectedEntry(s: Validators, a: Address, hi: Address)
    requires a in s && hi in s && s[hi].priority >= 0
    ensures a in Selected(s)
    ensures a != Proposer(s) ==> Selected(s)[a].priority == s[a].priority + s[a].power
    ensures a == Proposer(s) ==> Selected(s)[a].priority == s[a].priority + s[a].power - Total(s) >= -Total(s)
  {
    assert AtLeast(Raise(s), Proposer(s), hi);
  }

  const I64_MAX: int := 0x7fff_ffff_ffff_ffff

  predicate FitsI64(x: int) {
    -I64_MAX - 1 <= x <= I64_MAX
  }

  /** Every intermediate value of one round, in every iteration order: a running sum of
      priorities is the sum over some subset of the validators. */
  ghost predicate RoundFitsI64(v: Validators)
    requires Electable(v)
  {
    RoundShape(v);
    var c := Center(v);
    var s := Prepared(v);
    && (forall part: set<Address> :: part <= v.Keys ==> FitsI64(Sum(Restrict(Priorities(v), part))))
    && FitsI64(|v|)
    && FitsI64(2 * Total(v))
    && FitsI64(Spread(c)) && FitsI64(Spread(c) * ONE_E3)
    && (forall a :: a in v ==> EntryFitsI64(c[a], s[a], Round(v)[a]))
  }

  /** One validator through a round: centred, scaled, and after selection. */
  predicate EntryFitsI64(centred: Validator, scaled: Validator, after: Validator) {
    && FitsI64(centred.priority) && FitsI64(centred.priority * ONE_E3)
    && FitsI64(scaled.priority) && FitsI64(scaled.priority + scaled.power)
    && FitsI64(after.priority)
  }

  ghost predicate SmallEnough(v: Validators) {
    && |v| <= I64_MAX
    && 5004 * Total(v) <= I64_MAX
    && |v| * (3002 * Total(v)) <= 1000 * I64_MAX
  }

  lemma InBandFits(v: Validators)
    requires Electable(v) && SmallEnough(v) && InBand(v)
    ensures RoundFitsI64(v)
  {
    RoundShape(v);
    CenteredRange(v);
    forall a | a in v
      ensures EntryFitsI64(Center(v)[a], Prepared(v)[a], Round(v)[a])
    {
      EntryFits(v, a);
    }
    forall part: set<Address> | part <= v.Keys
      ensures FitsI64(Sum(Restrict(Priorities(v), part)))
    {
      PartialSumFits(v, part);
    }
  }

  lemma EntryFits(v: Validators, a: Address)
    requires Electable(v) && SmallEnough(v) && InBand(v) && a in v
    ensures a in Center(v) && a in Prepared(v) && a in Round(v)
    ensures EntryFitsI64(Center(v)[a], Prepared(v)[a], Round(v)[a])
  {
    hide Round, Scale, Center, Sum, Total, Spread, Electable;
    RoundShape(v);
    CenteredRange(v);
    CenterStraddles(v);
    ScaleBand(Center(v));
    PowerAtMostTotal(Scale(Center(v)), a);
    RoundStabilises(v);
  }

  lemma CenteredRange(v: Validators)
    requires Electable(v) && InBand(v)
    ensures 1000 * Spread(Center(v)) <= 5004 * Total(v)
    ensures forall a :: a in v ==> -5004 * Total(v) <= 1000 * Center(v)[a].priority <= 5004 * Total(v)
  {
    RoundShape(v);
    CenterStraddles(v);
    var c := Center(v);
    var lo, hi := Extremes(c);
    SpreadCovers(c);
  }

  lemma PartialSumFits(v: Validators, part: set<Address>)
    requires Electable(v) && SmallEnough(v) && InBand(v) && part <= v.Keys
    ensures FitsI64(Sum(Restrict(Priorities(v), part)))
  {
    hide Sum, Total, FitsI64, InBand, Electable;
    var bound := PartialSumBound(v, part);
    SubsetSize(part, v.Keys);
    ProductFits(|part|, |v|, Total(v), bound, Sum(Restrict(Priorities(v), part)));
  }

  lemma PartialSumBound(v: Validators, part: set<Address>) returns (bound: int)
    requires InBand(v) && part <= v.Keys
    ensures 0 <= 1000 * bound <= 3002 * Total(v)
    ensures |part| * -bound <= Sum(Restrict(Priorities(v), part)) <= |part| * bound
  {
    hide Sum, Total;
    bound := TruncDiv(3002 * Total(v), 1000);
    var m := Restrict(Priorities(v), part);
    assert m.Keys == part && |m| == |part|;
    assert forall a :: a in m ==> m[a] == v[a].priority;
    SumAtMost(m, bound);
    SumAtLeast(m, -bound);
  }

  lemma ProductFits(k: int, n: int, t: int, bound: int, x: int)
    requires 0 <= k <= n && bound >= 0 && 1000 * bound <= 3002 * t && n * (3002 * t) <= 1000 * I64_MAX
    requires k * -bound <= x <= k * bound
    ensures FitsI64(x)
  {
    TimesMonotone(bound, k, n);
    TimesMonotone(n, 1000 * bound, 3002 * t);
    assert n * (1000 * bound) == 1000 * (n * bound);
    assert k * -bound == -(k * bound);
  }

  lemma {:induction false} SubsetSize<T>(a: set<T>, b: set<T>)
    requires a <= b
    ensures |a| <= |b|
    decreases a
  {
    if a != {} {
      var x :| x in a;
      SubsetSize(a - {x}, b - {x});
    }
  }

  /** After the first round no later round of a fixed set overflows. */
  lemma {:induction false} LaterRoundsFitI64(v: Validators, k: nat)
    requires Electable(v) && SmallEnough(v) && k > 0
    ensures InBand(Rounds(v, k)) && RoundFitsI64(Rounds(v, k))
  {
    hide Round, RoundFitsI64;
    RoundStabilises(Rounds(v, k - 1));
    InBandFits(Rounds(v, k));
  }
}
