/** The first call of all, when it is for the start block: it runs one election more than the
    rounds since that block, and that shows unless one validator holds all the power. */
module LeaderStartBlock {
  import opened Options
  import opened Sums
  import opened LeaderSelection
  import opened LeaderElection
  import opened LeaderFairness
  import opened LeaderRoundRobin
  import opened LeaderCatchUp
  import LeaderBounds

  // ----- rounds that change nothing

  ghost predicate HoldsAllPower(v: Validators) {
    exists a :: a in v && v[a].power == Total(v)
  }

  /** Scaling never spreads two priorities further apart. */
  lemma ShrinkMonotone(x: int, y: int, f: int)
    requires f >= ONE_E3 && x <= y
    ensures TruncDiv(y * ONE_E3, f) - TruncDiv(x * ONE_E3, f) <= y - x
  {
    if x >= 0 || y <= 0 {
      ShrinkArithmetic(x, y, f, TruncDiv(x * ONE_E3, f), TruncDiv(y * ONE_E3, f));
    } else {
      ShrinkPositive(y, f);
      ShrinkNegative(x, f);
    }
  }

  lemma ShrinkArithmetic(x: int, y: int, f: int, qx: int, qy: int)
    requires f >= ONE_E3 && x <= y && f * qy - f * qx < (y - x) * ONE_E3 + f
    ensures qy - qx <= y - x
  {
    TimesMonotone(y - x, ONE_E3, f);
    assert f * (qy - qx) == f * qy - f * qx && f * (y - x + 1) == (y - x) * f + f;
    CancelTimes(f, qy - qx, y - x + 1);
  }

  lemma ShrinkPositive(y: int, f: int)
    requires f >= ONE_E3 && y >= 0
    ensures TruncDiv(y * ONE_E3, f) <= y
  {
    TimesMonotone(y, ONE_E3, f);
    assert f * (y + 1) == f * y + f;
    CancelTimes(f, TruncDiv(y * ONE_E3, f), y + 1);
  }

  lemma ShrinkNegative(x: int, f: int)
    requires f >= ONE_E3 && x <= 0
    ensures x <= TruncDiv(x * ONE_E3, f)
  {
    TimesMonotone(-x, ONE_E3, f);
    assert f * (x - 1) == f * x - f;
    CancelTimes(f, x - 1, TruncDiv(x * ONE_E3, f));
  }

  /** What a round that changes nothing says about each validator: the leader gave up as much as
      centring, scaling and its own power brought it, everybody else broke even. */
  lemma FixedEntry(w: Validators, a: Address)
    requires Electable(w) && Round(w) == w && a in w
    ensures a in Center(w) && a in Prepared(w)
    ensures Prepared(w)[a].priority + w[a].power - (if RoundLeader(w) == a then Total(w) else 0) == w[a].priority
    ensures Center(w)[a].priority == w[a].priority - Average(w)
  {
    RoundShape(w);
    LeaderFairness.SelectedEntry(Prepared(w), a);
  }

  /** In such a round nobody is more than a total power above the leader. */
  lemma FixedReach(w: Validators, a: Address)
    requires Electable(w) && Round(w) == w && a in w
    ensures RoundLeader(w) in w && w[a].priority <= w[RoundLeader(w)].priority + Total(w)
  {
    hide Prepared, Total;
    var p := Prepared(w);
    FixedEntry(w, a);
    RoundShapeOf(w);
    FixedEntry(w, RoundLeader(w));
    RaisedLeader(p);
    RaisedBy(p, a);
    RaisedBy(p, RoundLeader(w));
  }

  lemma RoundShapeOf(w: Validators)
    requires Electable(w)
    ensures Prepared(w).Keys == w.Keys && Total(Prepared(w)) == Total(w) && RoundLeader(w) in w
    ensures forall a :: a in w ==> Prepared(w)[a].power == w[a].power
  {
    RoundShape(w);
  }

  lemma RaisedBy(p: Validators, a: Address)
    requires a in p
    ensures a in Raise(p) && Raise(p)[a].priority == p[a].priority + p[a].power
  {
  }

  /** How much preparing a round takes from a validator does not fall with its priority. */
  lemma PreparedShift(w: Validators, a: Address, b: Address)
    requires Electable(w) && a in w && b in w && w[a].priority <= w[b].priority
    ensures a in Prepared(w) && b in Prepared(w)
    ensures Prepared(w)[b].priority - w[b].priority <= Prepared(w)[a].priority - w[a].priority
  {
    RoundShape(w);
    var c := Center(w);
    if ScalingFires(c) { ShrinkMonotone(c[a].priority, c[b].priority, ScaleFactor(c)); }
  }

  /** Somebody is at or below the leader, unless it is alone. */
  lemma SomebodyBelow(w: Validators) returns (a: Address)
    requires Electable(w) && Round(w) == w && |w| > 1
    ensures a in w && a != RoundLeader(w)
    ensures w[a].priority <= w[RoundLeader(w)].priority || !ScalingFires(Center(w))
  {
    hide Round, RoundLeader, Total;
    var leader := RoundLeader(w);
    RoundShapeOf(w);
    if ScalingFires(Center(w)) {
      var lo, hi := LowHigh(w);
      FixedReach(w, hi);
      a := lo;
    } else {
      assert w.Keys != {leader} by { assert |{leader}| == 1; }
      a :| a in w && a != leader;
    }
  }

  lemma LowHigh(w: Validators) returns (lo: Address, hi: Address)
    requires Electable(w) && ScalingFires(Center(w))
    ensures lo in w && hi in w && w[hi].priority - w[lo].priority > 2 * Total(w) > 0
  {
    RoundShape(w);
    lo, hi := LeaderBounds.Extremes(Center(w));
  }

  /** A round changes nothing only if one validator holds all the power. */
  lemma FixedPointConcentrates(w: Validators)
    requires Electable(w) && Round(w) == w
    ensures w[RoundLeader(w)].power == Total(w)
  {
    hide Round, RoundLeader, Prepared, Total, ScalingFires, Center;
    var leader := RoundLeader(w);
    RoundShapeOf(w);
    LeaderBounds.PowerAtMostTotal(w, leader);
    FixedEntry(w, leader);
    if |w| == 1 {
      Alone(w, leader);
    } else {
      var a := SomebodyBelow(w);
      FixedEntry(w, a);
      if ScalingFires(Center(w)) {
        PreparedShift(w, a, leader);
      } else {
        Unshifted(w, a);
        Unshifted(w, leader);
      }
    }
  }

  lemma Unshifted(w: Validators, a: Address)
    requires Electable(w) && a in w && !ScalingFires(Center(w))
    ensures a in Prepared(w) && Prepared(w)[a].priority == w[a].priority - Average(w)
  {
  }

  lemma Alone(w: Validators, a: Address)
    requires a in w && |w| == 1
    ensures w[a].power == Total(w)
  {
    forall b | b in w
      ensures b == a
    {
      LeaderBounds.SubsetSize({a, b}, w.Keys);
    }
    SumTake(Powers(w), a);
    assert Powers(w) - {a} == map[];
  }

  /** With all the power in one place and zero priorities an election changes nothing. */
  lemma ConcentratedStandsStill(v: Validators)
    requires Electable(v) && AllZero(v) && HoldsAllPower(v)
    ensures Selected(v) == v
  {
    hide Total;
    var a :| a in v && v[a].power == Total(v);
    forall b | b in v && b != a
      ensures v[b].power == 0
    {
      PowersApart(v, a, b);
    }
    assert Leads(Raise(v), a);
    assert Proposer(v) == a;
    forall b | b in v
      ensures Selected(v)[b] == v[b]
    {
      LeaderFairness.SelectedEntry(v, b);
    }
  }

  lemma PowersApart(v: Validators, a: Address, b: Address)
    requires a in v && b in v && a != b
    ensures v[a].power + v[b].power <= Total(v)
  {
    var m := Powers(v);
    SumTake(m, a);
    SumTake(m - {a}, b);
    SumAtLeast(m - {a} - {b}, 0);
  }

  // ----- the first call

  /** Zero priorities are not scaled, so the extra election is a whole round. */
  lemma FirstRoundPlain(v: Validators)
    requires Electable(v) && AllZero(v)
    ensures Round(v) == Selected(v) && RoundLeader(v) == Proposer(v)
  {
    hide Round, Selected, Proposer, Sum, Total;
    ZeroSum(v);
    CenterIsNoOp(v);
    var lo, hi := LeaderBounds.Extremes(v);
    assert !ScalingFires(Center(v));
    PlainRound(v);
  }

  /** From zero priorities, a first call at the start block runs one election more, so the node is
      one round ahead from then on. */
  lemma StartBlockCallIsARound(r: Rotation, later: nat)
    requires Electable(r.validators) && AllZero(r.validators) && r.last == None && r.block < later
    ensures Choose(Choose(r, r.block).0, later) ==
      (Rotation(Rounds(r.validators, later - r.block + 1), later, Some(LeaderAt(r.validators, later - r.block))),
       Some(LeaderAt(r.validators, later - r.block)))
  {
    hide Rounds, LeaderAt, Round, RoundLeader, Selected, Proposer, AllZero, Electable, Total;
    var v, k := r.validators, later - r.block;
    FirstRoundPlain(v);
    NoRounds(v);
    OneMoreRound(v, 0);
    RoundsCompose(v, 1, k);
    LeaderCompose(v, 1, k - 1);
  }

  /** That leaves a trace in every later state if and only if no validator holds all the power. */
  lemma StartBlockCallShowsIff(r: Rotation, later: nat)
    requires Electable(r.validators) && AllZero(r.validators) && r.last == None && r.block < later
    ensures Choose(Choose(r, r.block).0, later) == Choose(r, later) <==> HoldsAllPower(r.validators)
  {
    hide Rounds, LeaderAt, Round, Selected, Proposer, AllZero, Electable, Total, HoldsAllPower;
    var v, k := r.validators, later - r.block;
    StartBlockCallIsARound(r, later);
    if HoldsAllPower(v) {
      ConcentratedStandsStill(v);
    } else {
      OneMoreRound(v, k);
      NotConcentrated(v, k);
    }
  }

  lemma NotConcentrated(v: Validators, k: nat)
    requires Electable(v) && !HoldsAllPower(v)
    ensures Round(Rounds(v, k)) != Rounds(v, k)
  {
    hide Rounds, Round, RoundLeader, Total, Electable;
    var w := Rounds(v, k);
    if Round(w) == w {
      FixedPointConcentrates(w);
      LeaderInSet(w);
    }
  }

  lemma LeaderInSet(w: Validators)
    requires Electable(w)
    ensures RoundLeader(w) in w
  {
    RoundShape(w);
  }

  /** Exactly when calls one after the other end where a single call for the last block does: the
      first is above the start block, or an election has been held before, or no call goes beyond
      the start block, or one validator holds all the power. */
  lemma SteppingIsCatchingUpIff(r: Rotation, gaps: seq<nat>)
    requires Electable(r.validators) && gaps != [] && (r.last.None? ==> AllZero(r.validators))
    ensures ChooseAll(r, gaps) == Choose(r, r.block + Span(gaps)) <==>
      gaps[0] > 0 || r.last.Some? || Span(gaps) == 0 || HoldsAllPower(r.validators)
  {
    hide Choose, ChooseAll, Electable, AllZero, HoldsAllPower;
    if gaps[0] > 0 || r.last.Some? {
      SteppingIsCatchingUp(r, gaps);
    } else if |gaps| > 1 {
      var first := Choose(r, r.block).0;
      StartsWithFirst(r, gaps);
      if Span(gaps) == 0 {
        ChooseTwice(r, r.block);
      } else {
        StartBlockCallShowsIff(r, r.block + Span(gaps));
      }
    } else {
      OneCall(r, gaps);
    }
  }

  lemma OneCall(r: Rotation, gaps: seq<nat>)
    requires Electable(r.validators) && |gaps| == 1
    ensures Span(gaps) == gaps[0] && ChooseAll(r, gaps) == Choose(r, r.block + gaps[0])
  {
    hide Choose, Electable;
  }

  lemma StartsWithFirst(r: Rotation, gaps: seq<nat>)
    requires Electable(r.validators) && |gaps| > 1 && gaps[0] == 0
    ensures ChooseAll(r, gaps) == Choose(Choose(r, r.block).0, r.block + Span(gaps))
  {
    hide Choose, Electable;
    ElectedBy(r, r.block);
    SteppingIsCatchingUp(Choose(r, r.block).0, gaps[1..]);
  }

  /** With two or more equal validators the two nodes even name different leaders for every later
      block. */
  lemma StartBlockCallDesynchronises(r: Rotation, power: nat, ring: seq<Address>, later: nat)
    requires EqualStart(r.validators, power) && Descending(ring, r.validators)
    requires |ring| >= 2 && r.last == None && r.block < later
    ensures Electable(r.validators)
    ensures Choose(Choose(r, r.block).0, later).1 != Choose(r, later).1
  {
    hide LeaderAt, Rounds, Electable, Total, Descending, Selected, Proposer;
    var v, k := r.validators, later - r.block;
    EqualTotal(v, power, ring);
    ExactRoundRobin(v, power, ring, 0);
    StartBlockCallIsARound(r, later);
    WindowElectsOnce(v, power, ring, k - 1, k);
  }
}
