/** The fairness ledger: from zero priorities each priority is exactly what a validator is
    owed (k rounds of its power) minus what it was paid (T per election). The greedy choice
    keeps every debt under T and every credit under a harmonic bound, and with at most three
    validators that keeps scaling from ever firing. */
module LeaderFairness {
  import opened Sums
  import opened LeaderSelection
  import LeaderBounds

  ghost predicate AllZero(v: Validators) {
    forall a :: a in v ==> v[a].priority == 0
  }

  /** The leaders of the first k rounds. */
  ghost function Elected(v: Validators, k: nat): (ls: seq<Address>)
    requires Electable(v)
    ensures |ls| == k
  {
    if k == 0 then [] else Elected(v, k - 1) + [LeaderAt(v, k - 1)]
  }

  function Wins(ls: seq<Address>, a: Address): (c: nat) {
    if ls == [] then 0 else Wins(ls[..|ls| - 1], a) + (if ls[|ls| - 1] == a then 1 else 0)
  }

  /** Scaling did not fire in the first k rounds. */
  ghost predicate Unscaled(v: Validators, k: nat)
    requires Electable(v)
  {
    k > 0 ==> Unscaled(v, k - 1) && !ScalingFires(Center(Rounds(v, k - 1)))
  }

  lemma ZeroSum(v: Validators)
    requires AllZero(v)
    ensures Sum(Priorities(v)) == 0
  {
    SumAtMost(Priorities(v), 0);
    SumAtLeast(Priorities(v), 0);
  }

  lemma CenterIsNoOp(v: Validators)
    requires v != map[] && Sum(Priorities(v)) == 0
    ensures Center(v) == v
  {
    assert Average(v) == 0 by {
      assert TruncDiv(0, |v|) == 0;
    }
  }

  /** With the priorities in balance and no scaling a round is just the selection. */
  lemma PlainRound(v: Validators)
    requires Electable(v) && Sum(Priorities(v)) == 0 && !ScalingFires(Center(v))
    ensures Prepared(v) == v
    ensures Round(v) == Selected(v) && RoundLeader(v) == Proposer(v)
  {
    CenterIsNoOp(v);
  }

  lemma SelectedKeepsSum(v: Validators)
    requires v != map[]
    ensures Sum(Priorities(Selected(v))) == Sum(Priorities(v))
  {
    var raised := Raise(v);
    var a := LeaderOf(raised);
    SumAdd(Priorities(v), Powers(v), Priorities(raised));
    SumPut(Priorities(raised), a, raised[a].priority - Total(v));
    assert Priorities(Selected(v)) == Priorities(raised)[a := raised[a].priority - Total(v)];
  }

  /** In balance, somebody has a non-negative priority, so the leader holds at least its own
      debt-free share: no debt reaches T. */
  lemma SelectedDebt(v: Validators)
    requires Electable(v) && Sum(Priorities(v)) == 0
    requires forall a :: a in v ==> v[a].priority > -Total(v)
    ensures Selected(v).Keys == v.Keys
    ensures forall a :: a in v ==> Selected(v)[a].priority > -Total(v)
  {
    var raised := Raise(v);
    var a := LeaderOf(raised);
    SumAdd(Priorities(v), Powers(v), Priorities(raised));
    assert raised[a].priority > 0 by {
      if raised[a].priority <= 0 {
        assert forall b :: b in raised ==> AtLeast(raised, a, b);
        SumAtMost(Priorities(raised), 0);
      }
    }
  }

  /** What a validator of the given power is owed after these elections, entry by entry. */
  ghost function Balance(ls: seq<Address>, a: Address, power: int, total: int): int {
    if ls == [] then 0 else
      Balance(ls[..|ls| - 1], a, power, total) + power - (if ls[|ls| - 1] == a then total else 0)
  }

  /** x added up n times. */
  ghost function Times(n: nat, x: int): int {
    if n == 0 then 0 else Times(n - 1, x) + x
  }

  lemma {:induction false} TimesIsProduct(n: nat, x: int)
    ensures Times(n, x) == n * x
  {
    if n > 0 {
      TimesIsProduct(n - 1, x);
      assert n * x == (n - 1) * x + x;
    }
  }

  lemma {:induction false} BalanceSplits(ls: seq<Address>, a: Address, power: int, total: int)
    ensures Balance(ls, a, power, total) == Times(|ls|, power) - Times(Wins(ls, a), total)
  {
    if ls != [] { BalanceSplits(ls[..|ls| - 1], a, power, total); }
  }

  ghost predicate InLedger(v: Validators, k: nat, a: Address)
    requires Electable(v) && a in v
  {
    Rounds(v, k)[a].priority == Balance(Elected(v, k), a, v[a].power, Total(v))
  }

  lemma LedgerStep(v: Validators, k: nat, a: Address)
    requires Electable(v) && a in v && k > 0 && InLedger(v, k - 1, a)
    requires Round(Rounds(v, k - 1)) == Selected(Rounds(v, k - 1))
    requires RoundLeader(Rounds(v, k - 1)) == Proposer(Rounds(v, k - 1))
    ensures InLedger(v, k, a)
  {
    hide Round, RoundLeader, Selected, Proposer, Total;
    SelectedEntry(Rounds(v, k - 1), a);
    assert Elected(v, k)[..k - 1] == Elected(v, k - 1);
  }

  /** In balance, and no debt reaches T. */
  ghost predicate Solvent(v: Validators) {
    && Sum(Priorities(v)) == 0
    && forall a :: a in v ==> v[a].priority > -Total(v)
  }

  lemma SelectedSolvent(v: Validators)
    requires Electable(v) && Solvent(v)
    ensures Solvent(Selected(v))
  {
    SameShape(v, Selected(v));
    SelectedKeepsSum(v);
    SelectedDebt(v);
  }

  lemma {:induction false} AlwaysSolvent(v: Validators, k: nat)
    requires Electable(v) && AllZero(v) && Unscaled(v, k)
    ensures Solvent(Rounds(v, k))
  {
    hide Round, Selected, ScalingFires, Center;
    if k == 0 {
      ZeroSum(v);
    } else {
      AlwaysSolvent(v, k - 1);
      PlainRound(Rounds(v, k - 1));
      SelectedSolvent(Rounds(v, k - 1));
    }
  }

  lemma LedgerStart(v: Validators, a: Address)
    requires Electable(v) && AllZero(v) && a in v
    ensures InLedger(v, 0, a)
  {
  }

  lemma {:induction false} Ledger(v: Validators, k: nat, a: Address)
    requires Electable(v) && AllZero(v) && Unscaled(v, k) && a in v
    ensures InLedger(v, k, a)
  {
    hide Round, RoundLeader, Selected, Proposer, ScalingFires, Center, InLedger;
    if k == 0 {
      LedgerStart(v, a);
    } else {
      Ledger(v, k - 1, a);
      AlwaysSolvent(v, k - 1);
      PlainRound(Rounds(v, k - 1));
      LedgerStep(v, k, a);
    }
  }

  lemma SelectedEntry(v: Validators, a: Address)
    requires v != map[] && a in v
    ensures a in Selected(v)
    ensures Selected(v)[a].priority == v[a].priority + v[a].power - (if Proposer(v) == a then Total(v) else 0)
  {
  }

  /** The ledger in closed form: k turns of power received, T paid per election. */
  lemma FairnessLedger(v: Validators, k: nat, a: Address)
    requires Electable(v) && AllZero(v) && Unscaled(v, k) && a in v
    ensures Rounds(v, k)[a].priority == k * v[a].power - Wins(Elected(v, k), a) * Total(v) > -Total(v)
  {
    hide Rounds;
    AlwaysSolvent(v, k);
    Ledger(v, k, a);
    BalanceSplits(Elected(v, k), a, v[a].power, Total(v));
    TimesIsProduct(k, v[a].power);
    TimesIsProduct(Wins(Elected(v, k), a), Total(v));
  }

  ghost function Share(v: Validators, part: set<Address>): int {
    Sum(Restrict(Priorities(v), part))
  }

  /** t/(k+1) + ... + t/n. */
  ghost function Tail(t: real, k: nat, n: nat): (x: real)
    decreases n - k
  {
    if k >= n then 0.0 else t / (k + 1) as real + Tail(t, k + 1, n)
  }

  /** x added up n times. */
  ghost function Scaled(n: nat, x: real): real {
    if n == 0 then 0.0 else Scaled(n - 1, x) + x
  }

  lemma {:induction false} ScaledIsProduct(n: nat, x: real)
    ensures Scaled(n, x) == n as real * x
  {
    if n > 0 {
      ScaledIsProduct(n - 1, x);
      assert n as real * x == (n - 1) as real * x + x;
    }
  }

  /** A group is owed at most its size times a harmonic tail of T. */
  ghost predicate PartDominated(v: Validators, part: set<Address>) {
    Share(v, part) as real <= Scaled(|part|, Tail(Total(v) as real, |part|, |v|))
  }

  ghost predicate Dominated(v: Validators) {
    forall part: set<Address> :: part <= v.Keys && part != {} ==> PartDominated(v, part)
  }

  lemma RaisedShare(v: Validators, part: set<Address>)
    requires part <= v.Keys
    ensures Share(v, part) <= Share(Raise(v), part) <= Share(v, part) + Total(v)
  {
    var p, w, r := Restrict(Priorities(v), part), Restrict(Powers(v), part), Restrict(Priorities(Raise(v)), part);
    SumAdd(p, w, r);
    SumOfPart(Powers(v), part);
  }

  /** The leader joins the group: its raised priority is at least the group's mean. */
  lemma LeaderAboveMean(v: Validators, part: set<Address>)
    requires v != map[] && part <= v.Keys && part != {} && Proposer(v) !in part
    ensures (|part| + 1) * Share(Raise(v), part) <= |part| * Share(Raise(v), part + {Proposer(v)})
  {
    hide Total, Share, Proposer, Raise;
    var r := Raise(v);
    var a := Proposer(v);
    RaisedLeader(v);
    ShareAtMost(r, part, r[a].priority);
    ShareGrows(r, part, a);
    MeanArithmetic(|part|, Share(r, part), r[a].priority);
  }

  lemma RaisedLeader(v: Validators)
    requires v != map[]
    ensures Raise(v).Keys == v.Keys
    ensures forall b :: b in v ==> Raise(v)[b].priority <= Raise(v)[Proposer(v)].priority
  {
    assert forall b :: b in v ==> AtLeast(Raise(v), Proposer(v), b);
  }

  lemma ShareAtMost(r: Validators, part: set<Address>, top: int)
    requires part <= r.Keys && forall b :: b in r ==> r[b].priority <= top
    ensures Share(r, part) <= |part| * top
  {
    hide Sum;
    var m := Restrict(Priorities(r), part);
    assert m.Keys == part && |m| == |part|;
    SumAtMost(m, top);
  }

  lemma ShareGrows(r: Validators, part: set<Address>, a: Address)
    requires part <= r.Keys && a in r && a !in part
    ensures Share(r, part + {a}) == Share(r, part) + r[a].priority
  {
    hide Sum;
    var more := Restrict(Priorities(r), part + {a});
    SumTake(more, a);
    assert more - {a} == Restrict(Priorities(r), part);
  }

  lemma MeanArithmetic(k: int, x: int, top: int)
    requires x <= k * top
    ensures (k + 1) * x <= k * (x + top)
  {
    assert (k + 1) * x == k * x + x && k * (x + top) == k * x + k * top;
  }

  lemma TailStep(t: real, k: nat, n: nat, x: int, y: int)
    requires 1 <= k < n && (k + 1) * x <= k * y
    requires y as real <= Scaled(k + 1, Tail(t, k + 1, n)) + t
    ensures x as real <= Scaled(k, Tail(t, k, n))
  {
    ScaledIsProduct(k + 1, Tail(t, k + 1, n));
    ScaledIsProduct(k, Tail(t, k, n));
    TailArithmetic(k as real, (k + 1) as real, t, Tail(t, k + 1, n), x as real, y as real);
  }

  lemma TailArithmetic(k: real, next: real, t: real, tail: real, x: real, y: real)
    requires k >= 1.0 && next == k + 1.0 && next * x <= k * y && y <= next * tail + t
    ensures x <= k * (t / next + tail)
  {
    var z := t / next + tail;
    assert next * tail + t == next * z;
    assert k * (next * z - y) >= 0.0;
    assert k * (next * z - y) == next * (k * z) - k * y;
    CancelReal(next, x, k * z);
  }

  lemma CancelReal(c: real, x: real, y: real)
    requires c > 0.0 && c * x <= c * y
    ensures x <= y
  {
    assert c * (y - x) >= 0.0;
  }

  lemma SelectedDominated(v: Validators, part: set<Address>)
    requires Electable(v) && Dominated(v) && part <= v.Keys && part != {}
    ensures PartDominated(Selected(v), part)
  {
    hide Total, Share, Scaled, Tail, Proposer, Selected, Raise;
    SelectedSize(v);
    SelectedShare(v, part);
    RaisedShare(v, part);
    if Proposer(v) in part {
      assert PartDominated(v, part);
    } else {
      OutsideDominated(v, part);
    }
  }

  lemma SelectedSize(v: Validators)
    requires v != map[]
    ensures Total(Selected(v)) == Total(v) && |Selected(v)| == |v|
  {
    SameShape(v, Selected(v));
  }

  /** A group without the leader: adding the leader and taking it out again loses T/(k+1). */
  lemma OutsideDominated(v: Validators, part: set<Address>)
    requires Electable(v) && Dominated(v) && part <= v.Keys && part != {} && Proposer(v) !in part
    ensures Share(Raise(v), part) as real <= Scaled(|part|, Tail(Total(v) as real, |part|, |v|))
  {
    hide Total, Share, Scaled, Tail, Proposer, Raise;
    var more := part + {Proposer(v)};
    LeaderAboveMean(v, part);
    RaisedShare(v, more);
    assert PartDominated(v, more);
    assert |more| == |part| + 1;
    LeaderBounds.SubsetSize(more, v.Keys);
    TailStep(Total(v) as real, |part|, |v|, Share(Raise(v), part), Share(Raise(v), more));
  }

  lemma SelectedShare(v: Validators, part: set<Address>)
    requires v != map[] && part <= v.Keys
    ensures Share(Selected(v), part) == Share(Raise(v), part) - (if Proposer(v) in part then Total(v) else 0)
  {
    var a := Proposer(v);
    var before, after := Restrict(Priorities(Raise(v)), part), Restrict(Priorities(Selected(v)), part);
    if a in part {
      SumPut(before, a, Raise(v)[a].priority - Total(v));
      assert after == before[a := Raise(v)[a].priority - Total(v)];
    } else {
      assert after == before;
    }
  }

  lemma StartDominated(v: Validators, part: set<Address>)
    requires AllZero(v)
    ensures PartDominated(v, part)
  {
    SumAtMost(Restrict(Priorities(v), part), 0);
    TailNonNegative(Total(v) as real, |part|, |v|);
    ScaledNonNegative(|part|, Tail(Total(v) as real, |part|, |v|));
  }

  lemma {:induction false} ScaledNonNegative(n: nat, x: real)
    requires x >= 0.0
    ensures Scaled(n, x) >= 0.0
  {
    if n > 0 { ScaledNonNegative(n - 1, x); }
  }

  lemma {:induction false} AlwaysDominated(v: Validators, k: nat)
    requires Electable(v) && AllZero(v) && Unscaled(v, k)
    ensures Dominated(Rounds(v, k))
  {
    hide Round, Selected, PartDominated, ScalingFires, Center;
    if k == 0 {
      forall part: set<Address> | part <= v.Keys && part != {}
        ensures PartDominated(v, part)
      {
        StartDominated(v, part);
      }
    } else {
      AlwaysDominated(v, k - 1);
      AlwaysSolvent(v, k - 1);
      var before := Rounds(v, k - 1);
      PlainRound(before);
      forall part: set<Address> | part <= v.Keys && part != {}
        ensures PartDominated(Rounds(v, k), part)
      {
        SelectedDominated(before, part);
      }
    }
  }

  lemma {:induction false} TailNonNegative(t: real, k: nat, n: nat)
    requires t >= 0.0
    ensures Tail(t, k, n) >= 0.0
    decreases n - k
  {
    if k < n { TailNonNegative(t, k + 1, n); }
  }

  /** No validator is ever owed more than T/2 + ... + T/n. */
  lemma CreditBound(v: Validators, k: nat, a: Address)
    requires Electable(v) && AllZero(v) && Unscaled(v, k) && a in v
    ensures Rounds(v, k)[a].priority as real <= Tail(Total(v) as real, 1, |v|)
  {
    hide Rounds, PartDominated;
    AlwaysDominated(v, k);
    DominatedOne(Rounds(v, k), a);
  }

  lemma DominatedOne(r: Validators, a: Address)
    requires a in r && PartDominated(r, {a})
    ensures r[a].priority as real <= Tail(Total(r) as real, 1, |r|)
  {
    var one := Restrict(Priorities(r), {a});
    SumTake(one, a);
    assert one - {a} == map[];
    assert |{a}| == 1;
    var x := Tail(Total(r) as real, 1, |r|);
    assert Scaled(1, x) == Scaled(0, x) + x;
  }

  lemma SmallTail(t: real, n: nat)
    requires t >= 0.0 && 1 <= n <= 3
    ensures Tail(t, 1, n) <= 5.0 * t / 6.0
  {
    assert Tail(t, 3, n) == 0.0;
    assert Tail(t, 2, n) <= t / 3.0;
  }

  lemma CreditUnderTotal(v: Validators, k: nat, a: Address)
    requires Electable(v) && AllZero(v) && Unscaled(v, k) && a in v && |v| <= 3
    ensures Rounds(v, k)[a].priority < Total(v)
  {
    CreditBound(v, k, a);
    SmallTail(Total(v) as real, |v|);
  }

  lemma BoundedSpread(v: Validators, k: nat)
    requires Electable(v) && AllZero(v) && Unscaled(v, k) && |v| <= 3
    ensures !ScalingFires(Rounds(v, k))
  {
    AlwaysSolvent(v, k);
    var lo, hi := LeaderBounds.Extremes(Rounds(v, k));
    CreditUnderTotal(v, k, hi);
  }

  lemma {:induction false} FewNeverScale(v: Validators, k: nat)
    requires Electable(v) && AllZero(v) && |v| <= 3
    ensures Unscaled(v, k)
  {
    if k > 0 {
      FewNeverScale(v, k - 1);
      BoundedSpread(v, k - 1);
      AlwaysSolvent(v, k - 1);
      CenterIsNoOp(Rounds(v, k - 1));
    }
  }

  /** Up to three validators: scaling never fires, so the ledger holds for every run and
      nobody is ever a full turn away from its share. */
  lemma FewValidatorsFair(v: Validators, k: nat, a: Address)
    requires Electable(v) && AllZero(v) && |v| <= 3 && a in v
    ensures Unscaled(v, k)
    ensures -Total(v) < k * v[a].power - Wins(Elected(v, k), a) * Total(v) < Total(v)
  {
    FewNeverScale(v, k);
    FairnessLedger(v, k, a);
    CreditUnderTotal(v, k, a);
  }
}
