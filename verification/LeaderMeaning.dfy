/** What a round means, said without the functions that compute it: how centring and scaling round,
    who is elected, and what a newcomer gets. Each relation fixes its outcome. */
module LeaderMeaning {
  import opened Options
  import opened Sums
  import opened LeaderSelection
  import opened LeaderElection
  import LeaderBounds
  import LeaderFairness

  ghost predicate SameSet(v: Validators, r: Validators) {
    r.Keys == v.Keys && forall a :: a in v ==> r[a].power == v[a].power
  }

  // ----- centring

  /** Everybody moves by one amount, and what is left of the sum has its old sign and is smaller than
      the number of validators: the average is rounded toward zero. */
  ghost predicate IsCentred(v: Validators, r: Validators) {
    && SameSet(v, r)
    && (forall a, b :: a in v && b in v ==> r[a].priority - v[a].priority == r[b].priority - v[b].priority)
    && (Sum(Priorities(v)) >= 0 ==> 0 <= Sum(Priorities(r)) < |v|)
    && (Sum(Priorities(v)) <= 0 ==> -|v| < Sum(Priorities(r)) <= 0)
  }

  /** Exactly one set of priorities is centred like that. */
  lemma CentredIff(v: Validators, r: Validators)
    requires v != map[]
    ensures r == Center(v) <==> IsCentred(v, r)
  {
    hide IsCentred, Center;
    CenterRemainder(v);
    if IsCentred(v, r) { CentredOnce(v, r, Center(v)); }
  }

  lemma CentredOnce(v: Validators, r: Validators, c: Validators)
    requires v != map[] && IsCentred(v, r) && IsCentred(v, c)
    ensures r == c
  {
    hide Sum;
    var a :| a in v;
    var x, y := v[a].priority - r[a].priority, v[a].priority - c[a].priority;
    assert forall b :: b in v ==> r[b].priority == v[b].priority - x && c[b].priority == v[b].priority - y;
    assert x == y by {
      SumMoved(v, r, x);
      SumMoved(v, c, y);
      SameShift(|v|, Sum(Priorities(v)), |v| * x, |v| * y, x, y);
    }
    assert forall b :: b in v ==> r[b] == c[b];
  }

  lemma CenterRemainder(v: Validators)
    requires v != map[]
    ensures IsCentred(v, Center(v))
  {
    hide Sum;
    SumMoved(v, Center(v), Average(v));
  }

  lemma SumMoved(v: Validators, r: Validators, shift: int)
    requires SameSet(v, r) && forall a :: a in v ==> r[a].priority == v[a].priority - shift
    ensures Sum(Priorities(r)) == Sum(Priorities(v)) - |v| * shift
  {
    hide Sum;
    SumShift(Priorities(v), shift, Priorities(r));
    assert |Priorities(v)| == |v| by { assert Priorities(v).Keys == v.Keys; }
  }

  lemma SameShift(n: int, sum: int, nx: int, ny: int, x: int, y: int)
    requires n > 0 && nx == n * x && ny == n * y
    requires sum >= 0 ==> 0 <= sum - nx < n && 0 <= sum - ny < n
    requires sum <= 0 ==> -n < sum - nx <= 0 && -n < sum - ny <= 0
    ensures x == y
  {
    assert n * (x - y) == nx - ny;
    if x > y { TimesMonotone(n, 1, x - y); }
    if x < y { TimesMonotone(n, x - y, -1); }
  }

  // ----- scaling

  /** q is x / f, rounded toward zero. */
  predicate Quotient(x: int, f: int, q: int) {
    && (x >= 0 ==> 0 <= f * q <= x < f * q + f)
    && (x <= 0 ==> f * q - f < x <= f * q <= 0)
  }

  /** Nothing happens unless two priorities are more than 2T apart; then every priority is divided by
      a thousandth of f, where f is 1000 times the largest distance over 2T, rounded down. */
  ghost predicate IsScaled(c: Validators, s: Validators) {
    && SameSet(c, s)
    && ((forall a, b :: a in c && b in c ==> c[a].priority - c[b].priority <= 2 * Total(c)) ==> s == c)
    && forall lo, hi, f: int ::
         lo in c && hi in c && c[hi].priority - c[lo].priority > 2 * Total(c)
         && (forall a :: a in c ==> c[lo].priority <= c[a].priority <= c[hi].priority)
         && Quotient((c[hi].priority - c[lo].priority) * 1000, 2 * Total(c), f)
         ==> DividedBy(c, s, f)
  }

  ghost predicate DividedBy(c: Validators, s: Validators, f: int)
    requires SameSet(c, s)
  {
    forall a :: a in c ==> Quotient(c[a].priority * 1000, f, s[a].priority)
  }

  lemma ScaleMeans(c: Validators)
    requires Electable(c)
    ensures IsScaled(c, Scale(c))
  {
    hide Total, Spread, Quotient, DividedBy, Scale;
    var s := Scale(c);
    ScaleShape(c);
    var bottom, top := LeaderBounds.Extremes(c);
    forall lo, hi, f: int | lo in c && hi in c && c[hi].priority - c[lo].priority > 2 * Total(c)
      && (forall a :: a in c ==> c[lo].priority <= c[a].priority <= c[hi].priority)
      && Quotient((c[hi].priority - c[lo].priority) * 1000, 2 * Total(c), f)
      ensures DividedBy(c, s, f)
    {
      assert c[hi].priority - c[lo].priority == Spread(c);
      DividedByFactor(c, f);
    }
  }

  lemma ScaleShape(c: Validators)
    requires Electable(c)
    ensures SameSet(c, Scale(c)) && (Spread(c) <= 2 * Total(c) ==> Scale(c) == c)
  {
  }

  lemma DividedByFactor(c: Validators, f: int)
    requires Electable(c) && Spread(c) > 2 * Total(c) && Quotient(Spread(c) * 1000, 2 * Total(c), f)
    ensures SameSet(c, Scale(c)) && DividedBy(c, Scale(c), f)
  {
    hide Total, Spread;
    FactorIs(c, f);
  }

  lemma FactorIs(c: Validators, f: int)
    requires Electable(c) && ScalingFires(c) && Quotient(Spread(c) * 1000, 2 * Total(c), f)
    ensures f == ScaleFactor(c)
  {
    hide Total, Spread;
    OneQuotient(Spread(c) * 1000, 2 * Total(c), f, TruncDiv(Spread(c) * ONE_E3, 2 * Total(c)));
  }

  lemma OneQuotient(x: int, d: int, p: int, q: int)
    requires d > 0 && Quotient(x, d, p) && Quotient(x, d, q)
    ensures p == q
  {
    assert d * (p - q) == d * p - d * q;
    if p > q { TimesMonotone(d, 1, p - q); }
    if p < q { TimesMonotone(d, p - q, -1); }
  }

  // ----- election

  /** a has the highest priority once everybody has got their power, the larger address among equals;
      it alone pays the total power. */
  ghost predicate Elects(s: Validators, a: Address, r: Validators) {
    && SameSet(s, r) && a in s
    && (forall b :: b in s ==> s[b].priority + s[b].power <= s[a].priority + s[a].power)
    && (forall b :: b in s && s[b].priority + s[b].power == s[a].priority + s[a].power ==> b <= a)
    && r[a].priority == s[a].priority + s[a].power - Sum(Powers(s))
    && forall b :: b in s && b != a ==> r[b].priority == s[b].priority + s[b].power
  }

  lemma SelectionMeans(s: Validators)
    requires s != map[]
    ensures Elects(s, Proposer(s), Selected(s))
  {
    hide Sum;
    var a := Proposer(s);
    LeaderFairness.RaisedLeader(s);
    forall b | b in s
      ensures s[b].priority + s[b].power <= s[a].priority + s[a].power
      ensures s[b].priority + s[b].power == s[a].priority + s[a].power ==> b <= a
    {
      assert AtLeast(Raise(s), a, b);
    }
  }

  /** A round: centred, then scaled, then an election. */
  ghost predicate IsRound(v: Validators, a: Address, r: Validators) {
    exists c, s :: IsCentred(v, c) && IsScaled(c, s) && Elects(s, a, r)
  }

  lemma RoundMeans(v: Validators)
    requires Electable(v)
    ensures IsRound(v, RoundLeader(v), Round(v))
  {
    hide Sum, Total, IsCentred, IsScaled, Elects, Center, Scale;
    RoundShape(v);
    CentredIff(v, Center(v));
    ScaleMeans(Center(v));
    SelectionMeans(Scale(Center(v)));
    assert IsCentred(v, Center(v)) && IsScaled(Center(v), Scale(Center(v)));
  }

  /** A call for a later block runs one full round for each block and answers with the last leader; the
      first call for the stored block holds an election without centring or scaling; every other call
      for it changes nothing. The answer is always what is stored as the last leader. */
  lemma ChooseMeans(r: Rotation, block: nat) returns (states: seq<Validators>, leaders: seq<Address>)
    requires Electable(r.validators) && r.block <= block
    ensures |leaders| == block - r.block && |states| == |leaders| + 1
    ensures forall k :: 0 <= k < |leaders| ==> IsRound(states[k], leaders[k], states[k + 1])
    ensures var (after, leader) := Choose(r, block);
      && leader == after.last && after.block == block
      && (block > r.block ==> states[0] == r.validators && states[|leaders|] == after.validators
                              && after.last == Some(leaders[|leaders| - 1]))
      && (block == r.block && r.last.Some? ==> after == r)
      && (block == r.block && r.last.None? ==>
           after.last.Some? && Elects(r.validators, after.last.value, after.validators))
  {
    hide Total, IsRound, Elects, Round, RoundLeader, Rounds, LeaderAt, Proposer, Selected;
    var v := r.validators;
    states, leaders := [Rounds(v, 0)], [];
    NoRounds(v);
    while |leaders| < block - r.block
      invariant |leaders| <= block - r.block && |states| == |leaders| + 1 && states[0] == v
      invariant states[|leaders|] == Rounds(v, |leaders|)
      invariant leaders != [] ==> leaders[|leaders| - 1] == LeaderAt(v, |leaders| - 1)
      invariant forall k :: 0 <= k < |leaders| ==> IsRound(states[k], leaders[k], states[k + 1])
    {
      var k := |leaders|;
      OneMoreRound(v, k);
      RoundMeans(Rounds(v, k));
      states, leaders := states + [Rounds(v, k + 1)], leaders + [LeaderAt(v, k)];
    }
    if block == r.block && r.last.None? { SelectionMeans(v); }
  }

  // ----- joining

  /** A newcomer has 1000 times the power asked for and starts nine eighths of the total power of the
      others below zero, rounded toward it; nobody else changes, and neither does a known address. */
  lemma JoinMeans(v: Validators, peer: Address, votingPower: nat)
    ensures peer in v ==> Joined(v, peer, votingPower) == v
    ensures peer !in v ==>
      var j := Joined(v, peer, votingPower);
      && j.Keys == v.Keys + {peer} && (forall a :: a in v ==> j[a] == v[a])
      && j[peer].power == 1000 * votingPower
      && j[peer].priority <= 0 && 0 <= 1125 * Sum(Powers(v)) + 1000 * j[peer].priority < 1000
  {
  }
}
