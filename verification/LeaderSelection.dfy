/** Weighted round-robin leader election (Tendermint proposer selection).
    The pure functions say what a round does to the whole validator set; the class
    below walks the set in whatever order and is proved to compute exactly that. */
module LeaderSelection {
  import opened Sums

  const ONE_E3: nat := 1000
  const PENALTY_FACTOR: nat := 1125

  type Address = nat

  datatype Validator = Validator(power: nat, priority: int)

  /** The hash set of validators: equality and hashing look at the address only. */
  type Validators = map<Address, Validator>

  /** Rust's integer division, which rounds toward zero. */
  function TruncDiv(a: int, b: int): (q: int)
    requires b > 0
    ensures a >= 0 ==> 0 <= b * q <= a < b * q + b
    ensures a <= 0 ==> b * q - b < a <= b * q <= 0
    ensures (a >= 0 ==> q >= 0) && (a <= 0 ==> q <= 0)
  {
    if a >= 0 then
      DivBounds(a, b);
      a / b
    else
      DivBounds(-a, b);
      assert b * -((-a) / b) == -(b * ((-a) / b));
      -((-a) / b)
  }

  lemma DivBounds(a: int, b: int)
    requires a >= 0 && b > 0
    ensures 0 <= b * (a / b) <= a < b * (a / b) + b
    ensures a / b >= 0
  {
    assert a == b * (a / b) + a % b;
  }

  ghost function Powers(v: Validators): (m: map<Address, int>)
    ensures m.Keys == v.Keys
  {
    map a | a in v :: v[a].power
  }

  ghost function Priorities(v: Validators): (m: map<Address, int>)
    ensures m.Keys == v.Keys
  {
    map a | a in v :: v[a].priority
  }

  ghost function Total(v: Validators): (t: int)
    ensures t >= 0
  {
    SumAtLeast(Powers(v), 0);
    Sum(Powers(v))
  }

  ghost function Average(v: Validators): int
    requires v != map[]
  {
    TruncDiv(Sum(Priorities(v)), |v|)
  }

  ghost function Center(v: Validators): (r: Validators)
    requires v != map[]
  {
    var average := Average(v);
    map a | a in v :: v[a].(priority := v[a].priority - average)
  }

  ghost function Spread(v: Validators): (d: int)
    requires v != map[]
  {
    MaxOf(Priorities(v)) - MinOf(Priorities(v))
  }

  ghost predicate ScalingFires(v: Validators)
    requires v != map[]
  {
    Spread(v) > 2 * Total(v)
  }

  ghost function ScaleFactor(v: Validators): (f: int)
    requires v != map[] && Total(v) > 0 && ScalingFires(v)
    ensures f >= ONE_E3
  {
    var q := TruncDiv(Spread(v) * ONE_E3, 2 * Total(v));
    FactorAtLeast(Spread(v), 2 * Total(v), q);
    q
  }

  lemma TimesMonotone(c: int, x: int, y: int)
    requires c >= 0 && x <= y
    ensures c * x <= c * y
  {
    assert c * (y - x) >= 0;
    assert c * (y - x) == c * y - c * x;
  }

  lemma CancelTimes(c: int, x: int, y: int)
    requires c > 0 && c * x < c * y
    ensures x < y
  {
    if y <= x { TimesMonotone(c, y, x); }
  }

  lemma FactorAtLeast(d: int, t: int, q: int)
    requires 0 < t < d && d * ONE_E3 < t * q + t
    ensures q >= ONE_E3
  {
    assert t * (q + 1) == t * q + t;
    CancelTimes(t, ONE_E3, q + 1);
  }

  ghost function Scale(v: Validators): (r: Validators)
    requires v != map[] && Total(v) > 0
  {
    if ScalingFires(v) then
      map a | a in v :: v[a].(priority := TruncDiv(v[a].priority * ONE_E3, ScaleFactor(v)))
    else v
  }

  ghost function Raise(v: Validators): (r: Validators) {
    map a | a in v :: v[a].(priority := v[a].priority + v[a].power)
  }

  /** The comparator of `max_by`: priority first, then the larger address. */
  predicate AtLeast(v: Validators, a: Address, b: Address)
    requires a in v && b in v
  {
    v[a].priority > v[b].priority || (v[a].priority == v[b].priority && a >= b)
  }

  ghost predicate Leads(v: Validators, a: Address) {
    a in v && forall b :: b in v ==> AtLeast(v, a, b)
  }

  lemma {:induction false} LeaderExists(v: Validators)
    requires v != map[]
    ensures exists a :: Leads(v, a)
    decreases |v|
  {
    var k :| k in v;
    var rest := v - {k};
    assert forall b :: b in v ==> b == k || b in rest;
    if rest == map[] {
      assert Leads(v, k);
    } else {
      assert rest.Keys < v.Keys;
      LeaderExists(rest);
      var a :| Leads(rest, a);
      var best := if AtLeast(v, a, k) then a else k;
      assert Leads(v, best);
    }
  }

  ghost function LeaderOf(v: Validators): (a: Address)
    requires v != map[]
    ensures Leads(v, a)
    ensures forall b :: Leads(v, b) ==> b == a
  {
    LeaderExists(v);
    var a :| Leads(v, a);
    a
  }

  /** What `proposer_selection` returns and leaves behind. */
  ghost function Proposer(v: Validators): (a: Address)
    requires v != map[]
    ensures a in v
  {
    LeaderOf(Raise(v))
  }

  ghost function Selected(v: Validators): (r: Validators)
    requires v != map[]
  {
    var raised := Raise(v);
    var a := LeaderOf(raised);
    raised[a := raised[a].(priority := raised[a].priority - Total(v))]
  }

  lemma SameShape(v: Validators, r: Validators)
    requires v.Keys == r.Keys && forall a :: a in v ==> r[a].power == v[a].power
    ensures Powers(r) == Powers(v) && Total(r) == Total(v) && |r| == |v|
  {
    assert Powers(r) == Powers(v);
    assert |r.Keys| == |v.Keys|;
  }

  ghost predicate Electable(v: Validators) {
    v != map[] && Total(v) > 0
  }

  /** Centring, scaling and selecting never change who is in the set or their power. */
  lemma RoundShape(v: Validators)
    requires Electable(v)
    ensures Center(v).Keys == v.Keys && Electable(Center(v)) && Total(Center(v)) == Total(v)
    ensures Scale(Center(v)).Keys == v.Keys && Electable(Scale(Center(v))) && Total(Scale(Center(v))) == Total(v)
    ensures Round(v).Keys == v.Keys && Electable(Round(v)) && Total(Round(v)) == Total(v)
    ensures forall a :: a in v ==> Round(v)[a].power == v[a].power
    ensures |Round(v)| == |v|
  {
    SameShape(v, Center(v));
    SameShape(Center(v), Scale(Center(v)));
    SameShape(Scale(Center(v)), Round(v));
  }

  lemma PreparedElectable(v: Validators)
    requires Electable(v)
    ensures Electable(Center(v)) && Electable(Scale(Center(v)))
  {
    SameShape(v, Center(v));
    SameShape(Center(v), Scale(Center(v)));
  }

  ghost function Prepared(v: Validators): (r: Validators)
    requires Electable(v)
    ensures Electable(r)
  {
    PreparedElectable(v);
    Scale(Center(v))
  }

  ghost function Round(v: Validators): (r: Validators)
    requires Electable(v)
  {
    Selected(Prepared(v))
  }

  ghost function RoundLeader(v: Validators): (a: Address)
    requires Electable(v)
  {
    Proposer(Prepared(v))
  }

  ghost function Rounds(v: Validators, k: nat): (r: Validators)
    requires Electable(v)
    ensures Electable(r) && r.Keys == v.Keys && Total(r) == Total(v) && |r| == |v|
    ensures forall a :: a in v ==> r[a].power == v[a].power
  {
    if k == 0 then v else
      RoundShape(Rounds(v, k - 1));
      Round(Rounds(v, k - 1))
  }

  /** The validator elected in round k, counting rounds from 0. */
  ghost function LeaderAt(v: Validators, k: nat): (a: Address)
    requires Electable(v)
    ensures a in v
  {
    RoundShape(Rounds(v, k));
    RoundLeader(Rounds(v, k))
  }
}
