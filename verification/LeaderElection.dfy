/** The `WeightedRoundRobin` object: `choose_proposer` catches up round by round, and each
    round walks the validator set in any order the hash set yields. */
module LeaderElection {
  import opened Options
  import opened Sums
  import opened LeaderSelection

  /** The fields of the object as a value. */
  datatype Rotation = Rotation(validators: Validators, block: nat, last: Option<Address>)

  ghost function Choose(r: Rotation, block: nat): (res: (Rotation, Option<Address>))
    requires Electable(r.validators) && r.block <= block
    ensures Electable(res.0.validators) && res.0.block == block
  {
    if block == r.block then
      if r.last.None? then
        var leader := Some(Proposer(r.validators));
        SameShape(r.validators, Selected(r.validators));
        (r.(validators := Selected(r.validators), last := leader), leader)
      else (r, r.last)
    else
      var leader := Some(LeaderAt(r.validators, block - r.block - 1));
      (Rotation(Rounds(r.validators, block - r.block), block, leader), leader)
  }

  lemma NoRounds(v: Validators)
    requires Electable(v)
    ensures Rounds(v, 0) == v
  {
  }

  lemma OneMoreRound(v: Validators, k: nat)
    requires Electable(v)
    ensures Rounds(v, k + 1) == Round(Rounds(v, k)) && LeaderAt(v, k) == RoundLeader(Rounds(v, k))
  {
    hide Round, RoundLeader;
  }

  /** A hash set filled from a list: a later validator with a known address is dropped. */
  function Kept(listed: seq<(Address, Validator)>): Validators {
    if listed == [] then map[]
    else
      var (before, last) := (Kept(listed[..|listed| - 1]), listed[|listed| - 1]);
      if last.0 in before then before else before[last.0 := last.1]
  }

  /** Exactly the listed addresses are in the set, each with the first validator listed for it. */
  lemma {:induction false} FirstIsKept(listed: seq<(Address, Validator)>, i: nat)
    requires i < |listed|
    ensures listed[i].0 in Kept(listed)
    ensures (forall j :: 0 <= j < i ==> listed[j].0 != listed[i].0) ==> Kept(listed)[listed[i].0] == listed[i].1
    decreases |listed|
  {
    var n := |listed| - 1;
    if i < n {
      FirstIsKept(listed[..n], i);
    } else if listed[n].0 in Kept(listed[..n]) {
      var j := KeptIsListed(listed[..n], listed[n].0);
    }
  }

  lemma {:induction false} KeptIsListed(listed: seq<(Address, Validator)>, a: Address) returns (i: nat)
    requires a in Kept(listed)
    ensures i < |listed| && listed[i].0 == a
  {
    var n := |listed| - 1;
    if a in Kept(listed[..n]) {
      i := KeptIsListed(listed[..n], a);
    } else {
      i := n;
    }
  }

  class WeightedRoundRobin {
    var validators: Validators
    const newJoinerPenaltyFactor: nat := PENALTY_FACTOR
    var blockNumber: nat
    var lastProposer: Option<Address>

    ghost function View(): Rotation
      reads this
    {
      Rotation(validators, blockNumber, lastProposer)
    }

    /** A hash set keeps the first of two validators with one address. */
    constructor (listed: seq<(Address, Validator)>, startBlock: nat)
      ensures View() == Rotation(Kept(listed), startBlock, None)
    {
      var kept: Validators := map[];
      for n := 0 to |listed|
        invariant kept == Kept(listed[..n])
      {
        if listed[n].0 !in kept {
          kept := kept[listed[n].0 := listed[n].1];
        }
        assert listed[..n + 1][..n] == listed[..n];
      }
      assert listed[..|listed|] == listed;
      validators := kept;
      blockNumber := startBlock;
      lastProposer := None;
    }

    method TotalVotingPower() returns (total: nat)
      ensures total == Total(validators)
    {
      total := 0;
      var rest := validators;
      while rest != map[]
        invariant forall a :: a in rest ==> a in validators && rest[a] == validators[a]
        invariant total + Sum(Powers(rest)) == Total(validators)
        decreases |rest|
      {
        var a :| a in rest;
        SumTake(Powers(rest), a);
        assert Powers(rest - {a}) == Powers(rest) - {a};
        assert (rest - {a}).Keys == rest.Keys - {a};
        total := total + rest[a].power;
        rest := rest - {a};
      }
    }

    method ProposerSelection() returns (leader: Address)
      requires validators != map[]
      modifies this`validators
      ensures leader == Proposer(old(validators))
      ensures validators == Selected(old(validators))
    {
      var total := TotalVotingPower();
      ghost var before := validators;
      validators := map a | a in validators :: validators[a].(priority := validators[a].priority + validators[a].power);
      assert validators == Raise(before);
      leader := Foremost();
      validators := validators[leader := validators[leader].(priority := validators[leader].priority - total)];
    }

    /** `max_by` over the set, whatever its order. */
    method Foremost() returns (best: Address)
      requires validators != map[]
      ensures best == LeaderOf(validators)
    {
      best :| best in validators;
      var rest := validators.Keys - {best};
      while rest != {}
        invariant rest <= validators.Keys && best in validators
        invariant forall b :: b in validators && b !in rest ==> AtLeast(validators, best, b)
        decreases rest
      {
        var b :| b in rest;
        if !AtLeast(validators, best, b) {
          best := b;
        }
        rest := rest - {b};
      }
      assert Leads(validators, best);
    }

    method PrioritySum() returns (sum: int)
      ensures sum == Sum(Priorities(validators))
    {
      sum := 0;
      var rest := validators;
      while rest != map[]
        invariant forall a :: a in rest ==> a in validators && rest[a] == validators[a]
        invariant sum + Sum(Priorities(rest)) == Sum(Priorities(validators))
        decreases |rest|
      {
        var a :| a in rest;
        SumTake(Priorities(rest), a);
        assert Priorities(rest - {a}) == Priorities(rest) - {a};
        assert (rest - {a}).Keys == rest.Keys - {a};
        sum := sum + rest[a].priority;
        rest := rest - {a};
      }
    }

    method CenterPriorities()
      requires validators != map[]
      modifies this`validators
      ensures validators == Center(old(validators))
    {
      var sum := PrioritySum();
      var average := TruncDiv(sum, |validators|);
      validators := map a | a in validators :: validators[a].(priority := validators[a].priority - average);
    }

    method PriorityRange() returns (least: int, greatest: int)
      requires validators != map[]
      ensures least == MinOf(Priorities(validators)) && greatest == MaxOf(Priorities(validators))
    {
      var first :| first in validators;
      least, greatest := validators[first].priority, validators[first].priority;
      var rest := validators.Keys - {first};
      ghost var p := Priorities(validators);
      assert p[first] == least;
      while rest != {}
        invariant rest <= validators.Keys
        invariant exists a :: a in p && p[a] == least
        invariant exists a :: a in p && p[a] == greatest
        invariant forall a :: a in p && a !in rest ==> least <= p[a] <= greatest
        decreases rest
      {
        var a :| a in rest;
        assert p[a] == validators[a].priority;
        if validators[a].priority < least { least := validators[a].priority; }
        if validators[a].priority > greatest { greatest := validators[a].priority; }
        rest := rest - {a};
      }
    }

    method ScalePriorities()
      requires Electable(validators)
      modifies this`validators
      ensures validators == Scale(old(validators))
    {
      var least, greatest := PriorityRange();
      var total := TotalVotingPower();
      var diff := greatest - least;
      var threshold := 2 * total;
      if diff > threshold {
        var scale := TruncDiv(diff * ONE_E3, threshold);
        assert scale == ScaleFactor(validators);
        validators := map a | a in validators ::
          validators[a].(priority := TruncDiv(validators[a].priority * ONE_E3, scale));
      }
    }

    method RunRound() returns (leader: Address)
      requires Electable(validators)
      modifies this`validators
      ensures Electable(old(validators)) && validators == Round(old(validators))
      ensures leader == RoundLeader(old(validators))
    {
      RoundShape(validators);
      CenterPriorities();
      ScalePriorities();
      leader := ProposerSelection();
    }

    /** The catch-up loop, run at least once. */
    method CatchUp(rounds: nat) returns (leader: Option<Address>)
      requires Electable(validators) && rounds > 0
      modifies this`validators, this`lastProposer
      ensures Electable(old(validators)) && validators == Rounds(old(validators), rounds)
      ensures leader == lastProposer == Some(LeaderAt(old(validators), rounds - 1))
    {
      hide Round, RoundLeader, Rounds, LeaderAt, Total;
      ghost var start := validators;
      NoRounds(start);
      leader := None;
      var i := 0;
      while i < rounds
        invariant 0 <= i <= rounds
        invariant validators == Rounds(start, i)
        invariant i > 0 ==> leader == lastProposer == Some(LeaderAt(start, i - 1))
        decreases rounds - i
      {
        OneMoreRound(start, i);
        var chosen := RunRound();
        leader := Some(chosen);
        lastProposer := leader;
        i := i + 1;
      }
    }

    /** The unsigned subtraction of the source demands a block at or above the stored one. */
    method ChooseProposer(block: nat) returns (leader: Option<Address>)
      requires Electable(validators) && blockNumber <= block
      modifies this`validators, this`blockNumber, this`lastProposer
      ensures (View(), leader) == Choose(old(View()), block)
    {
      hide Rounds, LeaderAt;
      if block == blockNumber {
        if lastProposer.None? {
          var chosen := ProposerSelection();
          lastProposer := Some(chosen);
        }
        return lastProposer;
      }
      leader := CatchUp(block - blockNumber);
      blockNumber := block;
    }

    method RemoveValidator(peer: Address)
      modifies this`validators
      ensures validators == old(validators) - {peer}
    {
      validators := validators - {peer};
    }

    /** A newcomer starts 1.125 T behind; one already in the set is left as it is. */
    method AddValidator(peer: Address, votingPower: nat)
      modifies this`validators
      ensures validators == Joined(old(validators), peer, votingPower)
    {
      var total := TotalVotingPower();
      var penalty := newJoinerPenaltyFactor * total / ONE_E3;
      if peer !in validators {
        validators := validators[peer := Validator(votingPower * ONE_E3, -penalty)];
      }
    }
  }

  ghost function Joined(v: Validators, peer: Address, votingPower: nat): Validators {
    if peer in v then v else
      v[peer := Validator(votingPower * ONE_E3, -(PENALTY_FACTOR * Total(v) / ONE_E3))]
  }
}
