/** Nodes that ask for every block and nodes that were away agree on state and leader. */
module LeaderCatchUp {
  import opened Options
  import opened Sums
  import opened LeaderSelection
  import opened LeaderElection
  import opened LeaderFairness
  import LeaderBounds

  lemma {:induction false} RoundsCompose(v: Validators, j: nat, k: nat)
    requires Electable(v)
    ensures Rounds(Rounds(v, j), k) == Rounds(v, j + k)
  {
    hide Round, Rounds, Electable, Total;
    if k == 0 {
      NoRounds(Rounds(v, j));
    } else {
      RoundsCompose(v, j, k - 1);
      ComposeStep(v, Rounds(v, j), j + (k - 1), k - 1);
    }
  }

  lemma ComposeStep(v: Validators, r: Validators, j: nat, k: nat)
    requires Electable(v) && Electable(r) && Rounds(r, k) == Rounds(v, j)
    ensures Rounds(r, k + 1) == Rounds(v, j + 1)
  {
    hide Round, Rounds, Electable, Total;
    OneMoreRound(r, k);
    OneMoreRound(v, j);
  }

  lemma LeaderCompose(v: Validators, j: nat, k: nat)
    requires Electable(v)
    ensures LeaderAt(Rounds(v, j), k) == LeaderAt(v, j + k)
  {
    hide Round, Rounds, RoundLeader, LeaderAt, Electable, Total;
    RoundsCompose(v, j, k);
    OneMoreRound(Rounds(v, j), k);
    OneMoreRound(v, j + k);
  }

  /** Asking again for the same block changes nothing and gives the same answer. */
  lemma ChooseTwice(r: Rotation, block: nat)
    requires Electable(r.validators) && r.block <= block
    ensures Choose(Choose(r, block).0, block) == Choose(r, block)
  {
    hide Rounds, LeaderAt, Selected, Proposer, Electable, Total;
  }

  /** One call above the start block and then a later one: as if only the later one was made. */
  lemma ChooseThenLater(r: Rotation, block: nat, later: nat)
    requires Electable(r.validators) && r.block < block <= later
    ensures Choose(Choose(r, block).0, later) == Choose(r, later)
  {
    hide Rounds, LeaderAt, Selected, Proposer, Electable, Total;
    if block == later {
      ChooseTwice(r, block);
    } else {
      var v, j, k := r.validators, block - r.block, later - block;
      RoundsCompose(v, j, k);
      LeaderCompose(v, j, k - 1);
    }
  }

  function Span(gaps: seq<nat>): nat {
    if gaps == [] then 0 else gaps[0] + Span(gaps[1..])
  }

  /** Calls made one after the other, each for a block so many blocks after the last one. */
  ghost function ChooseAll(r: Rotation, gaps: seq<nat>): (res: (Rotation, Option<Address>))
    requires Electable(r.validators) && gaps != []
    ensures Electable(res.0.validators) && res.0.block == r.block + Span(gaps)
    decreases |gaps|
  {
    if |gaps| == 1 then Choose(r, r.block + gaps[0])
    else ChooseAll(Choose(r, r.block + gaps[0]).0, gaps[1..])
  }

  /** Any ascending calls end where a single call for the last block does, as long as the first
      one is above the start block or an election has been held before. */
  lemma {:induction false} SteppingIsCatchingUp(r: Rotation, gaps: seq<nat>)
    requires Electable(r.validators) && gaps != [] && (gaps[0] > 0 || r.last.Some?)
    ensures ChooseAll(r, gaps) == Choose(r, r.block + Span(gaps))
    decreases |gaps|
  {
    hide Choose, Electable;
    if |gaps| > 1 {
      var first := Choose(r, r.block + gaps[0]).0;
      ElectedBy(r, r.block + gaps[0]);
      SteppingIsCatchingUp(first, gaps[1..]);
      if gaps[0] == 0 {
        NothingToDo(r);
      } else {
        ChooseThenLater(r, first.block, r.block + Span(gaps));
      }
    }
  }

  lemma ElectedBy(r: Rotation, block: nat)
    requires Electable(r.validators) && r.block <= block
    ensures Choose(r, block).0.last.Some?
  {
  }

  lemma NothingToDo(r: Rotation)
    requires Electable(r.validators) && r.last.Some?
    ensures Choose(r, r.block) == (r, r.last)
  {
  }

  /** A newcomer's penalty keeps it inside the band of LeaderBounds. */
  lemma JoinStaysInBand(v: Validators, peer: Address, votingPower: nat)
    requires LeaderBounds.InBand(v)
    ensures LeaderBounds.InBand(Joined(v, peer, votingPower))
  {
    var j := Joined(v, peer, votingPower);
    if peer !in v {
      SumPut(Powers(v), peer, votingPower * ONE_E3);
      assert Powers(j) == Powers(v)[peer := votingPower * ONE_E3];
    }
  }

  /** While nobody owes a full turn, a newcomer starts strictly behind everyone in the set. */
  lemma JoinsBehindAll(v: Validators, peer: Address, votingPower: nat, a: Address)
    requires Solvent(v) && peer !in v && a in v
    ensures Joined(v, peer, votingPower)[peer].priority < Joined(v, peer, votingPower)[a].priority == v[a].priority
  {
  }
}
