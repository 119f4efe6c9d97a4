/** The pool manager: chain events drive the order indexer, and the indexer's transitions drive
    the sign-offs on the global barrier. */
module PoolManagement {
  import opened Options
  import opened Pipeline
  import opened OrderPool
  import opened OrderIndexing
  import opened PoolSignOff
  import BlockSync

  const MODULE_NAME := "Order Pool"

  /** The barrier after the pool signed off on these proposals, one after the other. */
  function SignAll(s: BlockSync.Sync, ps: seq<BlockSync.Proposal>, waker: BlockSync.Waker): BlockSync.Sync
    requires forall p :: p in ps ==> !p.Processing?
  {
    if ps == [] then s
    else BlockSync.SignOn(SignAll(s, ps[..|ps| - 1], waker), MODULE_NAME, ps[|ps| - 1], Some(waker)).0
  }

  function Progressions(events: seq<Out>): (ps: seq<BlockSync.Proposal>)
    ensures forall p :: p in ps ==> p.PendingProgression?
  {
    if events == [] then []
    else
      var (before, o) := (Progressions(events[..|events| - 1]), events[|events| - 1]);
      if o.Transitioned? then before + [BlockSync.PendingProgression(o.block)] else before
  }

  /** Part by part, each transition reported asks for the sign-off of its block, and nothing else does. */
  lemma {:induction false} ProgressionsConcat(a: seq<Out>, b: seq<Out>)
    ensures Progressions(a + b) == Progressions(a) + Progressions(b)
    ensures forall o: Out ::
      Progressions([o]) == if o.Transitioned? then [BlockSync.PendingProgression(o.block)] else []
    decreases |b|
  {
    forall o: Out
      ensures Progressions([o]) == if o.Transitioned? then [BlockSync.PendingProgression(o.block)] else []
    {
      assert [o][..0] == [] && Progressions([]) == [];
    }
    if b == [] {
      assert a + b == a;
    } else {
      ProgressionsConcat(a, b[..|b| - 1]);
      assert (a + b)[..|a + b| - 1] == a + b[..|b| - 1];
    }
  }

  /** The pool's machine after a series of polls. */
  function Drained(env: Env, m: Manager, turns: seq<Event>): Manager
    requires forall e :: e in turns ==> e.Polled?
  {
    if turns == [] then m
    else
      assert turns[|turns| - 1] in turns;
      Polls(env, Drained(env, m, turns[..|turns| - 1]), turns[|turns| - 1])
  }

  class PoolManager {
    const indexer: OrderIndexer
    const sync: BlockSync.GlobalBlockSync

    constructor (indexer: OrderIndexer, sync: BlockSync.GlobalBlockSync)
      ensures this.indexer == indexer && this.sync == sync
    {
      this.indexer, this.sync := indexer, sync;
    }

    ghost function Objects(): set<object> {
      indexer.Objects() + {sync}
    }

    /** A new block opens a transition and is not signed yet; a second one on top trips the
        pipeline's assertion. */
    method OnNewBlock(notice: Notice, ghost m: Manager) returns (panicked: bool)
      requires indexer.Valid() && m.pool == indexer.View()
      modifies indexer.validator
      ensures panicked <==> !Enabled(m, NewBlockTransitions(notice))
      ensures !panicked ==> indexer.View() == Next(indexer.env, m, NewBlockTransitions(notice)).pool
      ensures panicked ==> indexer.View() == old(indexer.View())
    {
      panicked := indexer.StartNewBlockProcessing(notice);
    }

    /** A reorg hands its orders back to the validator and is signed off at once. */
    method OnReorg(hashes: seq<Hash>, low: nat, high: nat, waker: BlockSync.Waker, ghost m: Manager)
        returns (res: BlockSync.Outcome)
      requires indexer.Valid() && m.pool == indexer.View() && low <= high
      modifies Objects()
      ensures indexer.View() == Next(indexer.env, m, ReorgedOrders(hashes, low, high)).pool
      ensures (sync.View(), res) ==
          BlockSync.SignOn(old(sync.View()), MODULE_NAME, BlockSync.PendingReorg(low, high), Some(waker))
    {
      hide ReorgOrders, BlockSync.SignOn;
      indexer.Reorg(hashes);
      res := sync.SignOffReorg(MODULE_NAME, low, high, Some(waker));
    }

    /** Every transition reported is signed off, in order; other events are for the network. */
    method OnPoolEvents(events: seq<Out>, waker: BlockSync.Waker)
      modifies sync
      ensures sync.View() == SignAll(old(sync.View()), Progressions(events), waker)
    {
      for i := 0 to |events|
        invariant sync.View() == SignAll(old(sync.View()), Progressions(events[..i]), waker)
      {
        assert events[..i + 1][..i] == events[..i];
        if events[i].Transitioned? {
          var ps := Progressions(events[..i]);
          assert (ps + [BlockSync.PendingProgression(events[i].block)])[..|ps|] == ps;
          var _ := sync.SignOffOnBlock(MODULE_NAME, events[i].block, Some(waker));
        }
      }
      assert events[..|events|] == events;
    }

    /** Poll the indexer until it has nothing more, then act on what it reported: the pool moves as
        its machine says, and exactly the newly signed proposals reach the barrier. */
    method PollPoolEvents(turns: seq<Event>, waker: BlockSync.Waker, ghost m: Manager)
        returns (n: nat, ghost signed: seq<BlockSync.Proposal>)
      requires indexer.Valid() && m.pool == indexer.View()
      requires forall e :: e in turns ==> e.Polled?
      modifies Objects()
      ensures n <= |turns| && forall p :: p in signed ==> p.PendingProgression?
      ensures indexer.View() == Drained(indexer.env, m, turns[..n]).pool
      ensures Drained(indexer.env, m, turns[..n]).signed == m.signed + signed
      ensures sync.View() == SignAll(old(sync.View()), signed, waker)
    {
      hide Polls, PollPool, BlockSync.SignOn, SignAll;
      n := 0;
      var more, events := true, [];
      assert turns[..0] == [] && m.signed + [] == m.signed;
      while more && n < |turns| && Fits(indexer.validator.state, turns[n].ready)
        invariant n <= |turns| && sync.View() == old(sync.View())
        invariant indexer.View() == Drained(indexer.env, m, turns[..n]).pool
        invariant Drained(indexer.env, m, turns[..n]).signed == m.signed + Progressions(events)
        decreases |turns| - n
      {
        ghost var before := Drained(indexer.env, m, turns[..n]);
        var event;
        assert turns[n] in turns && turns[..n + 1][..n] == turns[..n];
        PolledSigns(indexer.env, before, turns[n]);
        more, event := indexer.PollOnce(turns[n].ready, turns[n].verdict, turns[n].now);
        if event.Some? {
          assert (events + [event.value])[..|events|] == events;
          events := events + [event.value];
        }
        n := n + 1;
      }
      signed := Progressions(events);
      OnPoolEvents(events, waker);
    }
  }

  lemma PolledSigns(env: Env, m: Manager, e: Event)
    requires e.Polled? && Fits(m.pool.core.pipe, e.ready)
    ensures Polls(env, m, e).pool == PollPool(env, m.pool, e.ready, e.verdict, e.now)
    ensures Polls(env, m, e).signed == m.signed +
      (if PollNext(m.pool.core.pipe, e.ready).1.TransitionComplete?
          then [BlockSync.PendingProgression(m.pool.core.block)] else [])
  {
    hide HandleResult, FinishNewBlock, Started;
  }
}
