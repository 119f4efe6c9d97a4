/** Every block that was delivered can be signed off: whatever stage the pool is in, polls alone get it
    there, and whatever the validations say. */
module PoolProgress {
  import opened Options
  import opened Pipeline
  import opened OrderPool
  import opened PoolSignOff
  import BlockSync

  function Poll(ready: Readiness, v: Verdict, now: Time): ChainEvent {
    Other(Polled(ready, v, now))
  }

  lemma {:induction false} RunsJoin(env: Env, m: Manager, a: seq<ChainEvent>, b: seq<ChainEvent>)
    requires IsRun(env, m, a) && IsRun(env, After(env, m, a), b)
    ensures IsRun(env, m, a + b) && After(env, m, a + b) == After(env, After(env, m, a), b)
    decreases |a|
  {
    hide Enabled, Next;
    if a == [] {
      assert a + b == b;
    } else {
      RunsJoin(env, Next(env, m, a[0]), a[1..], b);
      assert (a + b)[1..] == a[1..] + b;
    }
  }

  lemma OneEvent(env: Env, m: Manager, e: ChainEvent)
    requires Enabled(m, e)
    ensures IsRun(env, m, [e]) && After(env, m, [e]) == Next(env, m, e)
  {
    hide Enabled, Next;
    assert IsRun(env, Next(env, m, e), [e][1..]);
  }

  /** A result that comes while the pool is clearing is handled, and clearing goes on without it. */
  lemma ClearingShrinks(env: Env, m: Manager, v: Verdict, now: Time)
    requires m.pool.core.pipe.ClearingForNewBlock? && m.pool.core.pipe.inflight != []
    ensures var (e, p) := (Poll(Readiness(Some(0), false), v, now), m.pool.core.pipe);
      && Enabled(m, e)
      && var n := Next(env, m, e);
         && n.pool.core.pipe.ClearingForNewBlock? && n.pool.core.pipe.notice == p.notice
         && n.pool.core.pipe.inflight == p.inflight[1..]
         && n.handled == m.handled + multiset{p.inflight[0]}
         && n.signed == m.signed && n.delivered == m.delivered
  {
    hide HandleCore, Started;
    var ready := Readiness(Some(0), false);
    var (q, res) := PollNext(m.pool.core.pipe, ready);
    var s1 := m.pool.(core := m.pool.core.(pipe := q));
    ResultGrows(env, s1.core, OwnerClaim(env, s1, res.job.hash), res.job.hash, v, now);
  }

  /** With nothing in flight the next poll ends the old block, and the pool is on the new one. */
  lemma ClearedInforms(env: Env, m: Manager, v: Verdict, now: Time)
    requires m.pool.core.pipe.ClearingForNewBlock? && m.pool.core.pipe.inflight == []
    ensures var e := Poll(Readiness(None, false), v, now);
      && Enabled(m, e)
      && var n := Next(env, m, e);
         && n.pool.core.pipe.InformState? && n.pool.core.block == m.pool.core.pipe.notice.block
         && n.signed == m.signed && n.delivered == m.delivered
  {
    hide FinishCore, Started;
    var (q, res) := PollNext(m.pool.core.pipe, Readiness(None, false));
    FinishInforms(env, m.pool.core.(pipe := q), res.notice, now);
  }

  /** When the validator has been told, the block is signed off. */
  lemma InformedSigns(env: Env, m: Manager, v: Verdict, now: Time)
    requires m.pool.core.pipe.InformState?
    ensures var e := Poll(Readiness(None, true), v, now);
      && Enabled(m, e)
      && var n := Next(env, m, e);
         && n.pool.core.pipe.RegularProcessing?
         && n.signed == m.signed + [BlockSync.PendingProgression(m.pool.core.block)] && n.delivered == m.delivered
  {
    hide Started;
  }

  /** Clearing comes to its end, whatever the results are. */
  lemma {:induction false} ClearingEnds(env: Env, m: Manager, verdicts: nat -> Verdict, now: Time)
    returns (events: seq<ChainEvent>)
    requires m.pool.core.pipe.ClearingForNewBlock?
    ensures IsRun(env, m, events) && forall e :: e in events ==> e.Other? && e.event.Polled?
    ensures var n := After(env, m, events);
      && n.pool.core.pipe.InformState? && n.pool.core.block == m.pool.core.pipe.notice.block
      && n.signed == m.signed && n.delivered == m.delivered
    decreases |m.pool.core.pipe.inflight|
  {
    hide IsRun, After, Next, Enabled;
    var flight := m.pool.core.pipe.inflight;
    if flight == [] {
      ClearedInforms(env, m, verdicts(0), now);
      events := [Poll(Readiness(None, false), verdicts(0), now)];
      OneEvent(env, m, events[0]);
    } else {
      ClearingShrinks(env, m, verdicts(|flight|), now);
      var e := Poll(Readiness(Some(0), false), verdicts(|flight|), now);
      var rest := ClearingEnds(env, Next(env, m, e), verdicts, now);
      OneEvent(env, m, e);
      RunsJoin(env, m, [e], rest);
      events := [e] + rest;
    }
  }

  /** From every state the pool can be in with a block delivered and not signed, some polls sign exactly
      that block and leave the pool in regular processing. */
  lemma OwedBlockIsSigned(env: Env, m: Manager, verdicts: nat -> Verdict, now: Time) returns (events: seq<ChainEvent>)
    requires Inv(m) && Owed(m) != []
    ensures IsRun(env, m, events) && forall e :: e in events ==> e.Other? && e.event.Polled?
    ensures var n := After(env, m, events);
      && n.signed == m.signed + Owed(m) && n.delivered == m.delivered
      && n.pool.core.pipe.RegularProcessing? && Owed(n) == []
  {
    hide IsRun, After, Next, Enabled;
    events := [];
    assert IsRun(env, m, []) && After(env, m, []) == m by { NoEvents(env, m); }
    if m.pool.core.pipe.ClearingForNewBlock? {
      events := ClearingEnds(env, m, verdicts, now);
    }
    var n := After(env, m, events);
    var last := Poll(Readiness(None, true), verdicts(0), now);
    InformedSigns(env, n, verdicts(0), now);
    OneEvent(env, n, last);
    RunsJoin(env, m, events, [last]);
    events := events + [last];
  }

  lemma NoEvents(env: Env, m: Manager)
    ensures IsRun(env, m, []) && After(env, m, []) == m
  {
  }

  // ----- every run of the manager is a run of the pool

  /** What the pool is told about a chain event. */
  function PoolEvent(e: ChainEvent): Event {
    match e
    case NewBlockTransitions(notice) => BlockStarts(notice)
    case ReorgedOrders(hashes, _, _) => Reorged(hashes)
    case Other(event) => event
  }

  function PoolEvents(events: seq<ChainEvent>): seq<Event> {
    seq(|events|, i requires 0 <= i < |events| => PoolEvent(events[i]))
  }

  /** What the event has the pool sign: a reorg at once, a block when the validator has been told of it. */
  function SignedBy(m: Manager, e: ChainEvent): seq<BlockSync.Proposal> {
    match e
    case NewBlockTransitions(_) => []
    case ReorgedOrders(_, low, high) => [BlockSync.PendingReorg(low, high)]
    case Other(event) =>
      if event.Polled? && Fits(m.pool.core.pipe, event.ready) && m.pool.core.pipe.InformState? && event.ready.informed
      then [BlockSync.PendingProgression(m.pool.core.block)] else []
  }

  /** Each chain event moves the pool by exactly its own event. */
  lemma ChainDrivesPool(env: Env, m: Manager, e: ChainEvent)
    requires Enabled(m, e)
    ensures Next(env, m, e).pool == Step(env, m.pool, PoolEvent(e))
    ensures Next(env, m, e).signed == m.signed + SignedBy(m, e)
  {
    hide HandleResult, FinishNewBlock, Started, CancelOrder, NewOrder, RemovePool, ReorgOrders, StartBlock;
    if e.Other? && e.event.Polled? && Fits(m.pool.core.pipe, e.event.ready) {
      assert PollNext(m.pool.core.pipe, e.event.ready).1.TransitionComplete? <==>
        m.pool.core.pipe.InformState? && e.event.ready.informed;
    }
  }

  lemma {:induction false} FirstOfRun(env: Env, s: State, e: Event, rest: seq<Event>)
    ensures Run(env, s, [e] + rest) == Run(env, Step(env, s, e), rest)
  {
    hide Step;
    if rest == [] {
      assert [e] + rest == [e] && [e][..0] == [];
      assert Run(env, s, [e]) == Step(env, Run(env, s, []), e);
    } else {
      var n := |rest| - 1;
      FirstOfRun(env, s, e, rest[..n]);
      assert ([e] + rest)[..|rest|] == [e] + rest[..n];
    }
  }

  /** So what is proved of all runs of the pool holds for whatever the chain and the network bring. */
  lemma {:induction false} RunsArePoolRuns(env: Env, m: Manager, events: seq<ChainEvent>)
    requires IsRun(env, m, events)
    ensures After(env, m, events).pool == Run(env, m.pool, PoolEvents(events))
    decreases |events|
  {
    hide Next, Step, Enabled;
    if events != [] {
      ChainDrivesPool(env, m, events[0]);
      RunsArePoolRuns(env, Next(env, m, events[0]), events[1..]);
      FirstOfRun(env, m.pool, PoolEvent(events[0]), PoolEvents(events[1..]));
      assert PoolEvents(events) == [PoolEvent(events[0])] + PoolEvents(events[1..]);
    }
  }
}
