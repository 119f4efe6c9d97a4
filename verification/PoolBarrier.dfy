/** The order pool, the barrier and all other modules together: over every joint run the pool's
    sign-offs are the ones the barrier is waiting for. */
module PoolBarrier {
  import opened Options
  import opened OrderPool
  import opened PoolSignOff
  import opened PoolManagement
  import Barrier = BlockSyncRuns
  import BlockSync

  /** `broken` records a sign-off of the pool that was not in turn. */
  datatype Joint = Joint(pool: Manager, barrier: Barrier.World, broken: bool)

  datatype JointEvent =
    | AtBarrier(event: Barrier.Event)
    | AtPool(chain: ChainEvent, waker: BlockSync.Waker)

  predicate IsPoolSign(e: Barrier.Event) {
    (e.Sign? || e.LateSign?) && e.m == MODULE_NAME
  }

  predicate Registered(w: Barrier.World) {
    MODULE_NAME in w.joined && MODULE_NAME in w.signed
  }

  /** The proposal a chain event brings, if any. */
  function Brings(e: ChainEvent): Option<BlockSync.Proposal> {
    match e
    case NewBlockTransitions(notice) => Some(BlockSync.PendingProgression(notice.block))
    case ReorgedOrders(_, low, high) => Some(BlockSync.PendingReorg(low, high))
    case Other(_) => None
  }

  /** The chain delivers to the registered pool what the producer queued, in that order, and no
      reorg while a block is being changed; everybody else keeps to the barrier's own rules. */
  predicate CanHappen(j: Joint, e: JointEvent) {
    match e
    case AtBarrier(event) => Barrier.Enabled(j.barrier, event) && !IsPoolSign(event)
    case AtPool(chain, _) =>
      && Enabled(j.pool, chain) && !ReorgMidway(j.pool, chain)
      && (Brings(chain).Some? ==>
           && Registered(j.barrier)
           && var next := j.barrier.joined[MODULE_NAME] + |j.pool.delivered|;
              next < |j.barrier.queued| && j.barrier.queued[next] == Brings(chain).value)
  }

  /** A sign-off of the pool at the barrier. */
  function PoolSigns(w: Barrier.World, p: BlockSync.Proposal, waker: BlockSync.Waker): (Barrier.World, bool) {
    var sign := Barrier.Sign(MODULE_NAME, Some(waker));
    if Barrier.Enabled(w, sign) && w.queued[Barrier.NextIndex(w, MODULE_NAME)] == p then (Barrier.Step(w, sign), false)
    else (w, true)
  }

  function JointNext(env: Env, j: Joint, e: JointEvent): Joint
    requires CanHappen(j, e)
  {
    match e
    case AtBarrier(event) => j.(barrier := Barrier.Step(j.barrier, event))
    case AtPool(chain, waker) =>
      var pool := Next(env, j.pool, chain);
      if |pool.signed| <= |j.pool.signed| then j.(pool := pool)
      else
        var (barrier, broken) := PoolSigns(j.barrier, pool.signed[|pool.signed| - 1], waker);
        Joint(pool, barrier, j.broken || broken)
  }

  ghost predicate IsJointRun(env: Env, j: Joint, events: seq<JointEvent>)
    decreases |events|
  {
    events == [] || (CanHappen(j, events[0]) && IsJointRun(env, JointNext(env, j, events[0]), events[1..]))
  }

  ghost function AfterAll(env: Env, j: Joint, events: seq<JointEvent>): Joint
    requires IsJointRun(env, j, events)
    decreases |events|
  {
    if events == [] then j else AfterAll(env, JointNext(env, j, events[0]), events[1..])
  }

  /** The pool has signed as often as the barrier has it on record, and was delivered a stretch of
      the queue that starts where it joined. */
  ghost predicate Linked(m: Manager, w: Barrier.World) {
    if Registered(w) then
      var from := w.joined[MODULE_NAME];
      && |w.signed[MODULE_NAME]| == |m.signed|
      && from + |m.delivered| <= |w.queued|
      && m.delivered == w.queued[from..from + |m.delivered|]
    else m.delivered == [] && m.signed == []
  }

  ghost predicate Together(j: Joint) {
    !j.broken && Inv(j.pool) && InStep(j.pool) && Barrier.Inv(j.barrier) && Linked(j.pool, j.barrier)
  }

  /** What the barrier records about the pool changes only by the pool's own sign-offs. */
  lemma BarrierLeavesPool(w: Barrier.World, e: Barrier.Event)
    requires Barrier.Inv(w) && Barrier.Enabled(w, e) && !IsPoolSign(e) && Registered(w)
    ensures var v := Barrier.Step(w, e);
      && Registered(v) && v.joined[MODULE_NAME] == w.joined[MODULE_NAME]
      && v.signed[MODULE_NAME] == w.signed[MODULE_NAME] && w.queued <= v.queued
  {
    hide Barrier.InOrder, Barrier.QueueAligned, Barrier.SomeoneMissing, Barrier.SignedByAll, BlockSync.SignOn,
        BlockSync.Wakes;
    assert MODULE_NAME in w.sync.modules;
  }

  lemma BarrierRegisters(w: Barrier.World, e: Barrier.Event)
    requires Barrier.Inv(w) && Barrier.Enabled(w, e) && !IsPoolSign(e) && !Registered(w)
    ensures var v := Barrier.Step(w, e);
      Registered(v) ==> v.signed[MODULE_NAME] == [] && v.joined[MODULE_NAME] <= |v.queued|
  {
    hide Barrier.QueueAligned, Barrier.SomeoneMissing, Barrier.SignedByAll, BlockSync.SignOn, BlockSync.Wakes;
    assert MODULE_NAME !in w.joined && MODULE_NAME !in w.signed;
  }

  lemma BarrierKeepsTogether(env: Env, j: Joint, event: Barrier.Event)
    requires Together(j) && CanHappen(j, AtBarrier(event))
    ensures Together(JointNext(env, j, AtBarrier(event)))
  {
    hide Barrier.Inv, Barrier.Step, Barrier.Enabled, Inv, InStep;
    Barrier.StepKeepsInv(j.barrier, event);
    if Registered(j.barrier) {
      BarrierLeavesPool(j.barrier, event);
    } else {
      BarrierRegisters(j.barrier, event);
    }
  }

  /** One event of the pool signs nothing, or one proposal. */
  lemma SignsAtMostOne(env: Env, m: Manager, e: ChainEvent)
    requires Enabled(m, e)
    ensures var n := Next(env, m, e);
      && (n.signed == m.signed || (n.signed != [] && n.signed == m.signed + [n.signed[|n.signed| - 1]]))
      && n.delivered == m.delivered + (if Brings(e).Some? then [Brings(e).value] else [])
  {
    hide PollPool, ReorgOrders, CancelOrder, RemovePool, NewOrder, Started, StartBlock;
  }

  /** In step with the barrier, whatever the pool signs is the proposal whose turn it is, and the
      barrier accepts it. */
  lemma PoolFitsTheBarrier(m: Manager, n: Manager, w: Barrier.World, waker: BlockSync.Waker)
    requires InStep(n) && Barrier.Inv(w) && Registered(w) && n.signed != [] && n.signed[..|n.signed| - 1] == m.signed
    requires |w.signed[MODULE_NAME]| == |m.signed|
    requires w.joined[MODULE_NAME] + |n.delivered| <= |w.queued|
    requires n.delivered == w.queued[w.joined[MODULE_NAME]..w.joined[MODULE_NAME] + |n.delivered|]
    ensures var (sign, p) := (Barrier.Sign(MODULE_NAME, Some(waker)), n.signed[|n.signed| - 1]);
      && Barrier.Enabled(w, sign) && w.queued[Barrier.NextIndex(w, MODULE_NAME)] == p && !p.Processing?
      && BlockSync.SignOn(w.sync, MODULE_NAME, p, Some(waker)).1 in {BlockSync.Accepted, BlockSync.Completed}
      && Barrier.Inv(Barrier.Step(w, sign))
      && Registered(Barrier.Step(w, sign)) && Barrier.Step(w, sign).joined == w.joined
      && Barrier.Step(w, sign).queued == w.queued
      && |Barrier.Step(w, sign).signed[MODULE_NAME]| == |n.signed|
  {
    hide Barrier.Aligned, Barrier.SomeoneMissing, Barrier.SignedByAll, BlockSync.SignOn, BlockSync.Wakes, Owed;
    var from, k := w.joined[MODULE_NAME], |n.signed| - 1;
    assert n.signed <= n.delivered;
    assert n.signed[k] == n.delivered[k] == w.queued[from + k];
    var sign := Barrier.Sign(MODULE_NAME, Some(waker));
    assert Barrier.NextIndex(w, MODULE_NAME) == from + k;
    assert Barrier.Enabled(w, sign);
    Barrier.SignOutcome(w, MODULE_NAME, Some(waker));
    Barrier.SignCompletes(w, MODULE_NAME, Some(waker));
  }

  /** A delivery extends the pool's stretch of the queue by the proposal it brings. */
  lemma DeliveryLinks(delivered: seq<BlockSync.Proposal>, queued: seq<BlockSync.Proposal>, from: nat,
      p: BlockSync.Proposal)
    requires from + |delivered| < |queued| && delivered == queued[from..from + |delivered|]
    requires queued[from + |delivered|] == p
    ensures delivered + [p] == queued[from..from + |delivered| + 1]
  {
  }

  lemma PoolKeepsTogether(env: Env, j: Joint, chain: ChainEvent, waker: BlockSync.Waker)
    requires Together(j) && CanHappen(j, AtPool(chain, waker))
    ensures Together(JointNext(env, j, AtPool(chain, waker)))
  {
    hide Barrier.Inv, Barrier.Step, Barrier.Enabled, Inv, InStep, Next, BlockSync.SignOn;
    var (m, w, n) := (j.pool, j.barrier, Next(env, j.pool, chain));
    NextKeepsInv(env, m, chain);
    NextInStep(env, m, chain);
    SignsAtMostOne(env, m, chain);
    if Brings(chain).Some? {
      DeliveryLinks(m.delivered, w.queued, w.joined[MODULE_NAME], Brings(chain).value);
    } else {
      assert m.delivered + [] == m.delivered;
    }
    if |n.signed| > |m.signed| {
      StillRegistered(n, w);
      PoolFitsTheBarrier(m, n, w, waker);
    }
  }

  /** Only what was delivered can be signed, so a pool that signs is registered. */
  lemma StillRegistered(n: Manager, w: Barrier.World)
    requires InStep(n) && n.signed != [] && (!Registered(w) ==> n.delivered == [])
    ensures Registered(w)
  {
  }

  lemma {:induction false} RunTogether(env: Env, j: Joint, events: seq<JointEvent>)
    requires Together(j) && IsJointRun(env, j, events)
    ensures Together(AfterAll(env, j, events))
    decreases |events|
  {
    hide Together, CanHappen, JointNext;
    if events != [] {
      match events[0] {
        case AtBarrier(event) => BarrierKeepsTogether(env, j, event);
        case AtPool(chain, waker) => PoolKeepsTogether(env, j, chain, waker);
      }
      RunTogether(env, JointNext(env, j, events[0]), events[1..]);
    }
  }

  /** From the start, in every joint run: each sign-off of the pool was in turn, the barrier keeps
      the agreement proved of it, and the barrier has exactly the pool's sign-offs on record. */
  lemma PoolAndBarrierAgree(env: Env, pools: set<PoolId>, block: nat, events: seq<JointEvent>)
    requires IsJointRun(env, Joint(Fresh(pools, block), Barrier.Start(block), false), events)
    ensures var j := AfterAll(env, Joint(Fresh(pools, block), Barrier.Start(block), false), events);
      && !j.broken && Barrier.Inv(j.barrier)
      && j.pool.delivered == j.pool.signed + Owed(j.pool)
      && Linked(j.pool, j.barrier)
  {
    hide IsJointRun, AfterAll;
    RunTogether(env, Joint(Fresh(pools, block), Barrier.Start(block), false), events);
  }

  // ----- several sign-offs in one go

  lemma {:induction false} SignAllFirst(s: BlockSync.Sync, p: BlockSync.Proposal, rest: seq<BlockSync.Proposal>,
      waker: BlockSync.Waker)
    requires !p.Processing? && forall q :: q in rest ==> !q.Processing?
    ensures SignAll(s, [p] + rest, waker) ==
      SignAll(BlockSync.SignOn(s, MODULE_NAME, p, Some(waker)).0, rest, waker)
    decreases |rest|
  {
    hide BlockSync.SignOn;
    if rest == [] {
      assert [p] + rest == [p] && [p][..0] == [];
      assert SignAll(s, [], waker) == s;
    } else {
      var n := |rest| - 1;
      SignAllFirst(s, p, rest[..n], waker);
      assert ([p] + rest)[..|rest|] == [p] + rest[..n];
    }
  }

  /** Signing off on several proposals at once, as the manager does after polling, is a sign-off in turn
      on each of them. */
  lemma {:induction false} BatchIsSigns(w: Barrier.World, ps: seq<BlockSync.Proposal>, waker: BlockSync.Waker)
      returns (signs: seq<Barrier.Event>)
    requires Barrier.Inv(w) && Registered(w)
    requires var next := Barrier.NextIndex(w, MODULE_NAME);
      next + |ps| <= |w.queued| && ps == w.queued[next..next + |ps|]
    ensures |signs| == |ps| && forall e :: e in signs ==> e == Barrier.Sign(MODULE_NAME, Some(waker))
    ensures Barrier.IsRun(w, signs) && forall p :: p in ps ==> !p.Processing?
    ensures Barrier.After(w, signs).sync == SignAll(w.sync, ps, waker)
    decreases |ps|
  {
    hide Barrier.Inv, Barrier.Step, Barrier.Enabled, BlockSync.SignOn;
    if ps == [] {
      signs := [];
    } else {
      var sign := Barrier.Sign(MODULE_NAME, Some(waker));
      InTurn(w, waker);
      var v := Barrier.Step(w, sign);
      var next := Barrier.NextIndex(w, MODULE_NAME);
      assert ps[1..] == v.queued[next + 1..next + 1 + |ps[1..]|];
      var rest := BatchIsSigns(v, ps[1..], waker);
      signs := [sign] + rest;
      Barrier.FirstStep(w, sign, rest);
      SignAllFirst(w.sync, ps[0], ps[1..], waker);
      assert ps == [ps[0]] + ps[1..];
    }
  }

  lemma InTurn(w: Barrier.World, waker: BlockSync.Waker)
    requires Barrier.Inv(w) && Registered(w) && Barrier.NextIndex(w, MODULE_NAME) < |w.queued|
    ensures var (sign, next) := (Barrier.Sign(MODULE_NAME, Some(waker)), Barrier.NextIndex(w, MODULE_NAME));
      && !w.queued[next].Processing? && Barrier.Enabled(w, sign)
      && var v := Barrier.Step(w, sign);
         && Barrier.Inv(v) && Registered(v) && Barrier.NextIndex(v, MODULE_NAME) == next + 1 && v.queued == w.queued
         && v.sync == BlockSync.SignOn(w.sync, MODULE_NAME, w.queued[next], Some(waker)).0
  {
    hide Barrier.Aligned, Barrier.SomeoneMissing, Barrier.SignedByAll, Barrier.LastBlock, BlockSync.SignOn,
        BlockSync.Wakes;
    assert Barrier.Enabled(w, Barrier.Sign(MODULE_NAME, Some(waker)));
    Barrier.SignOutcome(w, MODULE_NAME, Some(waker));
  }
}
