/** The pool manager's side of the barrier: when the order pool signs off on blocks and reorgs. */
module PoolSignOff {
  import opened Pipeline
  import opened OrderPool
  import opened OrderFacts
  import BlockSync
  import Finalization

  // ----- the pipeline's stage

  /** Only submissions in between: the stage is the same, and orders have been added, in flight
      when processing is regular and to the queue otherwise. */
  ghost predicate Grown(p: Pipeline<Job>, q: Pipeline<Job>) {
    if p.RegularProcessing? then q.RegularProcessing? && p.inflight <= q.inflight
    else !q.RegularProcessing? && p.waiting <= q.waiting && q == p.(waiting := q.waiting)
  }

  lemma {:induction false} SubmitAllGrows(c: Core, origin: Origin, hs: seq<Hash>)
    ensures Grown(c.pipe, SubmitAll(c, origin, hs).pipe)
  {
    if hs != [] { SubmitAllGrows(c, origin, hs[..|hs| - 1]); }
  }

  lemma RevalidateGrows(env: Env, c: Core, displaced: seq<Hash>)
    ensures Grown(c.pipe, Revalidate(env, c, displaced).pipe)
  {
    hide SubmitAll, Take;
    var (st, got) := Take(env, c.storage, displaced, c.tracker.indexed);
    SubmitAllGrows(c.(storage := st, tracker := c.tracker.(validating := c.tracker.validating + (set h | h in got))),
        ReValidation, got);
  }

  lemma ResultGrows(env: Env, c: Core, claimed: bool, h: Hash, v: Verdict, now: Time)
    ensures Grown(c.pipe, HandleCore(env, c, claimed, h, v, now).pipe)
    ensures HandleCore(env, c, claimed, h, v, now).block == c.block
  {
    hide Revalidate, Insert, Dropped, Replies;
    var c0 := StopValidating(c, h);
    if v.Valid? {
      var c1 :=
        if v.validBlock != c.block then Emit(Answer(c0, h, InvalidAtBlock), Released(env.info(h).owner, h))
        else if claimed then Emit(c0, Released(env.info(h).owner, h))
        else
          var c2 := Answer(Emit(c0, Announced(New(h))), h, if v.parked then StateError else ValidOrder);
          WithTracker(c2, IndexValid(env, c2.tracker, h));
      RevalidateGrows(env, c1, v.invalidates);
      RevalidateFacts(env, c1, v.invalidates, h);
    }
  }

  lemma CancelGrows(env: Env, s: State, user: Address, h: Hash, signatureValid: bool, now: Time)
    ensures Grown(s.core.pipe, CancelOrder(env, s, user, h, signatureValid, now).0.core.pipe)
    ensures CancelOrder(env, s, user, h, signatureValid, now).0.core.block == s.core.block
  {
    hide TakeParked, SubmitAll, CancelStored;
    var t := s.core.tracker;
    var c := Emit(s.core.(
      storage := CancelStored(env, s.core.storage, h).0,
      tracker := ConfirmCancel(t.(indexed := t.indexed - {h}), user, h, CancellationDeadline(now))), Released(user, h));
    if user in t.byAddress {
      var (st, got) := TakeParked(env, c.storage, env.arrange(t.byAddress[user]));
      SubmitAllGrows(c.(storage := st), ReValidation, got);
      SubmitAllSilent(c.(storage := st), ReValidation, got, h);
    }
  }

  lemma {:induction false} EoaGrows(env: Env, c: Core, addresses: seq<Address>)
    ensures Grown(c.pipe, EoaChange(env, c, addresses).pipe)
  {
    hide Take, SubmitAll;
    if addresses != [] {
      EoaGrows(env, c, addresses[..|addresses| - 1]);
      var (c1, a) := (EoaChange(env, c, addresses[..|addresses| - 1]), addresses[|addresses| - 1]);
      if a in c1.tracker.byAddress {
        var (st, got) := Take(env, c1.storage, env.arrange(c1.tracker.byAddress[a]), c1.tracker.byAddress[a]);
        SubmitAllGrows(c1.(storage := st, tracker := c1.tracker.(byAddress := c1.tracker.byAddress - {a})),
            ReValidation, got);
      }
    }
  }

  lemma {:induction false} UnfillGrows(c: Core, hs: seq<Hash>)
    ensures Grown(c.pipe, UnfillAll(c, hs).pipe)
    ensures UnfillAll(c, hs).block == c.block
  {
    if hs != [] { UnfillGrows(c, hs[..|hs| - 1]); }
  }

  /** The end of the old block leads straight to telling the validator about the new one. */
  lemma FinishInforms(env: Env, c: Core, notice: Notice, now: Time)
    requires c.pipe.WaitingForStorageCleanup?
    ensures FinishCore(env, c, notice, now).pipe.InformState?
    ensures FinishCore(env, c, notice, now).block == notice.block
  {
    hide FillOrders, PurgeCancelled, RemoveExpired, EoaChange, AnnounceAll;
    var c1 := FillOrders(env, EnterBlock(c, notice.block), notice.orders);
    FillSilent(env, EnterBlock(c, notice.block), notice.orders, 0);
    var p := PurgeCancelled(env, c1, now);
    PurgeSilent(env, c1, now, 0);
    var (c2, expired) := RemoveExpired(env, p, now + ETH_BLOCK_TIME);
    ExpireSilent(env, p, now + ETH_BLOCK_TIME, 0);
    AnnounceAllSilent(c2, (g: Hash) => Expired(g), expired, 0);
    EoaSilent(env, AnnounceAll(c2, (g: Hash) => Expired(g), expired), notice.addresses, 0);
    EoaGrows(env, AnnounceAll(c2, (g: Hash) => Expired(g), expired), notice.addresses);
  }

  // ----- the manager

  /** What was begun when the transition to the block opened, and what had been handled when the
      validator was told of it. */
  datatype BlockSignOff = BlockSignOff(block: nat, begun: multiset<Job>, handled: multiset<Job>)

  datatype Manager = Manager(
    pool: State,
    delivered: seq<BlockSync.Proposal>,
    signed: seq<BlockSync.Proposal>,
    begun: multiset<Job>,
    handled: multiset<Job>,
    atOpening: multiset<Job>,
    informed: multiset<Job>,
    blocks: seq<BlockSignOff>)

  datatype ChainEvent =
    | NewBlockTransitions(notice: Notice)
    | ReorgedOrders(hashes: seq<Hash>, low: nat, high: nat)
    | Other(event: Event)

  /** A block delivered while another is still being processed trips the pipeline's assertion. */
  predicate Enabled(m: Manager, e: ChainEvent) {
    match e
    case NewBlockTransitions(_) => m.pool.core.pipe.RegularProcessing?
    case ReorgedOrders(_, low, high) => low <= high
    case Other(event) => !event.BlockStarts? && !event.Reorged?
  }

  /** The validations in flight now that were not before. */
  function Started(p: Pipeline<Job>, q: Pipeline<Job>): multiset<Job> {
    multiset(Inflight(q)) - multiset(Inflight(p))
  }

  function Move(m: Manager, s: State): Manager {
    m.(pool := s, begun := m.begun + Started(m.pool.core.pipe, s.core.pipe))
  }

  function Polls(env: Env, m: Manager, event: Event): Manager
    requires event.Polled?
  {
    var p := m.pool.core.pipe;
    var s := Step(env, m.pool, event);
    if !Fits(p, event.ready) then m
    else
      var (q, res) := PollNext(p, event.ready);
      match res
      case ValidatedOrder(job) =>
        m.(pool := s, handled := m.handled + multiset{job}, begun := m.begun + Started(q, s.core.pipe))
      case EnsureClearForTransition(_) => Move(m.(informed := m.handled), s)
      case TransitionComplete =>
        Move(m.(signed := m.signed + [BlockSync.PendingProgression(m.pool.core.block)],
                blocks := m.blocks + [BlockSignOff(m.pool.core.block, m.atOpening, m.informed)]), s)
      case _ => m.(pool := s)
  }

  /** A reorg is signed off as soon as it has been delivered; a block when the pool says that it
      has moved to it. */
  function Next(env: Env, m: Manager, e: ChainEvent): Manager
    requires Enabled(m, e)
  {
    match e
    case NewBlockTransitions(notice) =>
      var moved := Move(m, Step(env, m.pool, BlockStarts(notice)));
      moved.(delivered := m.delivered + [BlockSync.PendingProgression(notice.block)], atOpening := m.begun)
    case ReorgedOrders(hashes, low, high) =>
      Move(m, Step(env, m.pool, Reorged(hashes))).(
        delivered := m.delivered + [BlockSync.PendingReorg(low, high)],
        signed := m.signed + [BlockSync.PendingReorg(low, high)])
    case Other(event) =>
      if event.Polled? then Polls(env, m, event) else Move(m, Step(env, m.pool, event))
  }

  function Fresh(pools: set<PoolId>, block: nat): Manager {
    Manager(Start(pools, block), [], [], multiset{}, multiset{}, multiset{}, multiset{}, [])
  }

  ghost predicate IsRun(env: Env, m: Manager, events: seq<ChainEvent>)
    decreases |events|
  {
    events == [] || (Enabled(m, events[0]) && IsRun(env, Next(env, m, events[0]), events[1..]))
  }

  ghost function After(env: Env, m: Manager, events: seq<ChainEvent>): Manager
    requires IsRun(env, m, events)
    decreases |events|
  {
    if events == [] then m else After(env, Next(env, m, events[0]), events[1..])
  }

  // ----- sign-offs come after the work

  /** Every validation begun has been handled or is in flight; while a block is being changed
      nothing begins; a block is signed only with everything begun before it handled. */
  ghost predicate Inv(m: Manager) {
    var p := m.pool.core.pipe;
    && !p.WaitingForStorageCleanup?
    && m.begun == m.handled + multiset(Inflight(p))
    && (p.ClearingForNewBlock? ==> m.atOpening == m.begun)
    && (p.InformState? ==> m.informed == m.atOpening == m.begun)
    && forall i :: 0 <= i < |m.blocks| ==> m.blocks[i].begun == m.blocks[i].handled
  }

  lemma GrownBegins(m: Manager, s: State)
    requires Inv(m) && Grown(m.pool.core.pipe, s.core.pipe)
    ensures Inv(Move(m, s))
  {
    var (p, q) := (m.pool.core.pipe, s.core.pipe);
    if p.RegularProcessing? {
      assert q.inflight == p.inflight + q.inflight[|p.inflight|..];
      assert Started(p, q) == multiset(q.inflight[|p.inflight|..]);
    } else {
      assert Inflight(q) == Inflight(p) && Started(p, q) == multiset{};
    }
  }

  lemma ReorgGrows(c: Core, hs: seq<Hash>)
    ensures Grown(c.pipe, ReorgOrders(c, hs).pipe) && ReorgOrders(c, hs).block == c.block
  {
    hide UnfillAll, Finalization.Reorg, Finalization.Ids;
    var (pool, out) := Finalization.Reorg(c.storage.finalizing, hs);
    UnfillGrows(c.(storage := c.storage.(finalizing := pool)), Finalization.Ids(out));
  }

  lemma RemovePoolGrows(env: Env, c: Core, pool: PoolId)
    ensures Grown(c.pipe, RemovePool(env, c, pool).pipe) && RemovePool(env, c, pool).block == c.block
  {
    hide AnnounceAll, PoolOrders, Silent;
    var gone := PoolOrders(env, c.storage, pool);
    AnnounceAllSilent(WithoutPool(env, c, pool, gone), (g: Hash) => Expired(g), env.arrange(gone), 0);
  }

  /** Every event but a poll and a new block leaves the stage as it is. */
  lemma OtherGrows(env: Env, s: State, e: Event)
    requires !e.Polled? && !e.BlockStarts?
    ensures Grown(s.core.pipe, Step(env, s, e).core.pipe)
    ensures Step(env, s, e).core.block == s.core.block
  {
    hide CancelOrder, ReorgOrders, RemovePool, Replies;
    match e
    case CancelArrives(user, h, signatureValid, now) => CancelGrows(env, s, user, h, signatureValid, now);
    case Reorged(hs) => ReorgGrows(s.core, hs);
    case PoolRemoved(pool) => RemovePoolGrows(env, s.core, pool);
    case _ =>
  }

  lemma ResultKeepsInv(env: Env, m: Manager, event: Event)
    requires Inv(m) && event.Polled? && Fits(m.pool.core.pipe, event.ready)
    requires PollNext(m.pool.core.pipe, event.ready).1.ValidatedOrder?
    ensures Inv(Polls(env, m, event))
  {
    hide HandleCore, Without, Inv, Grown, Started;
    var p := m.pool.core.pipe;
    var (q, res) := PollNext(p, event.ready);
    var s1 := m.pool.(core := m.pool.core.(pipe := q));
    ResultGrows(env, s1.core, OwnerClaim(env, s1, res.job.hash), res.job.hash, event.verdict, event.now);
    HandedOver(m, event.ready);
    GrownBegins(m.(pool := s1, handled := m.handled + multiset{res.job}), Step(env, m.pool, event));
  }

  /** Taking a result out of flight and counting it as handled keeps the books. */
  lemma HandedOver(m: Manager, ready: Readiness)
    requires Inv(m) && Fits(m.pool.core.pipe, ready) && PollNext(m.pool.core.pipe, ready).1.ValidatedOrder?
    ensures var (q, res) := PollNext(m.pool.core.pipe, ready);
      Inv(m.(pool := m.pool.(core := m.pool.core.(pipe := q)), handled := m.handled + multiset{res.job}))
  {
    hide Without;
    var p := m.pool.core.pipe;
    var i := ready.job.value;
    WithoutOne(Inflight(p), i);
    Regroup(m.begun, m.handled, multiset(Inflight(p)), multiset(Without(Inflight(p), i)), multiset{Inflight(p)[i]});
  }

  lemma Regroup(begun: multiset<Job>, handled: multiset<Job>, a: multiset<Job>, b: multiset<Job>, x: multiset<Job>)
    requires begun == handled + a && a == b + x
    ensures begun == (handled + x) + b
  {
  }

  lemma ClearKeepsInv(env: Env, m: Manager, event: Event)
    requires Inv(m) && event.Polled? && Fits(m.pool.core.pipe, event.ready)
    requires PollNext(m.pool.core.pipe, event.ready).1.EnsureClearForTransition?
    ensures Inv(Polls(env, m, event))
  {
    hide FinishCore, Started;
    var p := m.pool.core.pipe;
    var (q, res) := PollNext(p, event.ready);
    FinishInforms(env, m.pool.core.(pipe := q), res.notice, event.now);
    var s := Step(env, m.pool, event);
    assert Inflight(p) == [] && Inflight(s.core.pipe) == [];
    FromNothing(p, s.core.pipe);
    NothingInFlight(m.begun, m.handled, p);
  }

  lemma FromNothing(p: Pipeline<Job>, q: Pipeline<Job>)
    requires Inflight(p) == []
    ensures Started(p, q) == multiset(Inflight(q))
  {
  }

  lemma NothingInFlight(begun: multiset<Job>, handled: multiset<Job>, p: Pipeline<Job>)
    requires begun == handled + multiset(Inflight(p)) && Inflight(p) == []
    ensures begun == handled
  {
  }

  lemma CompleteKeepsInv(env: Env, m: Manager, event: Event)
    requires Inv(m) && event.Polled? && Fits(m.pool.core.pipe, event.ready)
    requires PollNext(m.pool.core.pipe, event.ready).1.TransitionComplete?
    ensures Inv(Polls(env, m, event))
  {
    hide Started;
    var p := m.pool.core.pipe;
    assert Inflight(p) == [];
    FromNothing(p, Step(env, m.pool, event).core.pipe);
    NothingInFlight(m.begun, m.handled, p);
  }

  lemma PollKeepsInv(env: Env, m: Manager, event: Event)
    requires Inv(m) && event.Polled?
    ensures Inv(Polls(env, m, event))
  {
    hide HandleResult, FinishNewBlock, Started, Inv;
    var p := m.pool.core.pipe;
    if Fits(p, event.ready) {
      var (q, res) := PollNext(p, event.ready);
      match res {
        case ValidatedOrder(_) => ResultKeepsInv(env, m, event);
        case EnsureClearForTransition(_) => ClearKeepsInv(env, m, event);
        case TransitionComplete => CompleteKeepsInv(env, m, event);
        case _ => assert q == p && Polls(env, m, event) == m;
      }
    }
  }

  lemma NextKeepsInv(env: Env, m: Manager, e: ChainEvent)
    requires Inv(m) && Enabled(m, e)
    ensures Inv(Next(env, m, e))
  {
    hide PollPool, ReorgOrders, CancelOrder, RemovePool, NewOrder;
    match e
    case NewBlockTransitions(notice) =>
    case ReorgedOrders(hashes, low, high) =>
      OtherGrows(env, m.pool, Reorged(hashes));
      GrownBegins(m, Step(env, m.pool, Reorged(hashes)));
    case Other(event) =>
      if event.Polled? {
        PollKeepsInv(env, m, event);
      } else {
        OtherGrows(env, m.pool, event);
        GrownBegins(m, Step(env, m.pool, event));
      }
  }

  lemma {:induction false} RunKeepsInv(env: Env, m: Manager, events: seq<ChainEvent>)
    requires Inv(m) && IsRun(env, m, events)
    ensures Inv(After(env, m, events))
    decreases |events|
  {
    hide Inv, Enabled, Next;
    if events != [] {
      NextKeepsInv(env, m, events[0]);
      RunKeepsInv(env, Next(env, m, events[0]), events[1..]);
    }
  }

  /** Over every run: the pipeline never rests in the storage clean-up state, and each block is
      signed off after exactly the validations begun before its transition were handled. */
  lemma SignOffAfterTheWork(env: Env, pools: set<PoolId>, block: nat, events: seq<ChainEvent>)
    requires IsRun(env, Fresh(pools, block), events)
    ensures var m := After(env, Fresh(pools, block), events);
      && !m.pool.core.pipe.WaitingForStorageCleanup?
      && (forall i :: 0 <= i < |m.blocks| ==> m.blocks[i].begun == m.blocks[i].handled)
      && m.begun == m.handled + multiset(Inflight(m.pool.core.pipe))
  {
    hide IsRun, After;
    RunKeepsInv(env, Fresh(pools, block), events);
  }

  // ----- the order of sign-offs

  /** The block being changed to, if any, is delivered but not signed. */
  function Owed(m: Manager): seq<BlockSync.Proposal> {
    match m.pool.core.pipe
    case ClearingForNewBlock(notice, _, _) => [BlockSync.PendingProgression(notice.block)]
    case InformState(_, _) => [BlockSync.PendingProgression(m.pool.core.block)]
    case _ => []
  }

  ghost predicate InStep(m: Manager) {
    m.delivered == m.signed + Owed(m)
  }

  predicate ReorgMidway(m: Manager, e: ChainEvent) {
    e.ReorgedOrders? && !m.pool.core.pipe.RegularProcessing?
  }

  lemma PollInStep(env: Env, m: Manager, event: Event)
    requires Inv(m) && InStep(m) && event.Polled?
    ensures InStep(Polls(env, m, event))
    ensures Polls(env, m, event).delivered == m.delivered
    ensures m.signed <= Polls(env, m, event).signed
  {
    hide HandleCore, FinishCore, Inv, Started;
    var p := m.pool.core.pipe;
    if Fits(p, event.ready) {
      var (q, res) := PollNext(p, event.ready);
      var s1 := m.pool.(core := m.pool.core.(pipe := q));
      if res.ValidatedOrder? {
        ResultGrows(env, s1.core, OwnerClaim(env, s1, res.job.hash), res.job.hash, event.verdict, event.now);
      } else if res.EnsureClearForTransition? {
        FinishInforms(env, s1.core, res.notice, event.now);
      } else {
        assert m.signed + Owed(m) + [] == m.signed + Owed(m);
      }
    }
  }

  /** One event keeps the pool in step exactly if it is not a reorg delivered while a block is
      being changed. */
  lemma NextInStep(env: Env, m: Manager, e: ChainEvent)
    requires Inv(m) && InStep(m) && Enabled(m, e)
    ensures !ReorgMidway(m, e) ==> InStep(Next(env, m, e))
    ensures ReorgMidway(m, e) ==> OutOfStep(Next(env, m, e))
  {
    hide PollPool, ReorgOrders, CancelOrder, RemovePool, NewOrder, Started;
    match e
    case NewBlockTransitions(notice) => assert m.signed + [] == m.signed;
    case ReorgedOrders(hashes, low, high) =>
      OtherGrows(env, m.pool, Reorged(hashes));
      var r := BlockSync.PendingReorg(low, high);
      if ReorgMidway(m, e) {
        var n := Next(env, m, e);
        assert !m.pool.core.pipe.WaitingForStorageCleanup?;
        assert n.delivered == (m.signed + Owed(m)) + [r];
        assert n.signed[|m.signed|] != n.delivered[|m.signed|];
      } else {
        assert m.signed + [] == m.signed && m.signed + [r] + [] == m.signed + [r];
      }
    case Other(event) =>
      if event.Polled? { PollInStep(env, m, event); } else { OtherGrows(env, m.pool, event); }
  }

  /** Some sign-off was for another proposal than the one delivered in its place. */
  ghost predicate OutOfStep(m: Manager) {
    exists k :: 0 <= k < |m.signed| && k < |m.delivered| && m.signed[k] != m.delivered[k]
  }

  lemma NextExtends(env: Env, m: Manager, e: ChainEvent)
    requires Enabled(m, e)
    ensures m.signed <= Next(env, m, e).signed && m.delivered <= Next(env, m, e).delivered
  {
    hide PollPool, ReorgOrders, CancelOrder, RemovePool, NewOrder, Started, StartBlock;
  }

  lemma OutOfStepForGood(m: Manager, n: Manager)
    requires OutOfStep(m) && m.signed <= n.signed && m.delivered <= n.delivered
    ensures OutOfStep(n)
  {
    var k :| 0 <= k < |m.signed| && k < |m.delivered| && m.signed[k] != m.delivered[k];
    assert n.signed[k] != n.delivered[k];
  }

  ghost predicate NeverMidway(env: Env, m: Manager, events: seq<ChainEvent>)
    requires IsRun(env, m, events)
    decreases |events|
  {
    events == [] || (!ReorgMidway(m, events[0]) && NeverMidway(env, Next(env, m, events[0]), events[1..]))
  }

  lemma {:induction false} StaysOutOfStep(env: Env, m: Manager, events: seq<ChainEvent>)
    requires OutOfStep(m) && IsRun(env, m, events)
    ensures OutOfStep(After(env, m, events))
    decreases |events|
  {
    hide Enabled, Next, OutOfStep;
    if events != [] {
      NextExtends(env, m, events[0]);
      OutOfStepForGood(m, Next(env, m, events[0]));
      StaysOutOfStep(env, Next(env, m, events[0]), events[1..]);
    }
  }

  lemma {:induction false} RunInStep(env: Env, m: Manager, events: seq<ChainEvent>)
    requires Inv(m) && InStep(m) && IsRun(env, m, events)
    ensures if NeverMidway(env, m, events) then InStep(After(env, m, events)) else OutOfStep(After(env, m, events))
    decreases |events|
  {
    hide Inv, InStep, OutOfStep, Enabled, Next, ReorgMidway;
    if events != [] {
      NextKeepsInv(env, m, events[0]);
      NextInStep(env, m, events[0]);
      if ReorgMidway(m, events[0]) {
        StaysOutOfStep(env, Next(env, m, events[0]), events[1..]);
      } else {
        RunInStep(env, Next(env, m, events[0]), events[1..]);
      }
    }
  }

  /** The pool signs the proposals in the order they were delivered, as the barrier asks of every
      module, if and only if no reorg is delivered while a block is being changed; and then it
      owes at most the block it is changing to. */
  lemma SignsInDeliveredOrder(env: Env, pools: set<PoolId>, block: nat, events: seq<ChainEvent>)
    requires IsRun(env, Fresh(pools, block), events)
    ensures var m := After(env, Fresh(pools, block), events);
      && (NeverMidway(env, Fresh(pools, block), events) <==> m.signed <= m.delivered)
      && (NeverMidway(env, Fresh(pools, block), events) ==> m.delivered == m.signed + Owed(m))
  {
    hide IsRun, After, NeverMidway;
    RunInStep(env, Fresh(pools, block), events);
  }

  /** It does happen: a block and then a reorg, delivered before the pool has moved to the block,
      are signed the other way round. */
  lemma MidwayReorgReachable(env: Env, pools: set<PoolId>, block: nat, next: nat, low: nat, high: nat)
    requires low <= high
    ensures var events := [NewBlockTransitions(Notice(next, [], [])), ReorgedOrders([], low, high)];
      && IsRun(env, Fresh(pools, block), events) && !NeverMidway(env, Fresh(pools, block), events)
      && var m := After(env, Fresh(pools, block), events);
         && m.delivered == [BlockSync.PendingProgression(next), BlockSync.PendingReorg(low, high)]
         && m.signed == [BlockSync.PendingReorg(low, high)]
  {
    hide IsRun, After, NeverMidway, ReorgOrders, Started;
    var m := Fresh(pools, block);
    var e0, e1 := NewBlockTransitions(Notice(next, [], [])), ReorgedOrders([], low, high);
    assert Next(env, m, e0).pool.core.pipe.ClearingForNewBlock?;
    TwoEvents(env, m, e0, e1);
  }

  lemma TwoEvents(env: Env, m: Manager, e0: ChainEvent, e1: ChainEvent)
    requires Enabled(m, e0) && Enabled(Next(env, m, e0), e1)
    ensures IsRun(env, m, [e0, e1]) && After(env, m, [e0, e1]) == Next(env, Next(env, m, e0), e1)
    ensures NeverMidway(env, m, [e0, e1]) ==> !ReorgMidway(Next(env, m, e0), e1)
  {
    hide Enabled, Next, ReorgMidway;
    var n := Next(env, m, e0);
    var none: seq<ChainEvent> := [];
    assert [e1][1..] == none && IsRun(env, Next(env, n, e1), none);
    assert IsRun(env, n, [e1]) && After(env, n, [e1]) == Next(env, n, e1);
    assert [e0, e1][1..] == [e1];
    assert NeverMidway(env, m, [e0, e1]) ==> NeverMidway(env, n, [e1]);
  }
}
