/** How an order can get lost, that it happens, and that a lost order stays lost: nothing stores it,
    validates it or takes it again for as long as the index still holds it. */
module OrderLost {
  import opened Options
  import opened Pipeline
  import opened OrderPool
  import opened OrderFacts
  import opened OrderResults
  import opened OrderDisplaced
  import OrderBlocks
  import Finalization

  /** In no place from which the pool could validate it again. */
  ghost predicate Gone(c: Core, h: Hash) {
    && h !in c.storage.entries
    && h !in c.storage.finalizing.held
    && h !in c.tracker.validating
    && !Busy(c.pipe, h)
  }

  /** ... and yet in the index. */
  ghost predicate Lost(c: Core, h: Hash) {
    h in c.tracker.indexed && Gone(c, h)
  }

  // ----- a validation result that loses an order

  /** Two idle booked orders at one price level, both displaced by one result: whichever way the
      result is handled, the second is lost. */
  lemma ResultLosesAnOrder(env: Env, c: Core, claimed: bool, h: Hash, v: Verdict, now: Time, x: Hash, g: Hash)
    requires v.Valid? && v.invalidates == [x, g] && x != g && g != h
    requires x in c.tracker.indexed && g in c.tracker.indexed && Booked(env, c.storage, x) && Booked(env, c.storage, g)
    requires Place(env, c.storage, x) == Place(env, c.storage, g)
    requires g !in c.tracker.validating && !Busy(c.pipe, g) && g !in c.storage.finalizing.held
    ensures Lost(HandleCore(env, c, claimed, h, v, now), g)
  {
    hide HandleCore, Take, Load, Jobs, Insert;
    var allowed := LookedUp(c, claimed, h, v);
    assert v.invalidates[..1] == [x];
    TakesFirst(env, c.storage, x, g, allowed);
    HandedBackIff(env, c.storage, v.invalidates, allowed, 1);
    DisplacedGoesBack(env, c, claimed, h, v, now, g);
    ResultEffect(env, c, claimed, h, v, now);
    TakeFacts(env, c.storage, v.invalidates, allowed);
    InsertHeld(env, Displaced(env, c, claimed, h, v).0, h, v.parked, v.level);
  }

  lemma TakesFirst(env: Env, st: Storage, x: Hash, g: Hash, allowed: set<Hash>)
    requires Booked(env, st, x) && Booked(env, st, g) && x in allowed
    requires Place(env, st, x) == Place(env, st, g)
    ensures TakesLevel(env, st, [x], allowed, Place(env, st, g))
  {
    assert x in [x];
  }

  lemma InsertHeld(env: Env, st: Storage, h: Hash, parked: bool, level: nat)
    ensures Insert(env, st, h, parked, level).finalizing == st.finalizing
  {
  }

  // ----- a run that reaches it

  function Arrival(h: Hash): Event {
    OrderArrives(h, External, None, None)
  }

  /** The oldest validation comes back valid. */
  function Result(v: Verdict): Event {
    Polled(Readiness(Some(0), false), v, 0)
  }

  /** Regular processing with these orders under way and those booked at level 0. */
  ghost predicate Scene(env: Env, s: State, block: nat, pool: PoolId, under: seq<Hash>, booked: set<Hash>) {
    && s.pending == map[] && s.core.block == block && pool in s.core.storage.pools
    && s.core.pipe.RegularProcessing? && |s.core.pipe.inflight| == |under|
    && (forall i :: 0 <= i < |under| ==> s.core.pipe.inflight[i] == Job(External, under[i]))
    && s.core.tracker.cancelled == map[] && s.core.tracker.seenInvalid == {}
    && s.core.tracker.indexed == booked == s.core.storage.entries.Keys
    && (forall h :: h in s.core.tracker.validating ==> h in under)
    && (forall h :: h in booked ==> s.core.storage.entries[h] == Entry(false, false, 0))
    && s.core.storage.finalizing.held == map[]
  }

  lemma Arrives(env: Env, s: State, block: nat, pool: PoolId, under: seq<Hash>, booked: set<Hash>, h: Hash)
    requires Scene(env, s, block, pool, under, booked) && h !in under && h !in booked
    ensures Scene(env, Step(env, s, Arrival(h)), block, pool, under + [h], booked)
  {
  }

  lemma Books(env: Env, s: State, block: nat, pool: PoolId, under: seq<Hash>, booked: set<Hash>)
    requires Scene(env, s, block, pool, under, booked) && under != [] && under[0] !in under[1..]
    requires env.info(under[0]).pool == pool && !env.info(under[0]).topOfBlock
    ensures Scene(env, Step(env, s, Result(Valid(block, false, 0, []))), block, pool, under[1..], booked + {under[0]})
  {
    hide HandleCore, Take, Load, Jobs, Heard, Busy, Silent;
    var h, v := under[0], Valid(block, false, 0, []);
    var (pipe, res) := PollNext(s.core.pipe, Readiness(Some(0), false));
    var s1 := s.(core := s.core.(pipe := pipe));
    assert !OwnerClaim(env, s1, h);
    var c := s1.core;
    BooksCore(env, c, h, v);
  }

  /** An accepted result that displaces nothing, field by field. */
  lemma BooksCore(env: Env, c: Core, h: Hash, v: Verdict)
    requires v == Valid(c.block, false, 0, []) && env.info(h).pool in c.storage.pools && !env.info(h).topOfBlock
    ensures var d := HandleCore(env, c, false, h, v, 0);
      && d.block == c.block && d.pipe == c.pipe
      && d.storage == Insert(env, c.storage, h, false, 0)
      && d.tracker.cancelled == c.tracker.cancelled && d.tracker.seenInvalid == c.tracker.seenInvalid
      && d.tracker.indexed == c.tracker.indexed + {h} && d.tracker.validating == c.tracker.validating - {h}
  {
    hide Replies, Insert;
    var none: seq<Hash> := [];
    var c2 := Answer(Emit(StopValidating(c, h), Announced(New(h))), h, ValidOrder);
    var c3 := WithTracker(c2, IndexValid(env, c2.tracker, h));
    assert Take(env, c3.storage, none, c3.tracker.indexed) == (c3.storage, none);
    assert c3.tracker.validating + (set g | g in none) == c3.tracker.validating;
    assert Revalidate(env, c3, none) == c3;
  }

  lemma RunMore(env: Env, s: State, events: seq<Event>, e: Event)
    ensures Run(env, s, events + [e]) == Step(env, Run(env, s, events), e)
  {
    assert (events + [e])[..|events|] == events;
  }

  /** Three limit orders of one pool, the first two accepted at one price and displaced by the
      third: the second is lost. */
  lemma LostOrderReachable(env: Env, pools: set<PoolId>, block: nat, x: Hash, g: Hash, h: Hash)
      returns (events: seq<Event>)
    requires x != g && g != h && x != h
    requires forall o :: o in {x, g, h} ==> env.info(o).pool == env.info(x).pool && !env.info(o).topOfBlock
    requires env.info(x).pool in pools
    ensures Lost(Run(env, Start(pools, block), events).core, g)
  {
    hide Step, Lost, Run;
    var pool := env.info(x).pool;
    var ready := Valid(block, false, 0, []);
    var s0 := Start(pools, block);
    var none: seq<Event> := [];
    StartScene(env, pools, block, pool);
    Arrives(env, s0, block, pool, [], {}, x);
    var s1 := Step(env, s0, Arrival(x));
    RunMore(env, s0, none, Arrival(x));
    Arrives(env, s1, block, pool, [x], {}, g);
    var s2 := Step(env, s1, Arrival(g));
    RunMore(env, s0, none + [Arrival(x)], Arrival(g));
    Arrives(env, s2, block, pool, [x, g], {}, h);
    var s3 := Step(env, s2, Arrival(h));
    RunMore(env, s0, none + [Arrival(x)] + [Arrival(g)], Arrival(h));
    var arrivals := none + [Arrival(x)] + [Arrival(g)] + [Arrival(h)];
    assert Run(env, s0, arrivals) == s3 by { RunNothing(env, s0); }
    assert [x] + [g] == [x, g] && [x, g] + [h] == [x, g, h];
    Books(env, s3, block, pool, [x, g, h], {});
    var s4 := Step(env, s3, Result(ready));
    RunMore(env, s0, arrivals, Result(ready));
    assert [x, g, h][1..] == [g, h] && [g, h][1..] == [h];
    Books(env, s4, block, pool, [g, h], {x});
    var s5 := Step(env, s4, Result(ready));
    RunMore(env, s0, arrivals + [Result(ready)], Result(ready));
    var last := Result(Valid(block, false, 1, [x, g]));
    RunMore(env, s0, arrivals + [Result(ready)] + [Result(ready)], last);
    LastLoses(env, s5, block, pool, x, g, h);
    events := arrivals + [Result(ready)] + [Result(ready)] + [last];
  }

  lemma RunNothing(env: Env, s: State)
    ensures Run(env, s, []) == s
  {
  }

  lemma StartScene(env: Env, pools: set<PoolId>, block: nat, pool: PoolId)
    requires pool in pools
    ensures Scene(env, Start(pools, block), block, pool, [], {})
  {
  }

  lemma LastLoses(env: Env, s: State, block: nat, pool: PoolId, x: Hash, g: Hash, h: Hash)
    requires x != g && g != h && x != h && Scene(env, s, block, pool, [h], {x, g} + {})
    requires forall o :: o in {x, g} ==> env.info(o).pool == pool && !env.info(o).topOfBlock
    ensures Lost(Step(env, s, Result(Valid(block, false, 1, [x, g]))).core, g)
  {
    hide HandleCore, Lost;
    var (pipe, res) := PollNext(s.core.pipe, Readiness(Some(0), false));
    var s1 := s.(core := s.core.(pipe := pipe));
    assert Booked(env, s1.core.storage, x) && Booked(env, s1.core.storage, g);
    assert Load(pipe) == multiset{};
    ResultLosesAnOrder(env, s1.core, OwnerClaim(env, s1, h), h, Valid(block, false, 1, [x, g]), 0, x, g);
  }

  // ----- gone orders stay gone

  lemma SubmitAllGone(c: Core, origin: Origin, hs: seq<Hash>, h: Hash)
    requires Gone(c, h) && h !in hs
    ensures Gone(SubmitAll(c, origin, hs), h)
  {
    hide Load, Jobs, SubmitAll, Heard, Silent;
    SubmitAllSilent(c, origin, hs, h);
    JobsCount(origin, hs, Job(Local, h));
    JobsCount(origin, hs, Job(External, h));
    JobsCount(origin, hs, Job(ReValidation, h));
    var times: multiset<Hash> := multiset(hs);
    assert times[h] == 0;
  }

  lemma RevalidateGone(env: Env, c: Core, displaced: seq<Hash>, h: Hash)
    requires Gone(c, h)
    ensures Gone(Revalidate(env, c, displaced), h)
  {
    hide Busy, Take, SubmitAll;
    var (st, got) := Take(env, c.storage, displaced, c.tracker.indexed);
    TakeFacts(env, c.storage, displaced, c.tracker.indexed);
    var t := c.tracker.(validating := c.tracker.validating + (set g | g in got));
    SubmitAllGone(c.(storage := st, tracker := t), ReValidation, got, h);
  }

  lemma CancelGone(env: Env, s: State, user: Address, g: Hash, signatureValid: bool, now: Time, h: Hash)
    requires Gone(s.core, h)
    ensures Gone(CancelOrder(env, s, user, g, signatureValid, now).0.core, h)
  {
    hide Busy, TakeParked, SubmitAll;
    var t := s.core.tracker;
    var c := Emit(s.core.(
      storage := CancelStored(env, s.core.storage, g).0,
      tracker := ConfirmCancel(t.(indexed := t.indexed - {g}), user, g, CancellationDeadline(now))), Released(user, g));
    if user in t.byAddress {
      var hs := env.arrange(t.byAddress[user]);
      var (st, got) := TakeParked(env, c.storage, hs);
      TakeParkedFacts(env, c.storage, hs);
      if h !in c.storage.entries { SubmitAllGone(c.(storage := st), ReValidation, got, h); }
    }
  }

  lemma {:induction false} EoaGone(env: Env, c: Core, addresses: seq<Address>, h: Hash)
    requires Gone(c, h)
    ensures Gone(EoaChange(env, c, addresses), h)
  {
    hide Gone, EoaOne;
    if addresses != [] {
      EoaGone(env, c, addresses[..|addresses| - 1], h);
      EoaOneGone(env, EoaChange(env, c, addresses[..|addresses| - 1]), addresses[|addresses| - 1], h);
    }
  }

  lemma EoaOneGone(env: Env, c: Core, a: Address, h: Hash)
    requires Gone(c, h)
    ensures Gone(EoaOne(env, c, a), h)
  {
    hide Busy, Take, SubmitAll;
    if a in c.tracker.byAddress {
      var ids := c.tracker.byAddress[a];
      var (st, got) := Take(env, c.storage, env.arrange(ids), ids);
      TakeFacts(env, c.storage, env.arrange(ids), ids);
      SubmitAllGone(c.(storage := st, tracker := c.tracker.(byAddress := c.tracker.byAddress - {a})), ReValidation,
          got, h);
    }
  }

  lemma FinishGone(env: Env, c: Core, notice: Notice, now: Time, h: Hash)
    requires Gone(c, h)
    ensures Gone(FinishCore(env, c, notice, now), h)
  {
    hide Busy, FillOrders, Purged, ConfirmAll, EoaChange, AnnounceAll, Take, Silent;
    var c0 := EnterBlock(c, notice.block);
    var c1 := FillOrders(env, c0, notice.orders);
    FillSilent(env, c0, notice.orders, h);
    OrderBlocks.FillEffect(env, c0, notice.orders, h);
    TakeFacts(env, c0.storage, notice.orders, c0.tracker.indexed);
    assert Gone(c1, h);
    var p := PurgeCancelled(env, c1, now);
    PurgedFacts(env, c1.storage);
    ConfirmAllFacts(env, c1.tracker, Purged(env, c1.storage).1, now);
    var (c2, expired) := RemoveExpired(env, p, now + ETH_BLOCK_TIME);
    var gone := ExpiredHashes(env, p, now + ETH_BLOCK_TIME);
    TakeFacts(env, p.storage, env.arrange(gone), gone);
    assert Gone(c2, h);
    AnnounceAllSilent(c2, (g: Hash) => Expired(g), expired, h);
    var a := AnnounceAll(c2, (g: Hash) => Expired(g), expired);
    EoaGone(env, a, notice.addresses, h);
    var c3 := EoaChange(env, a, notice.addresses);
    NotifyGone(c3, Notice(notice.block, notice.orders + expired, notice.addresses), h);
  }

  lemma NotifyGone(c: Core, told: Notice, h: Hash)
    requires Gone(c, h)
    ensures !Busy(Notify(c.pipe, told), h)
  {
    hide Load;
    NotifyLoad(c.pipe, told);
  }

  lemma {:induction false} UnfillGone(c: Core, hs: seq<Hash>, h: Hash)
    requires Gone(c, h) && h !in hs
    ensures Gone(UnfillAll(c, hs), h)
  {
    hide Busy;
    if hs != [] {
      var n := |hs| - 1;
      UnfillGone(c, hs[..n], h);
      var told := Emit(UnfillAll(c, hs[..n]), Announced(Unfilled(hs[n])));
      OtherSubmitted(told.pipe, Job(Local, hs[n]), h);
    }
  }

  lemma OtherSubmitted(p: Pipeline<Job>, job: Job, h: Hash)
    requires job.hash != h
    ensures Busy(Submit(p, job), h) == Busy(p, h)
  {
    hide Load, Submit;
    SubmitLoad(p, job);
  }

  lemma ReorgGone(c: Core, hs: seq<Hash>, h: Hash)
    requires Gone(c, h)
    ensures Gone(ReorgOrders(c, hs), h)
  {
    hide Busy, UnfillAll;
    var (pool, out) := Finalization.Reorg(c.storage.finalizing, hs);
    Finalization.TakeAllSpec(c.storage.finalizing.held, hs);
    assert h !in Finalization.Ids(out);
    UnfillGone(c.(storage := c.storage.(finalizing := pool)), Finalization.Ids(out), h);
  }

  lemma FinalizedGone(c: Core, block: nat, h: Hash)
    requires Gone(c, h)
    ensures Gone(FinalizedBlock(c, block), h)
  {
    hide Busy;
    var p := c.storage.finalizing;
    if block in p.byBlock { Finalization.TakeAllSpec(p.held, p.byBlock[block]); }
  }

  lemma RemovePoolGone(env: Env, c: Core, pool: PoolId, h: Hash)
    requires Gone(c, h)
    ensures Gone(RemovePool(env, c, pool), h)
  {
    hide Busy, AnnounceAll, PoolOrders, Silent;
    var gone := PoolOrders(env, c.storage, pool);
    AnnounceAllSilent(WithoutPool(env, c, pool, gone), (g: Hash) => Expired(g), env.arrange(gone), h);
  }

  /** Results for other orders leave a gone order alone. */
  lemma ResultGone(env: Env, c: Core, claimed: bool, g: Hash, v: Verdict, now: Time, h: Hash)
    requires Gone(c, h) && g != h
    ensures Gone(HandleCore(env, c, claimed, g, v, now), h)
    ensures h in HandleCore(env, c, claimed, g, v, now).tracker.indexed <==> h in c.tracker.indexed
  {
    hide Busy, Revalidate, Replies;
    var c0 := StopValidating(c, g);
    if v.Valid? {
      var c1 :=
        if v.validBlock != c.block then Emit(Answer(c0, g, InvalidAtBlock), Released(env.info(g).owner, g))
        else if claimed then Emit(c0, Released(env.info(g).owner, g))
        else
          var c2 := Answer(Emit(c0, Announced(New(g))), g, if v.parked then StateError else ValidOrder);
          WithTracker(c2, IndexValid(env, c2.tracker, g));
      RevalidateGone(env, c1, v.invalidates, h);
      RevalidateIndex(env, c1, v.invalidates);
    }
  }

  lemma RevalidateIndex(env: Env, c: Core, displaced: seq<Hash>)
    ensures Revalidate(env, c, displaced).tracker.indexed == c.tracker.indexed
  {
    hide Revalidate, Silent, Load, Take, Jobs;
    RevalidateFacts(env, c, displaced, 0);
  }

  lemma PollGone(env: Env, s: State, ready: Readiness, v: Verdict, now: Time, h: Hash)
    requires Gone(s.core, h)
    ensures Gone(PollPool(env, s, ready, v, now).core, h)
  {
    hide HandleCore, FinishCore, PollNext, Load;
    if Fits(s.core.pipe, ready) {
      var (pipe, res) := PollNext(s.core.pipe, ready);
      PollLoad(s.core.pipe, ready);
      var s1 := s.(core := s.core.(pipe := pipe));
      match res {
        case ValidatedOrder(job) =>
          assert job.origin.Local? || job.origin.External? || job.origin.ReValidation?;
          assert job in Load(s.core.pipe) && job == Job(job.origin, job.hash);
          ResultGone(env, s1.core, OwnerClaim(env, s1, job.hash), job.hash, v, now, h);
        case EnsureClearForTransition(notice) => FinishGone(env, s1.core, notice, now, h);
        case _ =>
      }
    }
  }

  // ----- lost orders stay lost

  lemma StepKeepsLost(env: Env, s: State, e: Event, h: Hash)
    requires Lost(s.core, h) && h in Step(env, s, e).core.tracker.indexed
    ensures Lost(Step(env, s, e).core, h)
  {
    hide PollPool, CancelOrder, ReorgOrders, RemovePool, FinalizedBlock, StartBlock, Busy;
    match e
    case OrderArrives(g, origin, peer, caller) =>
      if g != h { OtherSubmitted(s.core.pipe, Job(origin, g), h); }
    case CancelArrives(user, g, signatureValid, now) => CancelGone(env, s, user, g, signatureValid, now, h);
    case BlockStarts(notice) => StartGone(s.core, notice, h);
    case Polled(ready, v, now) => PollGone(env, s, ready, v, now, h);
    case Reorged(hs) => ReorgGone(s.core, hs, h);
    case BlockFinalized(block) => FinalizedGone(s.core, block, h);
    case PoolAdded(pool) =>
    case PoolRemoved(pool) => RemovePoolGone(env, s.core, pool, h);
  }

  lemma StartGone(c: Core, notice: Notice, h: Hash)
    requires Gone(c, h)
    ensures Gone(StartBlock(c, notice), h)
  {
    hide Load;
    StartLoad(c.pipe, notice);
  }

  ghost predicate StaysIndexed(env: Env, s: State, events: seq<Event>, h: Hash) {
    events != [] ==>
      && StaysIndexed(env, s, events[..|events| - 1], h)
      && h in Run(env, s, events).core.tracker.indexed
  }

  /** In every run, for as long as the index holds it, a lost order is in no book, under no
      validation and not awaiting finalisation. */
  lemma {:induction false} LostStaysLost(env: Env, s: State, events: seq<Event>, h: Hash)
    requires Lost(s.core, h) && StaysIndexed(env, s, events, h)
    ensures Lost(Run(env, s, events).core, h)
  {
    hide Step, Lost;
    if events != [] {
      LostStaysLost(env, s, events[..|events| - 1], h);
      StepKeepsLost(env, Run(env, s, events[..|events| - 1]), events[|events| - 1], h);
    }
  }

  /** Only a fill reported for it or its own expiry takes a lost order out of the index, and both
      come with the end of a block. */
  lemma LostLeavesOnlyByBlock(env: Env, s: State, e: Event, h: Hash)
    requires Lost(s.core, h) && h !in Step(env, s, e).core.tracker.indexed
    ensures e.Polled? && Fits(s.core.pipe, e.ready)
    ensures var res := PollNext(s.core.pipe, e.ready).1;
      res.EnsureClearForTransition? &&
      (h in res.notice.orders || HasExpired(env, h, res.notice.block, e.now + ETH_BLOCK_TIME))
  {
    hide PollPool, CancelOrder, ReorgOrders, RemovePool, Busy;
    match e
    case CancelArrives(user, g, signatureValid, now) => CancelIndex(env, s, user, g, signatureValid, now, h);
    case Polled(ready, v, now) => PollIndex(env, s, ready, v, now, h);
    case Reorged(hs) => ReorgSilent(s.core, hs, h);
    case PoolRemoved(pool) => RemovePoolIndex(env, s.core, pool, h);
    case _ =>
  }

  lemma CancelIndex(env: Env, s: State, user: Address, g: Hash, signatureValid: bool, now: Time, h: Hash)
    requires Lost(s.core, h)
    ensures h in CancelOrder(env, s, user, g, signatureValid, now).0.core.tracker.indexed
  {
    hide Busy, RevalidateParked;
    var t := s.core.tracker;
    var c := s.core.(
      storage := CancelStored(env, s.core.storage, g).0,
      tracker := ConfirmCancel(t.(indexed := t.indexed - {g}), user, g, CancellationDeadline(now)));
    RevalidateParkedSilent(env, Emit(c, Released(user, g)), user, h);
  }

  lemma RemovePoolIndex(env: Env, c: Core, pool: PoolId, h: Hash)
    requires Lost(c, h)
    ensures h in RemovePool(env, c, pool).tracker.indexed
  {
    hide Busy, AnnounceAll, Silent;
    var gone := PoolOrders(env, c.storage, pool);
    AnnounceAllSilent(WithoutPool(env, c, pool, gone), (g: Hash) => Expired(g), env.arrange(gone), h);
  }

  lemma PollIndex(env: Env, s: State, ready: Readiness, v: Verdict, now: Time, h: Hash)
    requires Lost(s.core, h) && h !in PollPool(env, s, ready, v, now).core.tracker.indexed
    ensures Fits(s.core.pipe, ready)
    ensures var res := PollNext(s.core.pipe, ready).1;
      res.EnsureClearForTransition? &&
          (h in res.notice.orders || HasExpired(env, h, res.notice.block, now + ETH_BLOCK_TIME))
  {
    hide HandleCore, FinishCore, PollNext, Load;
    var (pipe, res) := PollNext(s.core.pipe, ready);
    PollLoad(s.core.pipe, ready);
    var s1 := s.(core := s.core.(pipe := pipe));
    if res.ValidatedOrder? {
      var job := res.job;
      assert job.origin.Local? || job.origin.External? || job.origin.ReValidation?;
      assert job in Load(s.core.pipe) && job == Job(job.origin, job.hash);
      ResultGone(env, s1.core, OwnerClaim(env, s1, job.hash), job.hash, v, now, h);
    } else if res.EnsureClearForTransition? {
      FinishIndex(env, s1.core, res.notice, now, h);
    }
  }

  lemma FinishIndex(env: Env, c: Core, notice: Notice, now: Time, h: Hash)
    requires h in c.tracker.indexed
    ensures h in FinishCore(env, c, notice, now).tracker.indexed
      || h in notice.orders || HasExpired(env, h, notice.block, now + ETH_BLOCK_TIME)
  {
    hide FillOrders, Purged, ConfirmAll, EoaChange, AnnounceAll, Take, Silent;
    var c0 := EnterBlock(c, notice.block);
    var c1 := FillOrders(env, c0, notice.orders);
    FillSilent(env, c0, notice.orders, h);
    OrderBlocks.FillEffect(env, c0, notice.orders, h);
    var p := PurgeCancelled(env, c1, now);
    ConfirmAllFacts(env, c1.tracker, Purged(env, c1.storage).1, now);
    var (c2, expired) := RemoveExpired(env, p, now + ETH_BLOCK_TIME);
    AnnounceAllSilent(c2, (g: Hash) => Expired(g), expired, h);
    EoaSilent(env, AnnounceAll(c2, (g: Hash) => Expired(g), expired), notice.addresses, h);
  }

  /** A new submission of a lost order is refused on the spot, as a duplicate or as cancelled, and
      nothing is validated. */
  lemma LostSubmissionRefused(env: Env, s: State, e: Event)
    requires e.OrderArrives? && Lost(s.core, e.hash)
    ensures var d := Step(env, s, e).core;
      && Waiters(d, e.hash) == []
      && Heard(d.out, e.hash) == Heard(s.core.out, e.hash) + Replies(
           Waiters(s.core, e.hash) + (if e.caller.Some? then [e.caller.value] else []), e.hash,
           if OwnerClaim(env, s, e.hash) then CancelledOrder else DuplicateOrder)
      && d.pipe == s.core.pipe && d.tracker == s.core.tracker && d.storage == s.core.storage
  {
    hide Busy, Heard, Replies, Answer;
    var reply := if OwnerClaim(env, s, e.hash) then CancelledOrder else DuplicateOrder;
    var c0 := Subscribe(s.core, e.hash, e.caller);
    AnswerHeard(c0, e.hash, reply, e.hash);
    assert Waiters(c0, e.hash) == Waiters(s.core, e.hash) + (if e.caller.Some? then [e.caller.value] else []);
  }
}
