/** The orders filed under each address: over every run a stored order is filed under its owner and
    under nobody else, so that a change of an account reaches all the owner's orders and no others. */
module OrderOwners {
  import opened Pipeline
  import opened OrderPool
  import opened OrderFacts
  import opened OrderResults
  import opened OrderDisplaced
  import opened OrderBlocks
  import OrderAnswers
  import OrderLevels
  import OrderTracking
  import Finalization

  predicate FiledUnder(t: Tracker, a: Address, h: Hash) {
    a in t.byAddress && h in t.byAddress[a]
  }

  /** Every stored order is filed under its owner, and nothing under another address. */
  ghost predicate Filed(env: Env, c: Core) {
    && (forall h :: h in c.storage.entries ==> FiledUnder(c.tracker, env.info(h).owner, h))
    && (forall a, h :: FiledUnder(c.tracker, a, h) ==> env.info(h).owner == a)
  }

  lemma LessFiled(env: Env, c: Core, d: Core)
    requires Filed(env, c) && d.tracker.byAddress == c.tracker.byAddress
    requires forall h :: h in d.storage.entries ==> h in c.storage.entries
    ensures Filed(env, d)
  {
    assert forall a, h :: FiledUnder(d.tracker, a, h) <==> FiledUnder(c.tracker, a, h);
  }

  // ----- results

  lemma RevalidateTracker(env: Env, c: Core, displaced: seq<Hash>)
    ensures var d := Revalidate(env, c, displaced);
      && d.tracker == c.tracker.(validating := d.tracker.validating)
      && d.subscribers == c.subscribers && d.block == c.block
  {
    hide Revalidate, Take, Load, Jobs, Silent, Submissions;
    RevalidateFacts(env, c, displaced, 0);
    RevalidateOut(env, c, displaced);
  }

  /** After a result: which orders count as indexed and invalid, and who waits or sent the order. */
  lemma ResultTracker(env: Env, c: Core, claimed: bool, h: Hash, v: Verdict, now: Time)
    ensures var (t, d) := (c.tracker, HandleCore(env, c, claimed, h, v, now));
      var (taken, cancelled) := (Accepts(c, claimed, v), v.Valid? && v.validBlock == c.block && claimed);
      && d.block == c.block && d.subscribers == c.subscribers - {h}
      && d.tracker.peers == t.peers - {h}
      && d.tracker.indexed == (if taken then t.indexed + {h} else if cancelled then t.indexed - {h} else t.indexed)
      && d.tracker.seenInvalid == (if taken || cancelled then t.seenInvalid else t.seenInvalid + {h})
  {
    hide Revalidate, Replies, Take, Load, Jobs, Silent, Insert, Dropped;
    var c0 := StopValidating(c, h);
    if v.Valid? {
      if v.validBlock != c.block {
        RevalidateTracker(env, Emit(Answer(c0, h, InvalidAtBlock), Released(env.info(h).owner, h)), v.invalidates);
      } else if claimed {
        RevalidateTracker(env, Emit(c0, Released(env.info(h).owner, h)), v.invalidates);
      } else {
        var c2 := Answer(Emit(c0, Announced(New(h))), h, if v.parked then StateError else ValidOrder);
        RevalidateTracker(env, WithTracker(c2, IndexValid(env, c2.tracker, h)), v.invalidates);
      }
    }
  }

  /** A result that is taken files the order under its owner; no other filing changes. */
  lemma ResultFiling(env: Env, c: Core, claimed: bool, h: Hash, v: Verdict, now: Time)
    ensures forall a, g :: FiledUnder(HandleCore(env, c, claimed, h, v, now).tracker, a, g) <==>
      FiledUnder(c.tracker, a, g) || (Accepts(c, claimed, v) && g == h && a == env.info(h).owner)
  {
    hide Revalidate, Replies, Take, Load, Jobs, Silent, Insert, Dropped;
    var c0 := StopValidating(c, h);
    if v.Valid? {
      if v.validBlock != c.block {
        RevalidateTracker(env, Emit(Answer(c0, h, InvalidAtBlock), Released(env.info(h).owner, h)), v.invalidates);
      } else if claimed {
        RevalidateTracker(env, Emit(c0, Released(env.info(h).owner, h)), v.invalidates);
      } else {
        var c2 := Answer(Emit(c0, Announced(New(h))), h, if v.parked then StateError else ValidOrder);
        RevalidateTracker(env, WithTracker(c2, IndexValid(env, c2.tracker, h)), v.invalidates);
      }
    }
  }

  lemma ResultFiled(env: Env, s: State, h: Hash, v: Verdict, now: Time)
    requires Filed(env, s.core)
    ensures Filed(env, HandleResult(env, s, h, v, now).core)
  {
    hide HandleCore, Load, Jobs, Take;
    var (c, claimed) := (s.core, OwnerClaim(env, s, h));
    ResultFiling(env, c, claimed, h, v, now);
    if v.Valid? {
      ResultEffect(env, c, claimed, h, v, now);
      TakeFacts(env, c.storage, v.invalidates, LookedUp(c, claimed, h, v));
    } else {
      OrderLevels.InvalidStorage(env, c, claimed, h, v, now);
    }
  }

  // ----- block changes

  /** What is filed after a block change: not the orders whose time is over, and nothing under an
      address whose account changed. */
  lemma BlockFiling(env: Env, c: Core, notice: Notice, now: Time)
    requires Faithful(env) && c.pipe.WaitingForStorageCleanup?
    ensures forall a, h :: FiledUnder(FinishCore(env, c, notice, now).tracker, a, h) <==>
      && FiledUnder(c.tracker, a, h) && a !in notice.addresses
      && !(h in c.tracker.indexed && h !in notice.orders && TimeIsUp(env, h, notice.block, now + 12))
  {
    hide FinishCore, FillOrders, Purged, ConfirmAll, Take, EoaChange, Touched, Submissions, LevelsSound, Load;
    var c0 := EnterBlock(c, notice.block);
    var c1 := FillOrders(env, c0, notice.orders);
    FillSilent(env, c0, notice.orders, 0);
    var p := PurgeCancelled(env, c1, now);
    ConfirmAllFacts(env, c1.tracker, Purged(env, c1.storage).1, now);
    ExpireEffect(env, p, now + 12, 0);
    var (d, expired) := Cleaned(env, c, notice, now);
    FinishIs(env, c, notice, now);
    var back := EoaEffect(env, d.(out := d.out + OrderTracking.Expiries(expired)), notice.addresses);
    forall h
      ensures h in ExpiredHashes(env, p, now + 12) <==>
        h in c.tracker.indexed && h !in notice.orders && TimeIsUp(env, h, notice.block, now + 12)
    {
      FillEffect(env, c0, notice.orders, h);
    }
  }

  lemma BlockFiled(env: Env, c: Core, notice: Notice, now: Time)
    requires Faithful(env) && c.pipe.WaitingForStorageCleanup? && Filed(env, c)
    ensures Filed(env, FinishCore(env, c, notice, now))
  {
    hide FinishCore, FiledUnder, Touched, Take, Submissions, LevelsSound;
    BlockFiling(env, c, notice, now);
    var expired, back := BlockChangeEffect(env, c, notice, now);
    forall h | h in FinishCore(env, c, notice, now).storage.entries
      ensures FiledUnder(FinishCore(env, c, notice, now).tracker, env.info(h).owner, h)
    {
      assert Stays(env, c, notice, now + 12, h);
      NotNamed(env, c.tracker, notice.addresses, h);
    }
  }

  lemma NotNamed(env: Env, t: Tracker, addresses: seq<Address>, h: Hash)
    requires FiledUnder(t, env.info(h).owner, h) && !Touched(t.byAddress, addresses, h)
    ensures env.info(h).owner !in addresses
  {
  }

  // ----- the other events

  lemma CancelFiled(env: Env, s: State, user: Address, g: Hash, signatureValid: bool, now: Time)
    requires Filed(env, s.core)
    ensures Filed(env, CancelOrder(env, s, user, g, signatureValid, now).0.core)
  {
    hide Filed, Silent, RevalidateParked;
    var d := CancelOrder(env, s, user, g, signatureValid, now).0.core;
    forall h | h in d.storage.entries
      ensures h in s.core.storage.entries
    {
      OrderAnswers.CancelSilent(env, s, user, g, signatureValid, now, h);
      StoredBefore(s.core, d, h);
    }
    var t := s.core.tracker;
    RevalidateParkedSilent(env, Emit(s.core.(storage := CancelStored(env, s.core.storage, g).0,
      tracker := ConfirmCancel(t.(indexed := t.indexed - {g}), user, g, CancellationDeadline(now))), Released(user, g)),
      user, 0);
    LessFiled(env, s.core, d);
  }

  lemma StoredBefore(c: Core, d: Core, h: Hash)
    requires Silent(c, d, h) && h in d.storage.entries
    ensures h in c.storage.entries
  {
    hide Heard, Load, Busy;
  }

  lemma RemovePoolFiled(env: Env, c: Core, pool: PoolId)
    requires Filed(env, c)
    ensures Filed(env, RemovePool(env, c, pool))
  {
    hide AnnounceAll, Silent;
    var gone := PoolOrders(env, c.storage, pool);
    var c1 := WithoutPool(env, c, pool, gone);
    AnnounceAllSilent(c1, (h: Hash) => Expired(h), env.arrange(gone), 0);
    forall a, h
      ensures FiledUnder(c1.tracker, a, h) <==> FiledUnder(c.tracker, a, h) && h !in gone
    {
      if FiledUnder(c.tracker, a, h) && h !in gone { assert h in c.tracker.byAddress[a] - gone; }
    }
  }

  lemma StepFiled(env: Env, s: State, e: Event)
    requires Faithful(env) && Filed(env, s.core)
    ensures Filed(env, Step(env, s, e).core)
  {
    hide Filed, CancelOrder, RemovePool, HandleResult, FinishCore, UnfillAll;
    match e
    case CancelArrives(user, h, signatureValid, now) => CancelFiled(env, s, user, h, signatureValid, now);
    case PoolRemoved(pool) => RemovePoolFiled(env, s.core, pool);
    case Reorged(hs) =>
      var (pool, out) := Finalization.Reorg(s.core.storage.finalizing, hs);
      var c1 := s.core.(storage := s.core.storage.(finalizing := pool));
      OrderLevels.UnfillStorage(c1, Finalization.Ids(out));
      UnfillSilent(c1, Finalization.Ids(out), 0);
      LessFiled(env, s.core, Step(env, s, e).core);
    case Polled(ready, v, now) =>
      if Fits(s.core.pipe, ready) {
        var (pipe, res) := PollNext(s.core.pipe, ready);
        var s1 := s.(core := s.core.(pipe := pipe));
        LessFiled(env, s.core, s1.core);
        match res {
          case ValidatedOrder(job) => ResultFiled(env, s1, job.hash, v, now);
          case EnsureClearForTransition(notice) => BlockFiled(env, s1.core, notice, now);
          case _ => LessFiled(env, s.core, Step(env, s, e).core);
        }
      }
    case _ => LessFiled(env, s.core, Step(env, s, e).core);
  }

  /** In every reachable state the stored orders are filed under their owners. */
  lemma {:induction false} RunFiled(env: Env, pools: set<PoolId>, block: nat, events: seq<Event>)
    requires Faithful(env)
    ensures Filed(env, Run(env, Start(pools, block), events).core)
  {
    hide Step;
    if events != [] {
      RunFiled(env, pools, block, events[..|events| - 1]);
      StepFiled(env, Run(env, Start(pools, block), events[..|events| - 1]), events[|events| - 1]);
    }
  }

  /** At the end of a block in any run: an order stays stored exactly if it was stored, was neither
      filled nor cancelled, has time left, and its owner's account did not change. */
  lemma StoredAfterBlock(env: Env, pools: set<PoolId>, block: nat, events: seq<Event>, notice: Notice, now: Time,
      h: Hash)
    requires Faithful(env)
    requires Run(env, Start(pools, block), events).core.pipe.WaitingForStorageCleanup?
    ensures var s := Run(env, Start(pools, block), events);
      h in FinishNewBlock(env, s, notice, now).core.storage.entries <==>
        && h in s.core.storage.entries && !s.core.storage.entries[h].cancelRequested
        && !(h in s.core.tracker.indexed && (h in notice.orders || TimeIsUp(env, h, notice.block, now + 12)))
        && env.info(h).owner !in notice.addresses
  {
    hide Run, FinishCore, Touched, Take, Submissions, LevelsSound, Load;
    var c := Run(env, Start(pools, block), events).core;
    RunFiled(env, pools, block, events);
    var expired, back := BlockChangeEffect(env, c, notice, now);
    if h in c.storage.entries { TouchedIff(env, c, notice.addresses, h); }
  }

  lemma TouchedIff(env: Env, c: Core, addresses: seq<Address>, h: Hash)
    requires Filed(env, c) && h in c.storage.entries
    ensures Touched(c.tracker.byAddress, addresses, h) <==> env.info(h).owner in addresses
  {
    var owner := env.info(h).owner;
    assert FiledUnder(c.tracker, owner, h);
    if Touched(c.tracker.byAddress, addresses, h) {
      var a :| a in addresses && a in c.tracker.byAddress && h in c.tracker.byAddress[a];
      assert FiledUnder(c.tracker, a, h);
    }
  }
}
