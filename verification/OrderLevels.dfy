/** Price levels over whole runs: as long as no accepted order lands on an occupied level, levels
    stay apart, so no removal ever loses an order. */
module OrderLevels {
  import opened Pipeline
  import opened OrderPool
  import opened OrderFacts
  import opened OrderResults
  import opened OrderDisplaced
  import Finalization

  predicate SamePlace(a: Entry, b: Entry) {
    a.parked == b.parked && a.level == b.level
  }

  lemma FewerSound(env: Env, st: Storage, after: Storage)
    requires LevelsSound(env, st)
    requires forall h :: h in after.entries ==> h in st.entries && SamePlace(after.entries[h], st.entries[h])
    requires forall h :: Booked(env, after, h) && Place(env, after, h) in st.levels ==>
      Place(env, after, h) in after.levels
    ensures LevelsSound(env, after)
  {
    assert forall h :: Booked(env, after, h) ==>
        Booked(env, st, h) && Place(env, after, h) == Place(env, st, h);
  }

  lemma {:induction false} TakeParkedSound(env: Env, st: Storage, hs: seq<Hash>)
    requires LevelsSound(env, st)
    ensures LevelsSound(env, TakeParked(env, st, hs).0)
  {
    hide LevelsSound, Dropped;
    if hs != [] {
      TakeParkedSound(env, st, hs[..|hs| - 1]);
      DropKeepsSound(env, TakeParked(env, st, hs[..|hs| - 1]).0, hs[|hs| - 1]);
    }
  }

  lemma RevalidateParkedSound(env: Env, c: Core, user: Address)
    requires LevelsSound(env, c.storage)
    ensures LevelsSound(env, RevalidateParked(env, c, user).storage)
  {
    hide LevelsSound, TakeParked, SubmitAll;
    if user in c.tracker.byAddress {
      var hs := env.arrange(c.tracker.byAddress[user]);
      var (st, got) := TakeParked(env, c.storage, hs);
      TakeParkedSound(env, c.storage, hs);
      SubmitAllSilent(c.(storage := st), ReValidation, got, 0);
    }
  }

  lemma CancelSound(env: Env, s: State, user: Address, h: Hash, signatureValid: bool, now: Time)
    requires LevelsSound(env, s.core.storage)
    ensures LevelsSound(env, CancelOrder(env, s, user, h, signatureValid, now).0.core.storage)
  {
    hide LevelsSound, RevalidateParked;
    var t := s.core.tracker;
    var c := s.core.(
      storage := CancelStored(env, s.core.storage, h).0,
      tracker := ConfirmCancel(t.(indexed := t.indexed - {h}), user, h, CancellationDeadline(now)));
    FewerSound(env, s.core.storage, c.storage);
    RevalidateParkedSound(env, Emit(c, Released(user, h)), user);
  }

  lemma PurgeSound(env: Env, st: Storage)
    requires LevelsSound(env, st)
    ensures LevelsSound(env, Purged(env, st).0)
  {
    hide LevelsSound, Take;
    var flagged := CancelRequested(env, st, true);
    AllHandedBack(env, st, env.arrange(flagged), flagged);
    var st1 := Take(env, st, env.arrange(flagged), flagged).0;
    var users := CancelRequested(env, st1, false);
    AllHandedBack(env, st1, env.arrange(users), users);
  }

  lemma SameStored(env: Env, st: Storage, after: Storage)
    requires LevelsSound(env, st) && after.entries == st.entries && after.levels == st.levels
    ensures LevelsSound(env, after)
  {
    assert forall h :: Booked(env, after, h) <==> Booked(env, st, h);
  }

  lemma FillSound(env: Env, c: Core, orders: seq<Hash>)
    requires LevelsSound(env, c.storage)
    ensures LevelsSound(env, FillOrders(env, c, orders).storage)
  {
    hide LevelsSound, Take, AnnounceAll, Finalization.NewOrders, WithEntries;
    if orders != [] {
      var (st, got) := Take(env, c.storage, orders, c.tracker.indexed);
      AllHandedBack(env, c.storage, orders, c.tracker.indexed);
      TakeFromEntries(env, c.storage, orders, c.tracker.indexed);
      var st1 := st.(finalizing := Finalization.NewOrders(st.finalizing, c.block, WithEntries(c.storage, got)).0);
      SameStored(env, st, st1);
      var c1 := c.(tracker := c.tracker.(indexed := c.tracker.indexed - (set g | g in orders)), storage := st1);
      AnnounceAllSilent(c1, (g: Hash) => Filled(c.block, g), got, 0);
    }
  }

  lemma {:induction false} EoaSound(env: Env, c: Core, addresses: seq<Address>)
    requires LevelsSound(env, c.storage)
    ensures LevelsSound(env, EoaChange(env, c, addresses).storage)
  {
    hide LevelsSound, Take, SubmitAll;
    if addresses != [] {
      EoaSound(env, c, addresses[..|addresses| - 1]);
      var (c1, a) := (EoaChange(env, c, addresses[..|addresses| - 1]), addresses[|addresses| - 1]);
      if a in c1.tracker.byAddress {
        var ids := c1.tracker.byAddress[a];
        var (st, got) := Take(env, c1.storage, env.arrange(ids), ids);
        AllHandedBack(env, c1.storage, env.arrange(ids), ids);
        SubmitAllSilent(c1.(storage := st, tracker := c1.tracker.(byAddress := c1.tracker.byAddress - {a})),
            ReValidation, got, 0);
      }
    }
  }

  lemma FinishSound(env: Env, c: Core, notice: Notice, now: Time)
    requires LevelsSound(env, c.storage)
    ensures LevelsSound(env, FinishCore(env, c, notice, now).storage)
  {
    hide LevelsSound, FillOrders, Purged, EoaChange, AnnounceAll, Take, ConfirmAll;
    var c1 := FillOrders(env, EnterBlock(c, notice.block), notice.orders);
    FillSound(env, EnterBlock(c, notice.block), notice.orders);
    PurgeSound(env, c1.storage);
    var p := PurgeCancelled(env, c1, now);
    var (c2, expired) := RemoveExpired(env, p, now + ETH_BLOCK_TIME);
    var gone := ExpiredHashes(env, p, now + ETH_BLOCK_TIME);
    AllHandedBack(env, p.storage, env.arrange(gone), gone);
    AnnounceAllSilent(c2, (g: Hash) => Expired(g), expired, 0);
    EoaSound(env, AnnounceAll(c2, (g: Hash) => Expired(g), expired), notice.addresses);
  }

  lemma {:induction false} UnfillStorage(c: Core, hs: seq<Hash>)
    ensures UnfillAll(c, hs).storage == c.storage
  {
    if hs != [] { UnfillStorage(c, hs[..|hs| - 1]); }
  }

  /** The order of this result would be booked at a level that another order, not displaced by
      it, sits at. */
  ghost predicate Collides(env: Env, s: State, h: Hash, v: Verdict) {
    && Accepts(s.core, OwnerClaim(env, s, h), v)
    && !Fresh(env, Displaced(env, s.core, false, h, v).0, h, v.parked, v.level)
  }

  ghost predicate CollidesAt(env: Env, s: State, e: Event) {
    && e.Polled? && Fits(s.core.pipe, e.ready)
    && var (pipe, res) := PollNext(s.core.pipe, e.ready);
       res.ValidatedOrder? && Collides(env, s.(core := s.core.(pipe := pipe)), res.job.hash, e.verdict)
  }

  lemma ResultSound(env: Env, s: State, h: Hash, v: Verdict, now: Time)
    requires LevelsSound(env, s.core.storage)
    ensures LevelsSound(env, HandleResult(env, s, h, v, now).core.storage) <==> !Collides(env, s, h, v)
  {
    hide LevelsSound, HandleCore, Take, Insert, Fresh, Load, Jobs;
    var claimed := OwnerClaim(env, s, h);
    if v.Invalid? {
      InvalidStorage(env, s.core, claimed, h, v, now);
      DropKeepsSound(env, s.core.storage, h);
    } else {
      ResultEffect(env, s.core, claimed, h, v, now);
      AllHandedBack(env, s.core.storage, v.invalidates, LookedUp(s.core, claimed, h, v));
      InsertKeepsSound(env, Displaced(env, s.core, claimed, h, v).0, h, v.parked, v.level);
    }
  }

  lemma InvalidStorage(env: Env, c: Core, claimed: bool, h: Hash, v: Verdict, now: Time)
    requires v.Invalid?
    ensures HandleCore(env, c, claimed, h, v, now).storage == Dropped(env, c.storage, h)
  {
    hide Replies;
  }

  lemma PollSound(env: Env, s: State, e: Event)
    requires e.Polled? && LevelsSound(env, s.core.storage)
    ensures LevelsSound(env, Step(env, s, e).core.storage) <==> !CollidesAt(env, s, e)
  {
    hide LevelsSound, HandleResult, FinishCore, Collides;
    if Fits(s.core.pipe, e.ready) {
      var (pipe, res) := PollNext(s.core.pipe, e.ready);
      var s1 := s.(core := s.core.(pipe := pipe));
      match res {
        case ValidatedOrder(job) => ResultSound(env, s1, job.hash, e.verdict, e.now);
        case EnsureClearForTransition(notice) => FinishSound(env, s1.core, notice, e.now);
        case _ =>
      }
    }
  }

  /** Levels stay apart in a step exactly if it does not book an order at an occupied level. */
  lemma StepSound(env: Env, s: State, e: Event)
    requires LevelsSound(env, s.core.storage)
    ensures LevelsSound(env, Step(env, s, e).core.storage) <==> !CollidesAt(env, s, e)
  {
    hide LevelsSound, CancelOrder, PollPool, UnfillAll, AnnounceAll;
    match e
    case Polled(_, _, _) => PollSound(env, s, e);
    case CancelArrives(user, h, signatureValid, now) => CancelSound(env, s, user, h, signatureValid, now);
    case Reorged(hs) =>
      var (pool, out) := Finalization.Reorg(s.core.storage.finalizing, hs);
      UnfillStorage(s.core.(storage := s.core.storage.(finalizing := pool)), Finalization.Ids(out));
      SameStored(env, s.core.storage, Step(env, s, e).core.storage);
    case PoolRemoved(pool) =>
      var gone := PoolOrders(env, s.core.storage, pool);
      var c1 := WithoutPool(env, s.core, pool, gone);
      AnnounceAllSilent(c1, (g: Hash) => Expired(g), env.arrange(gone), 0);
      FewerSound(env, s.core.storage, c1.storage);
    case _ => SameStored(env, s.core.storage, Step(env, s, e).core.storage);
  }

  ghost predicate NeverCollides(env: Env, s: State, events: seq<Event>) {
    events != [] ==>
      && NeverCollides(env, s, events[..|events| - 1])
      && !CollidesAt(env, Run(env, s, events[..|events| - 1]), events[|events| - 1])
  }

  lemma {:induction false} RunSound(env: Env, s: State, events: seq<Event>)
    requires LevelsSound(env, s.core.storage) && NeverCollides(env, s, events)
    ensures LevelsSound(env, Run(env, s, events).core.storage)
  {
    hide Step, LevelsSound, CollidesAt;
    if events != [] {
      RunSound(env, s, events[..|events| - 1]);
      StepSound(env, Run(env, s, events[..|events| - 1]), events[|events| - 1]);
    }
  }

  /** In any run without such a collision, whatever result comes next loses no displaced order. */
  lemma NoDisplacedOrderIsLost(env: Env, pools: set<PoolId>, block: nat, events: seq<Event>, h: Hash, v: Verdict,
      now: Time, g: Hash)
    requires NeverCollides(env, Start(pools, block), events)
    requires var c := Run(env, Start(pools, block), events).core;
      v.Valid? && g in v.invalidates && g != h && g in c.tracker.indexed && g in c.storage.entries
    ensures var s := Run(env, Start(pools, block), events);
      var d := HandleResult(env, s, h, v, now).core;
      && g in d.tracker.validating && g !in d.storage.entries && g in d.tracker.indexed
      && Load(d.pipe)[Job(ReValidation, g)] == Load(s.core.pipe)[Job(ReValidation, g)] + 1
  {
    hide Run, NeverCollides, Load, HandleCore;
    var s := Run(env, Start(pools, block), events);
    RunSound(env, Start(pools, block), events);
    DisplacedNeverLost(env, s.core, OwnerClaim(env, s, h), h, v, now, g);
  }
}
