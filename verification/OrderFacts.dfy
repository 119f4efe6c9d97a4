/** What the pool's steps leave alone: most of them say nothing to subscribers about an order,
    lose no validation, and neither store nor index an order anew. */
module OrderFacts {
  import opened Pipeline
  import opened OrderPool
  import Finalization

  // ----- what is said about one order

  predicate About(o: Out, h: Hash) {
    (o.Answered? && o.hash == h) || o == Announced(New(h)) || o == Propagated(h)
  }

  /** The answers, announcements as new, and propagations of one order, in order. */
  function Heard(out: seq<Out>, h: Hash): seq<Out> {
    if out == [] then []
    else Heard(out[..|out| - 1], h) + (if About(out[|out| - 1], h) then [out[|out| - 1]] else [])
  }

  lemma HeardOne(out: seq<Out>, o: Out, h: Hash)
    ensures Heard(out + [o], h) == Heard(out, h) + (if About(o, h) then [o] else [])
  {
    assert (out + [o])[..|out|] == out;
  }

  lemma {:induction false} HeardConcat(a: seq<Out>, b: seq<Out>, h: Hash)
    ensures Heard(a + b, h) == Heard(a, h) + Heard(b, h)
  {
    if b == [] {
      assert a + b == a;
    } else {
      var n := |b| - 1;
      HeardConcat(a, b[..n], h);
      assert a + b == (a + b[..n]) + [b[n]];
      HeardOne(a + b[..n], b[n], h);
    }
  }

  lemma {:induction false} HeardReplies(callers: seq<Caller>, g: Hash, reply: Reply, h: Hash)
    ensures Heard(Replies(callers, g, reply), h) == if g == h then Replies(callers, g, reply) else []
  {
    if callers != [] {
      var n := |callers| - 1;
      HeardReplies(callers[..n], g, reply, h);
      HeardOne(Replies(callers[..n], g, reply), Answered(callers[n], g, reply), h);
    }
  }

  // ----- outstanding validations

  function Load(p: Pipeline<Job>): multiset<Job> {
    multiset(Inflight(p)) + multiset(Waiting(p))
  }

  predicate Busy(p: Pipeline<Job>, h: Hash) {
    Job(Local, h) in Load(p) || Job(External, h) in Load(p) || Job(ReValidation, h) in Load(p)
  }

  lemma SubmitLoad(p: Pipeline<Job>, job: Job)
    ensures Load(Submit(p, job)) == Load(p) + multiset{job}
  {
    assert p.RegularProcessing? ==> Waiting(Submit(p, job)) == Waiting(p);
  }

  lemma NotifyLoad(p: Pipeline<Job>, notice: Notice)
    ensures Load(Notify(p, notice)) == Load(p)
  {
  }

  lemma StartLoad(p: Pipeline<Job>, notice: Notice)
    ensures OnNewBlock(p, notice).Some? ==> Load(OnNewBlock(p, notice).value) == Load(p)
  {
  }

  lemma WithoutOne(s: seq<Job>, i: nat)
    requires i < |s|
    ensures multiset(s) == multiset(Without(s, i)) + multiset{s[i]}
  {
    assert s == s[..i] + [s[i]] + s[i + 1..];
  }

  lemma Rebalance(a: multiset<Job>, a1: multiset<Job>, x: multiset<Job>, w: multiset<Job>)
    requires a == a1 + x
    ensures a + w == (a1 + w) + x
  {
  }

  lemma PollLoad(p: Pipeline<Job>, ready: Readiness)
    requires Fits(p, ready)
    ensures PollNext(p, ready).1.ValidatedOrder? ==>
      Load(p) == Load(PollNext(p, ready).0) + multiset{PollNext(p, ready).1.job}
    ensures !PollNext(p, ready).1.ValidatedOrder? ==> Load(PollNext(p, ready).0) == Load(p)
  {
    hide Without;
    if PollNext(p, ready).1.ValidatedOrder? {
      var i := ready.job.value;
      WithoutOne(Inflight(p), i);
      Rebalance(multiset(Inflight(p)), multiset(Without(Inflight(p), i)), multiset{Inflight(p)[i]},
          multiset(Waiting(p)));
    }
  }

  function Jobs(origin: Origin, hs: seq<Hash>): multiset<Job> {
    if hs == [] then multiset{} else Jobs(origin, hs[..|hs| - 1]) + multiset{Job(origin, hs[|hs| - 1])}
  }

  lemma {:induction false} JobsCount(origin: Origin, hs: seq<Hash>, job: Job)
    ensures Jobs(origin, hs)[job] == if job.origin == origin then multiset(hs)[job.hash] else 0
  {
    if hs != [] {
      var n := |hs| - 1;
      assert hs == hs[..n] + [hs[n]];
      JobsCount(origin, hs[..n], job);
    }
  }

  // ----- silent steps

  /** Nothing is said about the order, no subscriber, mark or validation is lost, every new mark
      has a validation, the order is neither stored nor indexed anew, and no pool can park more. */
  ghost predicate Silent(c: Core, d: Core, h: Hash) {
    && Heard(d.out, h) == Heard(c.out, h)
    && d.subscribers == c.subscribers
    && c.tracker.validating <= d.tracker.validating
    && (forall g :: g in d.tracker.validating && g !in c.tracker.validating ==> Busy(d.pipe, g))
    && Load(c.pipe) <= Load(d.pipe)
    && d.tracker.peers.Keys <= c.tracker.peers.Keys
    && NoMore(c.storage, d.storage, h)
    && (h in d.tracker.indexed ==> h in c.tracker.indexed)
  }

  /** The order is not stored anew, a request to cancel it is not forgotten while it is stored, and no
      pool can park more. */
  ghost predicate NoMore(st: Storage, after: Storage, h: Hash) {
    && (h in after.entries ==>
         h in st.entries && (st.entries[h].cancelRequested ==> after.entries[h].cancelRequested))
    && after.parkable <= st.parkable
  }

  lemma BusyGrows(p: Pipeline<Job>, q: Pipeline<Job>, g: Hash)
    requires Load(p) <= Load(q) && Busy(p, g)
    ensures Busy(q, g)
  {
  }

  lemma SilentChain(c: Core, d: Core, e: Core, h: Hash)
    requires Silent(c, d, h) && Silent(d, e, h)
    ensures Silent(c, e, h)
  {
    hide Load, Heard, Busy;
    forall g | g in e.tracker.validating && g !in c.tracker.validating
      ensures Busy(e.pipe, g)
    {
      if g in d.tracker.validating { BusyGrows(d.pipe, e.pipe, g); }
    }
  }

  lemma EmitSilent(c: Core, o: Out, h: Hash)
    requires !About(o, h)
    ensures Silent(c, Emit(c, o), h)
  {
    hide Load, Busy;
    HeardOne(c.out, o, h);
  }

  lemma SubmitSilent(c: Core, job: Job, h: Hash)
    ensures Silent(c, SubmitJob(c, job), h)
    ensures Load(SubmitJob(c, job).pipe) == Load(c.pipe) + multiset{job}
  {
    hide Load, Busy;
    HeardOne(c.out, Submitted(job), h);
    SubmitLoad(c.pipe, job);
  }

  lemma {:induction false} SubmitAllSilent(c: Core, origin: Origin, hs: seq<Hash>, h: Hash)
    ensures Silent(c, SubmitAll(c, origin, hs), h)
    ensures Load(SubmitAll(c, origin, hs).pipe) == Load(c.pipe) + Jobs(origin, hs)
    ensures SubmitAll(c, origin, hs) == c.(pipe := SubmitAll(c, origin, hs).pipe, out := SubmitAll(c, origin, hs).out)
  {
    hide Load, Busy, Heard;
    if hs != [] {
      var n := |hs| - 1;
      var before := SubmitAll(c, origin, hs[..n]);
      SubmitAllSilent(c, origin, hs[..n], h);
      SubmitSilent(before, Job(origin, hs[n]), h);
      SilentChain(c, before, SubmitAll(c, origin, hs), h);
    }
  }

  lemma {:induction false} AnnounceAllSilent(c: Core, make: Hash -> Update, hs: seq<Hash>, h: Hash)
    requires forall g :: !make(g).New?
    ensures Silent(c, AnnounceAll(c, make, hs), h)
    ensures AnnounceAll(c, make, hs) == c.(out := AnnounceAll(c, make, hs).out)
  {
    hide Load, Busy, Heard;
    if hs != [] {
      var n := |hs| - 1;
      var before := AnnounceAll(c, make, hs[..n]);
      AnnounceAllSilent(c, make, hs[..n], h);
      EmitSilent(before, Announced(make(hs[n])), h);
      SilentChain(c, before, AnnounceAll(c, make, hs), h);
    }
  }

  // ----- storage

  /** Exactly the listed and allowed orders leave; what is handed back left, each order once. */
  lemma {:induction false} TakeFacts(env: Env, st: Storage, hs: seq<Hash>, allowed: set<Hash>)
    ensures var (after, got) := Take(env, st, hs, allowed);
      && (forall h :: h in after.entries <==> h in st.entries && !(h in hs && h in allowed))
      && (forall h :: h in after.entries ==> after.entries[h] == st.entries[h])
      && (forall h :: h in got ==> h in st.entries && h in hs && h in allowed)
      && (forall h :: multiset(got)[h] <= 1)
      && after.pools == st.pools && after.parkable == st.parkable && after.finalizing == st.finalizing &&
           after.levels <= st.levels
  {
    if hs != [] {
      var n := |hs| - 1;
      TakeFacts(env, st, hs[..n], allowed);
      var (before, got) := Take(env, st, hs[..n], allowed);
      assert hs == hs[..n] + [hs[n]];
      if hs[n] in got {
        assert multiset(got)[hs[n]] <= 1;
      } else {
        assert multiset(got)[hs[n]] == 0;
      }
      assert multiset(got + [hs[n]]) == multiset(got) + multiset{hs[n]};
    }
  }

  lemma {:induction false} TakeParkedFacts(env: Env, st: Storage, hs: seq<Hash>)
    ensures var after := TakeParked(env, st, hs).0;
      && (forall h :: h in after.entries ==> h in st.entries && after.entries[h] == st.entries[h])
      && (forall h :: h in TakeParked(env, st, hs).1 ==> h in st.entries)
      && after.parkable == st.parkable && after.finalizing == st.finalizing
  {
    if hs != [] { TakeParkedFacts(env, st, hs[..|hs| - 1]); }
  }

  /** Replacing storage by less of it, and marks by more only where jobs follow. */
  lemma LessStored(c: Core, st: Storage, h: Hash)
    requires NoMore(c.storage, st, h)
    ensures Silent(c, c.(storage := st), h)
  {
    hide Load, Busy, Heard;
  }

  lemma LessTracked(c: Core, t: Tracker, h: Hash)
    requires t.validating == c.tracker.validating && t.peers.Keys <= c.tracker.peers.Keys
    requires h in t.indexed ==> h in c.tracker.indexed
    ensures Silent(c, c.(tracker := t), h)
  {
    hide Load, Busy, Heard;
  }

  // ----- the pool's silent operations

  lemma RevalidateParkedSilent(env: Env, c: Core, user: Address, h: Hash)
    ensures Silent(c, RevalidateParked(env, c, user), h)
    ensures RevalidateParked(env, c, user).tracker == c.tracker
  {
    hide Load, Busy, Heard, Silent, TakeParked, SubmitAll;
    if user in c.tracker.byAddress {
      var hs := env.arrange(c.tracker.byAddress[user]);
      var (st, got) := TakeParked(env, c.storage, hs);
      TakeParkedFacts(env, c.storage, hs);
      LessStored(c, st, h);
      SubmitAllSilent(c.(storage := st), ReValidation, got, h);
      SilentChain(c, c.(storage := st), RevalidateParked(env, c, user), h);
    } else {
      LessStored(c, c.storage, h);
    }
  }

  /** The displaced orders that are handed back are marked and submitted. */
  lemma RevalidateFacts(env: Env, c: Core, displaced: seq<Hash>, h: Hash)
    ensures var d := Revalidate(env, c, displaced);
      var (st, got) := Take(env, c.storage, displaced, c.tracker.indexed);
      && Silent(c, d, h)
      && d.storage == st
      && d.tracker == c.tracker.(validating := c.tracker.validating + (set g | g in got))
      && Load(d.pipe) == Load(c.pipe) + Jobs(ReValidation, got)
      && d.block == c.block
  {
    hide Load, Busy, Heard, Silent, Take, SubmitAll, Jobs;
    var (st, got) := Take(env, c.storage, displaced, c.tracker.indexed);
    TakeFacts(env, c.storage, displaced, c.tracker.indexed);
    var c1 := c.(storage := st, tracker := c.tracker.(validating := c.tracker.validating + (set g | g in got)));
    var d := Revalidate(env, c, displaced);
    SubmitAllSilent(c1, ReValidation, got, h);
    forall g | g in got
      ensures Busy(d.pipe, g)
    {
      JobsCount(ReValidation, got, Job(ReValidation, g));
      JobIsBusy(d.pipe, g);
    }
    MarkedSilent(c, c1, d, got, h);
  }

  lemma JobIsBusy(p: Pipeline<Job>, g: Hash)
    requires Load(p)[Job(ReValidation, g)] > 0
    ensures Busy(p, g)
  {
    hide Load;
  }

  lemma MarkedSilent(c: Core, c1: Core, d: Core, got: seq<Hash>, h: Hash)
    requires c1 == c.(storage := c1.storage,
        tracker := c.tracker.(validating := c.tracker.validating + (set g | g in got)))
    requires NoMore(c.storage, c1.storage, h)
    requires Silent(c1, d, h)
    requires forall g :: g in got ==> Busy(d.pipe, g)
    ensures Silent(c, d, h)
  {
    hide Load, Busy, Heard;
  }

  lemma FillSilent(env: Env, c: Core, orders: seq<Hash>, h: Hash)
    ensures Silent(c, FillOrders(env, c, orders), h)
    ensures var d := FillOrders(env, c, orders);
      && d.tracker == c.tracker.(indexed := d.tracker.indexed)
      && d.block == c.block && d.pipe == c.pipe
  {
    hide Load, Busy, Heard, Silent, Take, AnnounceAll, Finalization.NewOrders, WithEntries;
    if orders != [] {
      var (st, got) := Take(env, c.storage, orders, c.tracker.indexed);
      TakeFacts(env, c.storage, orders, c.tracker.indexed);
      TakeFromEntries(env, c.storage, orders, c.tracker.indexed);
      var t := c.tracker.(indexed := c.tracker.indexed - (set g | g in orders));
      var st1 := st.(finalizing := Finalization.NewOrders(st.finalizing, c.block, WithEntries(c.storage, got)).0);
      LessTracked(c, t, h);
      var c1 := c.(tracker := t, storage := st1);
      LessStored(c.(tracker := t), st1, h);
      SilentChain(c, c.(tracker := t), c1, h);
      AnnounceAllSilent(c1, (g: Hash) => Filled(c.block, g), got, h);
      SilentChain(c, c1, FillOrders(env, c, orders), h);
    } else {
      LessStored(c, c.storage, h);
    }
  }

  lemma {:induction false} ConfirmAllFacts(env: Env, t: Tracker, hs: seq<Hash>, now: Time)
    ensures ConfirmAll(env, t, hs, now) == t.(cancelled := ConfirmAll(env, t, hs, now).cancelled)
    ensures forall h :: h in ConfirmAll(env, t, hs, now).cancelled <==> h in t.cancelled || h in hs
    ensures forall h :: h in hs ==>
      ConfirmAll(env, t, hs, now).cancelled[h] == Claim(env.info(h).owner, CancelUntil(now, env.info(h).deadline), true)
    ensures forall h :: h in t.cancelled && h !in hs ==> ConfirmAll(env, t, hs, now).cancelled[h] == t.cancelled[h]
  {
    if hs != [] {
      ConfirmAllFacts(env, t, hs[..|hs| - 1], now);
      assert hs == hs[..|hs| - 1] + [hs[|hs| - 1]];
    }
  }

  lemma PurgedFacts(env: Env, st: Storage)
    ensures var after := Purged(env, st).0;
      && (forall h :: h in after.entries ==> h in st.entries && after.entries[h] == st.entries[h])
      && after.parkable == st.parkable && after.finalizing == st.finalizing
  {
    hide Take;
    var flagged := CancelRequested(env, st, true);
    TakeFacts(env, st, env.arrange(flagged), flagged);
    var st1 := Take(env, st, env.arrange(flagged), flagged).0;
    var users := CancelRequested(env, st1, false);
    TakeFacts(env, st1, env.arrange(users), users);
  }

  lemma PurgeSilent(env: Env, c: Core, now: Time, h: Hash)
    ensures Silent(c, PurgeCancelled(env, c, now), h)
    ensures PurgeCancelled(env, c, now) ==
        c.(storage := Purged(env, c.storage).0, tracker := ConfirmAll(env, c.tracker, Purged(env, c.storage).1, now))
  {
    hide Load, Busy, Heard, Silent, Purged, ConfirmAll;
    var (st, got) := Purged(env, c.storage);
    PurgedFacts(env, c.storage);
    LessStored(c, st, h);
    ConfirmAllFacts(env, c.tracker, got, now);
    LessTracked(c.(storage := st), ConfirmAll(env, c.tracker, got, now), h);
    SilentChain(c, c.(storage := st), PurgeCancelled(env, c, now), h);
  }

  lemma ExpireSilent(env: Env, c: Core, until: Time, h: Hash)
    ensures var d := RemoveExpired(env, c, until).0;
      && Silent(c, d, h)
      && d.pipe == c.pipe && d.block == c.block
  {
    hide Load, Busy, Heard, Silent, Take, ExpiredHashes;
    var gone := ExpiredHashes(env, c, until);
    TakeFacts(env, c.storage, env.arrange(gone), gone);
    var d := RemoveExpired(env, c, until).0;
    LessStored(c, d.storage, h);
    LessTracked(c.(storage := d.storage), d.tracker, h);
    SilentChain(c, c.(storage := d.storage), d, h);
  }

  lemma {:induction false} EoaSilent(env: Env, c: Core, addresses: seq<Address>, h: Hash)
    ensures var d := EoaChange(env, c, addresses);
      && Silent(c, d, h)
      && d.tracker == c.tracker.(byAddress := d.tracker.byAddress)
      && d.block == c.block
      && d.pipe.WaitingForStorageCleanup? == c.pipe.WaitingForStorageCleanup?
  {
    hide Load, Busy, Heard, Silent, Take, SubmitAll;
    if addresses == [] {
      LessStored(c, c.storage, h);
    } else {
      EoaSilent(env, c, addresses[..|addresses| - 1], h);
      var c1 := EoaChange(env, c, addresses[..|addresses| - 1]);
      EoaOneSilent(env, c1, addresses[|addresses| - 1], h);
      SilentChain(c, c1, EoaChange(env, c, addresses), h);
    }
  }

  lemma EoaOneSilent(env: Env, c: Core, a: Address, h: Hash)
    ensures var d := EoaOne(env, c, a);
      && Silent(c, d, h)
      && d.tracker == c.tracker.(byAddress := d.tracker.byAddress)
      && d.block == c.block
      && d.pipe.WaitingForStorageCleanup? == c.pipe.WaitingForStorageCleanup?
  {
    hide Load, Busy, Heard, Silent, Take, SubmitAll;
    if a in c.tracker.byAddress {
      var ids := c.tracker.byAddress[a];
      var (st, got) := Take(env, c.storage, env.arrange(ids), ids);
      TakeFacts(env, c.storage, env.arrange(ids), ids);
      var t := c.tracker.(byAddress := c.tracker.byAddress - {a});
      LessTracked(c, t, h);
      LessStored(c.(tracker := t), st, h);
      var c1 := c.(storage := st, tracker := t);
      SilentChain(c, c.(tracker := t), c1, h);
      SubmitAllSilent(c1, ReValidation, got, h);
      SubmitAllShape(c1, ReValidation, got);
      SilentChain(c, c1, EoaOne(env, c, a), h);
    } else {
      LessStored(c, c.storage, h);
    }
  }

  lemma {:induction false} SubmitAllShape(c: Core, origin: Origin, hs: seq<Hash>)
    ensures SubmitAll(c, origin, hs).pipe.WaitingForStorageCleanup? == c.pipe.WaitingForStorageCleanup?
  {
    if hs != [] { SubmitAllShape(c, origin, hs[..|hs| - 1]); }
  }

  lemma {:induction false} UnfillSilent(c: Core, hs: seq<Hash>, h: Hash)
    ensures Silent(c, UnfillAll(c, hs), h)
    ensures UnfillAll(c, hs).tracker == c.tracker
  {
    hide Load, Busy, Heard, Silent;
    if hs == [] {
      LessStored(c, c.storage, h);
    } else {
      var n := |hs| - 1;
      var before := UnfillAll(c, hs[..n]);
      UnfillSilent(c, hs[..n], h);
      EmitSilent(before, Announced(Unfilled(hs[n])), h);
      var told := Emit(before, Announced(Unfilled(hs[n])));
      SubmitSilent(told, Job(Local, hs[n]), h);
      SilentChain(c, before, told, h);
      SilentChain(c, told, UnfillAll(c, hs), h);
    }
  }

  lemma ReorgSilent(c: Core, hs: seq<Hash>, h: Hash)
    ensures Silent(c, ReorgOrders(c, hs), h)
    ensures ReorgOrders(c, hs).tracker == c.tracker
  {
    hide Load, Busy, Heard, Silent, UnfillAll, Finalization.Reorg, Finalization.Ids;
    var (pool, out) := Finalization.Reorg(c.storage.finalizing, hs);
    var c1 := c.(storage := c.storage.(finalizing := pool));
    LessStored(c, c1.storage, h);
    UnfillSilent(c1, Finalization.Ids(out), h);
    SilentChain(c, c1, ReorgOrders(c, hs), h);
  }

  lemma RemovePoolSilent(env: Env, c: Core, pool: PoolId, h: Hash)
    ensures Silent(c, RemovePool(env, c, pool), h)
    ensures RemovePool(env, c, pool).tracker.cancelled == c.tracker.cancelled
  {
    hide Load, Busy, Heard, Silent, AnnounceAll, PoolOrders;
    var d := RemovePool(env, c, pool);
    var gone := PoolOrders(env, c.storage, pool);
    var c1 := WithoutPool(env, c, pool, gone);
    LessStored(c, c1.storage, h);
    LessTracked(c.(storage := c1.storage), c1.tracker, h);
    SilentChain(c, c.(storage := c1.storage), c1, h);
    AnnounceAllSilent(c1, (g: Hash) => Expired(g), env.arrange(gone), h);
    SilentChain(c, c1, d, h);
  }

  /** A whole block change is silent. */
  lemma FinishSilent(env: Env, c: Core, notice: Notice, now: Time, h: Hash)
    ensures Silent(c, FinishCore(env, c, notice, now), h)
  {
    hide Load, Busy, Heard, Silent, FillOrders, PurgeCancelled, RemoveExpired, EoaChange, AnnounceAll;
    var c0 := EnterBlock(c, notice.block);
    Entered(c, notice.block, h);
    var c1 := FillOrders(env, c0, notice.orders);
    FillSilent(env, c0, notice.orders, h);
    SilentChain(c, c0, c1, h);
    var p := PurgeCancelled(env, c1, now);
    PurgeSilent(env, c1, now, h);
    SilentChain(c, c1, p, h);
    var (c2, expired) := RemoveExpired(env, p, now + ETH_BLOCK_TIME);
    ExpireSilent(env, p, now + ETH_BLOCK_TIME, h);
    SilentChain(c, p, c2, h);
    var a := AnnounceAll(c2, (g: Hash) => Expired(g), expired);
    AnnounceAllSilent(c2, (g: Hash) => Expired(g), expired, h);
    SilentChain(c, c2, a, h);
    var c3 := EoaChange(env, a, notice.addresses);
    EoaSilent(env, a, notice.addresses, h);
    SilentChain(c, a, c3, h);
    var told := Notice(notice.block, notice.orders + expired, notice.addresses);
    if c3.pipe.WaitingForStorageCleanup? {
      Told(c3, told, h);
      SilentChain(c, c3, FinishCore(env, c, notice, now), h);
    }
  }

  lemma Entered(c: Core, block: nat, h: Hash)
    ensures Silent(c, EnterBlock(c, block), h)
  {
    hide Load, Busy, Heard;
  }

  lemma Told(c: Core, told: Notice, h: Hash)
    ensures Silent(c, Emit(c.(pipe := Notify(c.pipe, told)), Informed(told)), h)
  {
    hide Load, Busy;
    NotifyLoad(c.pipe, told);
    HeardOne(c.out, Informed(told), h);
  }

  lemma StartSilent(c: Core, notice: Notice, h: Hash)
    ensures Silent(c, StartBlock(c, notice), h)
  {
    hide Load, Busy, Heard;
    StartLoad(c.pipe, notice);
  }
}
