/** What each of the other events does to the pool, field by field: results, reorgs, finality, pools
    coming and going, and the start of a block. */
module OrderEffects {
  import opened Options
  import opened Pipeline
  import opened OrderPool
  import opened OrderFacts
  import opened OrderDisplaced
  import opened OrderOwners
  import OrderBlocks
  import OrderCancel
  import OrderIndexing
  import OrderLevels
  import OrderTracking
  import Finalization

  // ----- claims

  /** How long a cancellation that a result or the end of a block confirms stands: to the order's own
      deadline or, without one, to a time already past, so that the next block change ends it. */
  predicate StandsUntil(deadline: Option<Time>, now: Time, until: Time) {
    match deadline
    case Some(t) => until == t
    case None => if now > 12 then until + 13 == now else until == 0
  }

  /** A result that is taken or confirms a cancellation settles all claims on the order; the claims
      on other orders, and all claims after any other result, stay. */
  lemma ResultSettles(env: Env, s: State, h: Hash, v: Verdict, now: Time)
    ensures var (c, after) := (s.core, HandleResult(env, s, h, v, now));
      var (current, confirmed) := (v.Valid? && v.validBlock == c.block, after.core.tracker.cancelled);
      && (forall k :: k in after.pending <==> k in s.pending && !(current && k.0 == h))
      && (forall k :: k in after.pending ==> after.pending[k] == s.pending[k])
      && (forall g :: g != h ==> (g in confirmed <==> g in c.tracker.cancelled))
      && (forall g :: g != h && g in confirmed ==> confirmed[g] == c.tracker.cancelled[g])
      && (current && OwnerClaim(env, s, h) ==>
           && h in confirmed && confirmed[h].from == env.info(h).owner && confirmed[h].ownerVerified
           && StandsUntil(env.info(h).deadline, now, confirmed[h].deadline))
      && (!current || !OwnerClaim(env, s, h) ==> confirmed == c.tracker.cancelled)
  {
    hide HandleCore, OwnerClaim;
    OrderCancel.ResultClaims(env, s.core, OwnerClaim(env, s, h), h, v, now);
  }

  /** Without shared levels the end of a block purges exactly the stored orders asked to be cancelled
      that it does not find filled, and their cancellations stand for as long as they say. */
  lemma PurgedAre(env: Env, c: Core, notice: Notice, now: Time, h: Hash)
    requires Faithful(env) && LevelsSound(env, c.storage)
    ensures var c1 := FillOrders(env, EnterBlock(c, notice.block), notice.orders);
      var t := ConfirmAll(env, c.tracker, Purged(env, c1.storage).1, now);
      && (h in PurgedHashes(env, c, notice) <==>
           && h in c.storage.entries && c.storage.entries[h].cancelRequested
           && !(h in c.tracker.indexed && h in notice.orders))
      && (h in PurgedHashes(env, c, notice) ==>
           && h in t.cancelled && t.cancelled[h].from == env.info(h).owner && t.cancelled[h].ownerVerified
           && StandsUntil(env.info(h).deadline, now, t.cancelled[h].deadline))
  {
    hide FillOrders, Purged, Take, LevelsSound;
    var c0 := EnterBlock(c, notice.block);
    var c1 := FillOrders(env, c0, notice.orders);
    OrderBlocks.FillEffect(env, c0, notice.orders, h);
    OrderLevels.FillSound(env, c0, notice.orders);
    PurgedFlagged(env, c1.storage, h);
    ConfirmAllFacts(env, c.tracker, Purged(env, c1.storage).1, now);
  }

  lemma PurgedFlagged(env: Env, st: Storage, h: Hash)
    requires Faithful(env) && LevelsSound(env, st)
    ensures h in Purged(env, st).1 <==> h in st.entries && st.entries[h].cancelRequested
  {
    hide Take, LevelsSound;
    var tobs := CancelRequested(env, st, true);
    assert Lists(env.arrange(tobs), tobs);
    AllHandedBack(env, st, env.arrange(tobs), tobs);
    TakeFacts(env, st, env.arrange(tobs), tobs);
    var st1 := Take(env, st, env.arrange(tobs), tobs).0;
    var users := CancelRequested(env, st1, false);
    assert Lists(env.arrange(users), users);
    AllHandedBack(env, st1, env.arrange(users), users);
  }

  // ----- reorgs and finality

  /** Each order, in order, is announced as unfilled and validated again. */
  function Unfills(hs: seq<Hash>): seq<Out> {
    if hs == [] then []
    else
      var h := hs[|hs| - 1];
      Unfills(hs[..|hs| - 1]) + [Announced(Unfilled(h)), Submitted(Job(Local, h))]
  }

  lemma {:induction false} UnfillEffect(c: Core, hs: seq<Hash>)
    ensures var d := UnfillAll(c, hs);
      && d == c.(pipe := d.pipe, out := d.out)
      && d.out == c.out + Unfills(hs)
      && Load(d.pipe) == Load(c.pipe) + Jobs(Local, hs)
  {
    hide Load;
    if hs == [] {
      assert c.out + [] == c.out;
    } else {
      var n := |hs| - 1;
      UnfillEffect(c, hs[..n]);
      SubmitLoad(UnfillAll(c, hs[..n]).pipe, Job(Local, hs[n]));
    }
  }

  /** A reorg takes the named orders out of those awaiting finality, announces each as unfilled and
      starts exactly one local validation of it; nothing else changes. */
  lemma ReorgEffect(c: Core, hs: seq<Hash>) returns (back: seq<Hash>)
    ensures forall h :: (h in back <==> h in c.storage.finalizing.held && h in hs) && multiset(back)[h] <= 1
    ensures var d := ReorgOrders(c, hs);
      var (p, q) := (c.storage.finalizing, d.storage.finalizing);
      && d == c.(storage := c.storage.(finalizing := q), pipe := d.pipe, out := d.out)
      && (forall h :: h in q.held <==> h in p.held && h !in hs)
      && (forall h :: h in q.held ==> q.held[h] == p.held[h])
      && q.byBlock == p.byBlock
      && d.out == c.out + Unfills(back)
      && Load(d.pipe) == Load(c.pipe) + Jobs(Local, back)
  {
    hide UnfillAll, Load, Jobs, Unfills, Finalization.TakeAll;
    Finalization.ReorgReturns(c.storage.finalizing, hs);
    var (pool, out) := Finalization.Reorg(c.storage.finalizing, hs);
    back := Finalization.Ids(out);
    UnfillEffect(c.(storage := c.storage.(finalizing := pool)), back);
    forall h
      ensures (h in back <==> h in c.storage.finalizing.held && h in hs) && multiset(back)[h] <= 1
    {
      ComesOutOnce(c.storage.finalizing, hs, h);
    }
  }

  lemma ComesOutOnce(p: Finalization.Pool<Entry>, hs: seq<Hash>, h: Hash)
    ensures var back := Finalization.Ids(Finalization.Reorg(p, hs).1);
      (h in back <==> h in p.held && h in hs) && multiset(back)[h] <= 1
  {
    hide Finalization.TakeAll;
    Finalization.ReorgReturns(p, hs);
    var back: seq<Hash> := Finalization.Ids(Finalization.Reorg(p, hs).1);
    var times: multiset<Hash> := multiset(back);
    assert h in back <==> h in times;
    if h in back {
      var i :| 0 <= i < |back| && back[i] == h;
    }
  }

  /** Finality of a block lets go of exactly the orders listed under it that still wait, and of the list. */
  lemma FinalityEffect(env: Env, s: State, block: nat)
    ensures var after := Step(env, s, BlockFinalized(block));
      var (p, q) := (s.core.storage.finalizing, after.core.storage.finalizing);
      && after == s.(core := s.core.(storage := s.core.storage.(finalizing := q)))
      && (forall h :: h in q.held <==> h in p.held && !(block in p.byBlock && h in p.byBlock[block]))
      && (forall h :: h in q.held ==> q.held[h] == p.held[h])
      && (forall b :: b in q.byBlock <==> b in p.byBlock && b != block)
      && (forall b :: b in q.byBlock ==> q.byBlock[b] == p.byBlock[b])
  {
    hide Finalization.TakeAll;
    Finalization.FinalizedReturns(s.core.storage.finalizing, block);
  }

  /** The fills of a block: the orders handed back wait for finality as they were stored, listed under
      the block in the order they were found; whatever waited before still does. */
  ghost predicate AwaitFinality(c: Core, d: Core, block: nat, filled: seq<Hash>) {
    var (p, q) := (c.storage.finalizing, d.storage.finalizing);
    && (forall h :: h in q.held <==> h in p.held || h in filled)
    && (forall h :: h in filled && h in q.held && h in c.storage.entries ==> q.held[h] == c.storage.entries[h])
    && (forall h :: h in p.held && h !in filled && h in q.held ==> q.held[h] == p.held[h])
    && q.byBlock == p.byBlock[block := filled]
  }

  lemma FillAwaits(env: Env, c: Core, orders: seq<Hash>)
    requires orders != []
    ensures AwaitFinality(c, FillOrders(env, c, orders), c.block, Take(env, c.storage, orders, c.tracker.indexed).1)
  {
    hide Take, AnnounceAll, Silent, Load, Finalization.InsertAll;
    var (st, got) := Take(env, c.storage, orders, c.tracker.indexed);
    TakeFacts(env, c.storage, orders, c.tracker.indexed);
    TakeFromEntries(env, c.storage, orders, c.tracker.indexed);
    var c1 := c.(
      tracker := c.tracker.(indexed := c.tracker.indexed - (set g | g in orders)),
      storage := st.(finalizing := Finalization.NewOrders(st.finalizing, c.block, WithEntries(c.storage, got)).0));
    AnnounceAllSilent(c1, (g: Hash) => Filled(c.block, g), got, 0);
    HeldAsStored(c.storage, st.finalizing, c.block, got);
  }

  lemma HeldAsStored(st: Storage, p: Finalization.Pool<Entry>, block: nat, got: seq<Hash>)
    requires (forall h :: h in got ==> h in st.entries) && forall h :: multiset(got)[h] <= 1
    ensures var q := Finalization.NewOrders(p, block, WithEntries(st, got)).0;
      && (forall h :: h in q.held <==> h in p.held || h in got)
      && (forall h :: h in got ==> q.held[h] == st.entries[h])
      && (forall h :: h in p.held && h !in got ==> q.held[h] == p.held[h])
      && q.byBlock == p.byBlock[block := got]
  {
    hide Finalization.InsertAll;
    var orders := WithEntries(st, got);
    Finalization.FilledAreHeld(p, block, orders);
    assert forall i :: 0 <= i < |orders| ==> orders[i] == (got[i], st.entries[got[i]]);
    assert Finalization.Ids(orders) == got;
    forall h | h in got
      ensures exists i :: Finalization.LastWith(orders, i) && orders[i].0 == h
    {
      var i :| 0 <= i < |got| && got[i] == h;
      forall j | i < j < |got|
        ensures got[j] != h
      {
        if got[j] == h { TwicePresent(got, i, j); }
      }
      assert Finalization.LastWith(orders, i);
    }
  }

  lemma TwicePresent(hs: seq<Hash>, i: nat, j: nat)
    requires i < j < |hs| && hs[i] == hs[j]
    ensures multiset(hs)[hs[i]] >= 2
  {
    var h := hs[i];
    assert hs == hs[..j] + [h] + hs[j + 1..];
    var times: multiset<Hash> := multiset(hs[..j]);
    assert hs[..j][i] == h && h in times;
  }

  /** At the end of a block the fills it names wait for finality under that block; a block without
      fills changes nothing about finality. */
  lemma BlockAwaits(env: Env, c: Core, notice: Notice, now: Time)
    requires Faithful(env) && c.pipe.WaitingForStorageCleanup?
    ensures var d := FinishCore(env, c, notice, now);
      if notice.orders == [] then d.storage.finalizing == c.storage.finalizing
      else AwaitFinality(c, d, notice.block, Take(env, c.storage, notice.orders, c.tracker.indexed).1)
  {
    hide FinishCore, FillOrders, Purged, ConfirmAll, Take, EoaChange, OrderBlocks.Touched, Submissions,
        OrderBlocks.Queue, LevelsSound, AwaitFinality;
    var c0 := EnterBlock(c, notice.block);
    var c1 := FillOrders(env, c0, notice.orders);
    if notice.orders != [] { FillAwaits(env, c0, notice.orders); } else { NothingFilled(env, c0); }
    OrderBlocks.PurgeEffect(env, c1.storage, 0);
    var p := PurgeCancelled(env, c1, now);
    OrderBlocks.ExpireEffect(env, p, now + ETH_BLOCK_TIME, 0);
    var (d, expired) := OrderBlocks.Cleaned(env, c, notice, now);
    OrderBlocks.FinishIs(env, c, notice, now);
    var back := OrderBlocks.EoaEffect(env, d.(out := d.out + OrderTracking.Expiries(expired)), notice.addresses);
    if notice.orders != [] {
      SameFinality(c0, c1, FinishCore(env, c, notice, now), c, notice.block,
          Take(env, c.storage, notice.orders, c.tracker.indexed).1);
    }
  }

  lemma NothingFilled(env: Env, c: Core)
    ensures FillOrders(env, c, []) == c
  {
  }

  lemma SameFinality(c0: Core, c1: Core, d: Core, c: Core, block: nat, filled: seq<Hash>)
    requires AwaitFinality(c0, c1, block, filled)
    requires c0.storage == c.storage && d.storage.finalizing == c1.storage.finalizing
    ensures AwaitFinality(c, d, block, filled)
  {
  }

  // ----- pools

  /** Removing a pool drops its orders, wherever they are stored, and announces as expired, each once,
      those that were parked or not asked to be cancelled; only those leave the index, the record of
      peers and their owners' files. Orders of other pools stay as they are. */
  lemma RemovePoolEffect(env: Env, c: Core, pool: PoolId) returns (gone: seq<Hash>)
    requires Faithful(env)
    ensures forall h :: h in gone <==>
      && h in c.storage.entries && env.info(h).pool == pool
      && (c.storage.entries[h].parked || !c.storage.entries[h].cancelRequested)
    ensures forall h :: multiset(gone)[h] <= 1
    ensures var d := RemovePool(env, c, pool);
      var (st, after, t) := (c.storage, d.storage, d.tracker);
      && d.block == c.block && d.pipe == c.pipe && d.subscribers == c.subscribers
      && d.out == c.out + OrderTracking.Expiries(gone)
      && after.pools == st.pools - {pool} && after.parkable == st.parkable - {pool}
      && (forall h :: h in after.entries <==> h in st.entries && env.info(h).pool != pool)
      && (forall h :: h in after.entries ==> after.entries[h] == st.entries[h])
      && (forall l :: l in after.levels <==> l in st.levels && l.0 != pool)
      && after.finalizing == st.finalizing
      && (forall h :: h in t.indexed <==> h in c.tracker.indexed && h !in gone)
      && (forall h :: h in t.peers <==> h in c.tracker.peers && h !in gone)
      && (forall h :: h in t.peers ==> t.peers[h] == c.tracker.peers[h])
      && (forall a, h :: FiledUnder(t, a, h) <==> FiledUnder(c.tracker, a, h) && h !in gone)
      && t == c.tracker.(indexed := t.indexed, peers := t.peers, byAddress := t.byAddress)
  {
    hide AnnounceAll, Silent, OrderTracking.Expiries;
    var ids := PoolOrders(env, c.storage, pool);
    gone := env.arrange(ids);
    assert Lists(gone, ids);
    ListedOnce(gone, ids);
    var c1 := WithoutPool(env, c, pool, ids);
    OrderIndexing.AnnounceExpired(c1, gone);
    forall a, h
      ensures FiledUnder(c1.tracker, a, h) <==> FiledUnder(c.tracker, a, h) && h !in ids
    {
      if FiledUnder(c.tracker, a, h) && h !in ids { assert h in c.tracker.byAddress[a] - ids; }
    }
  }

  /** A pool that is added can take orders but park none, unless it could before; nothing else changes. */
  lemma AddPoolEffect(env: Env, s: State, pool: PoolId)
    ensures var after := Step(env, s, PoolAdded(pool));
      && after == s.(core := s.core.(storage := s.core.storage.(pools := after.core.storage.pools)))
      && (forall x :: x in after.core.storage.pools <==> x in s.core.storage.pools || x == pool)
  {
    assert Step(env, s, PoolAdded(pool)).core.storage.parkable == s.core.storage.parkable;
  }

  lemma ListedOnce(hs: seq<Hash>, s: set<Hash>)
    requires Lists(hs, s)
    ensures forall h :: multiset(hs)[h] <= 1
  {
    forall h
      ensures multiset(hs)[h] <= 1
    {
      OnceEach(hs, h);
    }
  }

  lemma {:induction false} OnceEach(hs: seq<Hash>, h: Hash)
    requires forall i, j :: 0 <= i < j < |hs| ==> hs[i] != hs[j]
    ensures multiset(hs)[h] <= 1
  {
    if hs != [] {
      var n := |hs| - 1;
      OnceEach(hs[..n], h);
      assert hs == hs[..n] + [hs[n]];
      var times: multiset<Hash> := multiset(hs[..n]);
      assert hs[n] !in hs[..n] && times[hs[n]] == 0;
    }
  }

  // ----- the start of a block

  /** In regular processing a block begins to clear under its own notice, with the jobs in flight; at
      any other time nothing changes. */
  lemma BlockBegins(env: Env, s: State, notice: Notice)
    ensures var after := Step(env, s, BlockStarts(notice));
      && after == s.(core := s.core.(pipe := after.core.pipe))
      && after.core.pipe == (if s.core.pipe.RegularProcessing?
           then ClearingForNewBlock(notice, [], s.core.pipe.inflight) else s.core.pipe)
  {
    assert s.core.pipe.RegularProcessing? ==>
      OnNewBlock(s.core.pipe, notice) == Some(ClearingForNewBlock(notice, [], s.core.pipe.inflight));
  }

  // ----- polls

  /** One poll of the pool: a finished job's result is handled, out of flight; once nothing is in flight
      a clearing pool ends its block as the notice says; when the validator has been told, regular
      processing resumes with everything that waited and the new block is reported; else nothing. */
  lemma PollMeans(env: Env, s: State, ready: Readiness, v: Verdict, now: Time)
    requires Fits(s.core.pipe, ready)
    ensures var (p, after) := (s.core.pipe, Step(env, s, Polled(ready, v, now)));
      match p
      case RegularProcessing(flight) => after ==
          if ready.job.None? then s
          else HandleResult(env, OnPipe(s, RegularProcessing(Others(flight, ready.job.value))),
            flight[ready.job.value].hash, v, now)
      case ClearingForNewBlock(notice, waiting, flight) => after ==
          if ready.job.Some? then
            HandleResult(env, OnPipe(s, ClearingForNewBlock(notice, waiting, Others(flight, ready.job.value))),
              flight[ready.job.value].hash, v, now)
          else if flight != [] then s
          else FinishNewBlock(env, OnPipe(s, WaitingForStorageCleanup(waiting)), notice, now)
      case InformState(_, waiting) => after ==
          if !ready.informed then s
          else s.(core := s.core.(pipe := RegularProcessing(waiting), out := s.core.out + [Transitioned(s.core.block)]))
      case WaitingForStorageCleanup(_) => after == s
  {
    hide HandleResult, FinishNewBlock;
  }

  function OnPipe(s: State, p: Pipeline<Job>): State {
    s.(core := s.core.(pipe := p))
  }

  function Others(jobs: seq<Job>, i: nat): seq<Job>
    requires i < |jobs|
  {
    jobs[..i] + jobs[i + 1..]
  }
}
