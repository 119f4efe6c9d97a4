/** What a block change does to each order: the passes over fills, cancellations, expiries and
    changed accounts, one after the other, come to one condition per order. */
module OrderBlocks {
  import opened Pipeline
  import opened OrderPool
  import opened OrderFacts
  import opened OrderTracking
  import OrderDisplaced
  import OrderLevels
  import OrderIndexing
  import Finalization

  ghost predicate Touched(byAddress: map<Address, set<Hash>>, addresses: seq<Address>, h: Hash) {
    exists a :: a in addresses && a in byAddress && h in byAddress[a]
  }

  /** The order was filled or its time is over, as far as the index knows it. */
  predicate Over(env: Env, c: Core, notice: Notice, until: Time, h: Hash) {
    h in c.tracker.indexed && (h in notice.orders || TimeIsUp(env, h, notice.block, until))
  }

  /** The deadline is not after `until`, or the order is good for another block than the next. */
  predicate TimeIsUp(env: Env, h: Hash, block: nat, until: Time) {
    || (env.info(h).deadline.Some? && env.info(h).deadline.value <= until)
    || (env.info(h).flashBlock.Some? && env.info(h).flashBlock.value != block + 1)
  }

  /** Stored orders that are announced as expired. */
  predicate RunsOut(env: Env, c: Core, notice: Notice, until: Time, h: Hash) {
    && h in c.storage.entries && !c.storage.entries[h].cancelRequested
    && Over(env, c, notice, until, h) && h !in notice.orders
  }

  /** Stored orders that go back to the validator. */
  ghost predicate GoesBack(env: Env, c: Core, notice: Notice, until: Time, h: Hash) {
    && h in c.storage.entries && !c.storage.entries[h].cancelRequested
    && !Over(env, c, notice, until, h) && Touched(c.tracker.byAddress, notice.addresses, h)
  }

  /** Stored orders that survive: not over, not cancelled, and not of a changed account. */
  ghost predicate Stays(env: Env, c: Core, notice: Notice, until: Time, h: Hash) {
    && h in c.storage.entries
    && !c.storage.entries[h].cancelRequested
    && !Over(env, c, notice, until, h)
    && !Touched(c.tracker.byAddress, notice.addresses, h)
  }

  lemma {:induction false} InsertAllHeld(held: map<Hash, Entry>, orders: seq<(Hash, Entry)>, h: Hash)
    ensures h in Finalization.InsertAll(held, orders) <==>
        h in held || exists i :: 0 <= i < |orders| && orders[i].0 == h
  {
    Finalization.InsertAllSpec(held, orders);
  }

  lemma FillEffect(env: Env, c: Core, orders: seq<Hash>, h: Hash)
    ensures var d := FillOrders(env, c, orders);
      && (h in d.tracker.indexed <==> h in c.tracker.indexed && h !in orders)
      && (h in d.storage.entries <==> h in c.storage.entries && !(h in orders && h in c.tracker.indexed))
      && (h in d.storage.entries ==> d.storage.entries[h] == c.storage.entries[h])
      && (h in d.storage.finalizing.held <==>
           h in c.storage.finalizing.held || h in Take(env, c.storage, orders, c.tracker.indexed).1)
  {
    hide Take, AnnounceAll, Finalization.InsertAll, Silent, Load;
    var (st, got) := Take(env, c.storage, orders, c.tracker.indexed);
    TakeFacts(env, c.storage, orders, c.tracker.indexed);
    if orders != [] {
      TakeFromEntries(env, c.storage, orders, c.tracker.indexed);
      var filled := WithEntries(c.storage, got);
      InsertAllHeld(st.finalizing.held, filled, h);
      assert h in got <==> exists i :: 0 <= i < |filled| && filled[i].0 == h by { ListedWith(c.storage, got, h); }
      var c1 := c.(
        tracker := c.tracker.(indexed := c.tracker.indexed - (set g | g in orders)),
        storage := st.(finalizing := Finalization.NewOrders(st.finalizing, c.block, filled).0));
      AnnounceAllSilent(c1, (g: Hash) => Filled(c.block, g), got, h);
    }
  }

  lemma ListedWith(st: Storage, hs: seq<Hash>, h: Hash)
    requires forall g :: g in hs ==> g in st.entries
    ensures h in hs <==> exists i :: 0 <= i < |hs| && WithEntries(st, hs)[i].0 == h
  {
    var ws := WithEntries(st, hs);
    assert forall i :: 0 <= i < |hs| ==> ws[i].0 == hs[i];
    if h in hs {
      var i :| 0 <= i < |hs| && hs[i] == h;
      assert ws[i].0 == h;
    }
  }

  lemma PurgeEffect(env: Env, st: Storage, h: Hash)
    requires Faithful(env)
    ensures h in Purged(env, st).0.entries <==> h in st.entries && !st.entries[h].cancelRequested
    ensures Purged(env, st).0.finalizing == st.finalizing
  {
    hide Take;
    var flagged := CancelRequested(env, st, true);
    assert Lists(env.arrange(flagged), flagged);
    TakeFacts(env, st, env.arrange(flagged), flagged);
    var st1 := Take(env, st, env.arrange(flagged), flagged).0;
    var users := CancelRequested(env, st1, false);
    assert Lists(env.arrange(users), users);
    TakeFacts(env, st1, env.arrange(users), users);
  }

  lemma ExpireEffect(env: Env, c: Core, until: Time, h: Hash)
    requires Faithful(env)
    ensures var (d, gone) := (RemoveExpired(env, c, until).0, ExpiredHashes(env, c, until));
      && (h in d.storage.entries <==> h in c.storage.entries && h !in gone)
      && (h in d.storage.entries ==> d.storage.entries[h] == c.storage.entries[h])
      && d.storage.finalizing == c.storage.finalizing
      && (h in d.tracker.indexed <==> h in c.tracker.indexed && h !in gone)
      && d.tracker.byAddress == Strip(c.tracker.byAddress, gone)
      && d.tracker.seenInvalid == c.tracker.seenInvalid
  {
    hide Take, ExpiredHashes;
    var gone := ExpiredHashes(env, c, until);
    assert Lists(env.arrange(gone), gone);
    TakeFacts(env, c.storage, env.arrange(gone), gone);
  }

  /** All the orders of the addresses leave storage, and the addresses their files. */
  ghost predicate Away(c: Core, d: Core, addresses: seq<Address>) {
    && (forall a :: a in d.tracker.byAddress <==> a in c.tracker.byAddress && a !in addresses)
    && (forall a :: a in d.tracker.byAddress ==> d.tracker.byAddress[a] == c.tracker.byAddress[a])
    && (forall h :: h in d.storage.entries <==> h in c.storage.entries && !Touched(c.tracker.byAddress, addresses, h))
    && (forall h :: h in d.storage.entries ==> d.storage.entries[h] == c.storage.entries[h])
    && d.storage.finalizing == c.storage.finalizing
  }

  /** These orders, each once, have left storage and gone back to the validator, in this order. */
  ghost predicate SentBack(c: Core, d: Core, back: seq<Hash>) {
    && d.out == c.out + OrderDisplaced.Submissions(ReValidation, back)
    && (c.pipe.WaitingForStorageCleanup? ==> d.pipe == WaitingForStorageCleanup(c.pipe.waiting + Queue(back)))
    && (forall h :: h in back ==> h in c.storage.entries && h !in d.storage.entries)
    && (forall h :: multiset(back)[h] <= 1)
  }

  lemma {:induction false} EoaEffect(env: Env, c: Core, addresses: seq<Address>) returns (back: seq<Hash>)
    requires Faithful(env)
    ensures var d := EoaChange(env, c, addresses);
      && Away(c, d, addresses)
      && SentBack(c, d, back)
      && (OrderDisplaced.LevelsSound(env, c.storage) ==>
           && OrderDisplaced.LevelsSound(env, d.storage)
           && forall h :: h in c.storage.entries && h !in d.storage.entries ==> h in back)
  {
    hide EoaOne, Away, SentBack, Touched, OrderDisplaced.LevelsSound;
    if addresses == [] {
      back := [];
      NothingAway(c);
    } else {
      var n := |addresses| - 1;
      var before := EoaEffect(env, c, addresses[..n]);
      var (c1, d) := (EoaChange(env, c, addresses[..n]), EoaChange(env, c, addresses));
      var more := EoaOneEffect(env, c1, addresses[n]);
      back := before + more;
      AwayMore(c, c1, d, addresses);
      SentMore(c, c1, d, before, more);
    }
  }

  lemma NothingAway(c: Core)
    ensures Away(c, c, []) && SentBack(c, c, [])
  {
    assert c.out + [] == c.out;
    assert c.pipe.WaitingForStorageCleanup? ==> c.pipe.waiting + [] == c.pipe.waiting;
  }

  lemma AwayMore(c: Core, c1: Core, d: Core, addresses: seq<Address>)
    requires addresses != [] && Away(c, c1, addresses[..|addresses| - 1]) && Away(c1, d, [addresses[|addresses| - 1]])
    ensures Away(c, d, addresses)
    ensures forall h :: h in c1.storage.entries ==> h in c.storage.entries
    ensures forall h :: h in d.storage.entries ==> h in c1.storage.entries
  {
    var (n, a) := (|addresses| - 1, addresses[|addresses| - 1]);
    assert addresses == addresses[..n] + [a];
    forall h | h in c1.storage.entries
      ensures Touched(c1.tracker.byAddress, [a], h) <==> Touched(c.tracker.byAddress, addresses, h)
    {
      assert !Touched(c.tracker.byAddress, addresses[..n], h);
      LastTouch(c, c1, addresses, h);
    }
    forall h | Touched(c.tracker.byAddress, addresses[..n], h)
      ensures Touched(c.tracker.byAddress, addresses, h)
    {
      var b :| b in addresses[..n] && b in c.tracker.byAddress && h in c.tracker.byAddress[b];
      assert b in addresses;
    }
  }

  lemma LastTouch(c: Core, c1: Core, addresses: seq<Address>, h: Hash)
    requires addresses != [] && Away(c, c1, addresses[..|addresses| - 1])
    requires !Touched(c.tracker.byAddress, addresses[..|addresses| - 1], h)
    ensures Touched(c1.tracker.byAddress, [addresses[|addresses| - 1]], h) <==>
      Touched(c.tracker.byAddress, addresses, h)
  {
    var (n, a) := (|addresses| - 1, addresses[|addresses| - 1]);
    assert addresses == addresses[..n] + [a];
    if a in c1.tracker.byAddress && h in c1.tracker.byAddress[a] {
      assert a in [a] && a in addresses;
    }
    if Touched(c.tracker.byAddress, addresses, h) {
      var b :| b in addresses && b in c.tracker.byAddress && h in c.tracker.byAddress[b];
      assert b !in addresses[..n] && b == a && a in [a];
    }
  }

  lemma SentMore(c: Core, c1: Core, d: Core, before: seq<Hash>, more: seq<Hash>)
    requires SentBack(c, c1, before) && SentBack(c1, d, more)
    requires forall h :: h in c1.storage.entries ==> h in c.storage.entries
    requires forall h :: h in d.storage.entries ==> h in c1.storage.entries
    ensures SentBack(c, d, before + more)
  {
    hide OrderDisplaced.Submissions, Queue;
    SubmissionsConcat(before, more);
    QueueConcat(before, more);
    AllApart(before, more);
  }

  /** The validations of the orders, in order. */
  function Queue(hs: seq<Hash>): seq<Job> {
    if hs == [] then [] else Queue(hs[..|hs| - 1]) + [Job(ReValidation, hs[|hs| - 1])]
  }

  lemma {:induction false} QueueConcat(a: seq<Hash>, b: seq<Hash>)
    ensures Queue(a + b) == Queue(a) + Queue(b)
  {
    if b == [] {
      assert a + b == a;
    } else {
      QueueConcat(a, b[..|b| - 1]);
      assert (a + b)[..|a + b| - 1] == a + b[..|b| - 1];
    }
  }

  lemma {:induction false} SubmitAllQueues(c: Core, hs: seq<Hash>)
    requires c.pipe.WaitingForStorageCleanup?
    ensures SubmitAll(c, ReValidation, hs).pipe == WaitingForStorageCleanup(c.pipe.waiting + Queue(hs))
  {
    if hs == [] {
      assert c.pipe.waiting + [] == c.pipe.waiting;
    } else {
      SubmitAllQueues(c, hs[..|hs| - 1]);
    }
  }

  lemma TwiceApart(a: seq<Hash>, b: seq<Hash>, h: Hash)
    requires multiset(a)[h] <= 1 && multiset(b)[h] <= 1 && !(h in a && h in b)
    ensures multiset(a + b)[h] <= 1
  {
    var x: multiset<Hash> := multiset(a);
    var y: multiset<Hash> := multiset(b);
    assert (h in a <==> h in x) && (h in b <==> h in y);
  }

  lemma AllApart(a: seq<Hash>, b: seq<Hash>)
    requires forall h :: multiset(a)[h] <= 1 && multiset(b)[h] <= 1 && !(h in a && h in b)
    ensures forall h :: multiset(a + b)[h] <= 1
  {
    forall h
      ensures multiset(a + b)[h] <= 1
    {
      TwiceApart(a, b, h);
    }
  }

  lemma TouchedBy(byAddress: map<Address, set<Hash>>, a: Address)
    ensures forall h :: Touched(byAddress, [a], h) <==> a in byAddress && h in byAddress[a]
  {
    assert a in [a];
  }

  lemma {:induction false} SubmissionsConcat(a: seq<Hash>, b: seq<Hash>)
    ensures OrderDisplaced.Submissions(ReValidation, a + b) ==
      OrderDisplaced.Submissions(ReValidation, a) + OrderDisplaced.Submissions(ReValidation, b)
  {
    if b == [] {
      assert a + b == a;
    } else {
      SubmissionsConcat(a, b[..|b| - 1]);
      assert (a + b)[..|a + b| - 1] == a + b[..|b| - 1];
    }
  }

  lemma EoaOneEffect(env: Env, c: Core, a: Address) returns (back: seq<Hash>)
    requires Faithful(env)
    ensures var d := EoaOne(env, c, a);
      && Away(c, d, [a])
      && SentBack(c, d, back)
      && (OrderDisplaced.LevelsSound(env, c.storage) ==>
           && OrderDisplaced.LevelsSound(env, d.storage)
           && forall h :: h in c.storage.entries && h !in d.storage.entries ==> h in back)
  {
    hide Take, SubmitAll, OrderDisplaced.Submissions, Queue, Load, Heard, Silent, OrderDisplaced.LevelsSound;
    back := [];
    assert forall h :: Touched(c.tracker.byAddress, [a], h) <==> a in c.tracker.byAddress && h in c.tracker.byAddress[a]
      by { TouchedBy(c.tracker.byAddress, a); }
    if a in c.tracker.byAddress {
      var ids := c.tracker.byAddress[a];
      assert Lists(env.arrange(ids), ids);
      TakeFacts(env, c.storage, env.arrange(ids), ids);
      var (st, got) := Take(env, c.storage, env.arrange(ids), ids);
      var c1 := c.(storage := st, tracker := c.tracker.(byAddress := c.tracker.byAddress - {a}));
      SubmitAllSilent(c1, ReValidation, got, 0);
      OrderDisplaced.SubmitAllOut(c1, ReValidation, got);
      if c.pipe.WaitingForStorageCleanup? { SubmitAllQueues(c1, got); }
      if OrderDisplaced.LevelsSound(env, c.storage) {
        OrderDisplaced.AllHandedBack(env, c.storage, env.arrange(ids), ids);
      }
      back := got;
    } else {
      NothingAway(c);
    }
  }

  function Fills(block: nat, orders: seq<Hash>): seq<Out> {
    if orders == [] then [] else Fills(block, orders[..|orders| - 1]) + [Announced(Filled(block, orders[|orders| - 1]))]
  }

  lemma {:induction false} AnnounceFilled(c: Core, block: nat, hs: seq<Hash>)
    ensures AnnounceAll(c, (h: Hash) => Filled(block, h), hs) == c.(out := c.out + Fills(block, hs))
  {
    if hs == [] {
      assert c.out + [] == c.out;
    } else {
      AnnounceFilled(c, block, hs[..|hs| - 1]);
    }
  }

  lemma FillTells(env: Env, c: Core, orders: seq<Hash>)
    ensures FillOrders(env, c, orders).out == c.out + Fills(c.block, Take(env, c.storage, orders, c.tracker.indexed).1)
  {
    hide Take, AnnounceAll, WithEntries, Finalization.NewOrders;
    if orders == [] {
      TakeNothing(env, c.storage, c.tracker.indexed);
      assert c.out + [] == c.out;
    } else {
      var (st, got) := Take(env, c.storage, orders, c.tracker.indexed);
      TakeFromEntries(env, c.storage, orders, c.tracker.indexed);
      var c1 := c.(
        tracker := c.tracker.(indexed := c.tracker.indexed - (set g | g in orders)),
        storage := st.(finalizing := Finalization.NewOrders(st.finalizing, c.block, WithEntries(c.storage, got)).0));
      AnnounceFilled(c1, c.block, got);
    }
  }

  lemma TakeNothing(env: Env, st: Storage, allowed: set<Hash>)
    ensures Take(env, st, [], allowed) == (st, [])
  {
  }

  /** The pool after the passes over fills, cancellations and expiries. */
  function Cleaned(env: Env, c: Core, notice: Notice, now: Time): (Core, seq<Hash>) {
    RemoveExpired(env, PurgeCancelled(env, FillOrders(env, EnterBlock(c, notice.block), notice.orders), now),
        now + ETH_BLOCK_TIME)
  }

  lemma CleanedOrder(env: Env, c: Core, notice: Notice, now: Time, h: Hash)
    requires Faithful(env)
    ensures var (d, expired) := Cleaned(env, c, notice, now);
      var over := Over(env, c, notice, now + ETH_BLOCK_TIME, h);
      && (h in d.tracker.indexed <==> h in c.tracker.indexed && !over)
      && (h in d.storage.entries <==> h in c.storage.entries && !c.storage.entries[h].cancelRequested && !over)
      && (h in d.storage.entries ==> d.storage.entries[h] == c.storage.entries[h])
      && (h in d.storage.finalizing.held <==>
           h in c.storage.finalizing.held || h in Take(env, c.storage, notice.orders, c.tracker.indexed).1)
      && (h in expired ==> RunsOut(env, c, notice, now + ETH_BLOCK_TIME, h))
      && (!over ==> forall a :: a in d.tracker.byAddress <==> a in c.tracker.byAddress)
      && (!over ==> forall a :: a in d.tracker.byAddress && a in c.tracker.byAddress ==>
           (h in d.tracker.byAddress[a] <==> h in c.tracker.byAddress[a]))
  {
    hide FillOrders, Purged, Take, ConfirmAll;
    var c0 := EnterBlock(c, notice.block);
    var c1 := FillOrders(env, c0, notice.orders);
    FillSilent(env, c0, notice.orders, h);
    FillEffect(env, c0, notice.orders, h);
    var p := PurgeCancelled(env, c1, now);
    ConfirmAllFacts(env, c1.tracker, Purged(env, c1.storage).1, now);
    PurgedFacts(env, c1.storage);
    PurgeEffect(env, c1.storage, h);
    ExpireEffect(env, p, now + ETH_BLOCK_TIME, h);
    var gone := ExpiredHashes(env, p, now + ETH_BLOCK_TIME);
    TakeFacts(env, p.storage, env.arrange(gone), gone);
  }

  lemma CleanedOnce(env: Env, c: Core, notice: Notice, now: Time)
    ensures forall h :: multiset(Cleaned(env, c, notice, now).1)[h] <= 1
  {
    hide FillOrders, PurgeCancelled, Take;
    var p := PurgeCancelled(env, FillOrders(env, EnterBlock(c, notice.block), notice.orders), now);
    var gone := ExpiredHashes(env, p, now + ETH_BLOCK_TIME);
    TakeFacts(env, p.storage, env.arrange(gone), gone);
  }

  /** With no level shared, every stored order whose time is over is announced as expired. */
  lemma CleanedSound(env: Env, c: Core, notice: Notice, now: Time)
    requires Faithful(env) && OrderDisplaced.LevelsSound(env, c.storage)
    ensures var (d, expired) := Cleaned(env, c, notice, now);
      && OrderDisplaced.LevelsSound(env, d.storage)
      && forall h :: RunsOut(env, c, notice, now + ETH_BLOCK_TIME, h) ==> h in expired
  {
    hide FillOrders, Purged, Take, ConfirmAll, OrderDisplaced.LevelsSound;
    var c0 := EnterBlock(c, notice.block);
    var c1 := FillOrders(env, c0, notice.orders);
    FillSilent(env, c0, notice.orders, 0);
    OrderLevels.FillSound(env, c0, notice.orders);
    OrderLevels.PurgeSound(env, c1.storage);
    ConfirmAllFacts(env, c1.tracker, Purged(env, c1.storage).1, now);
    var p := PurgeCancelled(env, c1, now);
    var gone := ExpiredHashes(env, p, now + ETH_BLOCK_TIME);
    assert Lists(env.arrange(gone), gone);
    OrderDisplaced.AllHandedBack(env, p.storage, env.arrange(gone), gone);
    forall h | RunsOut(env, c, notice, now + ETH_BLOCK_TIME, h)
      ensures h in Cleaned(env, c, notice, now).1
    {
      FillEffect(env, c0, notice.orders, h);
      PurgeEffect(env, c1.storage, h);
    }
  }

  lemma CleanedRest(env: Env, c: Core, notice: Notice, now: Time)
    requires Faithful(env)
    ensures var d := Cleaned(env, c, notice, now).0;
      && d.block == notice.block && d.tracker.seenInvalid == {} && d.pipe == c.pipe
      && d.subscribers == c.subscribers && d.tracker.peers == c.tracker.peers
      && d.tracker.validating == c.tracker.validating
      && d.out == c.out + Fills(notice.block, Take(env, c.storage, notice.orders, c.tracker.indexed).1)
  {
    hide FillOrders, Purged, Take, ConfirmAll, Fills;
    var c0 := EnterBlock(c, notice.block);
    var c1 := FillOrders(env, c0, notice.orders);
    FillSilent(env, c0, notice.orders, 0);
    FillTells(env, c0, notice.orders);
    ConfirmAllFacts(env, c1.tracker, Purged(env, c1.storage).1, now);
  }

  lemma SameTouch(c: Core, d: Core, addresses: seq<Address>, h: Hash)
    requires forall a :: a in d.tracker.byAddress <==> a in c.tracker.byAddress
    requires forall a :: a in d.tracker.byAddress && a in c.tracker.byAddress ==>
        (h in d.tracker.byAddress[a] <==> h in c.tracker.byAddress[a])
    ensures Touched(d.tracker.byAddress, addresses, h) <==> Touched(c.tracker.byAddress, addresses, h)
  {
  }

  lemma FinishIs(env: Env, c: Core, notice: Notice, now: Time)
    requires c.pipe.WaitingForStorageCleanup?
    ensures var (d, expired) := Cleaned(env, c, notice, now);
      var e := EoaChange(env, d.(out := d.out + Expiries(expired)), notice.addresses);
      var told := Notice(notice.block, notice.orders + expired, notice.addresses);
      FinishCore(env, c, notice, now) == e.(pipe := Notify(e.pipe, told), out := e.out + [Informed(told)])
  {
    hide FillOrders, PurgeCancelled, RemoveExpired, EoaChange, AnnounceAll, Expiries, Silent;
    var c0 := EnterBlock(c, notice.block);
    var c1 := FillOrders(env, c0, notice.orders);
    FillSilent(env, c0, notice.orders, 0);
    var p := PurgeCancelled(env, c1, now);
    PurgeSilent(env, c1, now, 0);
    ExpireSilent(env, p, now + ETH_BLOCK_TIME, 0);
    var (d, expired) := Cleaned(env, c, notice, now);
    OrderIndexing.AnnounceExpired(d, expired);
    EoaSilent(env, d.(out := d.out + Expiries(expired)), notice.addresses, 0);
  }

  /** The state of each order after a block change, and everything the change sends: the fills,
      the expiries, the validations started again, and what the validator is told last. */
  lemma BlockChangeEffect(env: Env, c: Core, notice: Notice, now: Time) returns (expired: seq<Hash>, back: seq<Hash>)
    requires Faithful(env) && c.pipe.WaitingForStorageCleanup?
    ensures var (d, until) := (FinishCore(env, c, notice, now), now + 12);
      var filled := Take(env, c.storage, notice.orders, c.tracker.indexed).1;
      && d.block == notice.block && d.tracker.seenInvalid == {}
      && (forall h :: h in d.tracker.indexed <==> h in c.tracker.indexed && !Over(env, c, notice, until, h))
      && (forall h :: h in d.storage.entries <==> Stays(env, c, notice, until, h))
      && (forall h :: h in d.storage.entries ==> d.storage.entries[h] == c.storage.entries[h])
      && (forall h :: h in d.storage.finalizing.held <==> h in c.storage.finalizing.held || h in filled)
      && d.out == c.out + Fills(notice.block, filled) + Expiries(expired)
           + OrderDisplaced.Submissions(ReValidation, back)
           + [Informed(Notice(notice.block, notice.orders + expired, notice.addresses))]
      && d.pipe == InformState(Notice(notice.block, notice.orders + expired, notice.addresses),
           c.pipe.waiting + Queue(back))
      && d.subscribers == c.subscribers && d.tracker.peers == c.tracker.peers
      && d.tracker.validating == c.tracker.validating
      && (forall h :: h in expired ==> RunsOut(env, c, notice, until, h))
      && (forall h :: h in back ==> GoesBack(env, c, notice, until, h))
      && (forall h :: multiset(expired)[h] <= 1 && multiset(back)[h] <= 1)
      && (OrderDisplaced.LevelsSound(env, c.storage) ==>
           && (forall h :: RunsOut(env, c, notice, until, h) ==> h in expired)
           && (forall h :: GoesBack(env, c, notice, until, h) ==> h in back))
  {
    hide Cleaned, FinishCore, EoaChange, Take, Fills, Expiries, Touched, OrderDisplaced.Submissions, Queue, Over,
        OrderDisplaced.LevelsSound;
    var d;
    d, expired := Cleaned(env, c, notice, now).0, Cleaned(env, c, notice, now).1;
    FinishIs(env, c, notice, now);
    CleanedRest(env, c, notice, now);
    var d1 := d.(out := d.out + Expiries(expired));
    back := EoaEffect(env, d1, notice.addresses);
    CleanedOnce(env, c, notice, now);
    if OrderDisplaced.LevelsSound(env, c.storage) { CleanedSound(env, c, notice, now); }
    EoaSilent(env, d1, notice.addresses, 0);
    var until := now + ETH_BLOCK_TIME;
    var filled := Take(env, c.storage, notice.orders, c.tracker.indexed).1;
    forall h
      ensures h in d.tracker.indexed <==> h in c.tracker.indexed && !Over(env, c, notice, until, h)
      ensures h in d.storage.entries ==> h in c.storage.entries && d.storage.entries[h] == c.storage.entries[h]
      ensures h in d.storage.entries && !Touched(d1.tracker.byAddress, notice.addresses, h) <==>
          Stays(env, c, notice, until, h)
      ensures h in d.storage.finalizing.held <==> h in c.storage.finalizing.held || h in filled
      ensures h in expired ==> RunsOut(env, c, notice, until, h)
      ensures h in d.storage.entries && Touched(d1.tracker.byAddress, notice.addresses, h) <==>
          GoesBack(env, c, notice, until, h)
    {
      CleanedOrder(env, c, notice, now, h);
      if !Over(env, c, notice, until, h) { SameTouch(c, d1, notice.addresses, h); }
    }
  }
}
