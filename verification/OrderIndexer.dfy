/** The order indexer: the tracker, the storage, the validator and the subscribers moved together,
    each operation proved to be the step the pool's transition functions describe. */
module OrderIndexing {
  import opened Options
  import opened Pipeline
  import opened OrderPool
  import opened OrderFacts
  import opened OrderTracking
  import Finalization

  // ----- lists processed one by one

  lemma {:induction false} SubmitAllDepends(c: Core, d: Core, origin: Origin, hs: seq<Hash>)
    requires c.pipe == d.pipe && c.out == d.out
    ensures SubmitAll(d, origin, hs) == d.(pipe := SubmitAll(c, origin, hs).pipe, out := SubmitAll(c, origin, hs).out)
  {
    if hs != [] { SubmitAllDepends(c, d, origin, hs[..|hs| - 1]); }
  }

  lemma {:induction false} AnnounceExpired(c: Core, hs: seq<Hash>)
    ensures AnnounceAll(c, (h: Hash) => Expired(h), hs) == c.(out := c.out + Expiries(hs))
  {
    if hs == [] {
      assert c.out + [] == c.out;
    } else {
      AnnounceExpired(c, hs[..|hs| - 1]);
    }
  }

  lemma {:induction false} ConfirmConcat(env: Env, t: Tracker, a: seq<Hash>, b: seq<Hash>, now: Time)
    ensures ConfirmAll(env, t, a + b, now) == ConfirmAll(env, ConfirmAll(env, t, a, now), b, now)
  {
    if b == [] {
      assert a + b == a;
    } else {
      ConfirmConcat(env, t, a, b[..|b| - 1], now);
      assert (a + b)[..|a + b| - 1] == a + b[..|b| - 1];
    }
  }

  lemma DropTwice(pending: map<(Hash, Address), Time>, a: set<Hash>, b: set<Hash>)
    ensures DropClaims(DropClaims(pending, a), b) == DropClaims(pending, a + b)
    ensures DropClaims(pending, {}) == pending
  {
  }

  class OrderIndexer {
    const env: Env
    var block: nat
    var storage: Storage
    const tracker: OrderTracker
    const validator: OrderValidator<Job>
    const subscribers: OrderSubscriptionTracker
    const outbox: Outbox

    ghost predicate Valid() {
      Faithful(env) && subscribers.outbox == outbox
    }

    ghost function Objects(): set<object> {
      {this, tracker, validator, subscribers, outbox}
    }

    ghost function View(): State
      reads Objects()
    {
      State(Core(block, tracker.View(), storage, validator.state, subscribers.subscribers, outbox.sent),
          tracker.pending)
    }

    constructor (env: Env, pools: set<PoolId>, block: nat)
      requires Faithful(env)
      ensures Valid() && this.env == env && View() == Start(pools, block)
      ensures fresh(tracker) && fresh(validator) && fresh(subscribers) && fresh(outbox)
    {
      this.env, this.block := env, block;
      storage := Storage(pools, pools, map[], {}, Finalization.Pool(map[], map[]));
      tracker := new OrderTracker();
      validator := new OrderValidator<Job>();
      var box := new Outbox();
      outbox := box;
      subscribers := new OrderSubscriptionTracker(box);
    }

    // ----- helpers

    method Validate(origin: Origin, h: Hash)
      modifies validator, outbox
      ensures View() == old(View()).(core := SubmitJob(old(View()).core, Job(origin, h)))
    {
      validator.ValidateOrder(Job(origin, h));
      outbox.Send(Submitted(Job(origin, h)));
    }

    method ValidateEach(origin: Origin, hs: seq<Hash>)
      modifies validator, outbox
      ensures View() == old(View()).(core := SubmitAll(old(View()).core, origin, hs))
    {
      ghost var s := View();
      for i := 0 to |hs|
        invariant View() == s.(core := SubmitAll(s.core, origin, hs[..i]))
      {
        Validate(origin, hs[i]);
        assert hs[..i + 1][..i] == hs[..i];
      }
      assert hs[..|hs|] == hs;
    }

    /** Take the listed orders out of storage; those handed back, in order. */
    method RemoveFromStorage(hs: seq<Hash>, allowed: set<Hash>) returns (got: seq<Hash>)
      modifies this
      ensures (storage, got) == Take(env, old(storage), hs, allowed)
      ensures View() == old(View()).(core := old(View()).core.(storage := storage))
    {
      got := [];
      ghost var s := View();
      for i := 0 to |hs|
        invariant (storage, got) == Take(env, s.core.storage, hs[..i], allowed)
        invariant View() == s.(core := s.core.(storage := storage))
      {
        var h := hs[i];
        assert hs[..i + 1][..i] == hs[..i];
        if h in allowed {
          if Retrievable(env, storage, h) { got := got + [h]; }
          storage := Dropped(env, storage, h);
        }
      }
      assert hs[..|hs|] == hs;
    }

    // ----- requests

    /** The parked orders of an address, and its top-of-block orders, leave storage. */
    method RemoveParked(user: Address) returns (got: seq<Hash>)
      modifies this
      ensures user !in tracker.byAddress ==> got == [] && View() == old(View())
      ensures user in tracker.byAddress ==>
        && (storage, got) == TakeParked(env, old(storage), env.arrange(tracker.byAddress[user]))
        && View() == old(View()).(core := old(View()).core.(storage := storage))
    {
      got := [];
      if user in tracker.byAddress {
        var hs := env.arrange(tracker.byAddress[user]);
        ghost var s := View();
        for i := 0 to |hs|
          invariant (storage, got) == TakeParked(env, s.core.storage, hs[..i])
          invariant View() == s.(core := s.core.(storage := storage))
        {
          var h := hs[i];
          assert hs[..i + 1][..i] == hs[..i];
          if h in storage.entries && (storage.entries[h].parked || env.info(h).topOfBlock) {
            got := got + [h];
            storage := Dropped(env, storage, h);
          }
        }
        assert hs[..|hs|] == hs;
      }
    }

    method RevalidateParkedOrders(user: Address)
      modifies this, validator, outbox
      ensures View() == old(View()).(core := RevalidateParked(env, old(View()).core, user))
    {
      var got := RemoveParked(user);
      ValidateEach(ReValidation, got);
    }

    method Cancel(user: Address, h: Hash, signatureValid: bool, now: Time) returns (done: bool)
      requires Valid()
      modifies Objects()
      ensures (View(), done) == CancelOrder(env, old(View()), user, h, signatureValid, now)
    {
      hide RevalidateParked, CancelStored, DropClaims;
      if !signatureValid {
        return false;
      }
      if h in tracker.indexed && env.info(h).owner != user {
        return false;
      }
      if h in tracker.cancelled && tracker.cancelled[h].ownerVerified && tracker.cancelled[h].from == user {
        return true;
      }
      if h in tracker.seenInvalid {
        return false;
      }
      storage, done := tracker.CancelTracked(env, user, h, storage, now);
      if done {
        outbox.Send(Released(user, h));
        RevalidateParkedOrders(user);
        subscribers.NotifyOrderSubscribers(Cancelled(h, user, env.info(h).topOfBlock, env.info(h).pool));
      }
    }

    method Submission(peer: Option<Peer>, origin: Origin, h: Hash, caller: Option<Caller>)
      requires Valid()
      modifies Objects()
      ensures View() == old(View()).(core := NewOrder(env, old(View()).core, OwnerClaim(env, old(View()), h), peer,
          origin, h, caller))
    {
      hide Replies, TrackPeer, Answer, SubmitJob;
      if caller.Some? {
        subscribers.SubscribeToOrder(h, caller.value);
      }
      if tracker.IsValidCancel(h, env.info(h).owner) {
        Reply(h, CancelledOrder);
        return;
      }
      if tracker.IsDuplicate(h) {
        Reply(h, DuplicateOrder);
        return;
      }
      tracker.TrackPeerId(h, peer);
      if h in tracker.validating {
        return;
      }
      tracker.validating := tracker.validating + {h};
      Validate(origin, h);
    }

    method Reply(h: Hash, reply: OrderPool.Reply)
      requires Valid()
      modifies subscribers, outbox
      ensures View() == old(View()).(core := Answer(old(View()).core, h, reply))
    {
      subscribers.NotifyValidationSubscribers(h, reply);
      ghost var was := old(subscribers.subscribers);
      assert h !in was ==> was - {h} == was && old(outbox.sent) + [] == old(outbox.sent);
    }

    // ----- validation results

    /** All displaced orders are taken out of storage first; then each is marked and submitted. */
    method RevalidateInvalidatedOrders(displaced: seq<Hash>)
      modifies this, tracker, validator, outbox
      ensures View() == old(View()).(core := Revalidate(env, old(View()).core, displaced))
    {
      hide Take;
      var got := RemoveFromStorage(displaced, tracker.indexed);
      ghost var s := View();
      ghost var c := s.core;
      assert c.tracker.validating + SetOf([]) == c.tracker.validating;
      for i := 0 to |got|
        invariant View() == s.(core := SubmitAll(Marked(c, SetOf(got[..i])), ReValidation, got[..i]))
      {
        SetOfMore(got, i);
        assert got[..i + 1][..i] == got[..i];
        var h := got[i];
        SubmitAllDepends(c, Marked(c, SetOf(got[..i])), ReValidation, got[..i]);
        SubmitAllDepends(c, Marked(c, SetOf(got[..i + 1])), ReValidation, got[..i]);
        tracker.validating := tracker.validating + {h};
        assert c.tracker.validating + SetOf(got[..i]) + {h} == c.tracker.validating + SetOf(got[..i + 1]);
        Validate(ReValidation, h);
      }
      assert got[..|got|] == got;
    }

    static ghost function Marked(c: Core, hs: set<Hash>): Core {
      c.(tracker := c.tracker.(validating := c.tracker.validating + hs))
    }

    method ReportInvalid(h: Hash)
      modifies tracker, outbox
      ensures View() == old(View()).(core := InvalidVerification(old(View()).core, h))
    {
      var senders := tracker.InvalidVerificationOf(h);
      outbox.Send(BadPeers(senders));
    }

    method Stale(h: Hash, displaced: seq<Hash>)
      requires Valid()
      modifies Objects()
      ensures View() == old(View()).(core := StaleResult(env, old(View()).core, h, displaced))
    {
      hide Answer, Revalidate, InvalidVerification;
      tracker.validating := tracker.validating - {h};
      Reply(h, InvalidAtBlock);
      outbox.Send(Released(env.info(h).owner, h));
      RevalidateInvalidatedOrders(displaced);
      ReportInvalid(h);
    }

    method CancelledMeanwhile(h: Hash, displaced: seq<Hash>, now: Time)
      requires Valid()
      modifies Objects()
      ensures View() == State(CancelledResult(env, old(View()).core, h, displaced, now),
          DropClaims(old(View()).pending, {h}))
    {
      hide Answer, Revalidate, DropClaims;
      var owner := env.info(h).owner;
      tracker.validating := tracker.validating - {h};
      outbox.Send(Released(owner, h));
      RevalidateInvalidatedOrders(displaced);
      tracker.peers := tracker.peers - {h};
      var wasAnnounced := h in tracker.indexed;
      tracker.indexed := tracker.indexed - {h};
      tracker.InsertCancelWithDeadline(owner, h, CancelUntil(now, env.info(h).deadline));
      if wasAnnounced {
        subscribers.NotifyOrderSubscribers(Cancelled(h, owner, env.info(h).topOfBlock, env.info(h).pool));
      }
      Reply(h, CancelledOrder);
      outbox.Send(NoEvent);
    }

    method Accept(h: Hash, parked: bool, level: nat, displaced: seq<Hash>)
      requires Valid()
      modifies Objects()
      ensures View() == State(AcceptedResult(env, old(View()).core, h, parked, level, displaced),
          DropClaims(old(View()).pending, {h}))
    {
      hide Answer, Revalidate, DropClaims, Insert, IndexValid;
      tracker.validating := tracker.validating - {h};
      subscribers.NotifyOrderSubscribers(New(h));
      if parked {
        Reply(h, StateError);
      } else {
        Reply(h, ValidOrder);
      }
      tracker.NewValidOrder(env, h);
      RevalidateInvalidatedOrders(displaced);
      storage := Insert(env, storage, h, parked, level);
      outbox.Send(Propagated(h));
    }

    method Reject(h: Hash, reason: nat)
      requires Valid()
      modifies Objects()
      ensures View() == old(View()).(core := InvalidResult(env, old(View()).core, h, reason))
    {
      hide Answer, InvalidVerification, Dropped;
      tracker.validating := tracker.validating - {h};
      Reply(h, InvalidOrder(reason));
      storage := Dropped(env, storage, h);
      ReportInvalid(h);
    }

    method HandleValidatedOrder(h: Hash, v: Verdict, now: Time)
      requires Valid()
      modifies Objects()
      ensures View() == HandleResult(env, old(View()), h, v, now)
    {
      hide StaleResult, CancelledResult, AcceptedResult, InvalidResult, DropClaims;
      match v
      case Invalid(reason) => Reject(h, reason);
      case Valid(validBlock, parked, level, displaced) =>
        if validBlock != block {
          Stale(h, displaced);
        } else if tracker.IsValidCancel(h, env.info(h).owner) {
          CancelledMeanwhile(h, displaced, now);
        } else {
          Accept(h, parked, level, displaced);
        }
    }

    // ----- block changes

    method Fill(orders: seq<Hash>)
      requires Valid()
      modifies Objects()
      ensures View() == old(View()).(core := FillOrders(env, old(View()).core, orders))
    {
      hide Take, WithEntries, Finalization.NewOrders;
      if orders == [] {
        return;
      }
      ghost var s := View();
      var held := storage;
      TakeFromEntries(env, held, orders, tracker.indexed);
      var filled;
      storage, filled := tracker.FilledOrders(env, orders, storage);
      storage := storage.(finalizing := Finalization.NewOrders(storage.finalizing, block, WithEntries(held, filled)).0);
      ghost var c := View().core;
      for i := 0 to |filled|
        invariant View() == s.(core := AnnounceAll(c, (h: Hash) => Filled(s.core.block, h), filled[..i]))
      {
        AnnouncedSame(c, (h: Hash) => Filled(s.core.block, h), filled[..i]);
        subscribers.NotifyOrderSubscribers(Filled(block, filled[i]));
        assert filled[..i + 1][..i] == filled[..i];
      }
      assert filled[..|filled|] == filled;
    }

    static lemma AnnouncedSame(c: Core, make: Hash -> Update, hs: seq<Hash>)
      ensures AnnounceAll(c, make, hs) == c.(out := AnnounceAll(c, make, hs).out)
    {
      if hs != [] { AnnouncedSame(c, make, hs[..|hs| - 1]); }
    }

    /** Purged orders are held to their own deadlines from now on. */
    method ConfirmEach(hs: seq<Hash>, now: Time)
      modifies tracker
      ensures tracker.View() == ConfirmAll(env, old(tracker.View()), hs, now)
      ensures tracker.pending == DropClaims(old(tracker.pending), SetOf(hs))
    {
      ghost var (t, pending) := (tracker.View(), tracker.pending);
      assert SetOf([]) == {};
      DropTwice(pending, {}, {});
      for i := 0 to |hs|
        invariant tracker.View() == ConfirmAll(env, t, hs[..i], now)
        invariant tracker.pending == DropClaims(pending, SetOf(hs[..i]))
      {
        var h := hs[i];
        tracker.InsertCancelWithDeadline(env.info(h).owner, h, CancelUntil(now, env.info(h).deadline));
        SetOfMore(hs, i);
        DropTwice(pending, SetOf(hs[..i]), {h});
        assert hs[..i + 1][..i] == hs[..i];
      }
      assert hs[..|hs|] == hs;
    }

    method Purge(now: Time)
      requires Valid()
      modifies this, tracker
      ensures View() == State(
        PurgeCancelled(env, old(View()).core, now),
        DropClaims(old(View()).pending, SetOf(Purged(env, old(storage)).1)))
    {
      hide Take, ConfirmAll, DropClaims;
      ghost var s := View();
      var tobs := CancelRequested(env, storage, true);
      var first := RemoveFromStorage(env.arrange(tobs), tobs);
      ConfirmEach(first, now);
      var users := CancelRequested(env, storage, false);
      var second := RemoveFromStorage(env.arrange(users), users);
      ConfirmEach(second, now);
      assert Purged(env, s.core.storage) == (storage, first + second);
      ConfirmConcat(env, s.core.tracker, first, second, now);
      DropTwice(s.pending, SetOf(first), SetOf(second));
      assert SetOf(first) + SetOf(second) == SetOf(first + second);
    }

    method EoaStateChange(addresses: seq<Address>)
      modifies this, tracker, validator, outbox
      ensures View() == old(View()).(core := EoaChange(env, old(View()).core, addresses))
    {
      hide EoaOne;
      ghost var s := View();
      for i := 0 to |addresses|
        invariant View() == s.(core := EoaChange(env, s.core, addresses[..i]))
      {
        RevalidateAddress(addresses[i]);
        assert addresses[..i + 1][..i] == addresses[..i];
      }
      assert addresses[..|addresses|] == addresses;
    }

    method RevalidateAddress(a: Address)
      modifies this, tracker, validator, outbox
      ensures View() == old(View()).(core := EoaOne(env, old(View()).core, a))
    {
      hide Take;
      if a in tracker.byAddress {
        var ids := tracker.byAddress[a];
        tracker.byAddress := tracker.byAddress - {a};
        var got := RemoveFromStorage(env.arrange(ids), ids);
        ValidateEach(ReValidation, got);
      }
    }

    method FinishNewBlockProcessing(notice: Notice, now: Time)
      requires Valid() && validator.state.WaitingForStorageCleanup?
      modifies Objects()
      ensures View() == FinishNewBlock(env, old(View()), notice, now)
    {
      hide FillOrders, PurgeCancelled, EoaChange, Take, DropClaims, KeepLive, AnnounceAll, Purged;
      ghost var s := View();
      block := notice.block;
      tracker.seenInvalid := {};
      Fill(notice.orders);
      ghost var c1 := FillOrders(env, EnterBlock(s.core, notice.block), notice.orders);
      assert View() == State(c1, s.pending);
      Purge(now);
      ghost var p := PurgeCancelled(env, c1, now);
      assert View() == State(p, DropClaims(s.pending, PurgedHashes(env, s.core, notice)));
      var expired;
      storage, expired := tracker.RemoveExpiredOrders(env, block, now + ETH_BLOCK_TIME, storage);
      ghost var c2 := RemoveExpired(env, p, now + ETH_BLOCK_TIME).0;
      FillSilent(env, EnterBlock(s.core, notice.block), notice.orders, 0);
      PurgeSilent(env, c1, now, 0);
      assert View().core == c2 && expired == RemoveExpired(env, p, now + ETH_BLOCK_TIME).1;
      subscribers.NotifyExpiredOrders(expired);
      AnnounceExpired(c2, expired);
      ghost var a := AnnounceAll(c2, (h: Hash) => Expired(h), expired);
      EoaStateChange(notice.addresses);
      EoaSilent(env, a, notice.addresses, 0);
      var told := Notice(notice.block, notice.orders + expired, notice.addresses);
      validator.NotifyValidationOnChanges(told);
      outbox.Send(Informed(told));
    }

    // ----- chain events

    method StartNewBlockProcessing(notice: Notice) returns (panicked: bool)
      modifies validator
      ensures panicked <==> OnNewBlock(old(validator.state), notice).None?
      ensures View() == old(View()).(core := StartBlock(old(View()).core, notice))
    {
      panicked := validator.ClearForNewBlock(notice);
    }

    method Reorg(hs: seq<Hash>)
      requires Valid()
      modifies Objects()
      ensures View() == old(View()).(core := ReorgOrders(old(View()).core, hs))
    {
      hide Finalization.Reorg;
      var (pool, out) := Finalization.Reorg(storage.finalizing, hs);
      storage := storage.(finalizing := pool);
      ghost var s := View();
      var ids := Finalization.Ids(out);
      for i := 0 to |ids|
        invariant View() == s.(core := UnfillAll(s.core, ids[..i]))
      {
        subscribers.NotifyOrderSubscribers(Unfilled(ids[i]));
        Validate(Local, ids[i]);
        assert ids[..i + 1][..i] == ids[..i];
      }
      assert ids[..|ids|] == ids;
    }

    method Finalize(number: nat)
      modifies this
      ensures View() == old(View()).(core := FinalizedBlock(old(View()).core, number))
    {
      storage := storage.(finalizing := Finalization.Finalized(storage.finalizing, number).0);
    }

    method AddPool(pool: PoolId)
      modifies this
      ensures View() == old(View()).(core := NewPool(old(View()).core, pool))
    {
      storage := storage.(pools := storage.pools + {pool});
    }

    method DropPool(pool: PoolId)
      requires Valid()
      modifies Objects()
      ensures View() == old(View()).(core := RemovePool(env, old(View()).core, pool))
    {
      hide Prune, PoolOrders;
      ghost var c := View().core;
      var gone := PoolOrders(env, storage, pool);
      var orders := env.arrange(gone);
      assert Lists(orders, gone);
      assert SetOf(orders) == gone;
      assert orders != [] ==> orders[0] in SetOf(orders);
      storage := storage.(
        pools := storage.pools - {pool},
        parkable := storage.parkable - {pool},
        entries := map h | h in storage.entries && env.info(h).pool != pool :: storage.entries[h],
        levels := set l | l in storage.levels && l.0 != pool);
      tracker.HandlePoolRemoved(orders);
      assert View().core == WithoutPool(env, c, pool, gone);
      subscribers.NotifyExpiredOrders(orders);
      AnnounceExpired(WithoutPool(env, c, pool, gone), orders);
    }

    // ----- polling

    /** One turn of the loop in `poll_next`: the validator is polled and its answer handled; the
        event is what the pool manager gets to see of it. */
    method PollOnce(ready: Readiness, v: Verdict, now: Time) returns (more: bool, event: Option<Out>)
      requires Valid() && Fits(validator.state, ready)
      modifies Objects()
      ensures View() == PollPool(env, old(View()), ready, v, now)
      ensures var res := PollNext(old(validator.state), ready).1;
        && (more <==> !res.Pending? && !res.Exhausted?)
        && (event.Some? <==> res.ValidatedOrder? || res.TransitionComplete?)
        && (res.TransitionComplete? ==> event == Some(Transitioned(old(block))))
        && (res.ValidatedOrder? ==>
             outbox.sent != [] && event.value == outbox.sent[|outbox.sent| - 1] && !event.value.Transitioned?)
    {
      hide HandleResult, FinishNewBlock;
      var res := validator.PollOnce(ready);
      more, event := true, None;
      match res
      case ValidatedOrder(job) =>
        ghost var s := View();
        HandleValidatedOrder(job.hash, v, now);
        LastIsTheEvent(env, s, job.hash, v, now);
        event := Some(outbox.sent[|outbox.sent| - 1]);
      case EnsureClearForTransition(notice) => FinishNewBlockProcessing(notice, now);
      case TransitionComplete =>
        event := Some(Transitioned(block));
        outbox.Send(Transitioned(block));
      case Pending => more := false;
      case Exhausted => more := false;
    }

    /** Handling a result ends by reporting one event to the pool manager. */
    static lemma LastIsTheEvent(env: Env, s: State, h: Hash, v: Verdict, now: Time)
      ensures var out := HandleResult(env, s, h, v, now).core.out;
        && out != []
        && var last := out[|out| - 1];
           last == NoEvent || last == Propagated(h) || last.BadPeers?
    {
      hide Revalidate, Answer, Insert, Dropped, IndexValid;
    }
  }
}
