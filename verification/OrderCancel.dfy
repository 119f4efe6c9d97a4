/** Cancellation: who may cancel, and what a cancellation prevents. */
module OrderCancel {
  import opened Pipeline
  import opened OrderPool
  import opened OrderFacts

  // ----- what each operation does to the confirmed cancellations

  lemma RevalidateClaims(env: Env, c: Core, displaced: seq<Hash>)
    ensures Revalidate(env, c, displaced).tracker.cancelled == c.tracker.cancelled
  {
    hide Revalidate, Silent, Load, Take, Jobs;
    RevalidateFacts(env, c, displaced, 0);
  }

  /** A current result for a claimed order confirms the owner's cancellation; no other result
      touches one. */
  lemma ResultClaims(env: Env, c: Core, claimed: bool, h: Hash, v: Verdict, now: Time)
    ensures HandleCore(env, c, claimed, h, v, now).tracker.cancelled ==
      if v.Valid? && v.validBlock == c.block && claimed
      then c.tracker.cancelled[h := Claim(env.info(h).owner, CancelUntil(now, env.info(h).deadline), true)]
      else c.tracker.cancelled
  {
    hide Revalidate, Insert, Dropped, Replies;
    var c0 := StopValidating(c, h);
    if v.Valid? {
      if v.validBlock != c.block {
        RevalidateClaims(env, Emit(Answer(c0, h, InvalidAtBlock), Released(env.info(h).owner, h)), v.invalidates);
      } else if claimed {
        RevalidateClaims(env, Emit(c0, Released(env.info(h).owner, h)), v.invalidates);
      } else {
        var c2 := Answer(Emit(c0, Announced(New(h))), h, if v.parked then StateError else ValidOrder);
        RevalidateClaims(env, WithTracker(c2, IndexValid(env, c2.tracker, h)), v.invalidates);
      }
    }
  }

  /** The claims after a block change: purged orders are confirmed, then the expired ones go. */
  function Surviving(cancelled: map<Hash, Claim>, until: Time): map<Hash, Claim> {
    map h | h in cancelled && cancelled[h].deadline > until :: cancelled[h]
  }

  lemma BlockClaims(env: Env, c: Core, notice: Notice, now: Time)
    ensures var c1 := FillOrders(env, EnterBlock(c, notice.block), notice.orders);
      FinishCore(env, c, notice, now).tracker.cancelled ==
        Surviving(ConfirmAll(env, c.tracker, Purged(env, c1.storage).1, now).cancelled, now + ETH_BLOCK_TIME)
  {
    hide FillOrders, Purged, EoaChange, AnnounceAll, Take;
    var c0 := EnterBlock(c, notice.block);
    var c1 := FillOrders(env, c0, notice.orders);
    FillSilent(env, c0, notice.orders, 0);
    var got := Purged(env, c1.storage).1;
    ConfirmAllFacts(env, c.tracker, got, now);
    ConfirmAllFacts(env, c1.tracker, got, now);
    assert ConfirmAll(env, c1.tracker, got, now).cancelled == ConfirmAll(env, c.tracker, got, now).cancelled;
    var (c2, expired) := RemoveExpired(env, PurgeCancelled(env, c1, now), now + ETH_BLOCK_TIME);
    AnnounceAllSilent(c2, (g: Hash) => Expired(g), expired, 0);
    EoaSilent(env, AnnounceAll(c2, (g: Hash) => Expired(g), expired), notice.addresses, 0);
  }

  // ----- only owners

  /** Every confirmed cancellation is by the order's owner. */
  ghost predicate OwnersOnly(env: Env, c: Core) {
    forall h :: h in c.tracker.cancelled ==> c.tracker.cancelled[h].from == env.info(h).owner
  }

  lemma CancelKeepsOwners(env: Env, s: State, user: Address, h: Hash, signatureValid: bool, now: Time)
    requires OwnersOnly(env, s.core)
    ensures OwnersOnly(env, CancelOrder(env, s, user, h, signatureValid, now).0.core)
  {
    hide RevalidateParked, CancelStored;
    var t := s.core.tracker;
    var c := s.core.(
      storage := CancelStored(env, s.core.storage, h).0,
      tracker := ConfirmCancel(t.(indexed := t.indexed - {h}), user, h, CancellationDeadline(now)));
    RevalidateParkedSilent(env, Emit(c, Released(user, h)), user, h);
  }

  lemma PollKeepsOwners(env: Env, s: State, ready: Readiness, v: Verdict, now: Time)
    requires OwnersOnly(env, s.core)
    ensures OwnersOnly(env, PollPool(env, s, ready, v, now).core)
  {
    hide HandleCore, FinishCore, Purged;
    if Fits(s.core.pipe, ready) {
      var (pipe, res) := PollNext(s.core.pipe, ready);
      var s1 := s.(core := s.core.(pipe := pipe));
      match res {
        case ValidatedOrder(job) =>
          ResultClaims(env, s1.core, OwnerClaim(env, s1, job.hash), job.hash, v, now);
        case EnsureClearForTransition(notice) =>
          BlockClaims(env, s1.core, notice, now);
          var c1 := FillOrders(env, EnterBlock(s1.core, notice.block), notice.orders);
          ConfirmAllFacts(env, s1.core.tracker, Purged(env, c1.storage).1, now);
        case _ =>
      }
    }
  }

  lemma StepKeepsOwners(env: Env, s: State, e: Event)
    requires OwnersOnly(env, s.core)
    ensures OwnersOnly(env, Step(env, s, e).core)
  {
    hide CancelOrder, PollPool, ReorgOrders, RemovePool, OwnersOnly;
    match e
    case CancelArrives(user, h, signatureValid, now) => CancelKeepsOwners(env, s, user, h, signatureValid, now);
    case Polled(ready, v, now) => PollKeepsOwners(env, s, ready, v, now);
    case Reorged(hs) => ReorgSilent(s.core, hs, 0); SameClaims(env, s.core, Step(env, s, e).core);
    case PoolRemoved(pool) => RemovePoolSilent(env, s.core, pool, 0); SameClaims(env, s.core, Step(env, s, e).core);
    case _ => SameClaims(env, s.core, Step(env, s, e).core);
  }

  lemma SameClaims(env: Env, c: Core, d: Core)
    requires OwnersOnly(env, c) && d.tracker.cancelled == c.tracker.cancelled
    ensures OwnersOnly(env, d)
  {
  }

  lemma {:induction false} RunKeepsOwners(env: Env, s: State, events: seq<Event>)
    requires OwnersOnly(env, s.core)
    ensures OwnersOnly(env, Run(env, s, events).core)
  {
    hide Step, OwnersOnly;
    if events != [] {
      RunKeepsOwners(env, s, events[..|events| - 1]);
      StepKeepsOwners(env, Run(env, s, events[..|events| - 1]), events[|events| - 1]);
    }
  }

  // ----- strangers do not interfere

  /** The same pool, up to claims of signers who do not own the order. */
  ghost predicate SameButStrangers(env: Env, s: State, t: State) {
    && s.core == t.core
    && (forall h: Hash :: (h, env.info(h).owner) in s.pending <==> (h, env.info(h).owner) in t.pending)
    && (forall h: Hash :: (h, env.info(h).owner) in s.pending && (h, env.info(h).owner) in t.pending ==>
          s.pending[(h, env.info(h).owner)] == t.pending[(h, env.info(h).owner)])
  }

  predicate IsStranger(env: Env, e: Event) {
    e.CancelArrives? && e.user != env.info(e.hash).owner
  }

  function CancelAnswer(env: Env, s: State, e: Event): bool
    requires e.CancelArrives?
  {
    CancelOrder(env, s, e.user, e.hash, e.signatureValid, e.now).1
  }

  /** A request that does not come from the owner is refused and changes nothing but claims
      nobody acts on. */
  lemma StrangerStep(env: Env, s: State, e: Event)
    requires OwnersOnly(env, s.core) && IsStranger(env, e)
    ensures !CancelAnswer(env, s, e)
    ensures SameButStrangers(env, s, Step(env, s, e))
  {
  }

  lemma DropSame(env: Env, s: State, t: State, core: Core, hs: set<Hash>)
    requires SameButStrangers(env, s, t)
    ensures SameButStrangers(env, State(core, DropClaims(s.pending, hs)), State(core, DropClaims(t.pending, hs)))
  {
  }

  lemma KeepSame(env: Env, s: State, t: State, core: Core, until: Time)
    requires SameButStrangers(env, s, t)
    ensures SameButStrangers(env, State(core, KeepLive(s.pending, until)), State(core, KeepLive(t.pending, until)))
  {
  }

  lemma PollSame(env: Env, s: State, t: State, ready: Readiness, v: Verdict, now: Time)
    requires SameButStrangers(env, s, t)
    ensures SameButStrangers(env, PollPool(env, s, ready, v, now), PollPool(env, t, ready, v, now))
  {
    hide HandleCore, FinishCore, DropClaims, KeepLive, PurgedHashes;
    if Fits(s.core.pipe, ready) {
      var (pipe, res) := PollNext(s.core.pipe, ready);
      var s1, t1 := s.(core := s.core.(pipe := pipe)), t.(core := t.core.(pipe := pipe));
      assert SameButStrangers(env, s1, t1);
      match res {
        case ValidatedOrder(job) =>
          assert OwnerClaim(env, s1, job.hash) == OwnerClaim(env, t1, job.hash);
          DropSame(env, s1, t1, HandleCore(env, s1.core, OwnerClaim(env, s1, job.hash), job.hash, v, now), {job.hash});
        case EnsureClearForTransition(notice) =>
          var hs := PurgedHashes(env, s1.core, notice);
          var core := FinishCore(env, s1.core, notice, now);
          DropSame(env, s1, t1, core, hs);
          KeepSame(env, State(core, DropClaims(s1.pending, hs)), State(core, DropClaims(t1.pending, hs)), core,
              now + ETH_BLOCK_TIME);
        case _ =>
      }
    }
  }

  lemma StepSame(env: Env, s: State, t: State, e: Event)
    requires SameButStrangers(env, s, t)
    ensures SameButStrangers(env, Step(env, s, e), Step(env, t, e))
    ensures e.CancelArrives? ==> CancelAnswer(env, s, e) == CancelAnswer(env, t, e)
  {
    hide PollPool, ReorgOrders, RemovePool, NewOrder, RevalidateParked, CancelStored, DropClaims;
    match e
    case Polled(ready, v, now) => PollSame(env, s, t, ready, v, now);
    case CancelArrives(user, h, signatureValid, now) =>
      DropSame(env, s, t, Step(env, s, e).core, {h});
    case _ =>
  }

  function Honest(env: Env, events: seq<Event>): seq<Event> {
    if events == [] then []
    else
      var (before, e) := (Honest(env, events[..|events| - 1]), events[|events| - 1]);
      if IsStranger(env, e) then before else before + [e]
  }

  /** The answers to the cancellation requests of a run that come from owners. */
  function OwnerAnswers(env: Env, s: State, events: seq<Event>): seq<bool> {
    if events == [] then []
    else
      var (before, e) := (OwnerAnswers(env, s, events[..|events| - 1]), events[|events| - 1]);
      if e.CancelArrives? && !IsStranger(env, e)
      then before + [CancelAnswer(env, Run(env, s, events[..|events| - 1]), e)] else before
  }

  /** Over a whole run, requests from non-owners could as well never have arrived: the pool, all
      it sends and every answer to an owner are the same without them. */
  lemma {:induction false} StrangersDoNotInterfere(env: Env, s: State, events: seq<Event>)
    requires OwnersOnly(env, s.core)
    ensures SameButStrangers(env, Run(env, s, events), Run(env, s, Honest(env, events)))
    ensures OwnerAnswers(env, s, events) == OwnerAnswers(env, s, Honest(env, events))
  {
    hide Step, OwnersOnly, SameButStrangers, CancelAnswer;
    if events == [] {
      assert SameButStrangers(env, s, s) by { Same(env, s); }
    } else {
      var n := |events| - 1;
      var (before, e) := (events[..n], events[n]);
      StrangersDoNotInterfere(env, s, before);
      RunKeepsOwners(env, s, before);
      var (x, y) := (Run(env, s, before), Run(env, s, Honest(env, before)));
      if IsStranger(env, e) {
        StrangerStep(env, x, e);
        SameChain(env, x, Step(env, x, e), y);
      } else {
        assert (Honest(env, before) + [e])[..|Honest(env, before)|] == Honest(env, before);
        StepSame(env, x, y, e);
      }
    }
  }

  lemma Same(env: Env, s: State)
    ensures SameButStrangers(env, s, s)
  {
  }

  lemma SameChain(env: Env, s: State, s1: State, t: State)
    requires SameButStrangers(env, s, s1) && SameButStrangers(env, s, t)
    ensures SameButStrangers(env, s1, t)
  {
  }
}
