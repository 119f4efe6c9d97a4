/** The owner's cancellation wins over every later submission, result and revalidation, for as
    long as it stands, and it stands until a block change finds it expired. */
module OrderClaims {
  import opened Pipeline
  import opened OrderPool
  import opened OrderFacts
  import opened OrderResults
  import OrderCancel
  import OrderAnswers

  // ----- how long a claim stands

  /** The poll that ends the old block. */
  predicate EndsBlock(s: State, e: Event) {
    e.Polled? && Fits(s.core.pipe, e.ready) && PollNext(s.core.pipe, e.ready).1.EnsureClearForTransition?
  }

  lemma CancelKeepsClaim(env: Env, s: State, user: Address, g: Hash, signatureValid: bool, now: Time, h: Hash)
    requires OwnerClaim(env, s, h)
    ensures OwnerClaim(env, CancelOrder(env, s, user, g, signatureValid, now).0, h)
  {
    hide RevalidateParked, CancelStored;
    var t := s.core.tracker;
    var c := s.core.(
      storage := CancelStored(env, s.core.storage, g).0,
      tracker := ConfirmCancel(t.(indexed := t.indexed - {g}), user, g, CancellationDeadline(now)));
    RevalidateParkedSilent(env, Emit(c, Released(user, g)), user, h);
  }

  /** A signed request of the owner leaves a claim on record exactly if there was one already or
      the order has not been found invalid in this block. */
  lemma OwnersCancelIsRecorded(env: Env, s: State, h: Hash, now: Time)
    ensures OwnerClaim(env, CancelOrder(env, s, env.info(h).owner, h, true, now).0, h)
      <==> OwnerClaim(env, s, h) || h !in s.core.tracker.seenInvalid
  {
    hide RevalidateParked, CancelStored;
    var (t, user) := (s.core.tracker, env.info(h).owner);
    var c := s.core.(
      storage := CancelStored(env, s.core.storage, h).0,
      tracker := ConfirmCancel(t.(indexed := t.indexed - {h}), user, h, CancellationDeadline(now)));
    RevalidateParkedSilent(env, Emit(c, Released(user, h)), user, h);
  }

  lemma ResultKeepsClaim(env: Env, s: State, g: Hash, v: Verdict, now: Time, h: Hash)
    requires OwnerClaim(env, s, h)
    ensures OwnerClaim(env, HandleResult(env, s, g, v, now), h)
  {
    hide HandleCore;
    OrderCancel.ResultClaims(env, s.core, OwnerClaim(env, s, g), g, v, now);
  }

  /** Nothing but the end of a block ends a claim. */
  lemma ClaimStands(env: Env, s: State, e: Event, h: Hash)
    requires OwnerClaim(env, s, h) && !EndsBlock(s, e)
    ensures OwnerClaim(env, Step(env, s, e), h)
  {
    hide CancelOrder, HandleResult, ReorgOrders, RemovePool, FinishNewBlock;
    match e
    case CancelArrives(user, g, signatureValid, now) => CancelKeepsClaim(env, s, user, g, signatureValid, now, h);
    case Polled(ready, v, now) =>
      if Fits(s.core.pipe, ready) {
        var (pipe, res) := PollNext(s.core.pipe, ready);
        var s1 := s.(core := s.core.(pipe := pipe));
        assert OwnerClaim(env, s1, h);
        if res.ValidatedOrder? { ResultKeepsClaim(env, s1, res.job.hash, v, now, h); }
      }
    case Reorged(hs) => ReorgSilent(s.core, hs, h);
    case PoolRemoved(pool) => RemovePoolSilent(env, s.core, pool, h);
    case _ =>
  }

  /** Whether the owner's claim outlives the end of this block: an order purged as cancelled is
      held to its own deadline, every other claim to the deadline it was recorded with. */
  predicate Survives(env: Env, s: State, notice: Notice, now: Time, h: Hash) {
    var (t, owner, until) := (s.core.tracker, env.info(h).owner, now + 12);
    if h in PurgedHashes(env, s.core, notice) then
      env.info(h).deadline.Some? && env.info(h).deadline.value > until
    else
      || (h in t.cancelled && t.cancelled[h].from == owner && t.cancelled[h].deadline > until)
      || ((h, owner) in s.pending && s.pending[(h, owner)] > until)
  }

  /** Exactly the claims that outlive it stand after the end of a block. */
  lemma ClaimAfterBlock(env: Env, s: State, notice: Notice, now: Time, h: Hash)
    ensures OwnerClaim(env, FinishNewBlock(env, s, notice, now), h) <==> Survives(env, s, notice, now, h)
  {
    hide FinishCore, FillOrders, Purged;
    OrderCancel.BlockClaims(env, s.core, notice, now);
    var c1 := FillOrders(env, EnterBlock(s.core, notice.block), notice.orders);
    ConfirmAllFacts(env, s.core.tracker, Purged(env, c1.storage).1, now);
  }

  /** The owner's claim stands after an event if it stood before and, should the event end a
      block, outlives it. */
  predicate StandsThrough(env: Env, s: State, e: Event, h: Hash) {
    EndsBlock(s, e) ==>
      var (pipe, res) := PollNext(s.core.pipe, e.ready);
      Survives(env, s.(core := s.core.(pipe := pipe)), res.notice, e.now, h)
  }

  lemma StepKeepsClaim(env: Env, s: State, e: Event, h: Hash)
    requires OwnerClaim(env, s, h) && StandsThrough(env, s, e, h)
    ensures OwnerClaim(env, Step(env, s, e), h)
  {
    hide OwnerClaim, Survives, FinishNewBlock, HandleResult;
    if EndsBlock(s, e) {
      var (pipe, res) := PollNext(s.core.pipe, e.ready);
      ClaimAfterBlock(env, s.(core := s.core.(pipe := pipe)), res.notice, e.now, h);
    } else {
      ClaimStands(env, s, e, h);
    }
  }

  // ----- what a standing claim prevents

  function Publications(outs: seq<Out>): nat {
    if outs == [] then 0
    else Publications(outs[..|outs| - 1]) + if outs[|outs| - 1].Announced? || outs[|outs| - 1].Propagated? then 1 else 0
  }

  lemma {:induction false} PublicationsConcat(a: seq<Out>, b: seq<Out>)
    ensures Publications(a + b) == Publications(a) + Publications(b)
  {
    if b == [] {
      assert a + b == a;
    } else {
      var n := |b| - 1;
      PublicationsConcat(a, b[..n]);
      assert (a + b)[..|a + b| - 1] == a + b[..n];
    }
  }

  lemma {:induction false} RepliesPublishNothing(callers: seq<Caller>, h: Hash, reply: Reply)
    ensures Publications(Replies(callers, h, reply)) == 0
  {
    if callers != [] {
      var n := |callers| - 1;
      RepliesPublishNothing(callers[..n], h, reply);
      var r := Replies(callers, h, reply);
      assert r[..|r| - 1] == Replies(callers[..n], h, reply);
    }
  }

  /** How often the order has been announced as new or propagated. */
  function Published(c: Core, h: Hash): nat {
    Publications(Heard(c.out, h))
  }

  /** Not published again, not stored anew, not indexed anew. */
  ghost predicate KeptOut(c: Core, d: Core, h: Hash) {
    && Published(d, h) == Published(c, h)
    && (h in d.storage.entries ==> h in c.storage.entries)
    && (h in d.tracker.indexed ==> h in c.tracker.indexed)
  }

  lemma AnswerKeepsOut(c: Core, g: Hash, reply: Reply, h: Hash)
    ensures KeptOut(c, Answer(c, g, reply), h)
  {
    hide Heard, Publications, Answer, Replies;
    AnswerHeard(c, g, reply, h);
    if g == h {
      PublicationsConcat(Heard(c.out, h), Replies(Waiters(c, g), g, reply));
      RepliesPublishNothing(Waiters(c, g), g, reply);
    } else {
      assert Heard(c.out, h) + [] == Heard(c.out, h);
    }
  }

  lemma HandledKeepsOut(c: Core, d: Core, claimed: bool, g: Hash, v: Verdict, h: Hash)
    requires Handled(c, d, g, Says(c, claimed, g, v), Accepts(c, claimed, v), h)
    requires g == h ==> claimed
    ensures KeptOut(c, d, h)
  {
    hide Heard, Publications, Replies, Load, Busy;
    if g == h {
      PublicationsConcat(Heard(c.out, h), Replies(Waiters(c, g), g, ReplyTo(c, claimed, v)));
      RepliesPublishNothing(Waiters(c, g), g, ReplyTo(c, claimed, v));
    } else {
      assert Heard(c.out, h) + [] == Heard(c.out, h);
    }
  }

  lemma NewOrderKeepsOut(env: Env, c: Core, claimed: bool, e: Event, h: Hash)
    requires e.OrderArrives?
    ensures KeptOut(c, NewOrder(env, c, claimed, e.peer, e.origin, e.hash, e.caller), h)
  {
    hide Published, Answer;
    var c0 := Subscribe(c, e.hash, e.caller);
    AnswerKeepsOut(c0, e.hash, CancelledOrder, h);
    AnswerKeepsOut(c0, e.hash, DuplicateOrder, h);
    var d := NewOrder(env, c, claimed, e.peer, e.origin, e.hash, e.caller);
    assert Published(c0, h) == Published(c, h) by { SameOut(c, c0, h); }
    var job := Job(e.origin, e.hash);
    assert Heard(c0.out + [Submitted(job)], h) == Heard(c0.out, h) by { HeardOne(c0.out, Submitted(job), h); }
    if d.out == c0.out { SameOut(c0, d, h); }
    if d.out == c0.out + [Submitted(job)] { SameHeard(c0, d, h); }
  }

  lemma SameOut(c: Core, d: Core, h: Hash)
    requires d.out == c.out
    ensures Published(d, h) == Published(c, h)
  {
  }

  lemma SameHeard(c: Core, d: Core, h: Hash)
    requires Heard(d.out, h) == Heard(c.out, h)
    ensures Published(d, h) == Published(c, h)
  {
  }

  lemma SilentKeepsOut(c: Core, d: Core, h: Hash)
    requires Silent(c, d, h)
    ensures KeptOut(c, d, h)
  {
    hide Heard, Publications, Load, Busy;
  }

  lemma PollKeepsOut(env: Env, s: State, ready: Readiness, v: Verdict, now: Time, h: Hash)
    requires OwnerClaim(env, s, h)
    ensures KeptOut(s.core, PollPool(env, s, ready, v, now).core, h)
  {
    hide HandleCore, FinishCore, PollNext, Silent, Handled, Published;
    if Fits(s.core.pipe, ready) {
      var (pipe, res) := PollNext(s.core.pipe, ready);
      var s1 := s.(core := s.core.(pipe := pipe));
      SameOut(s.core, s1.core, h);
      match res {
        case ValidatedOrder(job) =>
          var claimed := OwnerClaim(env, s1, job.hash);
          ResultHandled(env, s1.core, claimed, job.hash, v, now, h);
          HandledKeepsOut(s1.core, HandleCore(env, s1.core, claimed, job.hash, v, now), claimed, job.hash, v, h);
        case EnsureClearForTransition(notice) =>
          FinishSilent(env, s1.core, notice, now, h);
          SilentKeepsOut(s1.core, FinishCore(env, s1.core, notice, now), h);
        case TransitionComplete =>
          EmitSilent(s1.core, Transitioned(s1.core.block), h);
          SilentKeepsOut(s1.core, Emit(s1.core, Transitioned(s1.core.block)), h);
        case _ =>
      }
    }
  }

  lemma StepKeepsOut(env: Env, s: State, e: Event, h: Hash)
    requires OwnerClaim(env, s, h)
    ensures KeptOut(s.core, Step(env, s, e).core, h)
  {
    hide KeptOut, OwnerClaim, Silent, PollPool, NewOrder;
    if e.OrderArrives? {
      NewOrderKeepsOut(env, s.core, OwnerClaim(env, s, e.hash), e, h);
    } else if e.Polled? {
      PollKeepsOut(env, s, e.ready, e.verdict, e.now, h);
    } else {
      OrderAnswers.OtherSilent(env, s, e, h);
      SilentKeepsOut(s.core, Step(env, s, e).core, h);
    }
  }

  /** At every block change of the run the owner has a claim that outlives it. */
  ghost predicate Outlives(env: Env, s: State, events: seq<Event>, h: Hash) {
    events != [] ==>
      && Outlives(env, s, events[..|events| - 1], h)
      && StandsThrough(env, Run(env, s, events[..|events| - 1]), events[|events| - 1], h)
  }

  /** Once the owner has a claim, no run that does not outlast it publishes, stores or indexes
      the order again, whatever arrives and whatever validations finish. */
  lemma {:induction false} CancellationWins(env: Env, s: State, events: seq<Event>, h: Hash)
    requires OwnerClaim(env, s, h) && Outlives(env, s, events, h)
    ensures OwnerClaim(env, Run(env, s, events), h)
    ensures KeptOut(s.core, Run(env, s, events).core, h)
  {
    hide Step, OwnerClaim, StandsThrough, Published;
    if events != [] {
      var (before, e) := (events[..|events| - 1], events[|events| - 1]);
      CancellationWins(env, s, before, h);
      StepKeepsClaim(env, Run(env, s, before), e, h);
      StepKeepsOut(env, Run(env, s, before), e, h);
    }
  }

  /** A current result for a claimed order: the reservation is released, the order is out of the
      index, every waiting caller hears that it was cancelled. */
  lemma ResultForClaimed(env: Env, s: State, h: Hash, v: Verdict, now: Time)
    requires OwnerClaim(env, s, h) && v.Valid? && v.validBlock == s.core.block
    ensures var c := s.core;
      var d := HandleResult(env, s, h, v, now).core;
      && h !in d.tracker.indexed
      && d.tracker.cancelled ==
           c.tracker.cancelled[h := Claim(env.info(h).owner, CancelUntil(now, env.info(h).deadline), true)]
      && Heard(d.out, h) == Heard(c.out, h) + Replies(Waiters(c, h), h, CancelledOrder)
      && |d.out| > |c.out| && d.out[..|c.out|] == c.out && d.out[|c.out|] == Released(env.info(h).owner, h)
  {
    hide Revalidate, Replies, Heard, Load, Busy, Silent;
    OrderCancel.ResultClaims(env, s.core, true, h, v, now);
    ResultHandled(env, s.core, true, h, v, now, h);
    var released := Emit(StopValidating(s.core, h), Released(env.info(h).owner, h));
    RevalidateExtends(env, released, v.invalidates);
    RevalidateFacts(env, released, v.invalidates, h);
  }

  lemma {:induction false} SubmitAllExtends(c: Core, origin: Origin, hs: seq<Hash>)
    ensures c.out <= SubmitAll(c, origin, hs).out
  {
    if hs != [] { SubmitAllExtends(c, origin, hs[..|hs| - 1]); }
  }

  lemma RevalidateExtends(env: Env, c: Core, displaced: seq<Hash>)
    ensures c.out <= Revalidate(env, c, displaced).out
  {
    hide SubmitAll, Take;
    var (st, got) := Take(env, c.storage, displaced, c.tracker.indexed);
    var t := c.tracker.(validating := c.tracker.validating + (set h | h in got));
    SubmitAllExtends(c.(storage := st, tracker := t), ReValidation, got);
  }
}
