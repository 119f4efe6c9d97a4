/** Every caller that submits an order over RPC is answered exactly once. */
module OrderAnswers {
  import opened Options
  import opened Pipeline
  import opened OrderPool
  import opened OrderFacts
  import opened OrderResults

  function Callers(outs: seq<Out>): seq<Caller> {
    if outs == [] then []
    else
      var (before, o) := (Callers(outs[..|outs| - 1]), outs[|outs| - 1]);
      if o.Answered? then before + [o.caller] else before
  }

  lemma {:induction false} CallersConcat(a: seq<Out>, b: seq<Out>)
    ensures Callers(a + b) == Callers(a) + Callers(b)
  {
    if b == [] {
      assert a + b == a;
    } else {
      var n := |b| - 1;
      CallersConcat(a, b[..n]);
      assert (a + b)[..|a + b| - 1] == a + b[..n];
    }
  }

  lemma {:induction false} CallersOfReplies(callers: seq<Caller>, h: Hash, reply: Reply)
    ensures Callers(Replies(callers, h, reply)) == callers
  {
    if callers != [] {
      var n := |callers| - 1;
      CallersOfReplies(callers[..n], h, reply);
      var r := Replies(callers, h, reply);
      assert r[..|r| - 1] == Replies(callers[..n], h, reply);
    }
  }

  /** The callers answered about an order, in order, and those still waiting. */
  function Served(c: Core, h: Hash): seq<Caller> {
    Callers(Heard(c.out, h)) + Waiters(c, h)
  }

  /** Whoever waits waits for an order marked as validating, and a mark has a validation. */
  ghost predicate Attended(c: Core) {
    && (forall h :: h in c.subscribers ==> h in c.tracker.validating)
    && (forall h :: h in c.tracker.validating ==> Busy(c.pipe, h))
    && c.tracker.peers.Keys <= c.tracker.validating
  }

  lemma SilentServes(c: Core, d: Core, h: Hash)
    requires Silent(c, d, h)
    ensures Served(d, h) == Served(c, h)
    ensures Attended(c) ==> Attended(d)
  {
    hide Load, Heard, Busy, Callers;
    if Attended(c) {
      forall x | x in d.tracker.validating ensures Busy(d.pipe, x) {
        if x in c.tracker.validating { BusyGrows(c.pipe, d.pipe, x); }
      }
    }
  }

  // ----- a submission

  function Asks(e: Event, h: Hash): seq<Caller> {
    if e.OrderArrives? && e.hash == h && e.caller.Some? then [e.caller.value] else []
  }

  lemma SubscribeServes(c: Core, g: Hash, caller: Option<Caller>, h: Hash)
    ensures Served(Subscribe(c, g, caller), h) == Served(c, h) + (if g == h && caller.Some? then [caller.value] else [])
  {
    hide Callers, Heard;
  }

  lemma AnswerServes(c: Core, g: Hash, reply: Reply, h: Hash)
    ensures Served(Answer(c, g, reply), h) == Served(c, h)
  {
    hide Callers, Heard, Answer;
    AnswerHeard(c, g, reply, h);
    if g == h {
      CallersConcat(Heard(c.out, h), Replies(Waiters(c, g), g, reply));
      CallersOfReplies(Waiters(c, g), g, reply);
    } else {
      assert Heard(c.out, h) + [] == Heard(c.out, h);
    }
  }

  lemma NewOrderServes(env: Env, c: Core, claimed: bool, peer: Option<Peer>, origin: Origin, g: Hash,
      caller: Option<Caller>, h: Hash)
    ensures Served(NewOrder(env, c, claimed, peer, origin, g, caller), h) ==
      Served(c, h) + (if g == h && caller.Some? then [caller.value] else [])
  {
    hide Served, Subscribe, Answer, TrackPeer;
    var c0 := Subscribe(c, g, caller);
    SubscribeServes(c, g, caller, h);
    AnswerServes(c0, g, CancelledOrder, h);
    AnswerServes(c0, g, DuplicateOrder, h);
    var t := TrackPeer(c.tracker, g, peer);
    var t1 := t.(validating := t.validating + {g});
    SameServed(c0, WithTracker(c0, t), h);
    SameServed(c0, WithTracker(c0, t1), h);
    SubmitSilent(WithTracker(c0, t1), Job(origin, g), h);
    SilentServes(WithTracker(c0, t1), SubmitJob(WithTracker(c0, t1), Job(origin, g)), h);
  }

  lemma SameServed(c: Core, d: Core, h: Hash)
    requires d.out == c.out && d.subscribers == c.subscribers
    ensures Served(d, h) == Served(c, h)
  {
  }

  lemma NewOrderAttends(env: Env, c: Core, claimed: bool, peer: Option<Peer>, origin: Origin, g: Hash,
      caller: Option<Caller>)
    requires Attended(c)
    ensures Attended(NewOrder(env, c, claimed, peer, origin, g, caller))
  {
    hide Busy, Load, Heard, Submit, Replies;
    var job := Job(origin, g);
    SubmitLoad(c.pipe, job);
    forall x | x == g || Busy(c.pipe, x)
      ensures Busy(Submit(c.pipe, job), x)
    {
      SubmittedBusy(c.pipe, job, x);
    }
  }

  lemma SubmittedBusy(p: Pipeline<Job>, job: Job, x: Hash)
    requires x == job.hash || Busy(p, x)
    ensures Busy(Submit(p, job), x)
  {
    hide Load, Submit;
    SubmitLoad(p, job);
    assert job.origin.Local? || job.origin.External? || job.origin.ReValidation?;
  }

  // ----- a result

  lemma ResultServes(c: Core, d: Core, claimed: bool, g: Hash, v: Verdict, h: Hash)
    requires Handled(c, d, g, Says(c, claimed, g, v), Accepts(c, claimed, v), h)
    ensures Served(d, h) == Served(c, h)
    ensures g == h ==> Waiters(d, h) == []
  {
    hide Load, Heard, Busy, Callers, Replies;
    if g == h {
      var replies := Replies(Waiters(c, g), g, ReplyTo(c, claimed, v));
      CallersOfReplies(Waiters(c, g), g, ReplyTo(c, claimed, v));
      CallersConcat(Heard(c.out, h), Says(c, claimed, g, v));
      CallersConcat([Announced(New(g))] + replies, [Propagated(g)]);
      CallersConcat([Announced(New(g))], replies);
      Speechless(Announced(New(g)));
      Speechless(Propagated(g));
    } else {
      assert Heard(c.out, h) + [] == Heard(c.out, h);
    }
  }

  lemma Speechless(o: Out)
    requires !o.Answered?
    ensures Callers([o]) == []
  {
    assert [o][..0] == [];
  }

  lemma ResultAttends(c: Core, d: Core, p: Pipeline<Job>, job: Job, said: seq<Out>, accepted: bool, h: Hash)
    requires Load(p) == Load(c.pipe) + multiset{job}
    requires Attended(c.(pipe := p))
    requires Handled(c, d, job.hash, said, accepted, h)
    ensures Attended(d)
  {
    hide Load, Heard, Busy;
    forall x | x in d.tracker.validating ensures Busy(d.pipe, x) {
      if x in c.tracker.validating && x != job.hash {
        OtherJob(p, c.pipe, job, x);
        BusyGrows(c.pipe, d.pipe, x);
      }
    }
  }

  lemma OtherJob(p: Pipeline<Job>, q: Pipeline<Job>, job: Job, x: Hash)
    requires Load(p) == Load(q) + multiset{job} && Busy(p, x) && x != job.hash
    ensures Busy(q, x)
  {
    hide Load;
  }

  lemma PollServes(env: Env, s: State, ready: Readiness, v: Verdict, now: Time, h: Hash)
    requires Attended(s.core)
    ensures Served(PollPool(env, s, ready, v, now).core, h) == Served(s.core, h)
    ensures Attended(PollPool(env, s, ready, v, now).core)
  {
    hide Served, Attended, HandleCore, FinishCore, PollNext, Load, Silent, Handled;
    if Fits(s.core.pipe, ready) {
      var (pipe, res) := PollNext(s.core.pipe, ready);
      var s1 := s.(core := s.core.(pipe := pipe));
      PollLoad(s.core.pipe, ready);
      SameServed(s.core, s1.core, h);
      match res {
        case ValidatedOrder(job) =>
          var claimed := OwnerClaim(env, s1, job.hash);
          var d := HandleCore(env, s1.core, claimed, job.hash, v, now);
          ResultHandled(env, s1.core, claimed, job.hash, v, now, h);
          ResultServes(s1.core, d, claimed, job.hash, v, h);
          assert s1.core.(pipe := s.core.pipe) == s.core;
          ResultAttends(s1.core, d, s.core.pipe, job, Says(s1.core, claimed, job.hash, v),
              Accepts(s1.core, claimed, v), h);
        case EnsureClearForTransition(notice) =>
          SameLoad(s.core, pipe);
          FinishSilent(env, s1.core, notice, now, h);
          SilentServes(s1.core, FinishCore(env, s1.core, notice, now), h);
        case TransitionComplete =>
          SameLoad(s.core, pipe);
          EmitSilent(s1.core, Transitioned(s1.core.block), h);
          SilentServes(s1.core, Emit(s1.core, Transitioned(s1.core.block)), h);
        case _ => SameLoad(s.core, pipe);
      }
    }
  }

  lemma SameLoad(c: Core, pipe: Pipeline<Job>)
    requires Attended(c) && Load(pipe) == Load(c.pipe)
    ensures Attended(c.(pipe := pipe))
  {
    hide Load;
  }

  // ----- every event, every run

  lemma CancelSilent(env: Env, s: State, user: Address, g: Hash, signatureValid: bool, now: Time, h: Hash)
    ensures Silent(s.core, CancelOrder(env, s, user, g, signatureValid, now).0.core, h)
  {
    hide Silent, Load, Busy, Heard, RevalidateParked;
    var t := s.core.tracker;
    var st := CancelStored(env, s.core.storage, g).0;
    LessStored(s.core, st, h);
    var c0 := s.core.(storage := st);
    var t1 := ConfirmCancel(t.(indexed := t.indexed - {g}), user, g, CancellationDeadline(now));
    LessTracked(c0, t1, h);
    var c := c0.(tracker := t1);
    SilentChain(s.core, c0, c, h);
    EmitSilent(c, Released(user, g), h);
    var c1 := RevalidateParked(env, Emit(c, Released(user, g)), user);
    RevalidateParkedSilent(env, Emit(c, Released(user, g)), user, h);
    SilentChain(s.core, c, Emit(c, Released(user, g)), h);
    SilentChain(s.core, Emit(c, Released(user, g)), c1, h);
    var o := Announced(Cancelled(g, user, env.info(g).topOfBlock, env.info(g).pool));
    EmitSilent(c1, o, h);
    SilentChain(s.core, c1, Emit(c1, o), h);
    LessStored(s.core, s.core.storage, h);
  }

  /** Events other than submissions and polls are silent about every order. */
  lemma OtherSilent(env: Env, s: State, e: Event, h: Hash)
    requires !e.OrderArrives? && !e.Polled?
    ensures Silent(s.core, Step(env, s, e).core, h)
  {
    hide Silent, CancelOrder, ReorgOrders, RemovePool, StartBlock;
    match e
    case CancelArrives(user, g, signatureValid, now) => CancelSilent(env, s, user, g, signatureValid, now, h);
    case BlockStarts(notice) => StartSilent(s.core, notice, h);
    case Reorged(hs) => ReorgSilent(s.core, hs, h);
    case BlockFinalized(block) => LessStored(s.core, Step(env, s, e).core.storage, h);
    case PoolAdded(pool) => LessStored(s.core, Step(env, s, e).core.storage, h);
    case PoolRemoved(pool) => RemovePoolSilent(env, s.core, pool, h);
  }

  lemma StepServes(env: Env, s: State, e: Event, h: Hash)
    requires Attended(s.core)
    ensures Served(Step(env, s, e).core, h) == Served(s.core, h) + Asks(e, h)
    ensures Attended(Step(env, s, e).core)
  {
    hide Attended, Served, Silent, PollPool, NewOrder;
    if e.OrderArrives? {
      NewOrderServes(env, s.core, OwnerClaim(env, s, e.hash), e.peer, e.origin, e.hash, e.caller, h);
      NewOrderAttends(env, s.core, OwnerClaim(env, s, e.hash), e.peer, e.origin, e.hash, e.caller);
    } else if e.Polled? {
      PollServes(env, s, e.ready, e.verdict, e.now, h);
    } else {
      OtherSilent(env, s, e, h);
      SilentServes(s.core, Step(env, s, e).core, h);
    }
  }

  /** The callers of a run that submitted the order, in order. */
  function Asked(events: seq<Event>, h: Hash): seq<Caller> {
    if events == [] then [] else Asked(events[..|events| - 1], h) + Asks(events[|events| - 1], h)
  }

  /** Over every run, the callers of an order are answered once each, in the order they came;
      whoever is still waiting waits for a validation that is on its way. */
  lemma {:induction false} EveryCallerAnsweredOnce(env: Env, pools: set<PoolId>, block: nat, events: seq<Event>,
      h: Hash)
    ensures var c := Run(env, Start(pools, block), events).core;
      && Callers(Heard(c.out, h)) + Waiters(c, h) == Asked(events, h)
      && Attended(c)
      && (!Busy(c.pipe, h) ==> Callers(Heard(c.out, h)) == Asked(events, h))
  {
    hide Step, Busy, Heard, Callers;
    if events == [] {
      NobodyYet(pools, block, h);
    } else {
      var n := |events| - 1;
      EveryCallerAnsweredOnce(env, pools, block, events[..n], h);
      StepServes(env, Run(env, Start(pools, block), events[..n]), events[n], h);
    }
  }

  lemma NobodyYet(pools: set<PoolId>, block: nat, h: Hash)
    ensures Callers(Heard(Start(pools, block).core.out, h)) == []
  {
  }
}
