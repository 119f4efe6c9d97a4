/** Pools added at run time cannot park orders: what that does to their parked orders. */
module OrderParking {
  import opened Pipeline
  import opened OrderPool
  import opened OrderFacts
  import opened OrderResults
  import opened OrderDisplaced
  import OrderAnswers

  lemma PollParkable(env: Env, s: State, ready: Readiness, v: Verdict, now: Time)
    ensures PollPool(env, s, ready, v, now).core.storage.parkable <= s.core.storage.parkable
  {
    hide HandleCore, FinishCore, PollNext, Load, Busy, Heard;
    if Fits(s.core.pipe, ready) {
      var (pipe, res) := PollNext(s.core.pipe, ready);
      var s1 := s.(core := s.core.(pipe := pipe));
      match res {
        case ValidatedOrder(job) =>
          ResultHandled(env, s1.core, OwnerClaim(env, s1, job.hash), job.hash, v, now, 0);
        case EnsureClearForTransition(notice) => FinishSilent(env, s1.core, notice, now, 0);
        case _ =>
      }
    }
  }

  lemma StepParkable(env: Env, s: State, e: Event)
    ensures Step(env, s, e).core.storage.parkable <= s.core.storage.parkable
  {
    if e.OrderArrives? {
      assert Step(env, s, e).core.storage == s.core.storage;
    } else if e.Polled? {
      PollParkable(env, s, e.ready, e.verdict, e.now);
    } else {
      OrderAnswers.OtherSilent(env, s, e, 0);
    }
  }

  /** Only pools the node started with can park orders. */
  lemma {:induction false} RunParkable(env: Env, pools: set<PoolId>, block: nat, events: seq<Event>)
    ensures Run(env, Start(pools, block), events).core.storage.parkable <= pools
  {
    hide Step;
    if events != [] {
      RunParkable(env, pools, block, events[..|events| - 1]);
      StepParkable(env, Run(env, Start(pools, block), events[..|events| - 1]), events[|events| - 1]);
    }
  }

  /** A valid but not yet executable limit order of a pool added later is announced, indexed and
      propagated like any other, and stored nowhere. */
  lemma LatePoolParksNothing(env: Env, pools: set<PoolId>, block: nat, events: seq<Event>, h: Hash, v: Verdict,
      now: Time)
    requires env.info(h).pool !in pools && !env.info(h).topOfBlock
    requires var s := Run(env, Start(pools, block), events);
      Accepts(s.core, OwnerClaim(env, s, h), v) && v.parked && h !in s.core.storage.entries
    ensures var s := Run(env, Start(pools, block), events);
      var d := HandleResult(env, s, h, v, now).core;
      && h in d.tracker.indexed && h !in d.storage.entries
      && d.out == s.core.out + [Announced(New(h))] + Said(s.core, h, StateError)
           + Submissions(ReValidation, Displaced(env, s.core, false, h, v).1) + [Propagated(h)]
  {
    hide Run, HandleCore, Take;
    var c := Run(env, Start(pools, block), events).core;
    RunParkable(env, pools, block, events);
    AcceptedStoredIff(env, c, h, v, now);
    AcceptedOutput(env, c, h, v, now);
    AcceptedIndexed(env, c, h, v, now);
  }

  lemma AcceptedIndexed(env: Env, c: Core, h: Hash, v: Verdict, now: Time)
    requires Accepts(c, false, v)
    ensures h in HandleCore(env, c, false, h, v, now).tracker.indexed
  {
    hide Replies, Revalidate, Insert, Load, Take, Silent;
    var c2 := Answer(Emit(StopValidating(c, h), Announced(New(h))), h, if v.parked then StateError else ValidOrder);
    RevalidateFacts(env, WithTracker(c2, IndexValid(env, c2.tracker, h)), v.invalidates, h);
  }
}
