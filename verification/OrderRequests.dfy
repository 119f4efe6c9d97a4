/** What submitting and cancelling an order do, case by case and field by field, and what becomes of a
    cancelled order at the end of its block. */
module OrderRequests {
  import opened Options
  import opened Pipeline
  import opened OrderPool
  import opened OrderFacts
  import opened OrderResults
  import opened OrderDisplaced
  import OrderAnswers
  import OrderBlocks
  import OrderCancel
  import OrderClaims

  // ----- submissions

  /** The owner has asked for the order to be cancelled. */
  ghost predicate Claimed(env: Env, s: State, h: Hash) {
    var (t, owner) := (s.core.tracker, env.info(h).owner);
    (h in t.cancelled && t.cancelled[h].from == owner) || (h, owner) in s.pending
  }

  /** Every one of the callers is told, in order, and nobody waits any more; nothing else changes. */
  ghost predicate Refused(c: Core, d: Core, h: Hash, callers: seq<Caller>, reply: Reply) {
    && d == c.(subscribers := c.subscribers - {h}, out := d.out)
    && |d.out| == |c.out| + |callers| && d.out[..|c.out|] == c.out
    && forall i :: 0 <= i < |callers| ==> d.out[|c.out| + i] == Answered(callers[i], h, reply)
  }

  /** The caller waits, the sender is on record, and the order is under validation: by one new
      validation of the given origin exactly if it was not before. */
  ghost predicate Taken(c: Core, d: Core, h: Hash, origin: Origin, peer: Option<Peer>, caller: Option<Caller>) {
    && d.block == c.block && d.storage == c.storage
    && d.subscribers == (if caller.None? then c.subscribers else c.subscribers[h := Waiters(c, h) + [caller.value]])
    && d.tracker == c.tracker.(peers := d.tracker.peers, validating := c.tracker.validating + {h})
    && d.tracker.peers == (if peer.None? then c.tracker.peers
                           else c.tracker.peers[h := (if h in c.tracker.peers then c.tracker.peers[h] else [])
                               + [peer.value]])
    && if h in c.tracker.validating then d.pipe == c.pipe && d.out == c.out
       else Load(d.pipe) == Load(c.pipe) + multiset{Job(origin, h)} && d.out == c.out + [Submitted(Job(origin, h))]
  }

  lemma {:induction false} RepliesAre(callers: seq<Caller>, h: Hash, reply: Reply)
    ensures |Replies(callers, h, reply)| == |callers|
    ensures forall i :: 0 <= i < |callers| ==> Replies(callers, h, reply)[i] == Answered(callers[i], h, reply)
  {
    if callers != [] { RepliesAre(callers[..|callers| - 1], h, reply); }
  }

  lemma AnswerRefuses(c: Core, h: Hash, caller: Option<Caller>, reply: Reply)
    ensures Refused(c, Answer(Subscribe(c, h, caller), h, reply), h,
        Waiters(c, h) + (if caller.Some? then [caller.value] else []), reply)
  {
    hide Replies, Refused;
    var c0 := Subscribe(c, h, caller);
    var callers := Waiters(c, h) + (if caller.Some? then [caller.value] else []);
    assert c0 == c.(subscribers := c0.subscribers);
    assert c0.subscribers - {h} == c.subscribers - {h};
    if h in c0.subscribers {
      assert c0.subscribers[h] == callers;
      assert Answer(c0, h, reply) == c.(subscribers := c.subscribers - {h}, out := c.out + Replies(callers, h, reply));
    } else {
      assert c.subscribers - {h} == c.subscribers && callers == [];
      RepliesAre(callers, h, reply);
      assert Answer(c0, h, reply) == c.(subscribers := c.subscribers - {h}, out := c.out + []);
    }
    AllTold(c, h, callers, reply);
  }

  lemma AllTold(c: Core, h: Hash, callers: seq<Caller>, reply: Reply)
    ensures Refused(c, c.(subscribers := c.subscribers - {h}, out := c.out + Replies(callers, h, reply)), h, callers,
        reply)
  {
    hide Replies;
    RepliesAre(callers, h, reply);
  }

  /** Every submission is refused as cancelled if the owner has a claim; else as a duplicate if the
      order is indexed or was found invalid in this block; else taken. */
  lemma SubmissionMeans(env: Env, s: State, e: Event)
    requires e.OrderArrives?
    ensures var (c, d, h) := (s.core, Step(env, s, e).core, e.hash);
      var callers := Waiters(c, h) + (if e.caller.Some? then [e.caller.value] else []);
      && Step(env, s, e).pending == s.pending
      && if Claimed(env, s, h) then Refused(c, d, h, callers, CancelledOrder)
         else if h in c.tracker.indexed || h in c.tracker.seenInvalid then Refused(c, d, h, callers, DuplicateOrder)
         else Taken(c, d, h, e.origin, e.peer, e.caller)
  {
    hide Refused, Answer, Load, Submit;
    AnswerRefuses(s.core, e.hash, e.caller, CancelledOrder);
    AnswerRefuses(s.core, e.hash, e.caller, DuplicateOrder);
    SubmitLoad(s.core.pipe, Job(e.origin, e.hash));
    assert e.hash in s.core.tracker.validating ==> s.core.tracker.validating + {e.hash} == s.core.tracker.validating;
  }

  // ----- cancellations

  predicate AlreadyConfirmed(c: Core, user: Address, h: Hash) {
    h in c.tracker.cancelled && c.tracker.cancelled[h].ownerVerified && c.tracker.cancelled[h].from == user
  }

  /** Awaiting finalisation, or stored where a cancellation can reach it. */
  predicate CanBeCancelled(env: Env, c: Core, h: Hash) {
    h in c.storage.finalizing.held ||
    (h in c.storage.entries && (env.info(h).topOfBlock || !c.storage.entries[h].parked))
  }

  predicate Confirms(env: Env, c: Core, user: Address, h: Hash) {
    && env.info(h).owner == user && h in c.tracker.indexed && h !in c.tracker.seenInvalid
    && !AlreadyConfirmed(c, user, h) && CanBeCancelled(env, c, h)
  }

  /** The answer is true exactly for the owner's signed request on an order whose cancellation is
      confirmed, before or by this very request. */
  lemma CancelTrueIff(env: Env, s: State, user: Address, h: Hash, signatureValid: bool, now: Time)
    requires OrderCancel.OwnersOnly(env, s.core)
    ensures CancelOrder(env, s, user, h, signatureValid, now).1 <==>
      signatureValid && env.info(h).owner == user &&
          (AlreadyConfirmed(s.core, user, h) || Confirms(env, s.core, user, h))
  {
    hide RevalidateParked;
  }

  /** Any other request leaves the pool as it is; a signed one may leave a claim, 84000 seconds long,
      unless the index knows another owner, the cancellation is confirmed or the order is invalid. */
  lemma CancelOtherwise(env: Env, s: State, user: Address, h: Hash, signatureValid: bool, now: Time)
    requires !signatureValid || !Confirms(env, s.core, user, h)
    ensures var t := s.core.tracker;
      CancelOrder(env, s, user, h, signatureValid, now).0 ==
        if signatureValid && !(h in t.indexed && env.info(h).owner != user)
           && !AlreadyConfirmed(s.core, user, h) && h !in t.seenInvalid
        then s.(pending := s.pending[(h, user) := now + 84000]) else s
  {
    hide RevalidateParked;
  }

  /** The orders of the address that go back to the validator: parked ones, and all top-of-block ones. */
  predicate ReturnsWith(env: Env, c: Core, user: Address, g: Hash) {
    && user in c.tracker.byAddress && g in c.tracker.byAddress[user] && g in c.storage.entries
    && (c.storage.entries[g].parked || env.info(g).topOfBlock)
  }

  lemma {:induction false} TakeParkedMeans(env: Env, st: Storage, hs: seq<Hash>)
    ensures var (after, got) := TakeParked(env, st, hs);
      && (forall g :: g in got <==> g in st.entries && g in hs && (st.entries[g].parked || env.info(g).topOfBlock))
      && (forall g :: multiset(got)[g] <= 1)
      && (forall g :: g in after.entries <==> g in st.entries && g !in got)
      && (forall g :: g in after.entries ==> after.entries[g] == st.entries[g])
      && after == st.(entries := after.entries)
  {
    if hs != [] {
      var n := |hs| - 1;
      TakeParkedMeans(env, st, hs[..n]);
      var (before, got) := TakeParked(env, st, hs[..n]);
      var h := hs[n];
      assert hs == hs[..n] + [h];
      var times: multiset<Hash> := multiset(got);
      assert h !in got ==> times[h] == 0;
      assert multiset(got + [h]) == times + multiset{h};
    }
  }

  /** The entry of a cancelled order; one that is awaiting finalisation stays as it is. */
  function Flagged(st: Storage, h: Hash): Entry
    requires h in st.entries
  {
    if h in st.finalizing.held then st.entries[h] else st.entries[h].(cancelRequested := true)
  }

  /** The storage after the flag is set, before the parked orders are taken out. */
  lemma FlagMeans(env: Env, c: Core, h: Hash)
    requires CanBeCancelled(env, c, h)
    ensures var (st, ok) := CancelStored(env, c.storage, h);
      && ok && st == c.storage.(entries := st.entries) && st.entries.Keys == c.storage.entries.Keys
      && (forall g :: g in st.entries && g != h ==> st.entries[g] == c.storage.entries[g])
      && (h in st.entries ==> st.entries[h] == Flagged(c.storage, h))
  {
  }

  /** A request that confirms the cancellation: the order leaves the index and, unless it is awaiting
      finalisation, is flagged in the book; the owner's parked and top-of-block orders go back to the
      validator, each once; no other entry changes; the reservation is released first and the
      cancellation announced last. */
  lemma CancelEffect(env: Env, s: State, user: Address, h: Hash, now: Time) returns (back: seq<Hash>)
    requires Faithful(env) && Confirms(env, s.core, user, h)
    ensures forall g :: (g in back <==> ReturnsWith(env, s.core, user, g)) && multiset(back)[g] <= 1
    ensures var (c, after) := (s.core, CancelOrder(env, s, user, h, true, now).0);
      var d := after.core;
      && after.pending == (map k | k in s.pending && k.0 != h :: s.pending[k])
      && d.block == c.block && d.subscribers == c.subscribers
      && d.tracker == c.tracker.(indexed := c.tracker.indexed - {h},
           cancelled := c.tracker.cancelled[h := Claim(user, now + 84000, true)])
      && d.storage == c.storage.(entries := d.storage.entries)
      && (forall g :: g in d.storage.entries <==> g in c.storage.entries && g !in back)
      && (forall g :: g in d.storage.entries && g != h ==> d.storage.entries[g] == c.storage.entries[g])
      && (h in d.storage.entries ==> d.storage.entries[h] == Flagged(c.storage, h))
      && Load(d.pipe) == Load(c.pipe) + Jobs(ReValidation, back)
      && d.out == c.out + [Released(user, h)] + Submissions(ReValidation, back)
           + [Announced(Cancelled(h, user, env.info(h).topOfBlock, env.info(h).pool))]
  {
    hide CancelStored, TakeParked, SubmitAll, Submissions, Jobs, Load, Silent, Heard;
    var c := s.core;
    FlagMeans(env, c, h);
    var flagged := CancelStored(env, c.storage, h).0;
    var t := ConfirmCancel(c.tracker.(indexed := c.tracker.indexed - {h}), user, h, CancellationDeadline(now));
    var c1 := Emit(c.(storage := flagged, tracker := t), Released(user, h));
    back := [];
    if user in c.tracker.byAddress {
      var ids := c.tracker.byAddress[user];
      assert Lists(env.arrange(ids), ids);
      TakeParkedMeans(env, flagged, env.arrange(ids));
      var (st, got) := TakeParked(env, flagged, env.arrange(ids));
      SubmitAllSilent(c1.(storage := st), ReValidation, got, h);
      SubmitAllOut(c1.(storage := st), ReValidation, got);
      back := got;
    } else {
      NothingBack();
      assert c1.out + [] == c1.out;
    }
  }

  lemma NothingBack()
    ensures Submissions(ReValidation, []) == [] && Jobs(ReValidation, []) == multiset{}
  {
  }

  // ----- a cancelled order leaves the book with the block

  /** The order is not stored, or flagged. */
  ghost predicate Leaving(c: Core, h: Hash) {
    h in c.storage.entries ==> c.storage.entries[h].cancelRequested
  }

  lemma PollKeepsLeaving(env: Env, s: State, ready: Readiness, v: Verdict, now: Time, h: Hash)
    requires OwnerClaim(env, s, h) && Leaving(s.core, h)
    ensures Leaving(PollPool(env, s, ready, v, now).core, h)
  {
    hide HandleCore, FinishCore, PollNext, Load, Busy, Heard;
    if Fits(s.core.pipe, ready) {
      var (pipe, res) := PollNext(s.core.pipe, ready);
      var s1 := s.(core := s.core.(pipe := pipe));
      match res {
        case ValidatedOrder(job) =>
          assert job.hash == h ==> OwnerClaim(env, s1, job.hash);
          ResultHandled(env, s1.core, OwnerClaim(env, s1, job.hash), job.hash, v, now, h);
        case EnsureClearForTransition(notice) => FinishSilent(env, s1.core, notice, now, h);
        case _ =>
      }
    }
  }

  lemma StepKeepsLeaving(env: Env, s: State, e: Event, h: Hash)
    requires OwnerClaim(env, s, h) && Leaving(s.core, h)
    ensures Leaving(Step(env, s, e).core, h)
  {
    hide OwnerClaim, Load, Busy, Heard, PollPool;
    if e.OrderArrives? {
      assert Step(env, s, e).core.storage == s.core.storage;
    } else if e.Polled? {
      PollKeepsLeaving(env, s, e.ready, e.verdict, e.now, h);
    } else {
      OrderAnswers.OtherSilent(env, s, e, h);
    }
  }

  /** No event of the run ends a block. */
  ghost predicate WithinBlock(env: Env, s: State, events: seq<Event>) {
    events != [] ==>
      && WithinBlock(env, s, events[..|events| - 1])
      && !OrderClaims.EndsBlock(Run(env, s, events[..|events| - 1]), events[|events| - 1])
  }

  lemma {:induction false} RunKeepsLeaving(env: Env, s: State, events: seq<Event>, h: Hash)
    requires OwnerClaim(env, s, h) && Leaving(s.core, h) && WithinBlock(env, s, events)
    ensures OwnerClaim(env, Run(env, s, events), h) && Leaving(Run(env, s, events).core, h)
  {
    hide Step, OwnerClaim, Leaving, OrderClaims.EndsBlock;
    if events != [] {
      var (before, e) := (events[..|events| - 1], events[|events| - 1]);
      RunKeepsLeaving(env, s, before, h);
      OrderClaims.ClaimStands(env, Run(env, s, before), e, h);
      StepKeepsLeaving(env, Run(env, s, before), e, h);
    }
  }

  /** An order whose cancellation was confirmed while it was not awaiting finalisation is out of storage
      after the end of the block, whatever happens until then. */
  lemma CancelledLeavesStorage(env: Env, s: State, user: Address, h: Hash, now: Time, events: seq<Event>,
      notice: Notice, later: Time)
    requires Faithful(env) && Confirms(env, s.core, user, h) && h !in s.core.storage.finalizing.held
    requires WithinBlock(env, CancelOrder(env, s, user, h, true, now).0, events)
    requires Run(env, CancelOrder(env, s, user, h, true, now).0, events).core.pipe.WaitingForStorageCleanup?
    ensures var last := Run(env, CancelOrder(env, s, user, h, true, now).0, events);
      h !in FinishNewBlock(env, last, notice, later).core.storage.entries
  {
    hide CancelOrder, Run, WithinBlock, FinishCore, Load, Jobs, Submissions;
    var after := CancelOrder(env, s, user, h, true, now).0;
    var back := CancelEffect(env, s, user, h, now);
    assert OwnerClaim(env, after, h) && Leaving(after.core, h);
    RunKeepsLeaving(env, after, events, h);
    var expired, resent := OrderBlocks.BlockChangeEffect(env, Run(env, after, events).core, notice, later);
  }
}
