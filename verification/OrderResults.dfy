/** What each kind of validation result does, whichever of the four ways it is handled. */
module OrderResults {
  import opened Pipeline
  import opened OrderPool
  import opened OrderFacts

  function Waiters(c: Core, h: Hash): seq<Caller> {
    if h in c.subscribers then c.subscribers[h] else []
  }

  predicate Accepts(c: Core, claimed: bool, v: Verdict) {
    v.Valid? && v.validBlock == c.block && !claimed
  }

  function ReplyTo(c: Core, claimed: bool, v: Verdict): Reply {
    if v.Invalid? then InvalidOrder(v.reason)
    else if v.validBlock != c.block then InvalidAtBlock
    else if claimed then CancelledOrder
    else if v.parked then StateError
    else ValidOrder
  }

  /** What a result makes the pool say about the order it is for. */
  function Says(c: Core, claimed: bool, g: Hash, v: Verdict): seq<Out> {
    var replies := Replies(Waiters(c, g), g, ReplyTo(c, claimed, v));
    if Accepts(c, claimed, v) then [Announced(New(g))] + replies + [Propagated(g)] else replies
  }

  /** The change a result for `g` may make, seen from the order `h`. */
  ghost predicate Handled(c: Core, d: Core, g: Hash, said: seq<Out>, accepted: bool, h: Hash) {
    && Heard(d.out, h) == Heard(c.out, h) + (if g == h then said else [])
    && d.subscribers == c.subscribers - {g}
    && c.tracker.validating - {g} <= d.tracker.validating
    && (forall x :: x in d.tracker.validating ==> (x in c.tracker.validating && x != g) || Busy(d.pipe, x))
    && Load(c.pipe) <= Load(d.pipe)
    && d.tracker.peers.Keys <= c.tracker.peers.Keys - {g}
    && ((accepted && g == h) || NoMore(c.storage, d.storage, h)) && d.storage.parkable <= c.storage.parkable
    && (h in d.tracker.indexed ==> h in c.tracker.indexed || (accepted && g == h))
  }

  lemma AnswerHeard(c: Core, g: Hash, reply: Reply, h: Hash)
    ensures Heard(Answer(c, g, reply).out, h) == Heard(c.out, h)
        + (if g == h then Replies(Waiters(c, g), g, reply) else [])
    ensures Answer(c, g, reply) == c.(subscribers := c.subscribers - {g}, out := Answer(c, g, reply).out)
  {
    HeardReplies(Waiters(c, g), g, reply, h);
    if g in c.subscribers {
      HeardConcat(c.out, Replies(c.subscribers[g], g, reply), h);
    } else {
      assert c.subscribers - {g} == c.subscribers;
    }
  }

  lemma VerificationSilent(c: Core, g: Hash, h: Hash)
    ensures Silent(c, InvalidVerification(c, g), h)
    ensures g !in InvalidVerification(c, g).tracker.peers
  {
    hide Silent, Load, Busy, Heard;
    var t := c.tracker.(seenInvalid := c.tracker.seenInvalid + {g}, peers := c.tracker.peers - {g});
    LessTracked(c, t, h);
    EmitSilent(WithTracker(c, t), BadPeers(if g in c.tracker.peers then c.tracker.peers[g] else []), h);
    SilentChain(c, WithTracker(c, t), InvalidVerification(c, g), h);
  }

  /** Stopping and answering first, then silent work that forgets the peers. */
  lemma AnswerThenSilent(c: Core, c1: Core, d: Core, g: Hash, reply: Reply, h: Hash)
    requires c1 == Answer(StopValidating(c, g), g, reply)
    requires Silent(c1, d, h) && g !in d.tracker.peers
    ensures Handled(c, d, g, Replies(Waiters(c, g), g, reply), false, h)
  {
    hide Load, Busy, Heard, Replies;
    AnswerHeard(StopValidating(c, g), g, reply, h);
  }

  lemma InvalidHandled(env: Env, c: Core, g: Hash, reason: nat, h: Hash)
    ensures Handled(c, InvalidResult(env, c, g, reason), g, Replies(Waiters(c, g), g, InvalidOrder(reason)), false, h)
  {
    hide Silent, Load, Busy, Heard, Handled, InvalidVerification, Answer;
    var c1 := Answer(StopValidating(c, g), g, InvalidOrder(reason));
    var c2 := c1.(storage := Dropped(env, c1.storage, g));
    LessStored(c1, c2.storage, h);
    VerificationSilent(c2, g, h);
    SilentChain(c1, c2, InvalidVerification(c2, g), h);
    AnswerThenSilent(c, c1, InvalidVerification(c2, g), g, InvalidOrder(reason), h);
  }

  lemma StaleHandled(env: Env, c: Core, g: Hash, displaced: seq<Hash>, h: Hash)
    ensures Handled(c, StaleResult(env, c, g, displaced), g, Replies(Waiters(c, g), g, InvalidAtBlock), false, h)
  {
    hide Silent, Load, Busy, Heard, Handled, Revalidate, InvalidVerification, Answer;
    var c1 := Answer(StopValidating(c, g), g, InvalidAtBlock);
    var released := Emit(c1, Released(env.info(g).owner, g));
    var c2 := Revalidate(env, released, displaced);
    EmitSilent(c1, Released(env.info(g).owner, g), h);
    RevalidateFacts(env, released, displaced, h);
    SilentChain(c1, released, c2, h);
    VerificationSilent(c2, g, h);
    SilentChain(c1, c2, InvalidVerification(c2, g), h);
    AnswerThenSilent(c, c1, InvalidVerification(c2, g), g, InvalidAtBlock, h);
  }

  lemma SilentThenAnswer(c: Core, c3: Core, d: Core, g: Hash, reply: Reply, h: Hash)
    requires Silent(StopValidating(c, g), c3, h) && g !in c3.tracker.peers
    requires d == Emit(Answer(c3, g, reply), NoEvent)
    ensures Handled(c, d, g, Replies(Waiters(c, g), g, reply), false, h)
  {
    hide Load, Busy, Heard, Replies;
    AnswerHeard(c3, g, reply, h);
    HeardOne(Answer(c3, g, reply).out, NoEvent, h);
  }

  lemma CancelledHandled(env: Env, c: Core, g: Hash, displaced: seq<Hash>, now: Time, h: Hash)
    ensures Handled(c, CancelledResult(env, c, g, displaced, now), g,
        Replies(Waiters(c, g), g, CancelledOrder), false, h)
  {
    hide Silent, Load, Busy, Heard, Handled, Revalidate, Answer;
    var owner := env.info(g).owner;
    var c0 := StopValidating(c, g);
    var released := Emit(c0, Released(owner, g));
    EmitSilent(c0, Released(owner, g), h);
    var c1 := Revalidate(env, released, displaced);
    RevalidateFacts(env, released, displaced, h);
    SilentChain(c0, released, c1, h);
    var t := ConfirmCancel(c1.tracker.(peers := c1.tracker.peers - {g}, indexed := c1.tracker.indexed - {g}),
                           owner, g, CancelUntil(now, env.info(g).deadline));
    var c2 := WithTracker(c1, t);
    LessTracked(c1, t, h);
    SilentChain(c0, c1, c2, h);
    var o := Announced(Cancelled(g, owner, env.info(g).topOfBlock, env.info(g).pool));
    var c3 := if g in c1.tracker.indexed then Emit(c2, o) else c2;
    if g in c1.tracker.indexed {
      EmitSilent(c2, o, h);
      SilentChain(c0, c2, c3, h);
    }
    SilentThenAnswer(c, c3, CancelledResult(env, c, g, displaced, now), g, CancelledOrder, h);
  }

  lemma AcceptedHandled(env: Env, c: Core, g: Hash, parked: bool, level: nat, displaced: seq<Hash>, h: Hash)
    ensures Handled(c, AcceptedResult(env, c, g, parked, level, displaced), g,
      [Announced(New(g))] + Replies(Waiters(c, g), g, if parked then StateError else ValidOrder) + [Propagated(g)],
          true, h)
  {
    hide Silent, Load, Busy, Heard, Handled, Revalidate, Answer, Replies, Insert;
    var reply := if parked then StateError else ValidOrder;
    var c1 := Emit(StopValidating(c, g), Announced(New(g)));
    var c2 := Answer(c1, g, reply);
    var c2t := WithTracker(c2, IndexValid(env, c2.tracker, g));
    var c3 := Revalidate(env, c2t, displaced);
    RevalidateFacts(env, c2t, displaced, h);
    var d := Emit(c3.(storage := Insert(env, c3.storage, g, parked, level)), Propagated(g));
    HeardOne(StopValidating(c, g).out, Announced(New(g)), h);
    AnswerHeard(c1, g, reply, h);
    HeardOne(c3.out, Propagated(g), h);
    AcceptedJoin(env, c, c2t, c3, d, g, parked, level, reply, h);
  }

  lemma AcceptedJoin(env: Env, c: Core, c2: Core, c3: Core, d: Core, g: Hash, parked: bool, level: nat, reply: Reply,
      h: Hash)
    requires Heard(c2.out, h) == Heard(c.out, h) + (if g == h then [Announced(New(g))] else []) +
      (if g == h then Replies(Waiters(c, g), g, reply) else [])
    requires c2 == c.(out := c2.out, subscribers := c.subscribers - {g}, tracker :=
      IndexValid(env, c.tracker.(validating := c.tracker.validating - {g}), g))
    requires Silent(c2, c3, h)
    requires d == c3.(storage := Insert(env, c3.storage, g, parked, level), out := c3.out + [Propagated(g)])
    requires Heard(d.out, h) == Heard(c3.out, h) + (if About(Propagated(g), h) then [Propagated(g)] else [])
    ensures Handled(c, d, g, [Announced(New(g))] + Replies(Waiters(c, g), g, reply) + [Propagated(g)], true, h)
  {
    hide Load, Busy, Heard, Replies;
    assert h in d.storage.entries ==> h in c3.storage.entries || h == g;
  }

  /** Every result answers all that wait for its order, and publishes the order only if it is
      current and not cancelled. */
  lemma ResultHandled(env: Env, c: Core, claimed: bool, g: Hash, v: Verdict, now: Time, h: Hash)
    ensures Handled(c, HandleCore(env, c, claimed, g, v, now), g, Says(c, claimed, g, v), Accepts(c, claimed, v), h)
  {
    hide InvalidResult, StaleResult, CancelledResult, AcceptedResult, Handled, Replies;
    if v.Invalid? {
      InvalidHandled(env, c, g, v.reason, h);
    } else if v.validBlock != c.block {
      StaleHandled(env, c, g, v.invalidates, h);
    } else if claimed {
      CancelledHandled(env, c, g, v.invalidates, now, h);
    } else {
      AcceptedHandled(env, c, g, v.parked, v.level, v.invalidates, h);
    }
  }
}
