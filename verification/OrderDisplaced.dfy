/** Orders displaced by a validation result: each leaves storage and goes back to the validator,
    on all three ways out, unless its price level was taken out under it. */
module OrderDisplaced {
  import opened Pipeline
  import opened OrderPool
  import opened OrderFacts
  import opened OrderResults

  // ----- which removals hand the order back

  /** A limit order in the book, at a price level. */
  predicate Booked(env: Env, st: Storage, h: Hash) {
    h in st.entries && !env.info(h).topOfBlock && !st.entries[h].parked
  }

  /** The pool, and the side and price in its book, of a stored order. */
  function Place(env: Env, st: Storage, h: Hash): (PoolId, nat)
    requires h in st.entries
  {
    (env.info(h).pool, st.entries[h].level)
  }

  ghost predicate TakesLevel(env: Env, st: Storage, hs: seq<Hash>, allowed: set<Hash>, l: (PoolId, nat)) {
    exists g :: g in hs && g in allowed && Booked(env, st, g) && Place(env, st, g) == l
  }

  lemma {:induction false} TakeLevels(env: Env, st: Storage, hs: seq<Hash>, allowed: set<Hash>, l: (PoolId, nat))
    ensures l in Take(env, st, hs, allowed).0.levels <==> l in st.levels && !TakesLevel(env, st, hs, allowed, l)
  {
    if hs != [] {
      var n := |hs| - 1;
      TakeLevels(env, st, hs[..n], allowed, l);
      TakeFacts(env, st, hs[..n], allowed);
      LastTakes(env, st, hs, allowed, l);
    }
  }

  lemma LastTakes(env: Env, st: Storage, hs: seq<Hash>, allowed: set<Hash>, l: (PoolId, nat))
    requires hs != []
    ensures var (n, g) := (|hs| - 1, hs[|hs| - 1]);
      TakesLevel(env, st, hs, allowed, l) <==>
        TakesLevel(env, st, hs[..n], allowed, l) ||
        (g in allowed && Booked(env, st, g) && Place(env, st, g) == l)
  {
    assert hs == hs[..|hs| - 1] + [hs[|hs| - 1]];
  }

  lemma {:induction false} HandedBackOnce(env: Env, st: Storage, hs: seq<Hash>, allowed: set<Hash>, i: nat)
    requires i < |hs|
    ensures hs[i] in Take(env, st, hs, allowed).1 <==> hs[i] in Take(env, st, hs[..i + 1], allowed).1
    decreases |hs|
  {
    var n := |hs| - 1;
    if i < n {
      assert hs[..n][..i + 1] == hs[..i + 1];
      HandedBackOnce(env, st, hs[..n], allowed, i);
      TakeFacts(env, st, hs[..n], allowed);
      assert hs[..n][i] == hs[i];
    } else {
      assert hs[..i + 1] == hs;
    }
  }

  /** Exactly when a removal hands the order back: it is top-of-block or parked, or its price
      level is there and no order removed before it sat at that level. */
  lemma HandedBackIff(env: Env, st: Storage, hs: seq<Hash>, allowed: set<Hash>, i: nat)
    requires i < |hs| && hs[i] !in hs[..i]
    ensures var h := hs[i];
      h in Take(env, st, hs, allowed).1 <==>
        && h in st.entries && h in allowed
        && (env.info(h).topOfBlock || st.entries[h].parked ||
            (Place(env, st, h) in st.levels &&
                !TakesLevel(env, st, hs[..i], allowed, Place(env, st, h))))
  {
    var h := hs[i];
    HandedBackOnce(env, st, hs, allowed, i);
    TakeFacts(env, st, hs[..i], allowed);
    assert hs[..i + 1][..i] == hs[..i];
    if h in st.entries { TakeLevels(env, st, hs[..i], allowed, Place(env, st, h)); }
  }

  // ----- when no level is shared, every order is handed back

  /** Every booked order's level is in the index, and no two booked orders share one. */
  ghost predicate LevelsSound(env: Env, st: Storage) {
    && (forall h :: Booked(env, st, h) ==> Place(env, st, h) in st.levels)
    && (forall g, h :: Booked(env, st, g) && Booked(env, st, h) && g != h ==>
          Place(env, st, g) != Place(env, st, h))
  }

  lemma DropKeepsSound(env: Env, st: Storage, h: Hash)
    requires LevelsSound(env, st)
    ensures LevelsSound(env, Dropped(env, st, h))
  {
    var after := Dropped(env, st, h);
    assert Booked(env, st, h) ==> after.levels == st.levels - {Place(env, st, h)};
    assert !Booked(env, st, h) ==> after.levels == st.levels;
    assert forall g :: Booked(env, after, g) ==>
        Booked(env, st, g) && g != h && Place(env, after, g) == Place(env, st, g);
  }

  /** Without shared levels, exactly the stored orders among those asked for are handed back. */
  lemma {:induction false} AllHandedBack(env: Env, st: Storage, hs: seq<Hash>, allowed: set<Hash>)
    requires LevelsSound(env, st)
    ensures LevelsSound(env, Take(env, st, hs, allowed).0)
    ensures forall h :: h in Take(env, st, hs, allowed).1 <==> h in st.entries && h in hs && h in allowed
  {
    hide LevelsSound, Dropped;
    if hs != [] {
      var (n, g) := (|hs| - 1, hs[|hs| - 1]);
      var before := Take(env, st, hs[..n], allowed).0;
      AllHandedBack(env, st, hs[..n], allowed);
      TakeFacts(env, st, hs[..n], allowed);
      DropKeepsSound(env, before, g);
      assert g in before.entries ==> Retrievable(env, before, g) by { SoundRetrieves(env, before, g); }
      assert hs == hs[..n] + [g];
    }
  }

  lemma SoundRetrieves(env: Env, st: Storage, h: Hash)
    requires LevelsSound(env, st)
    ensures h in st.entries ==> Retrievable(env, st, h)
  {
    assert h in st.entries && !env.info(h).topOfBlock && !st.entries[h].parked ==> Booked(env, st, h);
  }

  /** An insertion keeps levels apart exactly if it does not land on an occupied one. */
  lemma InsertKeepsSound(env: Env, st: Storage, h: Hash, parked: bool, level: nat)
    requires LevelsSound(env, st)
    ensures LevelsSound(env, Insert(env, st, h, parked, level)) <==> Fresh(env, st, h, parked, level)
  {
    var after := Insert(env, st, h, parked, level);
    assert forall g :: g != h ==> (Booked(env, after, g) <==> Booked(env, st, g));
    if HasRoom(env, st, h, parked) && !parked && !env.info(h).topOfBlock {
      assert Booked(env, after, h);
    }
  }

  ghost predicate Fresh(env: Env, st: Storage, h: Hash, parked: bool, level: nat) {
    HasRoom(env, st, h, parked) && !parked && !env.info(h).topOfBlock ==>
      forall g :: g != h && Booked(env, st, g) ==> Place(env, st, g) != (env.info(h).pool, level)
  }

  /** Two orders at one level: removing both hands back only the first. */
  lemma SharedLevelLosesAnOrder(env: Env, st: Storage, g: Hash, h: Hash)
    requires g != h && Booked(env, st, g) && Booked(env, st, h)
    requires Place(env, st, g) == Place(env, st, h) &&
        Place(env, st, h) in st.levels
    ensures Take(env, st, [g, h], {g, h}).1 == [g]
    ensures h !in Take(env, st, [g, h], {g, h}).0.entries
  {
    assert [g, h][..1] == [g];
    var none: seq<Hash> := [];
    assert [g][..0] == none && none + [g] == [g];
    assert Take(env, st, none, {g, h}) == (st, none);
    assert Take(env, st, [g], {g, h}) == (Dropped(env, st, g), [g]);
  }

  // ----- what a result does to the displaced orders

  /** The index in which displaced orders are looked up: an accepted order is in it already. */
  function LookedUp(c: Core, claimed: bool, h: Hash, v: Verdict): set<Hash> {
    if Accepts(c, claimed, v) then c.tracker.indexed + {h} else c.tracker.indexed
  }

  function Displaced(env: Env, c: Core, claimed: bool, h: Hash, v: Verdict): (Storage, seq<Hash>)
    requires v.Valid?
  {
    Take(env, c.storage, v.invalidates, LookedUp(c, claimed, h, v))
  }

  function Submissions(origin: Origin, hs: seq<Hash>): seq<Out> {
    if hs == [] then [] else Submissions(origin, hs[..|hs| - 1]) + [Submitted(Job(origin, hs[|hs| - 1]))]
  }

  lemma {:induction false} SubmitAllOut(c: Core, origin: Origin, hs: seq<Hash>)
    ensures SubmitAll(c, origin, hs).out == c.out + Submissions(origin, hs)
  {
    if hs == [] {
      assert c.out + [] == c.out;
    } else {
      SubmitAllOut(c, origin, hs[..|hs| - 1]);
    }
  }

  lemma RevalidateOut(env: Env, c: Core, displaced: seq<Hash>)
    ensures Revalidate(env, c, displaced).out ==
      c.out + Submissions(ReValidation, Take(env, c.storage, displaced, c.tracker.indexed).1)
    ensures Revalidate(env, c, displaced).subscribers == c.subscribers
  {
    hide SubmitAll, Take, Submissions, Load, Busy, Heard;
    var (st, got) := Take(env, c.storage, displaced, c.tracker.indexed);
    var t := c.tracker.(validating := c.tracker.validating + (set h | h in got));
    SubmitAllOut(c.(storage := st, tracker := t), ReValidation, got);
    RevalidateFacts(env, c, displaced, 0);
  }

  function Said(c: Core, h: Hash, reply: Reply): seq<Out> {
    Replies(Waiters(c, h), h, reply)
  }

  lemma AnswerOut(c: Core, h: Hash, reply: Reply)
    ensures Answer(c, h, reply).out == c.out + Said(c, h, reply)
  {
    if h !in c.subscribers { assert c.out + [] == c.out; }
  }

  /** The stale way out: callers are told, the reservation is released before any displaced
      order goes back, and the peers are reported. */
  lemma StaleOutput(env: Env, c: Core, claimed: bool, h: Hash, v: Verdict, now: Time)
    requires v.Valid? && v.validBlock != c.block
    ensures HandleCore(env, c, claimed, h, v, now).out ==
      c.out + Said(c, h, InvalidAtBlock) + [Released(env.info(h).owner, h)]
        + Submissions(ReValidation, Displaced(env, c, claimed, h, v).1)
        + [BadPeers(if h in c.tracker.peers then c.tracker.peers[h] else [])]
  {
    hide Revalidate, Replies, Submissions, Take, Answer;
    var c0 := StopValidating(c, h);
    AnswerOut(c0, h, InvalidAtBlock);
    AnswerHeard(c0, h, InvalidAtBlock, h);
    var released := Emit(Answer(c0, h, InvalidAtBlock), Released(env.info(h).owner, h));
    RevalidateOut(env, released, v.invalidates);
    RevalidateFacts(env, released, v.invalidates, h);
  }

  /** The cancelled way out: released, displaced orders sent back, then the cancellation told. */
  lemma CancelledOutput(env: Env, c: Core, h: Hash, v: Verdict, now: Time)
    requires v.Valid? && v.validBlock == c.block
    ensures HandleCore(env, c, true, h, v, now).out ==
      c.out + [Released(env.info(h).owner, h)]
        + Submissions(ReValidation, Displaced(env, c, true, h, v).1)
        + (if h in c.tracker.indexed
            then [Announced(Cancelled(h, env.info(h).owner, env.info(h).topOfBlock, env.info(h).pool))] else [])
        + Said(c, h, CancelledOrder) + [NoEvent]
  {
    hide Revalidate, Replies, Submissions, Take, Answer;
    var released := Emit(StopValidating(c, h), Released(env.info(h).owner, h));
    RevalidateOut(env, released, v.invalidates);
    RevalidateFacts(env, released, v.invalidates, h);
    var c1 := Revalidate(env, released, v.invalidates);
    var owner := env.info(h).owner;
    var t := c1.tracker;
    var c2 := WithTracker(c1, ConfirmCancel(
      t.(peers := t.peers - {h}, indexed := t.indexed - {h}), owner, h, CancelUntil(now, env.info(h).deadline)));
    var c3 := if h in t.indexed then Emit(c2, Announced(Cancelled(h, owner, env.info(h).topOfBlock, env.info(h).pool)))
        else c2;
    AnswerOut(c3, h, CancelledOrder);
  }

  /** The accepted way out: announced, callers told, displaced orders sent back, propagated. */
  lemma AcceptedOutput(env: Env, c: Core, h: Hash, v: Verdict, now: Time)
    requires v.Valid? && v.validBlock == c.block
    ensures HandleCore(env, c, false, h, v, now).out ==
      c.out + [Announced(New(h))] + Said(c, h, if v.parked then StateError else ValidOrder)
        + Submissions(ReValidation, Displaced(env, c, false, h, v).1) + [Propagated(h)]
  {
    hide Revalidate, Replies, Submissions, Take, Answer, Insert;
    var c1 := Emit(StopValidating(c, h), Announced(New(h)));
    var reply := if v.parked then StateError else ValidOrder;
    AnswerOut(c1, h, reply);
    AnswerHeard(c1, h, reply, h);
    var c2 := Answer(c1, h, reply);
    RevalidateOut(env, WithTracker(c2, IndexValid(env, c2.tracker, h)), v.invalidates);
  }

  /** The invalid way out: callers are told, the peers are reported, and the order is dropped from
      storage and remembered as invalid. */
  lemma InvalidOutput(env: Env, c: Core, claimed: bool, h: Hash, v: Verdict, now: Time)
    requires v.Invalid?
    ensures var d := HandleCore(env, c, claimed, h, v, now);
      && d.out == c.out + Said(c, h, InvalidOrder(v.reason))
           + [BadPeers(if h in c.tracker.peers then c.tracker.peers[h] else [])]
      && h in d.tracker.seenInvalid && d.tracker.validating == c.tracker.validating - {h}
      && d.pipe == c.pipe && d.tracker.indexed == c.tracker.indexed
      && (forall g :: g in d.storage.entries <==> g in c.storage.entries && g != h)
      && (forall g :: g in d.storage.entries ==> d.storage.entries[g] == c.storage.entries[g])
  {
    hide Replies, Answer;
    var c0 := StopValidating(c, h);
    AnswerOut(c0, h, InvalidOrder(v.reason));
    AnswerHeard(c0, h, InvalidOrder(v.reason), h);
  }

  /** Storage, marks and outstanding validations after a result, on all three ways out. */
  lemma ResultEffect(env: Env, c: Core, claimed: bool, h: Hash, v: Verdict, now: Time)
    requires v.Valid?
    ensures var d := HandleCore(env, c, claimed, h, v, now);
      var (st, got) := Displaced(env, c, claimed, h, v);
      && Load(d.pipe) == Load(c.pipe) + Jobs(ReValidation, got)
      && d.storage == (if Accepts(c, claimed, v) then Insert(env, st, h, v.parked, v.level) else st)
      && d.tracker.validating == c.tracker.validating - {h} + (set g | g in got)
      && (forall g :: g != h ==> (g in d.tracker.indexed <==> g in c.tracker.indexed))
  {
    hide Revalidate, Replies, Take, Load, Jobs, Silent;
    var c0 := StopValidating(c, h);
    if v.validBlock != c.block {
      RevalidateFacts(env, Emit(Answer(c0, h, InvalidAtBlock), Released(env.info(h).owner, h)), v.invalidates, h);
    } else if claimed {
      RevalidateFacts(env, Emit(c0, Released(env.info(h).owner, h)), v.invalidates, h);
    } else {
      var c2 := Answer(Emit(c0, Announced(New(h))), h, if v.parked then StateError else ValidOrder);
      RevalidateFacts(env, WithTracker(c2, IndexValid(env, c2.tracker, h)), v.invalidates, h);
    }
  }

  /** An indexed and stored order displaced by another's result leaves storage, stays indexed, and
      gains exactly one validation, and the mark, if it was handed back, and neither otherwise. */
  lemma DisplacedGoesBack(env: Env, c: Core, claimed: bool, h: Hash, v: Verdict, now: Time, g: Hash)
    requires v.Valid? && g in v.invalidates && g != h && g in c.tracker.indexed && g in c.storage.entries
    ensures var d := HandleCore(env, c, claimed, h, v, now);
      var back := g in Displaced(env, c, claimed, h, v).1;
      && g !in d.storage.entries
      && g in d.tracker.indexed
      && (g in d.tracker.validating <==> back || g in c.tracker.validating)
      && Load(d.pipe)[Job(ReValidation, g)] == Load(c.pipe)[Job(ReValidation, g)] + (if back then 1 else 0)
      && Load(d.pipe)[Job(Local, g)] == Load(c.pipe)[Job(Local, g)]
      && Load(d.pipe)[Job(External, g)] == Load(c.pipe)[Job(External, g)]
  {
    hide HandleCore, Take, Load, Jobs;
    ResultEffect(env, c, claimed, h, v, now);
    TakeFacts(env, c.storage, v.invalidates, LookedUp(c, claimed, h, v));
    var got := Displaced(env, c, claimed, h, v).1;
    JobsCount(ReValidation, got, Job(ReValidation, g));
    JobsCount(ReValidation, got, Job(Local, g));
    JobsCount(ReValidation, got, Job(External, g));
    var times: multiset<Hash> := multiset(got);
    assert times[g] <= 1 && (g in times <==> g in got);
  }

  /** An accepted order that was not stored before is stored exactly if its pool has room for it. */
  lemma AcceptedStoredIff(env: Env, c: Core, h: Hash, v: Verdict, now: Time)
    requires Accepts(c, false, v) && h !in c.storage.entries
    ensures var d := HandleCore(env, c, false, h, v, now);
      && (h in d.storage.entries <==>
           && env.info(h).pool in c.storage.pools
           && (v.parked && !env.info(h).topOfBlock ==> env.info(h).pool in c.storage.parkable))
      && (h in d.storage.entries ==> d.storage.entries[h] == Entry(v.parked && !env.info(h).topOfBlock, false, v.level))
  {
    hide HandleCore, Take, Load, Jobs;
    ResultEffect(env, c, false, h, v, now);
    TakeFacts(env, c.storage, v.invalidates, LookedUp(c, false, h, v));
  }

  /** With levels kept apart no displaced order is lost. */
  lemma DisplacedNeverLost(env: Env, c: Core, claimed: bool, h: Hash, v: Verdict, now: Time, g: Hash)
    requires v.Valid? && g in v.invalidates && g != h && g in c.tracker.indexed && g in c.storage.entries
    requires LevelsSound(env, c.storage)
    ensures var d := HandleCore(env, c, claimed, h, v, now);
      && g in d.tracker.validating && g !in d.storage.entries && g in d.tracker.indexed
      && Load(d.pipe)[Job(ReValidation, g)] == Load(c.pipe)[Job(ReValidation, g)] + 1
  {
    hide HandleCore, Take, Load, LevelsSound;
    AllHandedBack(env, c.storage, v.invalidates, LookedUp(c, claimed, h, v));
    DisplacedGoesBack(env, c, claimed, h, v, now, g);
  }
}
