/** Filled orders waiting for their block to be finalised. */
module Finalization {

  type Id = nat

  datatype Pool<O> = Pool(held: map<Id, O>, byBlock: map<nat, seq<Id>>)

  function Ids<O>(orders: seq<(Id, O)>): (ids: seq<Id>)
    ensures |ids| == |orders| && forall i :: 0 <= i < |ids| ==> ids[i] == orders[i].0
  {
    seq(|orders|, i requires 0 <= i < |orders| => orders[i].0)
  }

  /** Later insertions of an id replace earlier ones. */
  function InsertAll<O>(held: map<Id, O>, orders: seq<(Id, O)>): map<Id, O> {
    if orders == [] then held
    else InsertAll(held, orders[..|orders| - 1])[orders[|orders| - 1].0 := orders[|orders| - 1].1]
  }

  /** Remove the ids one after the other; what was there comes out, in that order. */
  function TakeAll<O>(held: map<Id, O>, ids: seq<Id>): (map<Id, O>, seq<(Id, O)>) {
    if ids == [] then (held, [])
    else
      var (rest, out) := TakeAll(held, ids[..|ids| - 1]);
      var id := ids[|ids| - 1];
      if id in rest then (rest - {id}, out + [(id, rest[id])]) else (rest, out)
  }

  /** The block must not be tracked yet: the source asserts it after having recorded it. */
  function NewOrders<O>(p: Pool<O>, block: nat, orders: seq<(Id, O)>): (Pool<O>, bool) {
    (Pool(InsertAll(p.held, orders), p.byBlock[block := Ids(orders)]), block in p.byBlock)
  }

  function Reorg<O>(p: Pool<O>, ids: seq<Id>): (Pool<O>, seq<(Id, O)>) {
    (p.(held := TakeAll(p.held, ids).0), TakeAll(p.held, ids).1)
  }

  function Finalized<O>(p: Pool<O>, block: nat): (Pool<O>, seq<(Id, O)>) {
    if block in p.byBlock then
      (Pool(TakeAll(p.held, p.byBlock[block]).0, p.byBlock - {block}), TakeAll(p.held, p.byBlock[block]).1)
    else (p, [])
  }

  class FinalizationPool<O> {
    var idToOrders: map<Id, O>
    var blockToIds: map<nat, seq<Id>>

    ghost function View(): Pool<O>
      reads this
    {
      Pool(idToOrders, blockToIds)
    }

    constructor ()
      ensures View() == Pool(map[], map[])
    {
      idToOrders := map[];
      blockToIds := map[];
    }

    method AddFilled(block: nat, orders: seq<(Id, O)>) returns (panicked: bool)
      modifies this
      ensures (View(), panicked) == NewOrders(old(View()), block, orders)
    {
      var ids := [];
      var i := 0;
      while i < |orders|
        invariant 0 <= i <= |orders|
        invariant idToOrders == InsertAll(old(idToOrders), orders[..i])
        invariant blockToIds == old(blockToIds)
        invariant ids == Ids(orders)[..i]
      {
        idToOrders := idToOrders[orders[i].0 := orders[i].1];
        ids := ids + [orders[i].0];
        i := i + 1;
        assert orders[..i][..i - 1] == orders[..i - 1];
      }
      assert orders[..|orders|] == orders && Ids(orders)[..|orders|] == Ids(orders);
      panicked := block in blockToIds;
      blockToIds := blockToIds[block := ids];
    }

    method Take(ids: seq<Id>) returns (out: seq<(Id, O)>)
      modifies this`idToOrders
      ensures (idToOrders, out) == TakeAll(old(idToOrders), ids)
    {
      out := [];
      var i := 0;
      while i < |ids|
        invariant 0 <= i <= |ids|
        invariant (idToOrders, out) == TakeAll(old(idToOrders), ids[..i])
      {
        assert ids[..i + 1][..i] == ids[..i];
        if ids[i] in idToOrders {
          out := out + [(ids[i], idToOrders[ids[i]])];
          idToOrders := idToOrders - {ids[i]};
        }
        i := i + 1;
      }
      assert ids[..|ids|] == ids;
    }

    method ReorgOrders(ids: seq<Id>) returns (out: seq<(Id, O)>)
      modifies this`idToOrders
      ensures (View(), out) == Reorg(old(View()), ids)
    {
      out := Take(ids);
    }

    method FinalizeBlock(block: nat) returns (out: seq<(Id, O)>)
      modifies this
      ensures (View(), out) == Finalized(old(View()), block)
    {
      if block !in blockToIds {
        return [];
      }
      var ids := blockToIds[block];
      blockToIds := blockToIds - {block};
      out := Take(ids);
    }
  }

  /** Exactly the ids named leave; each comes out once, with the order that was held. */
  lemma {:induction false} TakeAllSpec<O>(held: map<Id, O>, ids: seq<Id>)
    ensures var (rest, out) := TakeAll(held, ids);
      && (forall id :: id in rest <==> id in held && id !in ids)
      && (forall id :: id in rest ==> rest[id] == held[id])
      && (forall i :: 0 <= i < |out| ==> out[i].0 in held && out[i].0 in ids && out[i].1 == held[out[i].0])
      && multiset(Ids(out)) + multiset(rest.Keys) == multiset(held.Keys)
  {
    if ids != [] {
      var before := ids[..|ids| - 1];
      TakeAllSpec(held, before);
      var (rest, out) := TakeAll(held, before);
      var id := ids[|ids| - 1];
      assert forall x :: x in ids <==> x in before || x == id;
      if id in rest {
        assert Ids(out + [(id, rest[id])]) == Ids(out) + [id];
        assert rest.Keys == (rest - {id}).Keys + {id};
        assert multiset(rest.Keys) == multiset((rest - {id}).Keys) + multiset{id};
      }
    } else {
      assert Ids<O>([]) == [];
    }
  }

  lemma {:induction false} InsertAllSpec<O>(held: map<Id, O>, orders: seq<(Id, O)>)
    ensures InsertAll(held, orders).Keys == held.Keys + (set i | 0 <= i < |orders| :: orders[i].0)
  {
    if orders != [] {
      var before := orders[..|orders| - 1];
      InsertAllSpec(held, before);
      assert (set i | 0 <= i < |orders| :: orders[i].0)
          == (set i | 0 <= i < |before| :: before[i].0) + {orders[|orders| - 1].0};
    }
  }

  /** What an observer writes down: every insertion, every release, and every insertion that
      replaced an order still held. */
  datatype World<O> = World(pool: Pool<O>, inserted: multiset<Id>, released: seq<(Id, O)>, replaced: multiset<Id>)

  datatype Event<O> = Fill(block: nat, orders: seq<(Id, O)>) | Unfill(ids: seq<Id>) | Final(block: nat)

  predicate Enabled<O>(w: World<O>, e: Event<O>) {
    e.Fill? ==> e.block !in w.pool.byBlock
  }

  function Replaced<O>(held: map<Id, O>, orders: seq<(Id, O)>): multiset<Id> {
    if orders == [] then multiset{}
    else
      var before, id := orders[..|orders| - 1], orders[|orders| - 1].0;
      Replaced(held, before) + (if id in InsertAll(held, before) then multiset{id} else multiset{})
  }

  function Step<O>(w: World<O>, e: Event<O>): World<O> {
    match e
    case Fill(block, orders) =>
      World(NewOrders(w.pool, block, orders).0, w.inserted + multiset(Ids(orders)), w.released,
          w.replaced + Replaced(w.pool.held, orders))
    case Unfill(ids) => w.(pool := Reorg(w.pool, ids).0, released := w.released + Reorg(w.pool, ids).1)
    case Final(block) => w.(pool := Finalized(w.pool, block).0, released := w.released + Finalized(w.pool, block).1)
  }

  ghost predicate Listed<O>(p: Pool<O>) {
    forall id :: id in p.held ==> exists b :: b in p.byBlock && id in p.byBlock[b]
  }

  ghost predicate Conserved<O>(w: World<O>) {
    w.inserted == multiset(Ids(w.released)) + multiset(w.pool.held.Keys) + w.replaced
  }

  lemma {:induction false} InsertAllConserves<O>(held: map<Id, O>, orders: seq<(Id, O)>)
    ensures multiset(held.Keys) + multiset(Ids(orders)) == multiset(InsertAll(held, orders).Keys)
        + Replaced(held, orders)
  {
    if orders == [] {
      assert Ids(orders) == [];
    } else {
      var before, id := orders[..|orders| - 1], orders[|orders| - 1].0;
      InsertAllConserves(held, before);
      assert Ids(orders) == Ids(before) + [id];
      var now := InsertAll(held, before);
      assert InsertAll(held, orders).Keys == now.Keys + {id};
      MoveOne(multiset(held.Keys), multiset(Ids(before)), multiset(now.Keys), Replaced(held, before), id);
      if id in now {
        assert now.Keys + {id} == now.Keys;
      } else {
        assert multiset(now.Keys + {id}) == multiset(now.Keys) + multiset{id};
      }
    }
  }

  lemma MoveOne(a: multiset<Id>, b: multiset<Id>, c: multiset<Id>, d: multiset<Id>, id: Id)
    requires a + b == c + d
    ensures a + (b + multiset{id}) == c + (d + multiset{id}) == (c + multiset{id}) + d
  {
    assert a + (b + multiset{id}) == (a + b) + multiset{id};
  }

  lemma IdsConcat<O>(a: seq<(Id, O)>, b: seq<(Id, O)>)
    ensures Ids(a + b) == Ids(a) + Ids(b)
  {
  }

  lemma FillConserves<O>(w: World<O>, block: nat, orders: seq<(Id, O)>)
    requires Conserved(w)
    ensures Conserved(Step(w, Fill(block, orders)))
  {
    InsertAllConserves(w.pool.held, orders);
    var out, before, after := multiset(Ids(w.released)), multiset(w.pool.held.Keys),
        multiset(InsertAll(w.pool.held, orders).Keys);
    var more, lost := multiset(Ids(orders)), Replaced(w.pool.held, orders);
    assert (out + before + w.replaced) + more == out + (before + more) + w.replaced;
    assert out + (after + lost) + w.replaced == out + after + (w.replaced + lost);
  }

  lemma TakeConserves<O>(w: World<O>, ids: seq<Id>, byBlock: map<nat, seq<Id>>)
    requires Conserved(w)
    ensures Conserved(World(Pool(TakeAll(w.pool.held, ids).0, byBlock), w.inserted,
        w.released + TakeAll(w.pool.held, ids).1, w.replaced))
  {
    TakeAllSpec(w.pool.held, ids);
    var (rest, out) := TakeAll(w.pool.held, ids);
    IdsConcat(w.released, out);
    assert multiset(Ids(w.released) + Ids(out)) == multiset(Ids(w.released)) + multiset(Ids(out));
  }

  lemma StepConserves<O>(w: World<O>, e: Event<O>)
    requires Conserved(w)
    ensures Conserved(Step(w, e))
  {
    hide Conserved;
    match e
    case Fill(block, orders) => FillConserves(w, block, orders);
    case Unfill(ids) => TakeConserves(w, ids, w.pool.byBlock);
    case Final(block) =>
      if block in w.pool.byBlock {
        TakeConserves(w, w.pool.byBlock[block], w.pool.byBlock - {block});
      } else {
        assert w.released + [] == w.released;
        assert Step(w, e) == w;
      }
  }

  lemma StepKeepsListed<O>(w: World<O>, e: Event<O>)
    requires Listed(w.pool) && Enabled(w, e)
    ensures Listed(Step(w, e).pool)
  {
    var p, q := w.pool, Step(w, e).pool;
    forall id | id in q.held
      ensures exists b :: b in q.byBlock && id in q.byBlock[b]
    {
      match e
      case Fill(block, orders) =>
        InsertAllSpec(p.held, orders);
        if id in p.held {
          var b :| b in p.byBlock && id in p.byBlock[b];
          assert id in q.byBlock[b];
        } else {
          var i :| 0 <= i < |orders| && orders[i].0 == id;
          assert Ids(orders)[i] == id && id in q.byBlock[block];
        }
      case Unfill(ids) =>
        TakeAllSpec(p.held, ids);
        var b :| b in p.byBlock && id in p.byBlock[b];
        assert id in q.byBlock[b];
      case Final(block) =>
        if block in p.byBlock { TakeAllSpec(p.held, p.byBlock[block]); }
        var b :| b in p.byBlock && id in p.byBlock[b];
        assert id in q.byBlock[b];
    }
  }

  ghost predicate IsRun<O(!new)>(w: World<O>, events: seq<Event<O>>)
    decreases |events|
  {
    events == [] || (Enabled(w, events[0]) && IsRun(Step(w, events[0]), events[1..]))
  }

  ghost function After<O(!new)>(w: World<O>, events: seq<Event<O>>): World<O>
    requires IsRun(w, events)
    decreases |events|
  {
    if events == [] then w else After(Step(w, events[0]), events[1..])
  }

  /** Every held order is listed under a tracked block, and no order is released more often
      than it was inserted: insertions = releases + held + replaced. */
  lemma {:induction false} PoolConserves<O(!new)>(w: World<O>, events: seq<Event<O>>)
    requires Listed(w.pool) && Conserved(w) && IsRun(w, events)
    ensures Listed(After(w, events).pool) && Conserved(After(w, events))
    decreases |events|
  {
    hide Listed, Conserved, Step, Enabled;
    if events != [] {
      StepConserves(w, events[0]);
      StepKeepsListed(w, events[0]);
      PoolConserves(Step(w, events[0]), events[1..]);
    }
  }

  ghost predicate Inserts<O>(e: Event<O>, id: Id) {
    e.Fill? && id in Ids(e.orders)
  }

  /** An id that is not held (say, because a reorg returned it) is not released by anything
      that follows until it is inserted again. */
  lemma {:induction false} ReleasedStaysOut<O(!new)>(w: World<O>, events: seq<Event<O>>, id: Id)
    requires IsRun(w, events) && id !in w.pool.held
    requires forall e :: e in events ==> !Inserts(e, id)
    ensures id !in After(w, events).pool.held
    ensures multiset(Ids(After(w, events).released))[id] == multiset(Ids(w.released))[id]
    decreases |events|
  {
    hide Inserts, Step;
    if events != [] {
      assert events[0] in events;
      StaysOutStep(w, events[0], id);
      ReleasedStaysOut(Step(w, events[0]), events[1..], id);
    }
  }

  lemma StaysOutStep<O>(w: World<O>, e: Event<O>, id: Id)
    requires id !in w.pool.held && !Inserts(e, id)
    ensures id !in Step(w, e).pool.held
    ensures multiset(Ids(Step(w, e).released))[id] == multiset(Ids(w.released))[id]
  {
    match e
    case Fill(block, orders) =>
      InsertAllSpec(w.pool.held, orders);
      assert forall i :: 0 <= i < |orders| ==> Ids(orders)[i] == orders[i].0;
    case Unfill(ids) => TakenOut(w, ids, id);
    case Final(block) =>
      if block in w.pool.byBlock {
        TakenOut(w, w.pool.byBlock[block], id);
      } else {
        assert w.released + [] == w.released;
      }
  }

  lemma TakenOut<O>(w: World<O>, ids: seq<Id>, id: Id)
    requires id !in w.pool.held
    ensures id !in TakeAll(w.pool.held, ids).0
    ensures multiset(Ids(w.released + TakeAll(w.pool.held, ids).1))[id] == multiset(Ids(w.released))[id]
  {
    TakeAllSpec(w.pool.held, ids);
    var out := TakeAll(w.pool.held, ids).1;
    IdsConcat(w.released, out);
    assert id !in Ids(out);
  }

  /** Exactly the named orders that are held leave, each coming out once, as it was held; the others stay. */
  ghost predicate Returns<O>(held: map<Id, O>, after: map<Id, O>, ids: seq<Id>, out: seq<(Id, O)>) {
    && (forall id :: id in after <==> id in held && id !in ids)
    && (forall id :: id in after ==> after[id] == held[id])
    && (forall id :: id in ids && id in held ==> (id, held[id]) in out && multiset(Ids(out))[id] == 1)
    && (forall i :: 0 <= i < |out| ==> out[i].0 in ids && out[i].0 in held && out[i].1 == held[out[i].0])
  }

  lemma TakeAllReturns<O>(held: map<Id, O>, ids: seq<Id>)
    ensures Returns(held, TakeAll(held, ids).0, ids, TakeAll(held, ids).1)
  {
    TakeAllSpec(held, ids);
    var (rest, out) := TakeAll(held, ids);
    forall id | id in ids && id in held
      ensures (id, held[id]) in out && multiset(Ids(out))[id] == 1
    {
      assert multiset(held.Keys)[id] == 1 && multiset(rest.Keys)[id] == 0;
      assert id in Ids(out);
      var i :| 0 <= i < |Ids(out)| && Ids(out)[i] == id;
      assert out[i].0 == id;
    }
  }

  /** A reorg returns exactly the named orders that are held, and leaves the blocks' lists alone. */
  lemma ReorgReturns<O>(p: Pool<O>, ids: seq<Id>)
    ensures Returns(p.held, Reorg(p, ids).0.held, ids, Reorg(p, ids).1)
    ensures Reorg(p, ids).0.byBlock == p.byBlock
  {
    TakeAllReturns(p.held, ids);
  }

  /** Finalising a block returns exactly the orders held that are listed under it, and forgets this
      list and no other. */
  lemma FinalizedReturns<O>(p: Pool<O>, block: nat)
    ensures var (q, out) := Finalized(p, block);
      && Returns(p.held, q.held, if block in p.byBlock then p.byBlock[block] else [], out)
      && (forall b :: b in q.byBlock <==> b in p.byBlock && b != block)
      && (forall b :: b in q.byBlock ==> q.byBlock[b] == p.byBlock[b])
  {
    if block in p.byBlock { TakeAllReturns(p.held, p.byBlock[block]); }
  }

  predicate LastWith<O>(orders: seq<(Id, O)>, i: int) {
    0 <= i < |orders| && forall j :: i < j < |orders| ==> orders[j].0 != orders[i].0
  }

  lemma {:induction false} InsertAllLast<O>(held: map<Id, O>, orders: seq<(Id, O)>)
    ensures forall i :: LastWith(orders, i) ==>
      orders[i].0 in InsertAll(held, orders) && InsertAll(held, orders)[orders[i].0] == orders[i].1
    ensures forall id :: id in held && (forall i :: 0 <= i < |orders| ==> orders[i].0 != id) ==>
      id in InsertAll(held, orders) && InsertAll(held, orders)[id] == held[id]
  {
    if orders != [] {
      var before := orders[..|orders| - 1];
      InsertAllLast(held, before);
      forall i | LastWith(orders, i)
        ensures orders[i].0 in InsertAll(held, orders) && InsertAll(held, orders)[orders[i].0] == orders[i].1
      {
        if i < |orders| - 1 { assert LastWith(before, i) && before[i] == orders[i]; }
      }
      assert forall i :: 0 <= i < |before| ==> before[i] == orders[i];
    }
  }

  /** Filled orders are held, the last of an id replacing the others, next to the ones held before, and
      listed under their block; the other blocks' lists stay. */
  lemma FilledAreHeld<O>(p: Pool<O>, block: nat, orders: seq<(Id, O)>)
    ensures var q := NewOrders(p, block, orders).0;
      && (forall i :: LastWith(orders, i) ==> orders[i].0 in q.held && q.held[orders[i].0] == orders[i].1)
      && (forall id :: id in q.held <==> id in p.held || exists i :: 0 <= i < |orders| && orders[i].0 == id)
      && (forall id :: id in p.held && (forall i :: 0 <= i < |orders| ==> orders[i].0 != id) ==>
           id in q.held && q.held[id] == p.held[id])
      && (forall b :: b in q.byBlock <==> b in p.byBlock || b == block)
      && (forall b :: b in p.byBlock && b != block ==> q.byBlock[b] == p.byBlock[b])
      && |q.byBlock[block]| == |orders|
      && forall i :: 0 <= i < |orders| ==> q.byBlock[block][i] == orders[i].0
  {
    InsertAllSpec(p.held, orders);
    InsertAllLast(p.held, orders);
  }

  ghost function FinalizeAll<O>(p: Pool<O>, blocks: seq<nat>): Pool<O>
    decreases |blocks|
  {
    if blocks == [] then p else FinalizeAll(Finalized(p, blocks[0]).0, blocks[1..])
  }

  /** Finalising every tracked block, in any order, empties the pool. */
  lemma {:induction false} FinalizingAllEmpties<O>(p: Pool<O>, blocks: seq<nat>)
    requires Listed(p) && forall b :: b in p.byBlock ==> b in blocks
    ensures FinalizeAll(p, blocks) == Pool(map[], map[])
    decreases |blocks|
  {
    if blocks == [] {
      assert p.byBlock == map[];
      assert p.held == map[];
    } else {
      var w := World(p, multiset{}, [], multiset{});
      StepKeepsListed(w, Final(blocks[0]));
      FinalizingAllEmpties(Finalized(p, blocks[0]).0, blocks[1..]);
    }
  }

  predicate Concerns<O>(e: Event<O>, block: nat) {
    (e.Fill? || e.Final?) && e.block == block
  }

  /** No event fills or finalises the block ... */
  ghost predicate Untouched<O>(events: seq<Event<O>>, block: nat) {
    forall i :: 0 <= i < |events| ==> !Concerns(events[i], block)
  }

  /** ... or the last one that does fills it. */
  ghost predicate LastFills<O>(events: seq<Event<O>>, block: nat) {
    exists i :: 0 <= i < |events| && FillsForGood(events, i, block)
  }

  ghost predicate FillsForGood<O>(events: seq<Event<O>>, i: nat, block: nat)
    requires i < |events|
  {
    events[i].Fill? && Concerns(events[i], block) && Untouched(events[i + 1..], block)
  }

  lemma UntouchedFrom<O>(events: seq<Event<O>>, block: nat)
    requires events != []
    ensures Untouched(events, block) <==> !Concerns(events[0], block) && Untouched(events[1..], block)
  {
    assert forall i :: 0 < i < |events| ==> events[i] == events[1..][i - 1];
    if Untouched(events[1..], block) && !Concerns(events[0], block) {
      forall i | 0 <= i < |events|
        ensures !Concerns(events[i], block)
      {
        if i > 0 { assert !Concerns(events[1..][i - 1], block); }
      }
    }
  }

  lemma LastFillsFrom<O>(events: seq<Event<O>>, block: nat)
    requires events != []
    ensures LastFills(events, block) <==>
      LastFills(events[1..], block) || (events[0].Fill? && Concerns(events[0], block) && Untouched(events[1..], block))
  {
    hide Untouched;
    var rest := events[1..];
    forall i | 0 <= i < |rest|
      ensures FillsForGood(rest, i, block) == FillsForGood(events, i + 1, block)
    {
      assert rest[i + 1..] == events[i + 2..];
    }
    if LastFills(events, block) {
      var i :| 0 <= i < |events| && FillsForGood(events, i, block);
      if i > 0 { assert FillsForGood(rest, i - 1, block); }
    }
    if LastFills(rest, block) {
      var i :| 0 <= i < |rest| && FillsForGood(rest, i, block);
      assert FillsForGood(events, i + 1, block);
    }
    if events[0].Fill? && Concerns(events[0], block) && Untouched(rest, block) {
      assert FillsForGood(events, 0, block);
    }
  }

  lemma TrackedStep<O>(w: World<O>, e: Event<O>, block: nat)
    ensures block in Step(w, e).pool.byBlock <==> if Concerns(e, block) then e.Fill? else block in w.pool.byBlock
  {
    hide TakeAll, InsertAll;
  }

  /** Filling a block trips the assertion exactly if the last event of the run that filled or
      finalised the block filled it, or there was none and the block was tracked from the start;
      reorgs make no difference. */
  lemma {:induction false} TripsIffTracked<O(!new)>(w: World<O>, events: seq<Event<O>>, block: nat,
      orders: seq<(Id, O)>)
    requires IsRun(w, events)
    ensures NewOrders(After(w, events).pool, block, orders).1 <==>
      LastFills(events, block) || (Untouched(events, block) && block in w.pool.byBlock)
    decreases |events|
  {
    hide Step, Enabled, Untouched, LastFills;
    if events == [] {
      NothingYet<O>(block);
    } else {
      TripsIffTracked(Step(w, events[0]), events[1..], block, orders);
      TrackedStep(w, events[0], block);
      UntouchedFrom(events, block);
      LastFillsFrom(events, block);
    }
  }

  lemma NothingYet<O>(block: nat)
    ensures var none: seq<Event<O>> := []; Untouched(none, block) && !LastFills(none, block)
  {
  }
}
