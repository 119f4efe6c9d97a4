/** The tracker's maps and the subscriber table, updated in place. */
module OrderTracking {
  import opened Options
  import opened Pipeline
  import opened OrderPool
  import opened OrderFacts

  /** Everything sent, in order: one channel stands for all the channels the pool writes to. */
  class Outbox {
    var sent: seq<Out>

    constructor ()
      ensures sent == []
    {
      sent := [];
    }

    method Send(o: Out)
      modifies this
      ensures sent == old(sent) + [o]
    {
      sent := sent + [o];
    }
  }

  class OrderTracker {
    var byAddress: map<Address, set<Hash>>
    var indexed: set<Hash>
    var peers: map<Hash, seq<Peer>>
    var seenInvalid: set<Hash>
    var cancelled: map<Hash, Claim>
    var pending: map<(Hash, Address), Time>
    var validating: set<Hash>

    ghost function View(): Tracker
      reads this
    {
      Tracker(byAddress, indexed, peers, seenInvalid, cancelled, validating)
    }

    constructor ()
      ensures View() == EmptyTracker() && pending == map[]
    {
      byAddress, indexed, peers, seenInvalid, cancelled, pending, validating := map[], {}, map[], {}, map[], map[], {};
    }

    predicate IsValidCancel(h: Hash, address: Address)
      reads this
    {
      (h in cancelled && cancelled[h].from == address) || (h, address) in pending
    }

    predicate IsDuplicate(h: Hash)
      reads this
    {
      h in indexed || h in seenInvalid
    }

    method TrackPeerId(h: Hash, peer: Option<Peer>)
      modifies this
      ensures View() == TrackPeer(old(View()), h, peer) && pending == old(pending)
    {
      if peer.Some? {
        var known := if h in peers then peers[h] else [];
        peers := peers[h := known + [peer.value]];
      }
    }

    /** The peers that sent an order found invalid, which is then no longer tried this block. */
    method InvalidVerificationOf(h: Hash) returns (senders: seq<Peer>)
      modifies this
      ensures senders == if h in old(peers) then old(peers)[h] else []
      ensures View() == old(View()).(seenInvalid := old(seenInvalid) + {h}, peers := old(peers) - {h})
      ensures pending == old(pending)
    {
      seenInvalid := seenInvalid + {h};
      senders := if h in peers then peers[h] else [];
      peers := peers - {h};
    }

    method NewValidOrder(env: Env, h: Hash)
      modifies this
      ensures View() == IndexValid(env, old(View()), h)
      ensures pending == DropClaims(old(pending), {h})
    {
      var user := env.info(h).owner;
      pending := DropClaims(pending, {h});
      peers := peers - {h};
      indexed := indexed + {h};
      var mine := if user in byAddress then byAddress[user] else {};
      byAddress := byAddress[user := mine + {h}];
    }

    method InsertCancelWithDeadline(from: Address, h: Hash, until: Time)
      modifies this
      ensures View() == ConfirmCancel(old(View()), from, h, until)
      ensures pending == DropClaims(old(pending), {h})
    {
      cancelled := cancelled[h := Claim(from, until, true)];
      pending := DropClaims(pending, {h});
    }

    method RecordPendingCancellation(from: Address, h: Hash, now: Time)
      modifies this
      ensures View() == old(View()) && pending == old(pending)[(h, from) := CancellationDeadline(now)]
    {
      pending := pending[(h, from) := now + MAX_NEW_ORDER_DELAY_PROPAGATION * ETH_BLOCK_TIME];
    }

    /** Succeeds only for the owner of an indexed order that storage can cancel; a request for an
        order that is unknown or out of storage is kept as a claim. */
    method CancelTracked(env: Env, from: Address, h: Hash, storage: Storage, now: Time)
        returns (after: Storage, done: bool)
      modifies this
      ensures done <==> h in old(indexed) && env.info(h).owner == from && CancelStored(env, storage, h).1
      ensures done ==>
        && after == CancelStored(env, storage, h).0
        && View() == ConfirmCancel(old(View()).(indexed := old(indexed) - {h}), from, h, CancellationDeadline(now))
        && pending == DropClaims(old(pending), {h})
      ensures !done ==>
        && after == storage && View() == old(View())
        && pending == if h in old(indexed) && env.info(h).owner != from then old(pending)
             else old(pending)[(h, from) := CancellationDeadline(now)]
    {
      after, done := storage, false;
      if h !in indexed {
        RecordPendingCancellation(from, h, now);
        return;
      }
      if env.info(h).owner != from {
        return;
      }
      var (flagged, ok) := CancelStored(env, storage, h);
      if !ok {
        RecordPendingCancellation(from, h, now);
        return;
      }
      indexed := indexed - {h};
      InsertCancelWithDeadline(from, h, CancellationDeadline(now));
      after, done := flagged, true;
    }

    /** Forget the orders of a removed pool, and addresses left without orders. */
    method HandlePoolRemoved(orders: seq<Hash>)
      modifies this
      ensures View() == old(View()).(
        indexed := old(indexed) - SetOf(orders), peers := old(peers) - SetOf(orders),
        byAddress := if orders == [] then old(byAddress) else Prune(old(byAddress), SetOf(orders)))
      ensures pending == old(pending)
    {
      hide Prune;
      ghost var t := View();
      assert t.indexed - SetOf([]) == t.indexed && t.peers - SetOf([]) == t.peers;
      for i := 0 to |orders|
        invariant pending == old(pending)
        invariant View() == t.(
          indexed := t.indexed - SetOf(orders[..i]), peers := t.peers - SetOf(orders[..i]),
          byAddress := if i == 0 then t.byAddress else Prune(t.byAddress, SetOf(orders[..i])))
      {
        var h := orders[i];
        SetOfMore(orders, i);
        PruneMore(t.byAddress, SetOf(orders[..i]), h);
        indexed := indexed - {h};
        peers := peers - {h};
        byAddress := Prune(byAddress, {h});
        assert t.indexed - SetOf(orders[..i]) - {h} == t.indexed - SetOf(orders[..i + 1]);
        assert t.peers - SetOf(orders[..i]) - {h} == t.peers - SetOf(orders[..i + 1]);
        assert i == 0 ==> SetOf(orders[..1]) == {h};
      }
      assert orders[..|orders|] == orders;
    }

    /** The orders filled by a block leave the index and storage. */
    method FilledOrders(env: Env, orders: seq<Hash>, storage: Storage) returns (after: Storage, filled: seq<Hash>)
      modifies this
      ensures (after, filled) == Take(env, storage, orders, old(indexed))
      ensures View() == old(View()).(indexed := old(indexed) - SetOf(orders)) && pending == old(pending)
    {
      after, filled := storage, [];
      ghost var was := indexed;
      for i := 0 to |orders|
        invariant (after, filled) == Take(env, storage, orders[..i], was)
        invariant View() == old(View()).(indexed := was - SetOf(orders[..i])) && pending == old(pending)
      {
        var h := orders[i];
        SetOfMore(orders, i);
        if h in indexed {
          indexed := indexed - {h};
          if Retrievable(env, after, h) { filled := filled + [h]; }
          after := Dropped(env, after, h);
        } else {
          TakeFacts(env, storage, orders[..i], was);
        }
        assert orders[..i + 1][..i] == orders[..i];
      }
      assert orders[..|orders|] == orders;
    }

    /** Claims past their time go; so do the orders past theirs, from the index, from their
        address and from storage. */
    method RemoveExpiredOrders(env: Env, block: nat, until: Time, storage: Storage)
        returns (after: Storage, expired: seq<Hash>)
      requires Faithful(env)
      modifies this
      ensures var gone := set h | h in old(indexed) && HasExpired(env, h, block, until);
        && (after, expired) == Take(env, storage, env.arrange(gone), gone)
        && View() == old(View()).(
             cancelled := (map h | h in old(cancelled) && old(cancelled)[h].deadline > until :: old(cancelled)[h]),
             indexed := old(indexed) - gone,
             byAddress := Strip(old(byAddress), gone))
      ensures pending == KeepLive(old(pending), until)
    {
      cancelled := map h | h in cancelled && cancelled[h].deadline > until :: cancelled[h];
      pending := KeepLive(pending, until);
      var gone := set h | h in indexed && HasExpired(env, h, block, until);
      var hashes := env.arrange(gone);
      assert Lists(hashes, gone);
      assert SetOf(hashes) == gone;
      after, expired := RemoveHashes(env, hashes, storage, gone);
    }

    method RemoveHashes(env: Env, hashes: seq<Hash>, storage: Storage, ghost gone: set<Hash>)
        returns (after: Storage, taken: seq<Hash>)
      requires SetOf(hashes) == gone
      modifies this
      ensures (after, taken) == Take(env, storage, hashes, gone)
      ensures View() == old(View()).(indexed := old(indexed) - gone, byAddress := Strip(old(byAddress), gone))
      ensures pending == old(pending)
    {
      hide Strip, Dropped;
      ghost var t := View();
      after, taken := storage, [];
      StripNone(byAddress);
      assert t.indexed - SetOf([]) == t.indexed;
      for i := 0 to |hashes|
        invariant (after, taken) == Take(env, storage, hashes[..i], gone)
        invariant View() == t.(indexed := t.indexed - SetOf(hashes[..i]),
            byAddress := Strip(t.byAddress, SetOf(hashes[..i])))
        invariant pending == old(pending)
      {
        var h := hashes[i];
        SetOfMore(hashes, i);
        StripMore(t.byAddress, SetOf(hashes[..i]), h);
        indexed := indexed - {h};
        byAddress := Strip(byAddress, {h});
        if Retrievable(env, after, h) { taken := taken + [h]; }
        after := Dropped(env, after, h);
        assert h in SetOf(hashes) && hashes[..i + 1][..i] == hashes[..i];
        assert t.indexed - SetOf(hashes[..i]) - {h} == t.indexed - SetOf(hashes[..i + 1]);
      }
      assert hashes[..|hashes|] == hashes;
    }
  }

  function SetOf(hs: seq<Hash>): set<Hash> {
    set h | h in hs
  }

  lemma SetOfMore(hs: seq<Hash>, i: nat)
    requires i < |hs|
    ensures SetOf(hs[..i + 1]) == SetOf(hs[..i]) + {hs[i]}
  {
    assert hs[..i + 1] == hs[..i] + [hs[i]];
  }

  lemma StripNone(m: map<Address, set<Hash>>)
    ensures Strip(m, SetOf([])) == m
  {
    assert forall a :: a in m ==> m[a] - SetOf([]) == m[a];
  }

  lemma StripMore(m: map<Address, set<Hash>>, gone: set<Hash>, h: Hash)
    ensures Strip(m, gone + {h}) == Strip(Strip(m, gone), {h})
  {
    assert forall a :: a in m ==> m[a] - (gone + {h}) == m[a] - gone - {h};
  }

  lemma PruneMore(m: map<Address, set<Hash>>, gone: set<Hash>, h: Hash)
    ensures Prune(m, gone + {h}) == Prune(Prune(m, gone), {h})
  {
    assert forall a :: a in m ==> m[a] - (gone + {h}) == m[a] - gone - {h};
  }

  class OrderSubscriptionTracker {
    var subscribers: map<Hash, seq<Caller>>
    const outbox: Outbox

    constructor (outbox: Outbox)
      ensures subscribers == map[] && this.outbox == outbox
    {
      subscribers := map[];
      this.outbox := outbox;
    }

    method SubscribeToOrder(h: Hash, caller: Caller)
      modifies this
      ensures subscribers ==
          old(subscribers)[h := (if h in old(subscribers) then old(subscribers)[h] else []) + [caller]]
    {
      var known := if h in subscribers then subscribers[h] else [];
      subscribers := subscribers[h := known + [caller]];
    }

    method NotifyOrderSubscribers(update: Update)
      modifies outbox
      ensures outbox.sent == old(outbox.sent) + [Announced(update)]
    {
      outbox.Send(Announced(update));
    }

    method NotifyExpiredOrders(orders: seq<Hash>)
      modifies outbox
      ensures outbox.sent == old(outbox.sent) + Expiries(orders)
    {
      assert old(outbox.sent) + [] == old(outbox.sent);
      for i := 0 to |orders|
        invariant outbox.sent == old(outbox.sent) + Expiries(orders[..i])
      {
        outbox.Send(Announced(Expired(orders[i])));
        assert orders[..i + 1][..i] == orders[..i];
      }
      assert orders[..|orders|] == orders;
    }

    /** Every subscriber of the order is sent the result, and forgotten. */
    method NotifyValidationSubscribers(h: Hash, reply: Reply)
      modifies this, outbox
      ensures subscribers == old(subscribers) - {h}
      ensures outbox.sent == old(outbox.sent)
          + (if h in old(subscribers) then Replies(old(subscribers)[h], h, reply) else [])
    {
      if h !in subscribers {
        assert subscribers - {h} == subscribers && outbox.sent + [] == outbox.sent;
        return;
      }
      var callers := subscribers[h];
      subscribers := subscribers - {h};
      assert old(outbox.sent) + [] == old(outbox.sent);
      for i := 0 to |callers|
        invariant subscribers == old(subscribers) - {h}
        invariant outbox.sent == old(outbox.sent) + Replies(callers[..i], h, reply)
      {
        outbox.Send(Answered(callers[i], h, reply));
        assert callers[..i + 1][..i] == callers[..i];
      }
      assert callers[..|callers|] == callers;
    }
  }

  function Expiries(orders: seq<Hash>): seq<Out> {
    if orders == [] then [] else Expiries(orders[..|orders| - 1]) + [Announced(Expired(orders[|orders| - 1]))]
  }
}
