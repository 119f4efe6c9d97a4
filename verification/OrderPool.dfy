/** The order pool: submission, validation results, displacement, cancellation, expiry, fills.
    Signed cancellation claims by addresses not known to own the order are kept apart from the
    rest of the state, as the source keeps them in a map of their own. */
module OrderPool {
  import opened Options
  import opened Pipeline
  import Finalization

  type Peer = nat
  type Caller = nat
  type PoolId = nat
  type Time = nat

  const ETH_BLOCK_TIME: nat := 12
  const MAX_NEW_ORDER_DELAY_PROPAGATION: nat := 7000

  /** What an order's hash determines. */
  datatype Info = Info(owner: Address, topOfBlock: bool, pool: PoolId, deadline: Option<Time>, flashBlock: Option<nat>)

  /** The contents behind hashes, and the order in which hash sets are walked. */
  datatype Env = Env(info: Hash -> Info, arrange: set<Hash> -> seq<Hash>)

  ghost predicate Lists(hs: seq<Hash>, s: set<Hash>) {
    && (forall h :: h in hs <==> h in s)
    && (forall i, j :: 0 <= i < j < |hs| ==> hs[i] != hs[j])
  }

  ghost predicate Faithful(env: Env) {
    forall s: set<Hash> :: Lists(env.arrange(s), s)
  }

  datatype Origin = Local | External | ReValidation

  datatype Job = Job(origin: Origin, hash: Hash)

  datatype Claim = Claim(from: Address, deadline: Time, ownerVerified: bool)

  /** A stored order; a limit order that is not parked sits in the book at a price level. */
  datatype Entry = Entry(parked: bool, cancelRequested: bool, level: nat)

  /** `levels` are the keys of the price index of the limit book: two orders at one level share a
      key. Pools added later have no place to park orders, so `parkable` can be smaller than `pools`. */
  datatype Storage = Storage(
    pools: set<PoolId>,
    parkable: set<PoolId>,
    entries: map<Hash, Entry>,
    levels: set<(PoolId, nat)>,
    finalizing: Finalization.Pool<Entry>)

  datatype Tracker = Tracker(
    byAddress: map<Address, set<Hash>>,
    indexed: set<Hash>,
    peers: map<Hash, seq<Peer>>,
    seenInvalid: set<Hash>,
    cancelled: map<Hash, Claim>,
    validating: set<Hash>)

  datatype Reply =
    | ValidOrder
    | CancelledOrder
    | DuplicateOrder
    | InvalidAtBlock
    | StateError
    | InvalidOrder(reason: nat)

  datatype Update =
    | New(hash: Hash)
    | Filled(block: nat, hash: Hash)
    | Unfilled(hash: Hash)
    | Cancelled(hash: Hash, user: Address, topOfBlock: bool, pool: PoolId)
    | Expired(hash: Hash)

  /** Everything that leaves the pool, in order: answers, broadcasts, validator calls, events. */
  datatype Out =
    | Answered(caller: Caller, hash: Hash, reply: Reply)
    | Announced(update: Update)
    | Released(user: Address, hash: Hash)
    | Submitted(job: Job)
    | Informed(notice: Notice)
    | Propagated(hash: Hash)
    | BadPeers(peers: seq<Peer>)
    | Transitioned(block: nat)
    | NoEvent

  datatype Core = Core(
    block: nat,
    tracker: Tracker,
    storage: Storage,
    pipe: Pipeline<Job>,
    subscribers: map<Hash, seq<Caller>>,
    out: seq<Out>)

  /** `pending` holds the claims recorded before the owner was known, per order and signer. */
  datatype State = State(core: Core, pending: map<(Hash, Address), Time>)

  datatype Verdict =
    | Valid(validBlock: nat, parked: bool, level: nat, invalidates: seq<Hash>)
    | Invalid(reason: nat)

  // ----- small steps on the core

  function Emit(c: Core, o: Out): Core {
    c.(out := c.out + [o])
  }

  function Replies(callers: seq<Caller>, h: Hash, reply: Reply): seq<Out> {
    if callers == [] then []
        else Replies(callers[..|callers| - 1], h, reply) + [Answered(callers[|callers| - 1], h, reply)]
  }

  /** All subscribers of the hash are answered and forgotten. */
  function Answer(c: Core, h: Hash, reply: Reply): Core {
    if h in c.subscribers
    then c.(subscribers := c.subscribers - {h}, out := c.out + Replies(c.subscribers[h], h, reply))
    else c
  }

  function SubmitJob(c: Core, job: Job): Core {
    c.(pipe := Submit(c.pipe, job), out := c.out + [Submitted(job)])
  }

  function SubmitAll(c: Core, origin: Origin, hs: seq<Hash>): Core {
    if hs == [] then c else SubmitJob(SubmitAll(c, origin, hs[..|hs| - 1]), Job(origin, hs[|hs| - 1]))
  }

  function WithTracker(c: Core, t: Tracker): Core {
    c.(tracker := t)
  }

  // ----- storage

  function LevelOf(env: Env, h: Hash, e: Entry): (PoolId, nat) {
    (env.info(h).pool, e.level)
  }

  /** Whether removing the order hands it back: a limit order in the book is dropped on the
      floor when its price level has been taken out under it. */
  predicate Retrievable(env: Env, st: Storage, h: Hash) {
    h in st.entries && (env.info(h).topOfBlock || st.entries[h].parked || LevelOf(env, h, st.entries[h]) in st.levels)
  }

  function Dropped(env: Env, st: Storage, h: Hash): Storage {
    if h !in st.entries then st
    else if env.info(h).topOfBlock || st.entries[h].parked then st.(entries := st.entries - {h})
    else st.(entries := st.entries - {h}, levels := st.levels - {LevelOf(env, h, st.entries[h])})
  }

  /** Remove the listed orders that are allowed, one by one; the ones handed back, in order. */
  function Take(env: Env, st: Storage, hs: seq<Hash>, allowed: set<Hash>): (Storage, seq<Hash>) {
    if hs == [] then (st, [])
    else
      var (before, got) := Take(env, st, hs[..|hs| - 1], allowed);
      var h := hs[|hs| - 1];
      if h !in allowed then (before, got)
      else (Dropped(env, before, h), if Retrievable(env, before, h) then got + [h] else got)
  }

  /** `remove_parked_order`: a parked limit order, or else any top-of-block order. */
  function TakeParked(env: Env, st: Storage, hs: seq<Hash>): (Storage, seq<Hash>) {
    if hs == [] then (st, [])
    else
      var (before, got) := TakeParked(env, st, hs[..|hs| - 1]);
      var h := hs[|hs| - 1];
      if h in before.entries && (before.entries[h].parked || env.info(h).topOfBlock)
      then (Dropped(env, before, h), got + [h]) else (before, got)
  }

  /** The pool exists and, for a parked limit order, has a place to park it. */
  predicate HasRoom(env: Env, st: Storage, h: Hash, parked: bool) {
    var info := env.info(h);
    info.pool in st.pools && (info.topOfBlock || !parked || info.pool in st.parkable)
  }

  /** An order without room is not stored; the error is only logged. */
  function Insert(env: Env, st: Storage, h: Hash, parked: bool, level: nat): Storage {
    var info := env.info(h);
    if !HasRoom(env, st, h, parked) then st
    else
      var e := Entry(parked && !info.topOfBlock, false, level);
      st.(entries := st.entries[h := e], levels := if info.topOfBlock || parked then st.levels
          else st.levels + {LevelOf(env, h, e)})
  }

  /** Fails for an order that is parked or not stored, unless it is awaiting finalisation. */
  function CancelStored(env: Env, st: Storage, h: Hash): (Storage, bool) {
    if h in st.finalizing.held then (st, true)
    else if h in st.entries && (env.info(h).topOfBlock || !st.entries[h].parked)
    then (st.(entries := st.entries[h := st.entries[h].(cancelRequested := true)]), true)
    else (st, false)
  }

  // ----- cancellation claims

  /** The owner has a claim on record, confirmed or not. */
  predicate OwnerClaim(env: Env, s: State, h: Hash) {
    || (h in s.core.tracker.cancelled && s.core.tracker.cancelled[h].from == env.info(h).owner)
    || (h, env.info(h).owner) in s.pending
  }

  function DropClaims(pending: map<(Hash, Address), Time>, hs: set<Hash>): map<(Hash, Address), Time> {
    map k | k in pending && k.0 !in hs :: pending[k]
  }

  function KeepLive(pending: map<(Hash, Address), Time>, until: Time): map<(Hash, Address), Time> {
    map k | k in pending && pending[k] > until :: pending[k]
  }

  function CancellationDeadline(now: Time): Time {
    now + MAX_NEW_ORDER_DELAY_PROPAGATION * ETH_BLOCK_TIME
  }

  /** Without a deadline of its own the order's cancellation lasts until the next block. */
  function CancelUntil(now: Time, deadline: Option<Time>): Time {
    if deadline.Some? then deadline.value else if now > ETH_BLOCK_TIME then now - ETH_BLOCK_TIME - 1 else 0
  }

  function ConfirmCancel(t: Tracker, from: Address, h: Hash, until: Time): Tracker {
    t.(cancelled := t.cancelled[h := Claim(from, until, true)])
  }

  // ----- requests

  function RevalidateParked(env: Env, c: Core, user: Address): Core {
    if user !in c.tracker.byAddress then c
    else
      var (st, got) := TakeParked(env, c.storage, env.arrange(c.tracker.byAddress[user]));
      SubmitAll(c.(storage := st), ReValidation, got)
  }

  /** The answer is true only for the owner's confirmed cancellation. */
  function CancelOrder(env: Env, s: State, user: Address, h: Hash, signatureValid: bool, now: Time): (State, bool) {
    var t := s.core.tracker;
    if !signatureValid then (s, false)
    else if h in t.indexed && env.info(h).owner != user then (s, false)
    else if h in t.cancelled && t.cancelled[h].ownerVerified && t.cancelled[h].from == user then (s, true)
    else if h in t.seenInvalid then (s, false)
    else if h !in t.indexed || !CancelStored(env, s.core.storage, h).1 then
      (s.(pending := s.pending[(h, user) := CancellationDeadline(now)]), false)
    else
      var c := s.core.(
        storage := CancelStored(env, s.core.storage, h).0,
        tracker := ConfirmCancel(t.(indexed := t.indexed - {h}), user, h, CancellationDeadline(now)));
      var c1 := RevalidateParked(env, Emit(c, Released(user, h)), user);
      (State(Emit(c1, Announced(Cancelled(h, user, env.info(h).topOfBlock, env.info(h).pool))),
          DropClaims(s.pending, {h})), true)
  }

  function Subscribe(c: Core, h: Hash, caller: Option<Caller>): Core {
    if caller.None? then c
    else c.(subscribers := c.subscribers[h := (if h in c.subscribers then c.subscribers[h] else []) + [caller.value]])
  }

  function TrackPeer(t: Tracker, h: Hash, peer: Option<Peer>): Tracker {
    if peer.None? then t else t.(peers := t.peers[h := (if h in t.peers then t.peers[h] else []) + [peer.value]])
  }

  function NewOrder(env: Env, c: Core, claimed: bool, peer: Option<Peer>, origin: Origin, h: Hash,
      caller: Option<Caller>): Core {
    var c0 := Subscribe(c, h, caller);
    if claimed then Answer(c0, h, CancelledOrder)
    else if h in c.tracker.indexed || h in c.tracker.seenInvalid then Answer(c0, h, DuplicateOrder)
    else
      var t := TrackPeer(c.tracker, h, peer);
      if h in t.validating then WithTracker(c0, t)
      else SubmitJob(WithTracker(c0, t.(validating := t.validating + {h})), Job(origin, h))
  }

  // ----- validation results

  function StopValidating(c: Core, h: Hash): Core {
    WithTracker(c, c.tracker.(validating := c.tracker.validating - {h}))
  }

  /** Orders displaced by a validation go back to the validator. */
  function Revalidate(env: Env, c: Core, displaced: seq<Hash>): Core {
    var (st, got) := Take(env, c.storage, displaced, c.tracker.indexed);
    var t := c.tracker.(validating := c.tracker.validating + (set h | h in got));
    SubmitAll(c.(storage := st, tracker := t), ReValidation, got)
  }

  function InvalidVerification(c: Core, h: Hash): Core {
    var peers := if h in c.tracker.peers then c.tracker.peers[h] else [];
    Emit(WithTracker(c, c.tracker.(seenInvalid := c.tracker.seenInvalid + {h}, peers := c.tracker.peers - {h})),
        BadPeers(peers))
  }

  /** A result for another block than the pool's. */
  function StaleResult(env: Env, c: Core, h: Hash, displaced: seq<Hash>): Core {
    var c1 := Answer(StopValidating(c, h), h, InvalidAtBlock);
    var c2 := Revalidate(env, Emit(c1, Released(env.info(h).owner, h)), displaced);
    InvalidVerification(c2, h)
  }

  /** A result for an order its owner has cancelled meanwhile. */
  function CancelledResult(env: Env, c: Core, h: Hash, displaced: seq<Hash>, now: Time): Core {
    var owner := env.info(h).owner;
    var c1 := Revalidate(env, Emit(StopValidating(c, h), Released(owner, h)), displaced);
    var t := c1.tracker;
    var c2 := WithTracker(c1, ConfirmCancel(
      t.(peers := t.peers - {h}, indexed := t.indexed - {h}), owner, h, CancelUntil(now, env.info(h).deadline)));
    var c3 := if h in t.indexed then Emit(c2, Announced(Cancelled(h, owner, env.info(h).topOfBlock, env.info(h).pool)))
        else c2;
    Emit(Answer(c3, h, CancelledOrder), NoEvent)
  }

  function IndexValid(env: Env, t: Tracker, h: Hash): Tracker {
    var owner := env.info(h).owner;
    t.(peers := t.peers - {h}, indexed := t.indexed + {h},
       byAddress := t.byAddress[owner := (if owner in t.byAddress then t.byAddress[owner] else {}) + {h}])
  }

  /** A result the pool takes: announced, indexed, stored and propagated. */
  function AcceptedResult(env: Env, c: Core, h: Hash, parked: bool, level: nat, displaced: seq<Hash>): Core {
    var c1 := Emit(StopValidating(c, h), Announced(New(h)));
    var c2 := Answer(c1, h, if parked then StateError else ValidOrder);
    var c3 := Revalidate(env, WithTracker(c2, IndexValid(env, c2.tracker, h)), displaced);
    Emit(c3.(storage := Insert(env, c3.storage, h, parked, level)), Propagated(h))
  }

  function InvalidResult(env: Env, c: Core, h: Hash, reason: nat): Core {
    var c1 := Answer(StopValidating(c, h), h, InvalidOrder(reason));
    InvalidVerification(c1.(storage := Dropped(env, c1.storage, h)), h)
  }

  function HandleCore(env: Env, c: Core, claimed: bool, h: Hash, v: Verdict, now: Time): Core {
    if v.Invalid? then InvalidResult(env, c, h, v.reason)
    else if v.validBlock != c.block then StaleResult(env, c, h, v.invalidates)
    else if claimed then CancelledResult(env, c, h, v.invalidates, now)
    else AcceptedResult(env, c, h, v.parked, v.level, v.invalidates)
  }

  /** A result that is taken or cancelled settles the claims on the order. */
  function HandleResult(env: Env, s: State, h: Hash, v: Verdict, now: Time): State {
    State(
      HandleCore(env, s.core, OwnerClaim(env, s, h), h, v, now),
      if v.Valid? && v.validBlock == s.core.block then DropClaims(s.pending, {h}) else s.pending)
  }

  // ----- block changes

  function AnnounceAll(c: Core, make: Hash -> Update, hs: seq<Hash>): Core {
    if hs == [] then c else Emit(AnnounceAll(c, make, hs[..|hs| - 1]), Announced(make(hs[|hs| - 1])))
  }

  function WithEntries(st: Storage, hs: seq<Hash>): seq<(Hash, Entry)>
    requires forall h :: h in hs ==> h in st.entries
  {
    seq(|hs|, i requires 0 <= i < |hs| => assert hs[i] in hs; (hs[i], st.entries[hs[i]]))
  }

  /** What Take hands back was stored. */
  lemma {:induction false} TakeFromEntries(env: Env, st: Storage, hs: seq<Hash>, allowed: set<Hash>)
    ensures forall h :: h in Take(env, st, hs, allowed).1 ==> h in st.entries
    ensures forall h :: h in Take(env, st, hs, allowed).0.entries ==> h in st.entries
  {
    if hs != [] { TakeFromEntries(env, st, hs[..|hs| - 1], allowed); }
  }

  function FillOrders(env: Env, c: Core, orders: seq<Hash>): Core {
    if orders == [] then c
    else
      var (st, got) := Take(env, c.storage, orders, c.tracker.indexed);
      TakeFromEntries(env, c.storage, orders, c.tracker.indexed);
      var filled := WithEntries(c.storage, got);
      var c1 := c.(
        tracker := c.tracker.(indexed := c.tracker.indexed - (set h | h in orders)),
        storage := st.(finalizing := Finalization.NewOrders(st.finalizing, c.block, filled).0));
      AnnounceAll(c1, (h: Hash) => Filled(c.block, h), got)
  }

  function CancelRequested(env: Env, st: Storage, topOfBlock: bool): set<Hash> {
    set h | h in st.entries && st.entries[h].cancelRequested && env.info(h).topOfBlock == topOfBlock
  }

  function ConfirmAll(env: Env, t: Tracker, hs: seq<Hash>, now: Time): Tracker {
    if hs == [] then t
    else
      var h := hs[|hs| - 1];
      ConfirmCancel(ConfirmAll(env, t, hs[..|hs| - 1], now), env.info(h).owner, h,
          CancelUntil(now, env.info(h).deadline))
  }

  /** The cancelled orders that purging hands back: top-of-block ones first. */
  function Purged(env: Env, st: Storage): (Storage, seq<Hash>) {
    var (st1, tobs) := Take(env, st, env.arrange(CancelRequested(env, st, true)), CancelRequested(env, st, true));
    var users := CancelRequested(env, st1, false);
    var (st2, limits) := Take(env, st1, env.arrange(users), users);
    (st2, tobs + limits)
  }

  function PurgeCancelled(env: Env, c: Core, now: Time): Core {
    var (st, got) := Purged(env, c.storage);
    c.(storage := st, tracker := ConfirmAll(env, c.tracker, got, now))
  }

  /** The orders of each address but the given ones ... */
  function Strip(byAddress: map<Address, set<Hash>>, gone: set<Hash>): map<Address, set<Hash>> {
    map a | a in byAddress :: byAddress[a] - gone
  }

  /** ... and without the addresses left with none. */
  function Prune(byAddress: map<Address, set<Hash>>, gone: set<Hash>): map<Address, set<Hash>> {
    map a | a in byAddress && byAddress[a] - gone != {} :: byAddress[a] - gone
  }

  predicate HasExpired(env: Env, h: Hash, block: nat, until: Time) {
    || (env.info(h).deadline.Some? && env.info(h).deadline.value <= until)
    || (env.info(h).flashBlock.Some? && env.info(h).flashBlock.value != block + 1)
  }

  function ExpiredHashes(env: Env, c: Core, until: Time): set<Hash> {
    set h | h in c.tracker.indexed && HasExpired(env, h, c.block, until)
  }

  /** The claims and the indexed orders whose time is over; the orders handed back. */
  function RemoveExpired(env: Env, c: Core, until: Time): (Core, seq<Hash>) {
    var t := c.tracker;
    var gone := ExpiredHashes(env, c, until);
    var (st, got) := Take(env, c.storage, env.arrange(gone), gone);
    (c.(storage := st, tracker := t.(
      cancelled := (map h | h in t.cancelled && t.cancelled[h].deadline > until :: t.cancelled[h]),
      indexed := t.indexed - gone,
      byAddress := Strip(t.byAddress, gone))), got)
  }

  function EoaOne(env: Env, c: Core, a: Address): Core {
    if a !in c.tracker.byAddress then c
    else
      var (st, got) := Take(env, c.storage, env.arrange(c.tracker.byAddress[a]), c.tracker.byAddress[a]);
      SubmitAll(c.(storage := st, tracker := c.tracker.(byAddress := c.tracker.byAddress - {a})), ReValidation, got)
  }

  /** All orders of an address whose account changed are validated again. */
  function EoaChange(env: Env, c: Core, addresses: seq<Address>): Core {
    if addresses == [] then c
    else EoaOne(env, EoaChange(env, c, addresses[..|addresses| - 1]), addresses[|addresses| - 1])
  }

  function EnterBlock(c: Core, block: nat): Core {
    c.(block := block, tracker := c.tracker.(seenInvalid := {}))
  }

  function FinishCore(env: Env, c: Core, notice: Notice, now: Time): Core {
    var c1 := FillOrders(env, EnterBlock(c, notice.block), notice.orders);
    var (c2, expired) := RemoveExpired(env, PurgeCancelled(env, c1, now), now + ETH_BLOCK_TIME);
    var c3 := EoaChange(env, AnnounceAll(c2, (h: Hash) => Expired(h), expired), notice.addresses);
    var told := Notice(notice.block, notice.orders + expired, notice.addresses);
    if c3.pipe.WaitingForStorageCleanup? then Emit(c3.(pipe := Notify(c3.pipe, told)), Informed(told)) else c3
  }

  function PurgedHashes(env: Env, c: Core, notice: Notice): set<Hash> {
    set h | h in Purged(env, FillOrders(env, EnterBlock(c, notice.block), notice.orders).storage).1
  }

  function FinishNewBlock(env: Env, s: State, notice: Notice, now: Time): State {
    State(FinishCore(env, s.core, notice, now),
          KeepLive(DropClaims(s.pending, PurgedHashes(env, s.core, notice)), now + ETH_BLOCK_TIME))
  }

  // ----- other chain events

  function UnfillAll(c: Core, hs: seq<Hash>): Core {
    if hs == [] then c
    else
      var h := hs[|hs| - 1];
      SubmitJob(Emit(UnfillAll(c, hs[..|hs| - 1]), Announced(Unfilled(h))), Job(Local, h))
  }

  function ReorgOrders(c: Core, hs: seq<Hash>): Core {
    var (pool, out) := Finalization.Reorg(c.storage.finalizing, hs);
    UnfillAll(c.(storage := c.storage.(finalizing := pool)), Finalization.Ids(out))
  }

  function FinalizedBlock(c: Core, block: nat): Core {
    c.(storage := c.storage.(finalizing := Finalization.Finalized(c.storage.finalizing, block).0))
  }

  /** The orders a removed pool reports: all but cancelled ones still in a book. */
  function PoolOrders(env: Env, st: Storage, pool: PoolId): set<Hash> {
    set h | h in st.entries && env.info(h).pool == pool && (st.entries[h].parked || !st.entries[h].cancelRequested)
  }

  function WithoutPool(env: Env, c: Core, pool: PoolId, gone: set<Hash>): Core {
    var t := c.tracker;
    var st := c.storage.(
      pools := c.storage.pools - {pool},
      parkable := c.storage.parkable - {pool},
      entries := map h | h in c.storage.entries && env.info(h).pool != pool :: c.storage.entries[h],
      levels := set l | l in c.storage.levels && l.0 != pool);
    var t1 := t.(
      indexed := t.indexed - gone, peers := t.peers - gone,
      byAddress := if gone == {} then t.byAddress else Prune(t.byAddress, gone));
    c.(storage := st, tracker := t1)
  }

  function RemovePool(env: Env, c: Core, pool: PoolId): Core {
    var gone := PoolOrders(env, c.storage, pool);
    AnnounceAll(WithoutPool(env, c, pool, gone), (h: Hash) => Expired(h), env.arrange(gone))
  }

  /** The second of two inserts joined by a lazy "or" is not reached, so no parked part is made. */
  function NewPool(c: Core, pool: PoolId): Core {
    c.(storage := c.storage.(pools := c.storage.pools + {pool}))
  }

  function StartBlock(c: Core, notice: Notice): Core {
    match OnNewBlock(c.pipe, notice)
    case Some(pipe) => c.(pipe := pipe)
    case None => c
  }

  // ----- one event

  datatype Event =
    | OrderArrives(hash: Hash, origin: Origin, peer: Option<Peer>, caller: Option<Caller>)
    | CancelArrives(user: Address, hash: Hash, signatureValid: bool, now: Time)
    | BlockStarts(notice: Notice)
    | Polled(ready: Readiness, verdict: Verdict, now: Time)
    | Reorged(hashes: seq<Hash>)
    | BlockFinalized(block: nat)
    | PoolAdded(pool: PoolId)
    | PoolRemoved(pool: PoolId)

  function PollPool(env: Env, s: State, ready: Readiness, v: Verdict, now: Time): State {
    if !Fits(s.core.pipe, ready) then s
    else
      var (pipe, res) := PollNext(s.core.pipe, ready);
      var s1 := s.(core := s.core.(pipe := pipe));
      match res
      case ValidatedOrder(job) => HandleResult(env, s1, job.hash, v, now)
      case EnsureClearForTransition(notice) => FinishNewBlock(env, s1, notice, now)
      case TransitionComplete => s1.(core := Emit(s1.core, Transitioned(s1.core.block)))
      case _ => s1
  }

  function Step(env: Env, s: State, e: Event): State {
    match e
    case OrderArrives(h, origin, peer, caller) =>
        s.(core := NewOrder(env, s.core, OwnerClaim(env, s, h), peer, origin, h, caller))
    case CancelArrives(user, h, signatureValid, now) => CancelOrder(env, s, user, h, signatureValid, now).0
    case BlockStarts(notice) => s.(core := StartBlock(s.core, notice))
    case Polled(ready, v, now) => PollPool(env, s, ready, v, now)
    case Reorged(hs) => s.(core := ReorgOrders(s.core, hs))
    case BlockFinalized(block) => s.(core := FinalizedBlock(s.core, block))
    case PoolAdded(pool) => s.(core := NewPool(s.core, pool))
    case PoolRemoved(pool) => s.(core := RemovePool(env, s.core, pool))
  }

  function Run(env: Env, s: State, events: seq<Event>): State {
    if events == [] then s else Step(env, Run(env, s, events[..|events| - 1]), events[|events| - 1])
  }

  function EmptyTracker(): Tracker {
    Tracker(map[], {}, map[], {}, map[], {})
  }

  function Start(pools: set<PoolId>, block: nat): State {
    State(Core(block, EmptyTracker(), Storage(pools, pools, map[], {}, Finalization.Pool(map[], map[])),
        RegularProcessing([]), map[], []), map[])
  }
}
