/** Whole runs of the barrier, call by call, with modules that sign the proposals in the order
    they were queued. The history below is what an outside observer would write down. */
module BlockSyncRuns {
  import opened Options
  import opened BlockSync

  /** A completed proposal, the modules registered then, and the waker each was woken with. */
  datatype Completion = Completion(proposal: Proposal, wakes: map<Module, Option<Waker>>)

  datatype World = World(
    sync: Sync,
    initial: nat,
    queued: seq<Proposal>,
    done: seq<Completion>,
    joined: map<Module, nat>,
    signed: map<Module, seq<Option<Waker>>>)

  datatype Event =
    | ProposeBlock(block: nat)
    | ProposeReorg(low: nat, high: nat)
    | Join(m: Module)
    | Close
    | Sign(m: Module, waker: Option<Waker>)
    | LateSign(m: Module, block: nat, waker: Option<Waker>)

  function Start(block: nat): World {
    World(Empty(block), block, [], [], map[], map[])
  }

  /** The index, among all proposals ever queued, of the one module m signs next: it starts
      with the first proposal not completed when it joined and takes them in order. */
  function NextIndex(w: World, m: Module): nat
    requires m in w.joined && m in w.signed
  {
    w.joined[m] + |w.signed[m]|
  }

  /** What producers and modules may do: the producer waits, nobody registers twice, and a
      registered module signs its next proposal, or repeats a block from before it joined. */
  predicate Enabled(w: World, e: Event) {
    match e
    case ProposeBlock(block) => block > 0 && !IsTransitioning(w.sync, block - 1)
    case ProposeReorg(low, high) => low <= high && !IsTransitioning(w.sync, high)
    case Join(m) => w.sync.finalized || m !in w.sync.modules
    case Close => true
    case Sign(m, _) => m in w.joined && m in w.signed && NextIndex(w, m) < |w.queued| &&
        !w.queued[NextIndex(w, m)].Processing?
    case LateSign(m, block, _) =>
        m in w.sync.joining && block <= w.sync.block && PendingProgression(block) !in w.sync.pending
  }

  function Call(w: World, e: Event): (Sync, Outcome)
    requires Enabled(w, e)
  {
    match e
    case ProposeBlock(block) => NewBlock(w.sync, block)
    case ProposeReorg(low, high) => Reorg(w.sync, low, high)
    case Join(m) => Register(w.sync, m)
    case Close => (Finalize(w.sync), Registered)
    case Sign(m, waker) => SignOn(w.sync, m, w.queued[NextIndex(w, m)], waker)
    case LateSign(m, block, waker) => SignOn(w.sync, m, PendingProgression(block), waker)
  }

  /** The block is the one queued last, and not all have signed it yet. What was queued and who has
      joined is written down from the events and the history, not from what a call answers. */
  predicate AlreadyLast(w: World, block: nat) {
    |w.done| < |w.queued| && w.queued[|w.queued| - 1] == PendingProgression(block)
  }

  function Step(w: World, e: Event): World
    requires Enabled(w, e)
  {
    var (sync, res) := Call(w, e);
    match e
    case ProposeBlock(block) =>
      w.(sync := sync, queued := if AlreadyLast(w, block) then w.queued else w.queued + [PendingProgression(block)])
    case ProposeReorg(low, high) => w.(sync := sync, queued := w.queued + [PendingReorg(low, high)])
    case Join(m) =>
      if !w.sync.finalized then w.(sync := sync, joined := w.joined[m := |w.done|], signed := w.signed[m := []])
      else w.(sync := sync)
    case Close => w.(sync := sync)
    case Sign(m, waker) =>
      var p := w.queued[NextIndex(w, m)];
      var wakes := Wakes(w.sync, m, p, waker);
      w.(sync := sync, signed := w.signed[m := w.signed[m] + [waker]],
         done := if wakes == [] || w.sync.pending == [] then w.done
             else w.done + [Completion(w.sync.pending[0], wakes[0])])
    case LateSign(_, _, _) => w.(sync := sync)
  }

  ghost predicate IsRun(w: World, events: seq<Event>)
    decreases |events|
  {
    events == [] || (Enabled(w, events[0]) && IsRun(Step(w, events[0]), events[1..]))
  }

  ghost function After(w: World, events: seq<Event>): World
    requires IsRun(w, events)
    decreases |events|
  {
    if events == [] then w else After(Step(w, events[0]), events[1..])
  }

  /** The block of the last completed progression. */
  function LastBlock(initial: nat, done: seq<Completion>): nat {
    if done == [] then initial
    else if done[|done| - 1].proposal.PendingProgression? then done[|done| - 1].proposal.block
    else LastBlock(initial, done[..|done| - 1])
  }

  /** completed ++ pending is everything queued, in order. */
  ghost predicate InOrder(w: World) {
    && |w.done| <= |w.queued|
    && w.sync.pending == w.queued[|w.done|..]
    && (forall i :: 0 <= i < |w.done| ==> w.done[i].proposal == w.queued[i])
    && (forall i :: 0 <= i < |w.queued| ==> !w.queued[i].Processing?)
  }

  /** A module's queue holds its sign-offs for a prefix of the pending proposals. */
  ghost predicate QueueAligned(w: World, m: Module) {
    && m in w.sync.modules && m in w.joined && m in w.signed
    && w.joined[m] <= |w.done|
    && NextIndex(w, m) == |w.done| + |w.sync.modules[m]| <= |w.queued|
    && forall k :: 0 <= k < |w.sync.modules[m]| ==> EntryAligned(w, m, k)
  }

  /** The k-th sign-off in a module's queue is for the k-th pending proposal. */
  ghost predicate EntryAligned(w: World, m: Module, k: nat)
    requires m in w.sync.modules && m in w.joined && m in w.signed && k < |w.sync.modules[m]|
    requires w.joined[m] <= |w.done| && NextIndex(w, m) == |w.done| + |w.sync.modules[m]| <= |w.queued|
  {
    && !w.queued[|w.done| + k].Processing?
    && w.sync.modules[m][k] == SignFor(w.queued[|w.done| + k], w.signed[m][|w.done| + k - w.joined[m]])
  }

  ghost predicate Aligned(w: World) {
    && w.sync.modules.Keys == w.joined.Keys == w.signed.Keys
    && w.sync.joining <= w.sync.modules.Keys
    && forall m :: m in w.sync.modules ==> QueueAligned(w, m)
  }

  /** Somebody has not signed the front proposal yet. */
  ghost predicate SomeoneMissing(w: World) {
    w.sync.modules != map[] ==> exists m :: m in w.sync.modules && w.sync.modules[m] == []
  }

  /** Exactly the modules that had joined by then signed it, each with the waker it was woken with. */
  ghost predicate SignedByAll(w: World, i: nat)
    requires i < |w.done|
  {
    && (forall m :: m in w.done[i].wakes <==> m in w.joined && w.joined[m] <= i)
    && (forall m :: m in w.done[i].wakes ==>
         m in w.signed && i - w.joined[m] < |w.signed[m]| && w.done[i].wakes[m] == w.signed[m][i - w.joined[m]])
  }

  ghost predicate Inv(w: World) {
    && InOrder(w)
    && Aligned(w)
    && SomeoneMissing(w)
    && w.sync.block == LastBlock(w.initial, w.done)
    && forall i :: 0 <= i < |w.done| ==> SignedByAll(w, i)
  }

  /** A sign-off in order is accepted, and it completes the front proposal exactly when its
      module was the only one that had not signed it. */
  lemma SignCompletes(w: World, m: Module, waker: Option<Waker>)
    requires Inv(w) && Enabled(w, Sign(m, waker))
    ensures w.queued[NextIndex(w, m)] in w.sync.pending
    ensures Call(w, Sign(m, waker)).1 in {Accepted, Completed}
    ensures Call(w, Sign(m, waker)).1 == Completed <==> forall o :: o in w.sync.modules ==>
        (o == m <==> w.sync.modules[o] == [])
  {
    hide LastBlock, SignedByAll;
    var k := |w.sync.modules[m]|;
    assert QueueAligned(w, m);
    var p := w.queued[NextIndex(w, m)];
    assert w.sync.pending[k] == p;
    var check := SignFor(p, waker);
    var pushed := PushSignOff(w.sync.modules, m, check);
    var idle :| idle in w.sync.modules && w.sync.modules[idle] == [];
    if k > 0 {
      assert pushed[idle] == [];
      assert !AllFrontsAre(pushed, check);
    } else {
      forall o | o in pushed && pushed[o] != []
        ensures SameSignOff(pushed[o][0], check)
      {
        if o != m { assert QueueAligned(w, o) && EntryAligned(w, o, 0); }
      }
      assert AllFrontsAre(pushed, check) <==> forall o :: o in pushed ==> pushed[o] != [];
      assert forall o :: o in w.sync.modules && o != m ==> pushed[o] == w.sync.modules[o];
    }
  }

  /** The state of affairs between recording a sign-off and looking at the fronts. */
  ghost predicate Settled(w: World) {
    && InOrder(w)
    && Aligned(w)
    && w.sync.block == LastBlock(w.initial, w.done)
    && forall i :: 0 <= i < |w.done| ==> SignedByAll(w, i)
  }

  function Pushed(w: World, m: Module, waker: Option<Waker>): World
    requires Enabled(w, Sign(m, waker)) && m in w.sync.modules
  {
    var check := SignFor(w.queued[NextIndex(w, m)], waker);
    w.(sync := w.sync.(joining := w.sync.joining - {m}, modules := w.sync.modules[m := w.sync.modules[m] + [check]]),
       signed := w.signed[m := w.signed[m] + [waker]])
  }

  function Popped(w: World): World
    requires w.sync.pending != [] && forall m :: m in w.sync.modules ==> w.sync.modules[m] != []
  {
    var front := w.sync.pending[0];
    w.(sync := w.sync.(pending := w.sync.pending[1..], modules := PopFronts(w.sync.modules),
                       block := if front.PendingProgression? then front.block else w.sync.block),
       done := w.done + [Completion(front, FrontWakers(w.sync.modules))])
  }

  lemma SignIsPushThenPop(w: World, m: Module, waker: Option<Waker>)
    requires Inv(w) && Enabled(w, Sign(m, waker))
    ensures m in w.sync.modules
    ensures var u := Pushed(w, m, waker);
      if Call(w, Sign(m, waker)).1 == Completed
      then u.sync.pending != [] && (forall o :: o in u.sync.modules ==> u.sync.modules[o] != []) &&
          Step(w, Sign(m, waker)) == Popped(u)
      else Step(w, Sign(m, waker)) == u
  {
    hide LastBlock, SignedByAll;
    SignCompletes(w, m, waker);
    assert QueueAligned(w, m);
    if Call(w, Sign(m, waker)).1 == Completed {
      assert w.sync.modules[m] == [];
      assert w.sync.pending[0] == w.queued[NextIndex(w, m)];
    }
  }

  lemma PushedSettled(w: World, m: Module, waker: Option<Waker>)
    requires Inv(w) && Enabled(w, Sign(m, waker)) && m in w.sync.modules
    ensures Settled(Pushed(w, m, waker))
  {
    hide LastBlock, QueueAligned, SignedByAll;
    var u := Pushed(w, m, waker);
    forall o | o in u.sync.modules
      ensures QueueAligned(u, o)
    {
      if o == m { PushedQueue(w, m, waker); } else { OtherQueue(w, m, waker, o); }
    }
    forall i | 0 <= i < |u.done|
      ensures SignedByAll(u, i)
    {
      PushedSigned(w, m, waker, i);
    }
  }

  lemma SameQueue(w: World, u: World, o: Module)
    requires QueueAligned(w, o)
    requires o in u.joined && u.joined[o] == w.joined[o] && w.queued <= u.queued && u.done == w.done
    requires o in u.sync.modules && u.sync.modules[o] == w.sync.modules[o]
    requires o in u.signed && u.signed[o] == w.signed[o]
    ensures QueueAligned(u, o)
  {
    assert NextIndex(u, o) == NextIndex(w, o);
    forall k | 0 <= k < |u.sync.modules[o]|
      ensures EntryAligned(u, o, k)
    {
      assert EntryAligned(w, o, k);
    }
  }

  lemma OtherQueue(w: World, m: Module, waker: Option<Waker>, o: Module)
    requires QueueAligned(w, o) && Enabled(w, Sign(m, waker)) && m in w.sync.modules && o != m
    ensures QueueAligned(Pushed(w, m, waker), o)
  {
    var u := Pushed(w, m, waker);
    assert o in u.sync.modules && o in u.signed && u.sync.modules[o] == w.sync.modules[o] && u.signed[o] == w.signed[o];
    SameQueue(w, u, o);
  }

  lemma PushedSigned(w: World, m: Module, waker: Option<Waker>, i: nat)
    requires Enabled(w, Sign(m, waker)) && m in w.sync.modules && i < |w.done| && SignedByAll(w, i)
    ensures SignedByAll(Pushed(w, m, waker), i)
  {
    var u := Pushed(w, m, waker);
    forall o | o in u.done[i].wakes
      ensures o in u.signed && i - u.joined[o] < |u.signed[o]| && u.done[i].wakes[o] == u.signed[o][i - u.joined[o]]
    {
      assert o in w.done[i].wakes && w.joined[o] <= i;
    }
  }

  lemma PushedQueue(w: World, m: Module, waker: Option<Waker>)
    requires QueueAligned(w, m) && Enabled(w, Sign(m, waker)) && InOrder(w)
    ensures QueueAligned(Pushed(w, m, waker), m)
  {
    var u := Pushed(w, m, waker);
    assert u.signed[m] == w.signed[m] + [waker] && NextIndex(u, m) == NextIndex(w, m) + 1;
    assert |u.sync.modules[m]| == |w.sync.modules[m]| + 1;
    forall k | 0 <= k < |u.sync.modules[m]|
      ensures EntryAligned(u, m, k)
    {
      if k < |w.sync.modules[m]| { assert EntryAligned(w, m, k); }
    }
  }

  lemma PoppedSettled(w: World)
    requires Settled(w) && w.sync.pending != []
    requires forall m :: m in w.sync.modules ==> w.sync.modules[m] != []
    ensures Settled(Popped(w))
  {
    var v := Popped(w);
    assert v.done[..|w.done|] == w.done;
    assert w.sync.pending[0] == w.queued[|w.done|];
    forall m | m in v.sync.modules
      ensures QueueAligned(v, m)
    {
      assert QueueAligned(w, m);
      PoppedQueue(w, m);
    }
    forall i | 0 <= i < |v.done|
      ensures SignedByAll(v, i)
    {
      PoppedSigned(w, i);
    }
  }

  lemma PoppedQueue(w: World, m: Module)
    requires QueueAligned(w, m) && InOrder(w) && w.sync.pending != []
    requires forall o :: o in w.sync.modules ==> w.sync.modules[o] != []
    ensures QueueAligned(Popped(w), m)
  {
    var v := Popped(w);
    assert v.sync.modules[m] == w.sync.modules[m][1..] && NextIndex(v, m) == NextIndex(w, m);
    forall k | 0 <= k < |v.sync.modules[m]|
      ensures EntryAligned(v, m, k)
    {
      assert EntryAligned(w, m, k + 1);
    }
  }

  lemma PoppedSigned(w: World, i: nat)
    requires Aligned(w) && InOrder(w) && w.sync.pending != [] && i <= |w.done|
    requires forall o :: o in w.sync.modules ==> w.sync.modules[o] != []
    requires i < |w.done| ==> SignedByAll(w, i)
    ensures SignedByAll(Popped(w), i)
  {
    var v := Popped(w);
    if i == |w.done| {
      forall m | m in w.joined
        ensures m in w.sync.modules && w.joined[m] <= i && i - w.joined[m] < |w.signed[m]|
        ensures w.sync.modules[m][0].waker == w.signed[m][i - w.joined[m]]
      {
        assert QueueAligned(w, m) && EntryAligned(w, m, 0);
      }
    }
  }

  lemma AcceptedKeepsInv(w: World, m: Module, waker: Option<Waker>)
    requires Inv(w) && Enabled(w, Sign(m, waker)) && Call(w, Sign(m, waker)).1 != Completed
    ensures Inv(Step(w, Sign(m, waker)))
  {
    hide Settled, Step, Call, QueueAligned, SignedByAll, LastBlock, InOrder;
    SignCompletes(w, m, waker);
    SignIsPushThenPop(w, m, waker);
    PushedSettled(w, m, waker);
    SettledMissing(Pushed(w, m, waker));
    var idle :| idle in w.sync.modules && w.sync.modules[idle] == [];
    if idle == m {
      var other :| other in w.sync.modules && !(other == m <==> w.sync.modules[other] == []);
      assert Pushed(w, m, waker).sync.modules[other] == [];
    } else {
      assert Pushed(w, m, waker).sync.modules[idle] == [];
    }
  }

  lemma SettledMissing(w: World)
    requires Settled(w)
    ensures SomeoneMissing(w) ==> Inv(w)
  {
  }

  lemma CompletedKeepsInv(w: World, m: Module, waker: Option<Waker>)
    requires Inv(w) && Enabled(w, Sign(m, waker)) && Call(w, Sign(m, waker)).1 == Completed
    ensures Inv(Step(w, Sign(m, waker)))
    ensures |Step(w, Sign(m, waker)).done| == |w.done| + 1
  {
    hide Settled, Step, Call, QueueAligned, SignedByAll, LastBlock, InOrder;
    SignCompletes(w, m, waker);
    SignIsPushThenPop(w, m, waker);
    PushedSettled(w, m, waker);
    PoppedSettled(Pushed(w, m, waker));
    SettledMissing(Popped(Pushed(w, m, waker)));
    assert w.sync.modules[m] == [];
    assert Popped(Pushed(w, m, waker)).sync.modules[m] == [];
  }

  function Proposed(w: World, p: Proposal): World {
    w.(sync := w.sync.(pending := w.sync.pending + [p]), queued := w.queued + [p])
  }

  function Joined(w: World, m: Module): World {
    w.(sync := w.sync.(modules := w.sync.modules[m := []], joining := w.sync.joining + {m}),
       joined := w.joined[m := |w.done|], signed := w.signed[m := []])
  }

  lemma ProposalKeepsInv(w: World, p: Proposal)
    requires Inv(w) && !p.Processing?
    ensures Inv(Proposed(w, p))
  {
    hide LastBlock;
    var v := Proposed(w, p);
    forall m | m in v.sync.modules
      ensures QueueAligned(v, m)
    {
      SameQueue(w, v, m);
    }
    forall i | 0 <= i < |v.done|
      ensures SignedByAll(v, i)
    {
      assert SignedByAll(w, i);
    }
  }

  lemma JoinKeepsInv(w: World, m: Module)
    requires Inv(w) && m !in w.sync.modules
    ensures Inv(Joined(w, m))
  {
    hide LastBlock;
    var v := Joined(w, m);
    forall o | o in v.sync.modules
      ensures QueueAligned(v, o)
    {
      if o != m { SameQueue(w, v, o); }
    }
    JoinKeepsSigned(w, m, v);
    assert v.sync.modules[m] == [];
  }

  lemma JoinKeepsSigned(w: World, m: Module, v: World)
    requires forall i :: 0 <= i < |w.done| ==> SignedByAll(w, i)
    requires m !in w.joined && v.done == w.done
    requires v.joined == w.joined[m := |w.done|] && v.signed == w.signed[m := []]
    ensures forall i :: 0 <= i < |v.done| ==> SignedByAll(v, i)
  {
    forall i | 0 <= i < |v.done|
      ensures SignedByAll(v, i)
    {
      assert SignedByAll(w, i);
    }
  }

  lemma CloseKeepsInv(w: World)
    requires Inv(w)
    ensures Inv(w.(sync := w.sync.(finalized := true)))
  {
    hide LastBlock;
    var v := w.(sync := w.sync.(finalized := true));
    forall m | m in v.sync.modules
      ensures QueueAligned(v, m)
    {
      SameQueue(w, v, m);
    }
    forall i | 0 <= i < |v.done|
      ensures SignedByAll(v, i)
    {
      assert SignedByAll(w, i);
    }
    assert InOrder(v) && SomeoneMissing(v) && Aligned(v);
  }

  /** A step that is known to lead to a good world. */
  lemma StepTo(w: World, e: Event, v: World)
    requires Enabled(w, e) && Step(w, e) == v && Inv(v)
    ensures Inv(Step(w, e))
  {
  }

  /** A block is dropped exactly if it is the last pending one; otherwise it joins the queue, however
      many proposals are waiting there. */
  lemma DroppedIff(w: World, block: nat)
    requires Inv(w)
    ensures AlreadyLast(w, block) <==>
        w.sync.pending != [] && w.sync.pending[|w.sync.pending| - 1] == PendingProgression(block)
    ensures NewBlock(w.sync, block) ==
      if AlreadyLast(w, block) then (w.sync, Duplicate)
      else (w.sync.(pending := w.sync.pending + [PendingProgression(block)]), Queued)
  {
    hide Aligned, SomeoneMissing, SignedByAll, LastBlock;
  }

  lemma OtherKeepsInv(w: World, e: Event)
    requires Inv(w) && Enabled(w, e) && !e.Sign?
    ensures Inv(Step(w, e))
  {
    hide Inv;
    match e
    case ProposeBlock(block) =>
      ProposalKeepsInv(w, PendingProgression(block));
      DroppedIff(w, block);
      StepTo(w, e, if NewBlock(w.sync, block).1 == Duplicate then w else Proposed(w, PendingProgression(block)));
    case ProposeReorg(low, high) =>
      ProposalKeepsInv(w, PendingReorg(low, high));
      StepTo(w, e, Proposed(w, PendingReorg(low, high)));
    case Join(m) =>
      if w.sync.finalized {
        StepTo(w, e, w);
      } else {
        JoinKeepsInv(w, m);
        StepTo(w, e, Joined(w, m));
      }
    case Close =>
      CloseKeepsInv(w);
      StepTo(w, e, w.(sync := w.sync.(finalized := true)));
    case LateSign(m, block, waker) => StepTo(w, e, w);
  }

  lemma StepKeepsInv(w: World, e: Event)
    requires Inv(w) && Enabled(w, e)
    ensures Inv(Step(w, e))
  {
    hide Inv, Step, Enabled;
    if e.Sign? {
      SignOutcome(w, e.m, e.waker);
    } else {
      OtherKeepsInv(w, e);
    }
  }

  lemma SignOutcome(w: World, m: Module, waker: Option<Waker>)
    requires Inv(w) && Enabled(w, Sign(m, waker))
    ensures Inv(Step(w, Sign(m, waker)))
  {
    hide Inv, Step, Enabled, Call;
    SignCompletes(w, m, waker);
    if Call(w, Sign(m, waker)).1 == Completed {
      CompletedKeepsInv(w, m, waker);
    } else {
      AcceptedKeepsInv(w, m, waker);
    }
  }

  lemma {:induction false} RunKeepsInv(w: World, events: seq<Event>)
    requires Inv(w) && IsRun(w, events)
    ensures Inv(After(w, events))
    decreases |events|
  {
    hide Inv, Step, Enabled;
    if events != [] {
      StepKeepsInv(w, events[0]);
      RunKeepsInv(Step(w, events[0]), events[1..]);
    }
  }

  /** Agreement: in every run, completed ++ pending is what was queued, each completed proposal
      was signed by exactly the modules registered by then, each woken with its own waker,
      and the block number is that of the last completed progression. */
  lemma BarrierAgreement(block: nat, events: seq<Event>)
    requires IsRun(Start(block), events)
    ensures var w := After(Start(block), events);
      && |w.done| + |w.sync.pending| == |w.queued|
      && (forall i :: 0 <= i < |w.done| ==> w.done[i].proposal == w.queued[i] && SignedByAll(w, i))
      && (forall i :: 0 <= i < |w.sync.pending| ==> w.sync.pending[i] == w.queued[|w.done| + i])
      && w.sync.block == LastBlock(block, w.done)
  {
    RunKeepsInv(Start(block), events);
    KeepsInitial(Start(block), events);
  }

  lemma {:induction false} KeepsInitial(w: World, events: seq<Event>)
    requires IsRun(w, events)
    ensures After(w, events).initial == w.initial
    decreases |events|
  {
    if events != [] { KeepsInitial(Step(w, events[0]), events[1..]); }
  }

  /** In every reachable state a block proposed once the wait is over leaves the proposals unchanged if
      it is the last pending one, and otherwise is pending after all of them. */
  lemma BlockIsQueued(block: nat, events: seq<Event>, next: nat)
    requires IsRun(Start(block), events) && Enabled(After(Start(block), events), ProposeBlock(next))
    ensures var w := After(Start(block), events);
      var v := Step(w, ProposeBlock(next));
      var p := PendingProgression(next);
      if w.sync.pending != [] && w.sync.pending[|w.sync.pending| - 1] == p then v == w
      else v.queued == w.queued + [p] && v.sync == w.sync.(pending := w.sync.pending + [p])
  {
    hide IsRun, After;
    RunKeepsInv(Start(block), events);
    DroppedIff(After(Start(block), events), next);
  }

  /** Marked as joining are exactly the modules that have signed nothing yet. */
  ghost predicate Newcomers(w: World) {
    forall m :: m in w.sync.joining <==> m in w.joined && m in w.signed && w.signed[m] == []
  }

  lemma StepKeepsNewcomers(w: World, e: Event)
    requires Inv(w) && Newcomers(w) && Enabled(w, e)
    ensures Newcomers(Step(w, e))
  {
    hide InOrder, QueueAligned, SomeoneMissing, SignedByAll, LastBlock, SignOn, Wakes;
    if e.Sign? {
      SignIsPushThenPop(w, e.m, e.waker);
    } else if e.LateSign? {
      LateSignKeeps(w, e.m, e.block, e.waker);
    }
  }

  lemma LateSignKeeps(w: World, m: Module, block: nat, waker: Option<Waker>)
    requires Enabled(w, LateSign(m, block, waker))
    ensures Step(w, LateSign(m, block, waker)) == w
  {
  }

  lemma {:induction false} RunKeepsNewcomers(w: World, events: seq<Event>)
    requires Inv(w) && Newcomers(w) && IsRun(w, events)
    ensures Newcomers(After(w, events))
    decreases |events|
  {
    hide Inv, Newcomers, Step, Enabled;
    if events != [] {
      StepKeepsInv(w, events[0]);
      StepKeepsNewcomers(w, events[0]);
      RunKeepsNewcomers(Step(w, events[0]), events[1..]);
    }
  }

  /** Signing what is not pending changes nothing: it is let pass exactly for a module that has signed
      nothing since it registered and a block not after the shared one, and panics otherwise. */
  lemma SignOffOutOfTurn(block: nat, events: seq<Event>, m: Module, p: Proposal, waker: Option<Waker>)
    requires IsRun(Start(block), events) && !p.Processing?
    requires p !in After(Start(block), events).sync.pending
    ensures var w := After(Start(block), events);
      var newcomer := m in w.joined && m in w.signed && w.signed[m] == [];
      SignOn(w.sync, m, p, waker) ==
        (w.sync, if newcomer && p.PendingProgression? && p.block <= LastBlock(w.initial, w.done) then Ignored
            else Panicked)
  {
    hide IsRun, After;
    RunKeepsInv(Start(block), events);
    RunKeepsNewcomers(Start(block), events);
  }

  /** No call of such a run panics, so neither does an `unwrap` in a reset. */
  lemma NoPanic(block: nat, events: seq<Event>, e: Event)
    requires IsRun(Start(block), events) && Enabled(After(Start(block), events), e)
    ensures Call(After(Start(block), events), e).1 != Panicked
  {
    hide IsRun, After;
    RunKeepsInv(Start(block), events);
    if e.Sign? { SignCompletes(After(Start(block), events), e.m, e.waker); }
  }

  /** A fully signed front never stays pending: somebody has always yet to sign it. */
  lemma NotStuck(block: nat, events: seq<Event>)
    requires IsRun(Start(block), events)
    ensures SomeoneMissing(After(Start(block), events)) && Aligned(After(Start(block), events))
  {
    hide IsRun, After;
    RunKeepsInv(Start(block), events);
  }

  /** After finalisation the producer's wait ends exactly when all queues are empty; before it
      the producer never waits. */
  lemma ProducerWait(block: nat, events: seq<Event>, expected: nat)
    requires IsRun(Start(block), events)
    ensures var s := After(Start(block), events).sync;
      IsTransitioning(s, expected) <==> s.finalized && exists m :: m in s.modules && s.modules[m] != []
  {
    hide IsRun, After;
    RunKeepsInv(Start(block), events);
  }

  /** The modules that have not signed the front proposal. */
  ghost function Missing(w: World): set<Module> {
    set m | m in w.sync.modules && w.sync.modules[m] == []
  }

  /** From every reachable state the missing sign-offs alone complete the front proposal. */
  lemma {:induction false} MissingSignOffsComplete(w: World) returns (events: seq<Event>)
    requires Inv(w) && w.sync.pending != [] && w.sync.modules != map[]
    ensures forall e :: e in events ==> e.Sign? && e.m in Missing(w)
    ensures IsRun(w, events) && |After(w, events).done| == |w.done| + 1
    decreases Missing(w)
  {
    hide LastBlock, SignedByAll, IsRun, After, Step, Call, QueueAligned, InOrder;
    var m :| m in w.sync.modules && w.sync.modules[m] == [];
    CanSign(w, m);
    var e := Sign(m, None);
    SignIsPushThenPop(w, m, None);
    var v := Step(w, e);
    if Call(w, e).1 == Completed {
      CompletedKeepsInv(w, m, None);
      events := [e];
      OneStep(w, e);
    } else {
      AcceptedKeepsInv(w, m, None);
      assert Missing(v) == Missing(w) - {m};
      var rest := MissingSignOffsComplete(v);
      events := [e] + rest;
      FirstStep(w, e, rest);
    }
  }

  lemma CanSign(w: World, m: Module)
    requires Inv(w) && w.sync.pending != [] && m in w.sync.modules && w.sync.modules[m] == []
    ensures Enabled(w, Sign(m, None))
  {
    hide LastBlock, SignedByAll;
    assert QueueAligned(w, m);
  }

  lemma OneStep(w: World, e: Event)
    requires Enabled(w, e)
    ensures IsRun(w, [e]) && After(w, [e]) == Step(w, e)
  {
    FirstStep(w, e, []);
  }

  lemma FirstStep(w: World, e: Event, rest: seq<Event>)
    requires Enabled(w, e) && IsRun(Step(w, e), rest)
    ensures IsRun(w, [e] + rest) && After(w, [e] + rest) == After(Step(w, e), rest)
  {
    hide Enabled, Step;
    assert ([e] + rest)[1..] == rest;
  }
}
