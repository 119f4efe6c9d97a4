/** The racing signers refine the atomic barrier: the last push is the sign-off that completes,
    every other step is invisible, and when all threads are at rest the fields coincide. */
module RacingRefinement {
  import opened Options
  import opened BlockSync
  import opened RacingSigners

  ghost predicate Signing(r: Race) {
    exists m :: m in r.pcs && Unsigned(r, m)
  }

  /** The atomic state a racing state stands for. */
  ghost function Abs(r: Race): Sync {
    if r.current.None? then Sync(r.pending, r.block, r.queues, {}, true)
    else if Signing(r) then Sync([r.current.value], r.base, r.queues, {}, true)
    else Sync([], Advance(r.current.value, r.base), map m | m in r.queues :: [], {}, true)
  }

  lemma ProposeRefines(r: Race, p: Proposal)
    requires Inv(r) && Enabled(r, Propose(p))
    ensures Abs(Step(r, Propose(p))) ==
      (if p.PendingProgression? then NewBlock(Abs(r), p.block) else BlockSync.Reorg(Abs(r), p.low, p.high)).0
  {
    SettledAbs(r);
    var m :| m in r.pcs;
    assert Harmless(m, r.pcs[m], p);
    assert Unsigned(Step(r, Propose(p)), m);
  }

  /** Once the queues are reset the racing fields are the atomic ones, whoever is still on the way
      out; and at rest they are reset. */
  lemma SettledAbs(r: Race)
    requires Inv(r) && (Settled(r) || Quiet(r))
    ensures Settled(r) && Abs(r) == Sync(r.pending, r.block, r.queues, {}, true)
  {
    if r.current.Some? {
      assert Quiet(r) ==> Remaining(r) == {};
      assert !Signing(r);
      assert r.queues == map m | m in r.queues :: [];
    }
  }

  /** What the fronts look like right after a push. */
  lemma PushedFronts(r: Race, m: Module, waker: Option<Waker>)
    requires Inv(r) && Enabled(r, Push(m, waker))
    ensures r.current.Some? && r.pcs[m].p == r.current.value && !r.current.value.Processing? && Signing(r)
    ensures var check, pushed, n := SignFor(r.current.value, waker), Step(r, Push(m, waker)).queues,
        Step(r, Push(m, waker));
      && pushed == PushSignOff(r.queues, m, check) && pushed[m] == [check] && !Unsigned(n, m)
      && forall o :: o in r.pcs && o != m ==>
           && Unsigned(n, o) == Unsigned(r, o)
           && if Unsigned(r, o) then pushed[o] == [] else |pushed[o]| == 1 && SameSignOff(pushed[o][0], check)
  {
    var p := r.current.value;
    assert Unsigned(r, m) && CollectingThread(r, p, m);
    forall o | o in r.pcs && o != m
      ensures if Unsigned(r, o) then r.queues[o] == [] else o in r.given && r.queues[o] == [SignFor(p, r.given[o])]
    {
      assert CollectingThread(r, p, o);
    }
  }

  lemma PushRefines(r: Race, m: Module, waker: Option<Waker>)
    requires Inv(r) && Enabled(r, Push(m, waker))
    ensures r.current.Some? && r.pcs[m].p == r.current.value && !r.current.value.Processing?
    ensures Abs(Step(r, Push(m, waker))) == SignOn(Abs(r), m, r.current.value, waker).0
    ensures SignOn(Abs(r), m, r.current.value, waker).1 ==
      if forall o :: o in r.pcs && o != m ==> !Unsigned(r, o) then Completed else Accepted
  {
    hide Collecting, Emptied, SameSignOff;
    PushedFronts(r, m, waker);
    var n := Step(r, Push(m, waker));
    var check := SignFor(r.current.value, waker);
    if forall o :: o in r.pcs && o != m ==> !Unsigned(r, o) {
      SameAsItself(check);
      LastFronts(n.queues, check);
      assert !Signing(n);
    } else {
      var o :| o in r.pcs && o != m && Unsigned(r, o);
      assert n.queues[o] == [] && Unsigned(n, o);
      assert !AllFrontsAre(n.queues, check);
    }
  }

  lemma SameAsItself(check: SignOff)
    ensures SameSignOff(check, check)
  {
  }

  lemma LastFronts(queues: map<Module, seq<SignOff>>, check: SignOff)
    requires forall o :: o in queues ==> |queues[o]| == 1 && SameSignOff(queues[o][0], check)
    ensures AllFrontsAre(queues, check) && PopFronts(queues) == map o | o in queues :: []
  {
    hide SameSignOff;
    assert forall o :: o in queues ==> queues[o][1..] == [];
  }

  lemma CheckInvisible(r: Race, m: Module)
    requires Inv(r) && Enabled(r, Check(m))
    ensures Abs(Step(r, Check(m))) == Abs(r)
  {
    var n := Step(r, Check(m));
    assert Unsigned(r, m) && CollectingThread(r, r.current.value, m);
    assert Unsigned(n, m);
  }

  lemma SameAbs(r: Race, n: Race)
    requires n.current == r.current && r.current.Some? && n.base == r.base && n.pcs.Keys == r.pcs.Keys
    requires n.queues.Keys == r.queues.Keys && (Signing(r) ==> n.queues == r.queues)
    requires forall m :: m in r.pcs ==> Unsigned(n, m) == Unsigned(r, m)
    ensures Abs(n) == Abs(r)
  {
    assert Signing(n) == Signing(r);
  }

  lemma ResetInvisible(r: Race, e: Event)
    requires Inv(r) && Enabled(r, e) && (e.Reset? || e.EndReset?)
    ensures Abs(Step(r, e)) == Abs(r)
  {
    ResettingIsEmptied(r, e.m);
    SameAbs(r, Step(r, e));
  }

  lemma ScanInvisible(r: Race, e: Event)
    requires Inv(r) && Enabled(r, e) && (e.Scan? || e.EndScan?)
    ensures Abs(Step(r, e)) == Abs(r)
  {
    assert r.current.Some?;
    SameAbs(r, Step(r, e));
  }

  lemma TrailInvisible(r: Race, e: Event)
    requires Inv(r) && Enabled(r, e) && (e.Trail? || e.EndTrail?)
    ensures Abs(Step(r, e)) == Abs(r)
  {
    assert r.current.Some? && Unsigned(r, e.m) && CollectingThread(r, r.current.value, e.m);
    SameAbs(r, Step(r, e));
  }

  lemma PopInvisible(r: Race, m: Module)
    requires Inv(r) && Enabled(r, Pop(m))
    ensures Abs(Step(r, Pop(m))) == Abs(r)
  {
    assert r.current.Some?;
    SameAbs(r, Step(r, Pop(m)));
  }

  /** Every racing step is one atomic call or nothing. */
  lemma StepRefines(r: Race, e: Event)
    requires Inv(r) && Enabled(r, e)
    ensures match e
      case Propose(p) => Abs(Step(r, e)) ==
          (if p.PendingProgression? then NewBlock(Abs(r), p.block) else BlockSync.Reorg(Abs(r), p.low, p.high)).0
      case Push(m, waker) =>
          r.current.Some? && !r.current.value.Processing? &&
              Abs(Step(r, e)) == SignOn(Abs(r), m, r.current.value, waker).0
      case _ => Abs(Step(r, e)) == Abs(r)
  {
    hide Inv, Step, Abs, SignOn;
    match e
    case Propose(p) => ProposeRefines(r, p);
    case Push(m, waker) => PushRefines(r, m, waker);
    case Check(m) => CheckInvisible(r, m);
    case Pop(m) => PopInvisible(r, m);
    case Scan(_, _) => ScanInvisible(r, e);
    case EndScan(_) => ScanInvisible(r, e);
    case Trail(_, _) => TrailInvisible(r, e);
    case EndTrail(_) => TrailInvisible(r, e);
    case Reset(_, _) => ResetInvisible(r, e);
    case EndReset(_) => ResetInvisible(r, e);
  }

  // ----- the assumption on the producer is the weakest one

  /** About to pop, or with nothing left to scan. */
  predicate BoundToPop(pc: Pc) {
    pc.Popping? || (pc.Scanning? && pc.left == {} && pc.ok)
  }

  /** With modules left to scan, its own not among them, and the new proposal signed alike. */
  predicate TakesForOld(m: Module, pc: Pc, q: Proposal)
    requires !q.Processing?
  {
    pc.Scanning? && pc.ok && !pc.p.Processing? && m !in pc.left && SameSignOff(SignFor(q, None), SignFor(pc.p, None))
  }

  /** The signers that the producer has to wait for are exactly these two kinds, and the two
      lemmas below show what each of them does to a proposal that comes too early. */
  lemma HarmlessIff(r: Race, m: Module, q: Proposal)
    requires Inv(r) && r.current.Some? && Settled(r) && m in r.pcs && !q.Processing?
    ensures Harmless(m, r.pcs[m], q) <==> !BoundToPop(r.pcs[m]) && !TakesForOld(m, r.pcs[m], q)
  {
    assert !Collecting(r);
    if r.pcs[m].Resetting? { RestEmpty(r, m); }
  }

  lemma RestEmpty(r: Race, m: Module)
    requires Inv(r) && Settled(r) && m in r.pcs && r.pcs[m].Resetting?
    ensures r.pcs[m].rest == {}
  {
    ResettingIsEmptied(r, m);
    assert forall o :: o in r.queues && o in Remaining(r) ==> r.queues[o] != [];
  }

  /** A signer of the finished round that is bound to pop: all queues are empty, so the producer
      does not wait, and the proposal it queues is then completed without a single sign-off, after
      which the reset unwraps an empty queue. */
  lemma EarlyProposalIsSwallowed(r: Race, late: Module, p: Proposal, expected: nat, o: Module)
    requires Inv(r) && r.current.Some? && Settled(r) && !p.Processing?
    requires late in r.pcs && BoundToPop(r.pcs[late]) && o in r.pcs
    ensures !IsTransitioning(Sync(r.pending, r.block, r.queues, {}, true), expected)
    ensures IsRun(Step(r, Propose(p)), SwallowedBy(r, late, o))
    ensures var n := After(Step(r, Propose(p)), SwallowedBy(r, late, o));
      n.done == r.done + [p] && n.given == map[] && n.panicked
  {
    hide IsRun, After, Collecting;
    var s := Step(r, Propose(p));
    var events: seq<Event>, q: Race := [], s;
    RunNothing(s);
    if r.pcs[late].Scanning? { events, q := Extend(s, events, q, EndTrail(late)); }
    events, q := Extend(s, events, q, Pop(late));
    events, q := Extend(s, events, q, Reset(late, o));
    assert events == SwallowedBy(r, late, o);
  }

  /** And whoever comes to sign the swallowed proposal finds it gone and panics in turn. */
  lemma SwallowedSignersPanic(r: Race, late: Module, p: Proposal, o: Module) returns (events: seq<Event>)
    requires Inv(r) && r.current.Some? && Settled(r) && !p.Processing?
    requires late in r.pcs && BoundToPop(r.pcs[late]) && o in r.pcs && r.pcs[o].Returned?
    ensures IsRun(Step(r, Propose(p)), events) && |events| > 0 && events[|events| - 1] == Check(o)
    ensures var n := After(Step(r, Propose(p)), events);
      n.done == r.done + [p] && n.given == map[] && n.panicked && o in n.pcs && n.pcs[o] == Returned
  {
    hide IsRun, After, Collecting;
    var s := Step(r, Propose(p));
    var q: Race;
    events, q := [], s;
    RunNothing(s);
    if r.pcs[late].Scanning? { events, q := Extend(s, events, q, EndTrail(late)); }
    events, q := Extend(s, events, q, Pop(late));
    events, q := Extend(s, events, q, Check(o));
  }

  /** What such a signer has left to do. */
  function SwallowedBy(r: Race, late: Module, o: Module): seq<Event>
    requires late in r.pcs
  {
    (if r.pcs[late].Scanning? then [EndTrail(late)] else []) + [Pop(late), Reset(late, o)]
  }

  /** A signer with modules left to scan, its own not among them, and a new proposal with the same
      kind of sign-off (two reorgs): once the others are through with the round before and have
      signed, the scan succeeds, and the new proposal is completed although the signer itself has
      not signed it. */
  lemma EarlyTwinIsSwallowed(r: Race, late: Module, p: Proposal) returns (events: seq<Event>)
    requires Inv(r) && r.current.Some? && Settled(r) && !p.Processing?
    requires late in r.pcs && TakesForOld(late, r.pcs[late], p)
    requires forall o :: o in r.pcs ==> !BoundToPop(r.pcs[o])
    ensures IsRun(Step(r, Propose(p)), events)
    ensures var n := After(Step(r, Propose(p)), events);
      n.done == r.done + [p] && late !in n.given && n.panicked
  {
    hide IsRun, After, Collecting, Emptied, Inv;
    var s := Step(r, Propose(p));
    var before, left := r.pcs[late].p, r.pcs[late].left;
    HasShape(r);
    forall o | o in left
      ensures o in s.pcs && o in s.queues && s.queues[o] == [] && OnTheWayOut(s, o)
    {
      MovesOn(r, p, o);
    }
    RunNothing(s);
    var q: Race;
    events, q := AllOut(s, [], s, left);
    events, q := SignedAll(s, events, q, p, left);
    assert q.pcs[late] == Trailing(before, left, true);
    events, q := TrailedAll(s, events, q, late, before, left);
    events, q := TwinPops(s, events, q, late, before);
  }

  lemma HasShape(r: Race)
    requires Inv(r)
    ensures Shape(r)
  {
  }

  /** Ready to sign, or scanning for the round before with a scan that has yet to fail. */
  predicate OnTheWayOut(r: Race, o: Module) {
    && o in r.pcs
    && (r.pcs[o].Idle? ||
        (r.pcs[o].Trailing? && !r.pcs[o].p.Processing? && r.pcs[o].left <= r.queues.Keys &&
            (r.pcs[o].ok ==> r.pcs[o].left != {})))
  }

  lemma MovesOn(r: Race, p: Proposal, o: Module)
    requires Inv(r) && r.current.Some? && Settled(r) && !p.Processing? && o in r.queues && !BoundToPop(r.pcs[o])
    ensures OnTheWayOut(Proposed(r, p), o)
  {
    assert !Collecting(r);
    if r.pcs[o].Resetting? { RestEmpty(r, o); }
  }

  /** With every queue empty a scan fails at the first module it looks at. */
  lemma {:induction false} FailedTrail(s: Race, events: seq<Event>, r: Race, o: Module, left: set<Module>)
    returns (longer: seq<Event>, next: Race)
    requires IsRun(s, events) && r == After(s, events) && OnTheWayOut(r, o) && r.pcs[o].Trailing? &&
        r.pcs[o].left == left
    requires forall x :: x in r.queues ==> r.queues[x] == []
    ensures IsRun(s, longer) && next == After(s, longer) && next == r.(pcs := r.pcs[o := Idle])
    decreases left
  {
    hide IsRun, After;
    if left == {} {
      longer, next := Extend(s, events, r, EndTrail(o));
    } else {
      var x :| x in left;
      longer, next := Extend(s, events, r, Trail(o, x));
      longer, next := FailedTrail(s, longer, next, o, left - {x});
      assert next.pcs == r.pcs[o := Idle];
    }
  }

  lemma {:induction false} AllOut(s: Race, events: seq<Event>, r: Race, who: set<Module>)
    returns (longer: seq<Event>, next: Race)
    requires IsRun(s, events) && r == After(s, events)
    requires forall o :: o in who ==> OnTheWayOut(r, o)
    requires forall x :: x in r.queues ==> r.queues[x] == []
    ensures IsRun(s, longer) && next == After(s, longer)
    ensures next.pcs.Keys == r.pcs.Keys && next == r.(pcs := next.pcs)
    ensures forall o :: o in r.pcs ==> next.pcs[o] == if o in who then Idle else r.pcs[o]
    decreases who
  {
    hide IsRun, After;
    longer, next := events, r;
    if who != {} {
      var o :| o in who;
      if r.pcs[o].Trailing? { longer, next := FailedTrail(s, events, r, o, r.pcs[o].left); }
      longer, next := AllOut(s, longer, next, who - {o});
    }
  }

  /** So the assumption on the producer is the weakest there is: with any signer that is not
      harmless some continuation completes the new proposal without that signer's or anybody's
      sign-off, and panics. */
  lemma HarmfulSwallows(r: Race, late: Module, p: Proposal) returns (events: seq<Event>)
    requires Inv(r) && r.current.Some? && Settled(r) && !p.Processing?
    requires late in r.pcs && !Harmless(late, r.pcs[late], p)
    ensures IsRun(Step(r, Propose(p)), events)
    ensures var n := After(Step(r, Propose(p)), events);
      n.done == r.done + [p] && late !in n.given && n.panicked
  {
    hide IsRun, After, Inv, Step;
    HarmlessIff(r, late, p);
    if o :| o in r.pcs && BoundToPop(r.pcs[o]) {
      EarlyProposalIsSwallowed(r, o, p, 0, o);
      events := SwallowedBy(r, o, o);
    } else {
      events := EarlyTwinIsSwallowed(r, late, p);
    }
  }

  /** The end of such a scan: the pop goes through, and the reset trips over the empty queue. */
  lemma TwinPops(s: Race, events: seq<Event>, r: Race, m: Module, p: Proposal) returns (longer: seq<Event>, next: Race)
    requires IsRun(s, events) && r == After(s, events) && m in r.pcs && r.pcs[m] == Trailing(p, {}, true)
    requires r.pending != [] && m in r.queues && r.queues[m] == []
    ensures IsRun(s, longer) && next == After(s, longer)
    ensures next.panicked && next.done == r.done + [r.pending[0]] && next.given == r.given
  {
    hide IsRun, After;
    longer, next := Extend(s, events, r, EndTrail(m));
    longer, next := Extend(s, longer, next, Pop(m));
    longer, next := Extend(s, longer, next, Reset(m, m));
  }

  /** The listed idle modules sign, one after the other. */
  lemma {:induction false} SignedAll(s: Race, events: seq<Event>, r: Race, p: Proposal, left: set<Module>)
    returns (longer: seq<Event>, next: Race)
    requires IsRun(s, events) && r == After(s, events) && r.current == Some(p) && r.pending == [p] && !p.Processing?
    requires forall o :: o in left ==> o in r.pcs && r.pcs[o] == Idle && o in r.queues && r.queues[o] == []
    ensures IsRun(s, longer) && next == After(s, longer)
    ensures next.pending == r.pending && next.done == r.done && next.given.Keys == r.given.Keys + left
    ensures next.queues.Keys == r.queues.Keys && next.pcs.Keys == r.pcs.Keys
    ensures forall o :: o in r.pcs && o !in left ==> next.pcs[o] == r.pcs[o]
    ensures forall o :: o in r.queues && o !in left ==> next.queues[o] == r.queues[o]
    ensures forall o :: o in left ==> next.queues[o] == [SignFor(p, None)]
    decreases left
  {
    hide IsRun, After;
    longer, next := events, r;
    if left != {} {
      var o :| o in left;
      longer, next := SignedOne(s, longer, next, p, o);
      longer, next := SignedAll(s, longer, next, p, left - {o});
    }
  }

  lemma SignedOne(s: Race, events: seq<Event>, r: Race, p: Proposal, o: Module)
    returns (longer: seq<Event>, next: Race)
    requires IsRun(s, events) && r == After(s, events) && r.current == Some(p) && r.pending == [p] && !p.Processing?
    requires o in r.pcs && r.pcs[o] == Idle && o in r.queues && r.queues[o] == []
    ensures IsRun(s, longer) && next == After(s, longer)
    ensures next == r.(pcs := r.pcs[o := Scanning(p, r.queues.Keys, true)], queues := r.queues[o := [SignFor(p, None)]],
                       given := r.given[o := None])
  {
    hide IsRun, After;
    longer, next := Extend(s, events, r, Check(o));
    longer, next := Extend(s, longer, next, Push(o, None));
    assert next.pcs == r.pcs[o := Scanning(p, r.queues.Keys, true)];
    assert r.queues[o] + [SignFor(p, None)] == [SignFor(p, None)];
  }

  /** A trailing scan over fronts that all look right. */
  lemma {:induction false} TrailedAll(s: Race, events: seq<Event>, r: Race, m: Module, p: Proposal, left: set<Module>)
    returns (longer: seq<Event>, next: Race)
    requires IsRun(s, events) && r == After(s, events) && m in r.pcs && r.pcs[m] == Trailing(p, left, true) &&
        !p.Processing?
    requires forall o :: o in left ==> o in r.queues && Seen(r, p, o)
    ensures IsRun(s, longer) && next == After(s, longer)
    ensures next == r.(pcs := r.pcs[m := Trailing(p, {}, true)])
    decreases left
  {
    hide IsRun, After;
    longer, next := events, r;
    if left == {} {
      assert r.pcs == r.pcs[m := Trailing(p, {}, true)];
    } else {
      var o :| o in left;
      longer, next := Extend(s, longer, next, Trail(m, o));
      longer, next := TrailedAll(s, longer, next, m, p, left - {o});
      assert next.pcs == r.pcs[m := Trailing(p, {}, true)];
    }
  }

  /** Such a state is reached by two modules and one proposal. */
  lemma LateSignerReachable(a: Module, b: Module)
    returns (events: seq<Event>, r: Race)
    requires a != b
    ensures IsRun(Start({a, b}, 10), events) && r == After(Start({a, b}, 10), events)
    ensures Inv(r) && r.current.Some? && Settled(r)
    ensures b in r.pcs && r.pcs[b] == Popping(PendingProgression(11))
  {
    hide IsRun, After, Inv, Start;
    var s0 := Start({a, b}, 10);
    events, r := BothAboutToPop(a, b);
    events, r := Extend(s0, events, r, Pop(a));
    events, r := ResetBoth(s0, events, r, a, b);
    StartInv({a, b}, 10);
    RunKeepsInv(s0, events);
    assert r.pending == [] && Remaining(r) == {};
    assert Settled(r) by { EmptiedSettled(r); }
  }

  lemma EmptiedSettled(r: Race)
    requires Inv(r) && r.current.Some? && r.pending == [] && Remaining(r) == {}
    ensures Settled(r)
  {
  }

  lemma ResetBoth(s: Race, events: seq<Event>, r: Race, a: Module, b: Module)
    returns (longer: seq<Event>, next: Race)
    requires a != b && IsRun(s, events) && r == After(s, events)
    requires a in r.pcs && b in r.pcs && a in r.queues && b in r.queues
    requires r.pcs[a] == Resetting({a, b}) && r.queues[a] != [] && r.queues[b] != []
    ensures IsRun(s, longer) && next == After(s, longer)
    ensures next.pcs == r.pcs[a := Returned]
    ensures next.pending == r.pending && next.popper == r.popper && next.current == r.current
  {
    hide IsRun, After;
    longer, next := Extend(s, events, r, Reset(a, a));
    longer, next := Extend(s, longer, next, Reset(a, b));
    assert next.pcs[a].rest == {};
    longer, next := Extend(s, longer, next, EndReset(a));
    assert next.pcs == r.pcs[a := Returned];
  }

  lemma BothAboutToPop(a: Module, b: Module)
    returns (events: seq<Event>, r: Race)
    requires a != b
    ensures IsRun(Start({a, b}, 10), events) && r == After(Start({a, b}, 10), events)
    ensures r.current.Some? && r.pending == [PendingProgression(11)]
    ensures r.pcs.Keys == {a, b} && r.pcs[a] == r.pcs[b] == Popping(PendingProgression(11))
    ensures r.queues.Keys == {a, b} && r.queues[a] == r.queues[b] == [ReadyForNextBlock(None, 11)]
  {
    hide IsRun, After, Step, Enabled, Start;
    events, r := BothSigned(a, b);
    events, r := Scanned(Start({a, b}, 10), events, r, a, b, a);
    events, r := Scanned(Start({a, b}, 10), events, r, a, b, b);
  }

  lemma BothSigned(a: Module, b: Module)
    returns (events: seq<Event>, r: Race)
    requires a != b
    ensures IsRun(Start({a, b}, 10), events) && r == After(Start({a, b}, 10), events)
    ensures r.current.Some? && r.pending == [PendingProgression(11)]
    ensures r.pcs.Keys == {a, b} && r.pcs[a] == r.pcs[b] == Scanning(PendingProgression(11), {a, b}, true)
    ensures r.queues.Keys == {a, b} && r.queues[a] == r.queues[b] == [ReadyForNextBlock(None, 11)]
  {
    hide IsRun, After, Step, Enabled, Start;
    events, r := OneProposal(a, b);
    events, r := Signed(Start({a, b}, 10), events, r, a, b, a);
    events, r := Signed(Start({a, b}, 10), events, r, a, b, b);
  }

  lemma OneProposal(a: Module, b: Module)
    returns (events: seq<Event>, r: Race)
    ensures IsRun(Start({a, b}, 10), events) && r == After(Start({a, b}, 10), events)
    ensures r.current == Some(PendingProgression(11)) && r.pending == [PendingProgression(11)]
    ensures r.queues.Keys == r.pcs.Keys == {a, b}
    ensures r.queues[a] == r.queues[b] == [] && r.pcs[a] == r.pcs[b] == Idle
  {
    hide IsRun, After;
    var s0 := Start({a, b}, 10);
    RunNothing(s0);
    events, r := Extend(s0, [], s0, Propose(PendingProgression(11)));
  }

  lemma RunNothing(s: Race)
    ensures IsRun(s, []) && After(s, []) == s
  {
  }

  lemma Signed(s: Race, events: seq<Event>, r: Race, a: Module, b: Module, m: Module)
    returns (longer: seq<Event>, next: Race)
    requires IsRun(s, events) && r == After(s, events) && m in r.pcs && r.pcs[m] == Idle
    requires r.current == Some(PendingProgression(11)) && r.pending == [PendingProgression(11)]
    requires r.queues.Keys == r.pcs.Keys == {a, b} && r.queues[m] == []
    ensures IsRun(s, longer) && next == After(s, longer)
    ensures next.pending == r.pending && next.current == r.current
    ensures next.queues == r.queues[m := [ReadyForNextBlock(None, 11)]]
    ensures next.pcs == r.pcs[m := Scanning(PendingProgression(11), {a, b}, true)]
  {
    hide IsRun, After;
    longer, next := Extend(s, events, r, Check(m));
    longer, next := Extend(s, longer, next, Push(m, None));
    assert next.pcs == r.pcs[m := Scanning(PendingProgression(11), {a, b}, true)];
    assert r.queues[m] + [ReadyForNextBlock(None, 11)] == [ReadyForNextBlock(None, 11)];
  }

  lemma Scanned(s: Race, events: seq<Event>, r: Race, a: Module, b: Module, m: Module)
    returns (longer: seq<Event>, next: Race)
    requires a != b && IsRun(s, events) && r == After(s, events) && m in r.pcs
    requires r.pcs[m] == Scanning(PendingProgression(11), {a, b}, true)
    requires r.queues.Keys == {a, b} && r.queues[a] == r.queues[b] == [ReadyForNextBlock(None, 11)]
    ensures IsRun(s, longer) && next == After(s, longer)
    ensures next == r.(pcs := r.pcs[m := Popping(PendingProgression(11))])
  {
    hide IsRun, After;
    longer, next := Extend(s, events, r, Scan(m, a));
    longer, next := Extend(s, longer, next, Scan(m, b));
    assert next.pcs[m].left == {};
    longer, next := Extend(s, longer, next, EndScan(m));
    assert next.pcs == r.pcs[m := Popping(PendingProgression(11))];
  }

  lemma {:induction false} Extend(s: Race, events: seq<Event>, r: Race, e: Event)
    returns (longer: seq<Event>, next: Race)
    requires IsRun(s, events) && r == After(s, events) && Enabled(r, e)
    ensures longer == events + [e] && next == Step(r, e)
    ensures IsRun(s, longer) && next == After(s, longer)
    decreases |events|
  {
    hide Enabled, Step;
    longer, next := events + [e], Step(r, e);
    if events == [] {
      assert longer[1..] == [];
    } else {
      var rest, _ := Extend(Step(s, events[0]), events[1..], r, e);
      assert longer[1..] == rest;
    }
  }
}
