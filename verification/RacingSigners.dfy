/** Sign-off is not one atomic step: a thread checks the proposal, pushes its sign-off, scans
    the fronts one module at a time, pops the proposal under a lock, and resets the queues one
    module at a time. Any interleaving of one thread per module is shown to do what the
    atomic barrier of BlockSync does, provided no proposal is queued under a signer of the round
    before that could still pop it. */
module RacingSigners {
  import opened Options
  import opened BlockSync

  datatype Pc =
    | Idle
    | Checked(p: Proposal)
    | Scanning(p: Proposal, left: set<Module>, ok: bool)
    | Trailing(p: Proposal, left: set<Module>, ok: bool) // still scanning for an earlier proposal
    | Popping(p: Proposal)
    | Resetting(rest: set<Module>)
    | Returned

  datatype Race = Race(
    pending: seq<Proposal>,
    block: nat,
    queues: map<Module, seq<SignOff>>,
    pcs: map<Module, Pc>,
    panicked: bool,
    // written down by an observer
    current: Option<Proposal>,
    base: nat,
    given: map<Module, Option<Waker>>,
    popper: Option<Module>,
    woken: multiset<(Module, Option<Waker>)>,
    queued: seq<Proposal>,
    done: seq<Proposal>)

  datatype Event =
    | Propose(p: Proposal)
    | Check(m: Module)
    | Push(m: Module, waker: Option<Waker>)
    | Scan(m: Module, o: Module)
    | EndScan(m: Module)
    | Trail(m: Module, o: Module)
    | EndTrail(m: Module)
    | Pop(m: Module)
    | Reset(m: Module, o: Module)
    | EndReset(m: Module)

  predicate Quiet(r: Race) {
    && r.pending == []
    && forall m :: m in r.pcs ==> r.pcs[m].Returned?
  }

  /** Nothing is pending and every queue is empty: what the producer waits for. */
  predicate Settled(r: Race) {
    && r.pending == []
    && forall m :: m in r.queues ==> r.queues[m] == []
  }

  /** Scanning for a proposal p of an earlier round cannot end in a pop during the round of q: the
      scan has failed, or it will, at the module's own empty queue or at any front there is. */
  predicate WillFail(m: Module, p: Proposal, left: set<Module>, ok: bool, q: Proposal)
    requires !q.Processing?
  {
    !p.Processing? &&
    (ok ==> left != {} && (m in left || !SameSignOff(SignFor(q, None), SignFor(p, None))))
  }

  /** A signer of the round before that does no harm when q is proposed. */
  predicate Harmless(m: Module, pc: Pc, q: Proposal)
    requires !q.Processing?
  {
    || pc.Returned?
    || (pc.Resetting? && pc.rest == {})
    || (pc.Scanning? && WillFail(m, pc.p, pc.left, pc.ok, q))
  }

  /** Where each thread may go next; `Propose` is what the producer is assumed to keep to. */
  predicate Enabled(r: Race, e: Event) {
    match e
    case Propose(p) => !p.Processing? && Settled(r) && forall m :: m in r.pcs ==> Harmless(m, r.pcs[m], p)
    case Check(m) => m in r.pcs && r.pcs[m].Idle? && r.current.Some?
    case Push(m, _) => m in r.pcs && r.pcs[m].Checked? && !r.pcs[m].p.Processing? && m in r.queues
    case Scan(m, o) => m in r.pcs && r.pcs[m].Scanning? && !r.pcs[m].p.Processing? && o in r.pcs[m].left &&
        o in r.queues
    case EndScan(m) => m in r.pcs && r.pcs[m].Scanning? && r.pcs[m].left == {}
    case Trail(m, o) => m in r.pcs && r.pcs[m].Trailing? && !r.pcs[m].p.Processing? && o in r.pcs[m].left &&
        o in r.queues
    case EndTrail(m) => m in r.pcs && r.pcs[m].Trailing? && r.pcs[m].left == {}
    case Pop(m) => m in r.pcs && r.pcs[m].Popping?
    case Reset(m, o) => m in r.pcs && r.pcs[m].Resetting? && o in r.pcs[m].rest && o in r.queues
    case EndReset(m) => m in r.pcs && r.pcs[m].Resetting? && r.pcs[m].rest == {}
  }

  function Advance(p: Proposal, block: nat): nat {
    if p.PendingProgression? then p.block else block
  }

  /** A thread when a new round opens under it: one that only has to return is ready for it. */
  function Onward(pc: Pc): Pc {
    match pc
    case Returned => Idle
    case Resetting(rest) => if rest == {} then Idle else pc
    case Scanning(p, left, ok) => Trailing(p, left, ok)
    case _ => pc
  }

  function Proposed(r: Race, p: Proposal): Race {
    r.(pending := r.pending + [p], queued := r.queued + [p], current := Some(p), base := r.block, popper := None,
       given := map[], woken := multiset{}, pcs := map m | m in r.pcs :: Onward(r.pcs[m]))
  }

  predicate Seen(r: Race, p: Proposal, o: Module)
    requires o in r.queues && !p.Processing?
  {
    r.queues[o] != [] && SameSignOff(r.queues[o][0], SignFor(p, None))
  }

  function Go(r: Race, m: Module, pc: Pc): Race {
    r.(pcs := r.pcs[m := pc])
  }

  function Step(r: Race, e: Event): Race
    requires match e case Propose(_) => true case _ => Enabled(r, e)
  {
    match e
    case Propose(p) => Proposed(r, p)
    case Check(m) => if r.current.value in r.pending then Go(r, m, Checked(r.current.value))
        else Go(r, m, Returned).(panicked := true)
    case Push(m, waker) =>
      Go(r, m, Scanning(r.pcs[m].p, r.queues.Keys, true)).(
        queues := r.queues[m := r.queues[m] + [SignFor(r.pcs[m].p, waker)]], given := r.given[m := waker])
    case Scan(m, o) =>
      Go(r, m, Scanning(r.pcs[m].p, r.pcs[m].left - {o}, r.pcs[m].ok && Seen(r, r.pcs[m].p, o)))
    case EndScan(m) => Go(r, m, if r.pcs[m].ok then Popping(r.pcs[m].p) else Returned)
    case Trail(m, o) =>
      Go(r, m, Trailing(r.pcs[m].p, r.pcs[m].left - {o}, r.pcs[m].ok && Seen(r, r.pcs[m].p, o)))
    case EndTrail(m) => Go(r, m, if r.pcs[m].ok then Popping(r.pcs[m].p) else Idle)
    case Pop(m) =>
      if r.pending == [] then Go(r, m, Returned)
      else
        Go(r, m, Resetting(r.queues.Keys)).(
          pending := r.pending[1..],
          block := if r.pcs[m].p.PendingProgression? then Advance(r.pending[0], r.block) else r.block,
          popper := Some(m), done := r.done + [r.pending[0]])
    case Reset(m, o) =>
      if r.queues[o] == [] then Go(r, m, Returned).(panicked := true)
      else
        Go(r, m, Resetting(r.pcs[m].rest - {o})).(
          queues := r.queues[o := r.queues[o][1..]], woken := r.woken + multiset{(o, r.queues[o][0].waker)})
    case EndReset(m) => Go(r, m, Returned)
  }

  function Start(modules: set<Module>, block: nat): Race {
    Race([], block, map m | m in modules :: [], map m | m in modules :: Returned, false,
         None, block, map[], None, multiset{}, [], [])
  }

  predicate Unsigned(r: Race, m: Module) {
    m in r.pcs && (r.pcs[m].Idle? || r.pcs[m].Checked? || r.pcs[m].Trailing?)
  }

  ghost predicate Shape(r: Race) {
    && r.pcs != map[]
    && r.pcs.Keys == r.queues.Keys
    && !r.panicked
    && (r.current.Some? ==> !r.current.value.Processing?)
    && (forall m :: m in r.pcs && r.pcs[m].Scanning? ==> r.pcs[m].left <= r.queues.Keys)
  }

  /** Before the round's proposal is popped. */
  ghost predicate Collecting(r: Race)
    requires Shape(r) && r.current.Some?
  {
    var p := r.current.value;
    && r.pending == [p] && r.queued == r.done + [p]
    && r.block == r.base && r.woken == multiset{} && r.given.Keys <= r.pcs.Keys
    && (forall m :: m in r.pcs ==> CollectingThread(r, p, m))
    && (exists m :: m in r.pcs && WillPop(r, m))
  }

  ghost predicate CollectingThread(r: Race, p: Proposal, m: Module)
    requires m in r.pcs && m in r.queues && !p.Processing?
  {
    && (if Unsigned(r, m) then r.queues[m] == [] else m in r.given && r.queues[m] == [SignFor(p, r.given[m])])
    && !r.pcs[m].Resetting?
    && (r.pcs[m].Checked? || r.pcs[m].Scanning? || r.pcs[m].Popping? ==> r.pcs[m].p == p)
    && (r.pcs[m].Scanning? && r.pcs[m].ok ==> forall o :: o in r.queues && o !in r.pcs[m].left ==> r.queues[o] != [])
    && (r.pcs[m].Popping? ==> AllPushed(r))
    && (r.pcs[m].Trailing? ==> WillFail(m, r.pcs[m].p, r.pcs[m].left, r.pcs[m].ok, p))
  }

  ghost predicate AllPushed(r: Race) {
    forall m :: m in r.queues ==> r.queues[m] != []
  }

  /** This thread has yet to push, or will find every front in place. */
  ghost predicate WillPop(r: Race, m: Module)
    requires m in r.pcs
  {
    Unsigned(r, m) || r.pcs[m].Popping? || (r.pcs[m].Scanning? && r.pcs[m].ok && AllPushed(r))
  }

  ghost function Remaining(r: Race): set<Module> {
    if r.popper.Some? && r.popper.value in r.pcs && r.pcs[r.popper.value].Resetting?
    then r.pcs[r.popper.value].rest else {}
  }

  /** Everybody outside `rest`, once each, with the waker it gave. */
  ghost function Fired(given: map<Module, Option<Waker>>, rest: set<Module>): multiset<(Module, Option<Waker>)> {
    multiset(set m | m in given && m !in rest :: (m, given[m]))
  }

  lemma FiredNone(given: map<Module, Option<Waker>>, rest: set<Module>)
    requires given.Keys <= rest
    ensures Fired(given, rest) == multiset{}
  {
    var s := set m | m in given && m !in rest :: (m, given[m]);
    assert forall x :: x !in s;
  }

  lemma FiredOneMore(given: map<Module, Option<Waker>>, rest: set<Module>, o: Module)
    requires o in given && o in rest
    ensures Fired(given, rest - {o}) == Fired(given, rest) + multiset{(o, given[o])}
  {
    var before := set m | m in given && m !in rest :: (m, given[m]);
    var after := set m | m in given && m !in rest - {o} :: (m, given[m]);
    assert after == before + {(o, given[o])} && (o, given[o]) !in before;
  }

  /** After the round's proposal is popped: one thread resets, the others run out. */
  ghost predicate Emptied(r: Race)
    requires Shape(r) && r.current.Some?
  {
    var p := r.current.value;
    && r.pending == [] && r.queued == r.done
    && r.block == Advance(p, r.base)
    && r.given.Keys == r.pcs.Keys
    && r.popper.Some? && r.popper.value in r.pcs
    && (forall m :: m in r.pcs ==> !Unsigned(r, m) && (r.pcs[m].Resetting? ==> r.popper == Some(m)))
    && (forall m :: m in r.pcs && (r.pcs[m].Scanning? || r.pcs[m].Popping?) ==> r.pcs[m].p == p)
    && Remaining(r) <= r.pcs.Keys
    && (forall m :: m in r.pcs ==> r.queues[m] == if m in Remaining(r) then [SignFor(p, r.given[m])] else [])
    && r.woken == Fired(r.given, Remaining(r))
  }

  ghost predicate Inv(r: Race) {
    && Shape(r)
    && if r.current.None? then Quiet(r) && r.queued == r.done && forall m :: m in r.queues ==> r.queues[m] == []
       else Collecting(r) || Emptied(r)
  }

  lemma ProposeKeepsInv(r: Race, p: Proposal)
    requires Inv(r) && Enabled(r, Propose(p))
    ensures Inv(Step(r, Propose(p)))
  {
    hide Emptied, CollectingThread;
    var n := Step(r, Propose(p));
    assert n.queued == n.done + [p] && n.pending == [p] by { SettledIsDone(r); }
    var m :| m in r.pcs;
    forall o | o in n.pcs
      ensures Unsigned(n, o) && CollectingThread(n, p, o)
    {
      ProposedThread(r, p, o);
    }
    assert WillPop(n, m);
  }

  lemma SettledIsDone(r: Race)
    requires Inv(r) && Settled(r)
    ensures r.queued == r.done
  {
  }

  lemma ProposedThread(r: Race, p: Proposal, o: Module)
    requires Shape(r) && Enabled(r, Propose(p)) && o in r.pcs
    ensures var n := Proposed(r, p);
      o in n.pcs && Unsigned(n, o) && CollectingThread(n, p, o)
  {
    assert Harmless(o, r.pcs[o], p);
  }

  lemma CheckKeepsInv(r: Race, m: Module)
    requires Inv(r) && Enabled(r, Check(m))
    ensures Inv(Step(r, Check(m)))
  {
    var n := Step(r, Check(m));
    assert Unsigned(r, m) && Unsigned(n, m);
    forall o | o in n.pcs
      ensures CollectingThread(n, r.current.value, o)
    {
      assert CollectingThread(r, r.current.value, o);
    }
    assert WillPop(n, m);
  }

  lemma PushKeepsInv(r: Race, m: Module, waker: Option<Waker>)
    requires Inv(r) && Enabled(r, Push(m, waker))
    ensures Inv(Step(r, Push(m, waker)))
  {
    hide Emptied, CollectingThread;
    var n := Step(r, Push(m, waker));
    var p := r.current.value;
    StillCollecting(r, m);
    forall o | o in n.pcs
      ensures CollectingThread(n, p, o)
    {
      PushedThread(r, m, waker, o);
    }
    if AllPushed(n) {
      assert WillPop(n, m);
    } else {
      var o :| o in n.queues && n.queues[o] == [];
      EmptyIsUnsigned(n, p, o);
      assert WillPop(n, o);
    }
  }

  lemma StillCollecting(r: Race, m: Module)
    requires Inv(r) && m in r.pcs && Unsigned(r, m) && r.current.Some?
    ensures Collecting(r)
  {
  }

  lemma EmptyIsUnsigned(n: Race, p: Proposal, o: Module)
    requires o in n.pcs && o in n.queues && !p.Processing? && CollectingThread(n, p, o) && n.queues[o] == []
    ensures Unsigned(n, o)
  {
  }

  lemma PushedThread(r: Race, m: Module, waker: Option<Waker>, o: Module)
    requires Shape(r) && Enabled(r, Push(m, waker)) && r.current.Some? && Collecting(r) && o in r.pcs
    ensures var n := Step(r, Push(m, waker));
      o in n.pcs && o in n.queues && CollectingThread(n, r.current.value, o)
  {
    var p := r.current.value;
    assert Unsigned(r, m) && CollectingThread(r, p, m) && CollectingThread(r, p, o);
  }

  /** A step that only moves one scanning thread on. */
  lemma MoveKeepsCollecting(r: Race, m: Module, pc: Pc)
    requires Inv(r) && r.current.Some? && Collecting(r) && m in r.pcs && r.pcs[m].Scanning?
    requires pc.Scanning? || pc.Popping? || pc.Returned?
    requires !pc.Returned? ==> pc.p == r.pcs[m].p
    requires pc.Scanning? ==> pc.left <= r.pcs[m].left
    requires pc.Scanning? && pc.ok ==> r.pcs[m].ok && forall o :: o in r.pcs[m].left - pc.left && o in r.queues ==>
        r.queues[o] != []
    requires pc.Popping? ==> r.pcs[m].ok && r.pcs[m].left == {}
    requires AllPushed(r) && r.pcs[m].ok ==> pc.Popping? || (pc.Scanning? && pc.ok)
    ensures Inv(Go(r, m, pc))
  {
    hide Emptied, CollectingThread;
    var n := Go(r, m, pc);
    var p := r.current.value;
    forall o | o in n.pcs
      ensures CollectingThread(n, p, o)
    {
      MovedThread(r, m, pc, o);
    }
    var w :| w in r.pcs && WillPop(r, w);
    assert WillPop(n, w);
  }

  lemma MovedThread(r: Race, m: Module, pc: Pc, o: Module)
    requires Shape(r) && r.current.Some? && Collecting(r) && m in r.pcs && r.pcs[m].Scanning? && o in r.pcs
    requires pc.Scanning? || pc.Popping? || pc.Returned?
    requires !pc.Returned? ==> pc.p == r.pcs[m].p
    requires pc.Scanning? ==> pc.left <= r.pcs[m].left
    requires pc.Scanning? && pc.ok ==>
      r.pcs[m].ok && forall x :: x in r.pcs[m].left - pc.left && x in r.queues ==> r.queues[x] != []
    requires pc.Popping? ==> r.pcs[m].ok && r.pcs[m].left == {}
    ensures CollectingThread(Go(r, m, pc), r.current.value, o)
  {
    assert CollectingThread(r, r.current.value, m) && CollectingThread(r, r.current.value, o);
  }

  lemma MoveKeepsEmptied(r: Race, m: Module, pc: Pc)
    requires Inv(r) && r.current.Some? && Emptied(r) && m in r.pcs && !r.pcs[m].Resetting?
    requires pc.Returned? || ((pc.Scanning? || pc.Popping?) && r.pcs[m].Scanning? && pc.p == r.pcs[m].p)
    requires pc.Scanning? ==> pc.left <= r.pcs[m].left
    ensures Inv(Go(r, m, pc)) && Emptied(Go(r, m, pc))
  {
    hide Fired, Collecting;
    var n := Go(r, m, pc);
    assert Remaining(n) == Remaining(r);
  }

  lemma ScanKeepsInv(r: Race, m: Module, o: Module)
    requires Inv(r) && Enabled(r, Scan(m, o))
    ensures Inv(Step(r, Scan(m, o)))
  {
    var pc := Step(r, Scan(m, o)).pcs[m];
    if Collecting(r) {
      assert CollectingThread(r, r.current.value, o);
      assert CollectingThread(r, r.current.value, m);
      MoveKeepsCollecting(r, m, pc);
    } else {
      MoveKeepsEmptied(r, m, pc);
    }
  }

  lemma EndScanKeepsInv(r: Race, m: Module)
    requires Inv(r) && Enabled(r, EndScan(m))
    ensures Inv(Step(r, EndScan(m)))
  {
    var pc := Step(r, EndScan(m)).pcs[m];
    if Collecting(r) {
      MoveKeepsCollecting(r, m, pc);
    } else {
      MoveKeepsEmptied(r, m, pc);
    }
  }

  /** A trailing scan fails at the first front it meets, or is bound to fail at its own. */
  lemma TrailWillFail(r: Race, m: Module, o: Module)
    requires Inv(r) && Enabled(r, Trail(m, o)) && r.current.Some?
    ensures var (pc, n) := (r.pcs[m], Step(r, Trail(m, o)).pcs[m]);
      WillFail(m, pc.p, pc.left, pc.ok, r.current.value) && WillFail(m, n.p, n.left, n.ok, r.current.value)
  {
    var p := r.current.value;
    assert Unsigned(r, m) && Collecting(r);
    assert CollectingThread(r, p, m);
    assert CollectingThread(r, p, o);
    var pc := r.pcs[m];
    if pc.ok && Seen(r, pc.p, o) {
      assert o != m && !Unsigned(r, o) && r.queues[o] == [SignFor(p, r.given[o])];
      assert SameSignOff(SignFor(p, None), SignFor(pc.p, None));
      assert m in pc.left - {o};
    }
  }

  /** A trailing thread moves on. */
  lemma TrailingMoves(r: Race, m: Module, pc: Pc)
    requires Inv(r) && m in r.pcs && r.pcs[m].Trailing?
    requires r.current.Some? && (pc.Idle? || (pc.Trailing? && WillFail(m, pc.p, pc.left, pc.ok, r.current.value)))
    ensures Inv(Go(r, m, pc))
  {
    var (n, p) := (Go(r, m, pc), r.current.value);
    assert Unsigned(r, m) && Collecting(r) && CollectingThread(r, p, m);
    forall o | o in n.pcs
      ensures CollectingThread(n, p, o)
    {
      assert CollectingThread(r, p, o);
    }
    assert WillPop(n, m);
  }

  lemma TrailKeepsInv(r: Race, e: Event)
    requires Inv(r) && Enabled(r, e) && (e.Trail? || e.EndTrail?)
    ensures Inv(Step(r, e))
  {
    assert Unsigned(r, e.m) && r.current.Some? && Collecting(r) && CollectingThread(r, r.current.value, e.m);
    if e.Trail? { TrailWillFail(r, e.m, e.o); }
    TrailingMoves(r, e.m, Step(r, e).pcs[e.m]);
  }

  lemma PopKeepsInv(r: Race, m: Module)
    requires Inv(r) && Enabled(r, Pop(m))
    ensures Inv(Step(r, Pop(m)))
  {
    var n := Step(r, Pop(m));
    if r.pending == [] {
      MoveKeepsEmptied(r, m, Returned);
    } else {
      var p := r.current.value;
      assert CollectingThread(r, p, m);
      forall o | o in r.pcs
        ensures !Unsigned(r, o) && o in r.given && r.queues[o] == [SignFor(p, r.given[o])] && !r.pcs[o].Resetting?
      {
        assert CollectingThread(r, p, o);
      }
      assert Remaining(n) == n.pcs.Keys;
      FiredNone(n.given, Remaining(n));
    }
  }

  lemma ResettingIsEmptied(r: Race, m: Module)
    requires Inv(r) && m in r.pcs && r.pcs[m].Resetting?
    ensures r.current.Some? && Emptied(r) && r.popper == Some(m) && Remaining(r) == r.pcs[m].rest
  {
    assert r.current.Some? && Collecting(r) ==> CollectingThread(r, r.current.value, m);
  }

  lemma ResetKeepsInv(r: Race, m: Module, o: Module)
    requires Inv(r) && Enabled(r, Reset(m, o))
    ensures Inv(Step(r, Reset(m, o)))
  {
    hide Collecting, Fired, SignFor, Advance;
    ResettingIsEmptied(r, m);
    var n := Step(r, Reset(m, o));
    var front := r.queues[o][0];
    assert r.queues[o] == [SignFor(r.current.value, r.given[o])];
    assert front.waker == r.given[o] by { SignedWaker(r.current.value, r.given[o]); }
    assert r.queues[o][1..] == [];
    assert n.queues == r.queues[o := []];
    assert n.pcs == r.pcs[m := Resetting(r.pcs[m].rest - {o})];
    assert Remaining(n) == Remaining(r) - {o};
    FiredOneMore(r.given, Remaining(r), o);
    assert Emptied(n);
  }

  lemma SignedWaker(p: Proposal, waker: Option<Waker>)
    requires !p.Processing?
    ensures SignFor(p, waker).waker == waker
  {
  }

  lemma EndResetKeepsInv(r: Race, m: Module)
    requires Inv(r) && Enabled(r, EndReset(m))
    ensures Inv(Step(r, EndReset(m)))
  {
    hide Collecting, Fired;
    ResettingIsEmptied(r, m);
    var n := Step(r, EndReset(m));
    assert Remaining(n) == {} == Remaining(r);
    assert Emptied(n);
  }

  lemma StepKeepsInv(r: Race, e: Event)
    requires Inv(r) && Enabled(r, e)
    ensures Inv(Step(r, e))
  {
    hide Inv, Enabled, Step;
    match e
    case Propose(p) => ProposeKeepsInv(r, p);
    case Check(m) => CheckKeepsInv(r, m);
    case Push(m, waker) => PushKeepsInv(r, m, waker);
    case Scan(m, o) => ScanKeepsInv(r, m, o);
    case EndScan(m) => EndScanKeepsInv(r, m);
    case Trail(_, _) => TrailKeepsInv(r, e);
    case EndTrail(_) => TrailKeepsInv(r, e);
    case Pop(m) => PopKeepsInv(r, m);
    case Reset(m, o) => ResetKeepsInv(r, m, o);
    case EndReset(m) => EndResetKeepsInv(r, m);
  }

  ghost predicate IsRun(r: Race, events: seq<Event>)
    decreases |events|
  {
    events == [] || (Enabled(r, events[0]) && IsRun(Step(r, events[0]), events[1..]))
  }

  ghost function After(r: Race, events: seq<Event>): Race
    requires IsRun(r, events)
    decreases |events|
  {
    if events == [] then r else After(Step(r, events[0]), events[1..])
  }

  lemma {:induction false} RunKeepsInv(r: Race, events: seq<Event>)
    requires Inv(r) && IsRun(r, events)
    ensures Inv(After(r, events))
    decreases |events|
  {
    hide Inv, Enabled, Step;
    if events != [] {
      StepKeepsInv(r, events[0]);
      RunKeepsInv(Step(r, events[0]), events[1..]);
    }
  }

  lemma StartInv(modules: set<Module>, block: nat)
    requires modules != {}
    ensures Inv(Start(modules, block))
  {
    var m :| m in modules;
    assert m in Start(modules, block).pcs;
  }

  /** Racing last signers: nothing ever panics, and every proposal queued so far was popped by
      exactly one signer, except the current one while it is still being signed. */
  lemma RacingSignersSafe(modules: set<Module>, block: nat, events: seq<Event>)
    requires modules != {} && IsRun(Start(modules, block), events)
    ensures var r := After(Start(modules, block), events);
      && !r.panicked
      && r.queued == r.done + r.pending && |r.pending| <= 1
      && (forall m, n :: m in r.pcs && n in r.pcs && r.pcs[m].Resetting? && r.pcs[n].Resetting? ==> m == n)
  {
    hide IsRun, After;
    StartInv(modules, block);
    RunKeepsInv(Start(modules, block), events);
    var r := After(Start(modules, block), events);
    if r.current.Some? && Collecting(r) {
      forall m | m in r.pcs
        ensures !r.pcs[m].Resetting?
      {
        assert CollectingThread(r, r.current.value, m);
      }
    }
  }

  /** Once every signer has returned, the proposal is gone, the block number is its own, the
      queues are empty, and each accepted waker was woken exactly once. */
  lemma AllReturned(modules: set<Module>, block: nat, events: seq<Event>)
    requires modules != {} && IsRun(Start(modules, block), events)
    requires var r := After(Start(modules, block), events);
      r.current.Some? && forall m :: m in r.pcs ==> r.pcs[m].Returned?
    ensures var r := After(Start(modules, block), events);
      && r.pending == [] && r.done == r.queued
      && r.block == Advance(r.current.value, r.base)
      && (forall m :: m in r.queues ==> r.queues[m] == [])
      && r.given.Keys == r.pcs.Keys
      && r.woken == multiset(set m | m in r.pcs :: (m, r.given[m]))
  {
    hide IsRun, After;
    StartInv(modules, block);
    RunKeepsInv(Start(modules, block), events);
    var r := After(Start(modules, block), events);
    assert forall m :: m in r.pcs ==> !WillPop(r, m);
    assert Remaining(r) == {};
    assert (set m | m in r.given && m !in {} :: (m, r.given[m])) == set m | m in r.pcs :: (m, r.given[m]);
  }
}
