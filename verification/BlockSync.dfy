/** The global block barrier. Modules sign off on queued proposals; the sign-off that makes
    every module's front agree pops the front proposal and advances the shared block. */
module BlockSync {
  import opened Options

  type Module = string
  type Waker = nat

  datatype Proposal = Processing(number: nat) | PendingReorg(low: nat, high: nat) | PendingProgression(block: nat)

  datatype SignOff = ReadyForNextBlock(waker: Option<Waker>, block: nat) | HandledReorg(waker: Option<Waker>)

  /** `PartialEq` of the source: wakers are ignored, and so is the range of a reorg. */
  predicate SameSignOff(x: SignOff, y: SignOff) {
    (x.HandledReorg? && y.HandledReorg?) || (x.ReadyForNextBlock? && y.ReadyForNextBlock? && x.block == y.block)
  }

  /** The sign-off a module makes for a proposal. */
  function SignFor(p: Proposal, waker: Option<Waker>): SignOff
    requires !p.Processing?
  {
    if p.PendingReorg? then HandledReorg(waker) else ReadyForNextBlock(waker, p.block)
  }

  /** The shared fields as a value. */
  datatype Sync = Sync(
    pending: seq<Proposal>,
    block: nat,
    modules: map<Module, seq<SignOff>>,
    joining: set<Module>,
    finalized: bool)

  function Empty(block: nat): Sync {
    Sync([], block, map[], {}, false)
  }

  datatype Outcome = Queued | Duplicate | Registered | TooLate | Accepted | Completed | Ignored | Panicked

  /** Every module has signed, and its oldest sign-off equals `check`. */
  predicate AllFrontsAre(modules: map<Module, seq<SignOff>>, check: SignOff) {
    forall m :: m in modules ==> modules[m] != [] && SameSignOff(modules[m][0], check)
  }

  function PopFronts(modules: map<Module, seq<SignOff>>): map<Module, seq<SignOff>>
    requires forall m :: m in modules ==> modules[m] != []
  {
    map m | m in modules :: modules[m][1..]
  }

  function FrontWakers(modules: map<Module, seq<SignOff>>): map<Module, Option<Waker>>
    requires forall m :: m in modules ==> modules[m] != []
  {
    map m | m in modules :: modules[m][0].waker
  }

  function PushSignOff(modules: map<Module, seq<SignOff>>, m: Module, check: SignOff): map<Module, seq<SignOff>> {
    if m in modules then modules[m := modules[m] + [check]] else modules
  }

  /** `!all(front is this block) && finalized && !all empty`. */
  predicate IsTransitioning(s: Sync, expected: nat) {
    && !(forall m :: m in s.modules ==>
           s.modules[m] != [] && s.modules[m][0].ReadyForNextBlock? && s.modules[m][0].block == expected)
    && s.finalized
    && !(forall m :: m in s.modules ==> s.modules[m] == [])
  }

  function NewBlock(s: Sync, block: nat): (Sync, Outcome) {
    if s.pending != [] && s.pending[|s.pending| - 1] == PendingProgression(block) then (s, Duplicate)
    else (s.(pending := s.pending + [PendingProgression(block)]), Queued)
  }

  function Reorg(s: Sync, low: nat, high: nat): (Sync, Outcome) {
    (s.(pending := s.pending + [PendingReorg(low, high)]), Queued)
  }

  /** Both sign-off calls; they differ in the late-joiner branch and in storing the block. */
  function SignOn(s: Sync, m: Module, p: Proposal, waker: Option<Waker>): (Sync, Outcome)
    requires !p.Processing?
  {
    if p !in s.pending then
      if p.PendingProgression? && m in s.joining && p.block <= s.block then (s, Ignored) else (s, Panicked)
    else
      var check := SignFor(p, waker);
      var pushed := s.(joining := s.joining - {m}, modules := PushSignOff(s.modules, m, check));
      if AllFrontsAre(pushed.modules, check) then
        var front := s.pending[0];
        (pushed.(
          pending := s.pending[1..],
          modules := PopFronts(pushed.modules),
          block := if p.PendingProgression? && front.PendingProgression? then front.block else s.block), Completed)
      else (pushed, Accepted)
  }

  /** Who is woken by a sign-off: everybody, when it completes the front proposal. */
  function Wakes(s: Sync, m: Module, p: Proposal, waker: Option<Waker>): seq<map<Module, Option<Waker>>>
    requires !p.Processing?
  {
    if SignOn(s, m, p, waker).1 == Completed then [FrontWakers(PushSignOff(s.modules, m, SignFor(p, waker)))] else []
  }

  /** A second registration replaces the queue and only then panics. */
  function Register(s: Sync, m: Module): (Sync, Outcome) {
    if s.finalized then (s, TooLate)
    else if m in s.modules then (s.(modules := s.modules[m := []]), Panicked)
    else (s.(modules := s.modules[m := []], joining := s.joining + {m}), Registered)
  }

  function Finalize(s: Sync): Sync {
    s.(finalized := true)
  }

  class GlobalBlockSync {
    var pendingState: seq<Proposal>
    var blockNumber: nat
    var registeredModules: map<Module, seq<SignOff>>
    var joiningModules: set<Module>
    var allModulesRegistered: bool
    /** Who has been woken so far: one entry for each reset, with every module's waker. */
    var wakes: seq<map<Module, Option<Waker>>>

    ghost function View(): Sync
      reads this
    {
      Sync(pendingState, blockNumber, registeredModules, joiningModules, allModulesRegistered)
    }

    constructor (block: nat)
      ensures View() == Empty(block) && wakes == []
    {
      pendingState := [];
      blockNumber := block;
      registeredModules := map[];
      joiningModules := {};
      allModulesRegistered := false;
      wakes := [];
    }

    method HasProposal() returns (b: bool)
      ensures b <==> View().pending != []
    {
      b := pendingState != [];
    }

    method IsTransitioningNow(expected: nat) returns (b: bool)
      ensures b == IsTransitioning(View(), expected)
    {
      var allExpected, allEmpty := true, true;
      var rest := registeredModules.Keys;
      while rest != {}
        invariant rest <= registeredModules.Keys
        invariant allExpected == forall m :: m in registeredModules && m !in rest ==>
          registeredModules[m] != [] && registeredModules[m][0].ReadyForNextBlock? &&
              registeredModules[m][0].block == expected
        invariant allEmpty == forall m :: m in registeredModules && m !in rest ==> registeredModules[m] == []
        decreases rest
      {
        var m :| m in rest;
        var q := registeredModules[m];
        allExpected := allExpected && q != [] && q[0].ReadyForNextBlock? && q[0].block == expected;
        allEmpty := allEmpty && q == [];
        rest := rest - {m};
      }
      b := !allExpected && allModulesRegistered && !allEmpty;
    }

    /** The wait loop spins until the barrier is not transitioning; the call then queues. */
    method NewBlockProposal(block: nat) returns (res: Outcome)
      requires block > 0 && !IsTransitioning(View(), block - 1)
      modifies this`pendingState
      ensures (View(), res) == NewBlock(old(View()), block)
    {
      if pendingState != [] && pendingState[|pendingState| - 1] == PendingProgression(block) {
        return Duplicate;
      }
      pendingState := pendingState + [PendingProgression(block)];
      res := Queued;
    }

    method ReorgProposal(low: nat, high: nat) returns (res: Outcome)
      requires low <= high && !IsTransitioning(View(), high)
      modifies this`pendingState
      ensures (View(), res) == Reorg(old(View()), low, high)
    {
      pendingState := pendingState + [PendingReorg(low, high)];
      res := Queued;
    }

    method FinalizeModules()
      modifies this`allModulesRegistered
      ensures View() == Finalize(old(View()))
    {
      allModulesRegistered := true;
    }

    method RegisterModule(m: Module) returns (res: Outcome)
      modifies this`registeredModules, this`joiningModules
      ensures (View(), res) == Register(old(View()), m)
    {
      if allModulesRegistered {
        return TooLate;
      }
      var known := m in registeredModules;
      registeredModules := registeredModules[m := []];
      if known {
        return Panicked;
      }
      joiningModules := joiningModules + {m};
      res := Registered;
    }

    /** Scan the fronts, module by module. */
    method FrontsAgree(check: SignOff) returns (transition: bool)
      ensures transition == AllFrontsAre(registeredModules, check)
    {
      transition := true;
      var rest := registeredModules.Keys;
      while rest != {}
        invariant rest <= registeredModules.Keys
        invariant transition == forall m :: m in registeredModules && m !in rest ==>
          registeredModules[m] != [] && SameSignOff(registeredModules[m][0], check)
        decreases rest
      {
        var m :| m in rest;
        transition := transition && registeredModules[m] != [] && SameSignOff(registeredModules[m][0], check);
        rest := rest - {m};
      }
    }

    /** Pop every front and wake its task. */
    method ResetFronts()
      requires forall m :: m in registeredModules ==> registeredModules[m] != []
      modifies this`registeredModules, this`wakes
      ensures registeredModules == PopFronts(old(registeredModules))
      ensures wakes == old(wakes) + [FrontWakers(old(registeredModules))]
    {
      ghost var before := registeredModules;
      var fired: map<Module, Option<Waker>> := map[];
      var rest := registeredModules.Keys;
      while rest != {}
        invariant registeredModules.Keys == before.Keys && rest <= before.Keys
        invariant forall m :: m in rest ==> registeredModules[m] == before[m]
        invariant forall m :: m in before && m !in rest ==> registeredModules[m] == before[m][1..]
        invariant fired.Keys == before.Keys - rest
        invariant forall m :: m in fired ==> fired[m] == before[m][0].waker
        invariant wakes == old(wakes)
        decreases rest
      {
        var m :| m in rest;
        fired := fired[m := registeredModules[m][0].waker];
        registeredModules := registeredModules[m := registeredModules[m][1..]];
        rest := rest - {m};
      }
      assert fired == FrontWakers(before);
      wakes := wakes + [fired];
    }

    method SignOffReorg(m: Module, low: nat, high: nat, waker: Option<Waker>) returns (res: Outcome)
      modifies this
      ensures (View(), res) == SignOn(old(View()), m, PendingReorg(low, high), waker)
      ensures wakes == old(wakes) + Wakes(old(View()), m, PendingReorg(low, high), waker)
    {
      if PendingReorg(low, high) !in pendingState {
        return Panicked;
      }
      joiningModules := joiningModules - {m};
      var check := HandledReorg(waker);
      if m in registeredModules {
        registeredModules := registeredModules[m := registeredModules[m] + [check]];
      }
      var transition := FrontsAgree(check);
      if !transition {
        return Accepted;
      }
      pendingState := pendingState[1..];
      ResetFronts();
      res := Completed;
    }

    method SignOffOnBlock(m: Module, block: nat, waker: Option<Waker>) returns (res: Outcome)
      modifies this
      ensures (View(), res) == SignOn(old(View()), m, PendingProgression(block), waker)
      ensures wakes == old(wakes) + Wakes(old(View()), m, PendingProgression(block), waker)
    {
      if PendingProgression(block) !in pendingState {
        if m in joiningModules && block <= blockNumber {
          return Ignored;
        }
        return Panicked;
      }
      joiningModules := joiningModules - {m};
      var check := ReadyForNextBlock(waker, block);
      if m in registeredModules {
        registeredModules := registeredModules[m := registeredModules[m] + [check]];
      }
      var transition := FrontsAgree(check);
      if !transition {
        return Accepted;
      }
      var newState := pendingState[0];
      pendingState := pendingState[1..];
      if newState.PendingProgression? {
        blockNumber := newState.block;
      }
      ResetFronts();
      res := Completed;
    }
  }
}
