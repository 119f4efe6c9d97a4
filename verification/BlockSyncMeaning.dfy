/** What each call of the barrier does in any state whatever, module by module: also in states that
    modules signing out of order lead to. */
module BlockSyncMeaning {
  import opened Options
  import opened BlockSync

  /** The sign-off is for the proposal: reorgs are all alike, blocks are told apart by their number. */
  predicate IsFor(x: SignOff, p: Proposal) {
    match p
    case PendingReorg(_, _) => x.HandledReorg?
    case PendingProgression(block) => x.ReadyForNextBlock? && x.block == block
    case Processing(_) => false
  }

  /** The first sign-off a module has to offer once m has signed is for the proposal. */
  predicate FrontAgrees(s: Sync, m: Module, p: Proposal, o: Module)
    requires o in s.modules
  {
    if s.modules[o] == [] then o == m else IsFor(s.modules[o][0], p)
  }

  /** The module's queue with the new sign-off at its end. */
  ghost predicate IsSigned(s: Sync, m: Module, p: Proposal, waker: Option<Waker>, o: Module, q: seq<SignOff>)
    requires o in s.modules
  {
    if o != m then q == s.modules[o]
    else q != [] && q[..|q| - 1] == s.modules[o] && IsFor(q[|q| - 1], p) && q[|q| - 1].waker == waker
  }

  /** A sign-off for something pending goes to the end of its module's queue. It completes the oldest
      proposal exactly if then every module's oldest sign-off is for this very one; that takes the
      oldest off every queue, and moves the shared block only from one block to the next. */
  lemma SignOnMeans(s: Sync, m: Module, p: Proposal, waker: Option<Waker>)
      returns (queues: map<Module, seq<SignOff>>)
    requires !p.Processing? && p in s.pending
    ensures queues.Keys == s.modules.Keys
    ensures forall o :: o in s.modules ==> IsSigned(s, m, p, waker, o, queues[o])
    ensures var (t, res) := SignOn(s, m, p, waker);
      var agreed := forall o :: o in s.modules ==> FrontAgrees(s, m, p, o);
      && res == (if agreed then Completed else Accepted)
      && t.finalized == s.finalized && t.joining == s.joining - {m} && t.modules.Keys == s.modules.Keys
      && t.pending == (if agreed then s.pending[1..] else s.pending)
      && (forall o :: o in s.modules && agreed ==> queues[o] != [] && t.modules[o] == queues[o][1..])
      && (forall o :: o in s.modules && !agreed ==> t.modules[o] == queues[o])
      && t.block == (if agreed && p.PendingProgression? && s.pending[0].PendingProgression? then s.pending[0].block
                     else s.block)
  {
    hide AllFrontsAre, FrontAgrees, IsFor, SameSignOff;
    queues := PushSignOff(s.modules, m, SignFor(p, waker));
    AgreeIff(s, m, p, waker);
  }

  lemma AgreeIff(s: Sync, m: Module, p: Proposal, waker: Option<Waker>)
    requires !p.Processing?
    ensures var queues := PushSignOff(s.modules, m, SignFor(p, waker));
      && (AllFrontsAre(queues, SignFor(p, waker)) <==> forall o :: o in s.modules ==> FrontAgrees(s, m, p, o))
      && (forall o :: o in s.modules ==> IsSigned(s, m, p, waker, o, queues[o]))
      && (AllFrontsAre(queues, SignFor(p, waker)) ==> forall o :: o in s.modules ==> queues[o] != [])
  {
    var queues := PushSignOff(s.modules, m, SignFor(p, waker));
    forall o | o in s.modules
      ensures FrontAgrees(s, m, p, o) <==> queues[o] != [] && SameSignOff(queues[o][0], SignFor(p, waker))
    {
    }
  }

  /** Everybody is woken exactly when a proposal completes, once, each with the waker of its own oldest
      sign-off. */
  lemma WakesMean(s: Sync, m: Module, p: Proposal, waker: Option<Waker>)
    requires !p.Processing? && p in s.pending
    ensures var wakes := Wakes(s, m, p, waker);
      if exists o :: o in s.modules && !FrontAgrees(s, m, p, o) then wakes == []
      else
        && |wakes| == 1 && wakes[0].Keys == s.modules.Keys
        && forall o :: o in s.modules ==> wakes[0][o] == if s.modules[o] == [] then waker else s.modules[o][0].waker
  {
    var queues := SignOnMeans(s, m, p, waker);
    assert SignOn(s, m, p, waker).1 == Completed <==> forall o :: o in s.modules ==> FrontAgrees(s, m, p, o);
  }

  /** Out of turn or not: nothing completes unless all have signed for the same thing. */
  lemma CompletionAgrees(s: Sync, m: Module, p: Proposal, waker: Option<Waker>, o: Module)
    requires !p.Processing? && m in s.modules && o in s.modules
    requires SignOn(s, m, p, waker).1 == Completed
    ensures p in s.pending && SignOn(s, m, p, waker).0.pending == s.pending[1..]
    ensures o != m ==> s.modules[o] != [] && IsFor(s.modules[o][0], p)
    ensures s.modules[m] == [] || IsFor(s.modules[m][0], p)
  {
    var queues := SignOnMeans(s, m, p, waker);
    assert FrontAgrees(s, m, p, o) && FrontAgrees(s, m, p, m);
  }

  /** Registering: refused once the set is final; a first registration opens an empty queue and marks the
      module as joining; a second one has emptied the queue by the time it panics. */
  lemma RegisterMeans(s: Sync, m: Module)
    ensures var (t, res) := Register(s, m);
      && t == s.(modules := t.modules, joining := t.joining)
      && (s.finalized ==> t == s && res == TooLate)
      && (!s.finalized ==>
           && (forall o :: o in t.modules <==> o in s.modules || o == m)
           && (forall o :: o in t.modules ==> t.modules[o] == if o == m then [] else s.modules[o])
           && (if m in s.modules then res == Panicked && t.joining == s.joining
               else res == Registered && t.joining == s.joining + {m}))
  {
    assert !s.finalized ==> Register(s, m).0.modules == s.modules[m := []];
  }

  /** The producer of a block waits, once the set is final, while some module has signed something and
      not everybody has signed the block before as its oldest. */
  lemma WaitMeans(s: Sync, expected: nat)
    ensures IsTransitioning(s, expected) <==>
      && s.finalized && (exists m :: m in s.modules && s.modules[m] != [])
      && exists m :: m in s.modules &&
           (s.modules[m] == [] || !IsFor(s.modules[m][0], PendingProgression(expected)))
  {
    if s.finalized && exists m :: m in s.modules && s.modules[m] != [] {
      if m :| m in s.modules && (s.modules[m] == [] || !IsFor(s.modules[m][0], PendingProgression(expected))) {
        assert IsTransitioning(s, expected);
      }
    }
  }
}
