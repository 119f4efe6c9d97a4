/** Whole runs of the validation pipeline, for any kind of job. */
module PipelineRuns {
  import opened Options
  import opened Pipeline

  /** A result, and the block epochs in which its validation was started and delivered. */
  datatype Emission<J> = Emission(job: J, started: nat, delivered: nat)

  /** The events of block changes, with how many jobs had been started and delivered by then. */
  datatype Control = Clear(notice: Notice, started: nat, delivered: nat) | Complete

  datatype World<J> = World(
    pipe: Pipeline<J>,
    submitted: seq<J>,
    started: seq<J>,
    emitted: seq<Emission<J>>,
    epochs: seq<nat>,      // the epoch in which each job in flight was started
    created: nat,          // new-block notifications created
    resolved: nat,         // ... and finished
    calls: seq<Notice>,
    controls: seq<Control>)

  datatype Event<J> =
    | NewOrder(job: J)
    | NewBlock(notice: Notice)
    | StorageClean(notice: Notice)
    | Polled(ready: Readiness)

  function Start<J>(): World<J> {
    World(RegularProcessing([]), [], [], [], [], 0, 0, [], [])
  }

  predicate Enabled<J>(w: World<J>, e: Event<J>) {
    match e
    case NewBlock(notice) => OnNewBlock(w.pipe, notice).Some?
    case Polled(ready) => Fits(w.pipe, ready) && (ready.job.Some? ==> ready.job.value < |w.epochs|)
    case _ => true
  }

  function Repeat(x: nat, n: nat): (s: seq<nat>)
    ensures |s| == n && forall i :: 0 <= i < n ==> s[i] == x
  {
    if n == 0 then [] else Repeat(x, n - 1) + [x]
  }

  function AfterPoll<J>(w: World<J>, ready: Readiness): World<J>
    requires Fits(w.pipe, ready) && (ready.job.Some? ==> ready.job.value < |w.epochs|)
  {
    var (pipe, res) := PollNext(w.pipe, ready);
    match res
    case ValidatedOrder(job) =>
      w.(pipe := pipe, epochs := Without(w.epochs, ready.job.value),
         emitted := w.emitted + [Emission(job, w.epochs[ready.job.value], w.created)])
    case EnsureClearForTransition(notice) =>
        w.(pipe := pipe, controls := w.controls + [Clear(notice, |w.started|, |w.emitted|)])
    case TransitionComplete =>
      w.(pipe := pipe, resolved := w.resolved + 1, controls := w.controls + [Complete],
         started := w.started + Inflight(pipe), epochs := Repeat(w.resolved + 1, |Inflight(pipe)|))
    case _ => w.(pipe := pipe)
  }

  function Step<J>(w: World<J>, e: Event<J>): World<J>
    requires Enabled(w, e)
  {
    match e
    case NewOrder(job) =>
      if w.pipe.RegularProcessing?
      then w.(pipe := Submit(w.pipe, job), submitted := w.submitted + [job], started := w.started + [job],
          epochs := w.epochs + [w.resolved])
      else w.(pipe := Submit(w.pipe, job), submitted := w.submitted + [job])
    case NewBlock(notice) => w.(pipe := OnNewBlock(w.pipe, notice).value, calls := w.calls + [notice])
    case StorageClean(notice) =>
      w.(pipe := Notify(w.pipe, notice), created := w.created + if w.pipe.WaitingForStorageCleanup? then 1 else 0)
    case Polled(ready) => AfterPoll(w, ready)
  }

  function Jobs<J>(es: seq<Emission<J>>): (js: seq<J>)
    ensures |js| == |es| && forall i :: 0 <= i < |es| ==> js[i] == es[i].job
  {
    if es == [] then [] else Jobs(es[..|es| - 1]) + [es[|es| - 1].job]
  }

  /** Nothing is in flight, and nothing starts, while a notification is outstanding. */
  ghost predicate EpochsHold<J>(w: World<J>) {
    && w.created == w.resolved + (if w.pipe.InformState? then 1 else 0)
    && |w.epochs| == |Inflight(w.pipe)|
    && (forall i :: 0 <= i < |w.epochs| ==> w.epochs[i] == w.created == w.resolved)
    && (forall i :: 0 <= i < |w.emitted| ==> w.emitted[i].started == w.emitted[i].delivered <= w.resolved)
  }

  ghost predicate Conserved<J>(w: World<J>) {
    && w.started + Waiting(w.pipe) == w.submitted
    && multiset(w.started) == multiset(Jobs(w.emitted)) + multiset(Inflight(w.pipe))
    && |w.started| == |w.emitted| + |Inflight(w.pipe)|
  }

  /** How many of the two events of the latest block change have come. */
  function Progress<J>(p: Pipeline<J>): nat {
    if p.RegularProcessing? then 2 else if p.ClearingForNewBlock? then 0 else 1
  }

  ghost predicate ControlsMatch<J>(w: World<J>) {
    && (w.calls == [] ==> w.pipe.RegularProcessing? && w.controls == [])
    && (w.calls != [] ==> |w.controls| == 2 * |w.calls| - 2 + Progress(w.pipe))
    && (w.calls != [] && w.pipe.ClearingForNewBlock? ==> w.pipe.notice == w.calls[|w.calls| - 1])
    && (forall i :: 0 <= i < |w.controls| ==> ControlFits(w.controls, w.calls, i))
  }

  ghost predicate ControlFits(controls: seq<Control>, calls: seq<Notice>, i: nat)
    requires i < |controls|
  {
    if i % 2 == 0 then
      && controls[i].Clear? && i / 2 < |calls| && controls[i].notice == calls[i / 2]
      && controls[i].started == controls[i].delivered
    else controls[i].Complete?
  }

  ghost predicate Inv<J>(w: World<J>) {
    EpochsHold(w) && Conserved(w) && ControlsMatch(w)
  }

  lemma WithoutSplits<J>(s: seq<J>, i: nat)
    requires i < |s|
    ensures multiset(s) == multiset(Without(s, i)) + multiset{s[i]}
  {
    assert s == s[..i] + [s[i]] + s[i + 1..];
  }

  lemma JobsMore<J>(es: seq<Emission<J>>, e: Emission<J>)
    ensures Jobs(es + [e]) == Jobs(es) + [e.job]
  {
    assert (es + [e])[..|es|] == es;
  }

  lemma SubmitConserves<J>(w: World<J>, job: J)
    requires Conserved(w)
    ensures Conserved(Step(w, NewOrder(job)))
  {
    var v := Step(w, NewOrder(job));
    if w.pipe.RegularProcessing? {
      assert w.started + [] == w.started && v.started + [] == v.started;
      assert Inflight(v.pipe) == Inflight(w.pipe) + [job];
    } else {
      assert w.started + (Waiting(w.pipe) + [job]) == (w.started + Waiting(w.pipe)) + [job];
      assert Inflight(v.pipe) == Inflight(w.pipe);
    }
  }

  lemma SubmitKeepsInv<J>(w: World<J>, job: J)
    requires Inv(w)
    ensures Inv(Step(w, NewOrder(job)))
  {
    hide Conserved, ControlFits, EpochsHold;
    SubmitConserves(w, job);
    SubmitKeepsEpochs(w, job);
  }

  lemma SubmitKeepsEpochs<J>(w: World<J>, job: J)
    requires EpochsHold(w)
    ensures EpochsHold(Step(w, NewOrder(job)))
  {
  }

  lemma NewBlockKeepsInv<J>(w: World<J>, notice: Notice)
    requires Inv(w) && Enabled(w, NewBlock(notice))
    ensures Inv(Step(w, NewBlock(notice)))
  {
    var v := Step(w, NewBlock(notice));
    forall i | 0 <= i < |v.controls|
      ensures ControlFits(v.controls, v.calls, i)
    {
      assert ControlFits(w.controls, w.calls, i);
    }
  }

  lemma CleanKeepsInv<J>(w: World<J>, notice: Notice)
    requires Inv(w)
    ensures Inv(Step(w, StorageClean(notice)))
  {
    assert forall i :: 0 <= i < |w.controls| ==> ControlFits(w.controls, w.calls, i);
  }

  /** A result leaves the flight and joins the emitted ones; nothing else moves. */
  lemma EmitShape<J>(w: World<J>, ready: Readiness)
    requires Enabled(w, Polled(ready)) && PollNext(w.pipe, ready).1.ValidatedOrder?
    ensures ready.job.Some? && ready.job.value < |Inflight(w.pipe)|
    ensures var (v, i) := (AfterPoll(w, ready), ready.job.value);
      && v.started == w.started && v.submitted == w.submitted && Waiting(v.pipe) == Waiting(w.pipe)
      && Inflight(v.pipe) == Without(Inflight(w.pipe), i) && |Inflight(v.pipe)| == |Inflight(w.pipe)| - 1
      && |v.emitted| == |w.emitted| + 1 && Jobs(v.emitted) == Jobs(w.emitted) + [Inflight(w.pipe)[i]]
  {
    var v := AfterPoll(w, ready);
    JobsMore(w.emitted, v.emitted[|w.emitted|]);
  }

  lemma EmitConserves<J>(w: World<J>, ready: Readiness)
    requires Conserved(w) && Enabled(w, Polled(ready)) && PollNext(w.pipe, ready).1.ValidatedOrder?
    ensures Conserved(AfterPoll(w, ready))
  {
    hide AfterPoll, PollNext, Without, Jobs, Inflight, Waiting;
    EmitShape(w, ready);
    var (flight, i) := (Inflight(w.pipe), ready.job.value);
    WithoutSplits(flight, i);
    MoveOver(multiset(w.started), Jobs(w.emitted), multiset(flight), multiset(Without(flight, i)), flight[i]);
  }

  lemma MoveOver<J>(all: multiset<J>, out: seq<J>, before: multiset<J>, after: multiset<J>, x: J)
    requires all == multiset(out) + before && before == after + multiset{x}
    ensures all == multiset(out + [x]) + after
  {
  }

  lemma EmitKeepsEpochs<J>(w: World<J>, ready: Readiness)
    requires EpochsHold(w) && Enabled(w, Polled(ready)) && PollNext(w.pipe, ready).1.ValidatedOrder?
    ensures EpochsHold(AfterPoll(w, ready))
  {
  }

  lemma EmitKeepsInv<J>(w: World<J>, ready: Readiness)
    requires Inv(w) && Enabled(w, Polled(ready)) && PollNext(w.pipe, ready).1.ValidatedOrder?
    ensures Inv(AfterPoll(w, ready))
  {
    hide Conserved, EpochsHold, ControlFits;
    EmitConserves(w, ready);
    EmitKeepsEpochs(w, ready);
  }

  lemma ControlsMore(controls: seq<Control>, calls: seq<Notice>, c: Control)
    requires forall i :: 0 <= i < |controls| ==> ControlFits(controls, calls, i)
    requires ControlFits(controls + [c], calls, |controls|)
    ensures forall i :: 0 <= i < |controls + [c]| ==> ControlFits(controls + [c], calls, i)
  {
    forall i | 0 <= i < |controls + [c]|
      ensures ControlFits(controls + [c], calls, i)
    {
      if i < |controls| { assert ControlFits(controls, calls, i); }
    }
  }

  lemma ClearKeepsInv<J>(w: World<J>, ready: Readiness)
    requires Inv(w) && Enabled(w, Polled(ready)) && PollNext(w.pipe, ready).1.EnsureClearForTransition?
    ensures Inv(AfterPoll(w, ready))
  {
    hide ControlFits;
    var c := Clear(w.pipe.notice, |w.started|, |w.emitted|);
    assert |w.controls| == 2 * (|w.calls| - 1);
    assert ControlFits(w.controls + [c], w.calls, |w.controls|) by { ClearFits(w.controls, w.calls, c); }
    ControlsMore(w.controls, w.calls, c);
  }

  lemma ClearFits(controls: seq<Control>, calls: seq<Notice>, c: Control)
    requires calls != [] && |controls| == 2 * (|calls| - 1)
    requires c.Clear? && c.notice == calls[|calls| - 1] && c.started == c.delivered
    ensures ControlFits(controls + [c], calls, |controls|)
  {
  }

  lemma CompleteConserves<J>(w: World<J>, ready: Readiness)
    requires Conserved(w) && Enabled(w, Polled(ready)) && PollNext(w.pipe, ready).1.TransitionComplete?
    ensures Conserved(AfterPoll(w, ready))
  {
    var v := AfterPoll(w, ready);
    assert v.started + [] == v.started;
  }

  lemma CompleteKeepsInv<J>(w: World<J>, ready: Readiness)
    requires Inv(w) && Enabled(w, Polled(ready)) && PollNext(w.pipe, ready).1.TransitionComplete?
    ensures Inv(AfterPoll(w, ready))
  {
    hide Conserved;
    CompleteConserves(w, ready);
    assert |w.controls| == 2 * (|w.calls| - 1) + 1;
    assert ControlFits(w.controls + [Complete], w.calls, |w.controls|);
    ControlsMore(w.controls, w.calls, Complete);
  }

  lemma StepKeepsInv<J>(w: World<J>, e: Event<J>)
    requires Inv(w) && Enabled(w, e)
    ensures Inv(Step(w, e))
  {
    match e
    case NewOrder(job) => SubmitKeepsInv(w, job);
    case NewBlock(notice) => NewBlockKeepsInv(w, notice);
    case StorageClean(notice) => CleanKeepsInv(w, notice);
    case Polled(ready) =>
      var res := PollNext(w.pipe, ready).1;
      if res.ValidatedOrder? {
        EmitKeepsInv(w, ready);
      } else if res.EnsureClearForTransition? {
        ClearKeepsInv(w, ready);
      } else if res.TransitionComplete? {
        CompleteKeepsInv(w, ready);
      } else {
        assert Step(w, e) == w;
      }
  }

  ghost predicate IsRun<J(!new)>(w: World<J>, events: seq<Event<J>>)
    decreases |events|
  {
    events == [] || (Enabled(w, events[0]) && IsRun(Step(w, events[0]), events[1..]))
  }

  ghost function After<J(!new)>(w: World<J>, events: seq<Event<J>>): World<J>
    requires IsRun(w, events)
    decreases |events|
  {
    if events == [] then w else After(Step(w, events[0]), events[1..])
  }

  lemma {:induction false} RunKeepsInv<J(!new)>(w: World<J>, events: seq<Event<J>>)
    requires Inv(w) && IsRun(w, events)
    ensures Inv(After(w, events))
    decreases |events|
  {
    hide Inv, Enabled, Step;
    if events != [] {
      StepKeepsInv(w, events[0]);
      RunKeepsInv(Step(w, events[0]), events[1..]);
    }
  }

  /** Epochs: every result was started and delivered between the same two block changes, and
      while the validator is being told of a block nothing is in flight. */
  lemma ValidationEpochs<J(!new)>(events: seq<Event<J>>)
    requires IsRun(Start(), events)
    ensures var w := After(Start(), events);
      && (forall i :: 0 <= i < |w.emitted| ==> w.emitted[i].started == w.emitted[i].delivered)
      && (w.created != w.resolved ==> w.pipe.InformState? && Inflight(w.pipe) == [])
  {
    hide IsRun, After;
    RunKeepsInv(Start<J>(), events);
  }

  /** Conservation: submitted orders are the started ones followed by the waiting ones, in
      arrival order, and the started ones are the delivered ones plus those in flight. */
  lemma PipelineConserves<J(!new)>(events: seq<Event<J>>)
    requires IsRun(Start(), events)
    ensures var w := After(Start(), events);
      && w.started + Waiting(w.pipe) == w.submitted
      && multiset(w.submitted) == multiset(Jobs(w.emitted)) + multiset(Inflight(w.pipe)) + multiset(Waiting(w.pipe))
  {
    hide IsRun, After;
    RunKeepsInv(Start<J>(), events);
  }

  /** Each block change yields one clear event, when all older jobs have been delivered, and
      then one complete event; no event comes without a call. */
  lemma BlockChangesPair<J(!new)>(events: seq<Event<J>>, k: nat)
    requires IsRun(Start(), events) && k < |After(Start(), events).calls|
    ensures var w := After(Start(), events);
      && |w.controls| <= 2 * |w.calls|
      && (2 * k < |w.controls| ==>
           && w.controls[2 * k].Clear? && w.controls[2 * k].notice == w.calls[k]
           && w.controls[2 * k].started == w.controls[2 * k].delivered)
      && (2 * k + 1 < |w.controls| ==> w.controls[2 * k + 1].Complete?)
      && (k + 1 < |w.calls| || w.pipe.RegularProcessing? ==> 2 * k + 1 < |w.controls|)
  {
    hide IsRun, After;
    RunKeepsInv(Start<J>(), events);
    var w := After(Start<J>(), events);
    assert 2 * k < |w.controls| ==> ControlFits(w.controls, w.calls, 2 * k);
    assert 2 * k + 1 < |w.controls| ==> ControlFits(w.controls, w.calls, 2 * k + 1);
  }

  // ----- every block change comes to an end

  lemma {:induction false} RunsJoin<J(!new)>(w: World<J>, a: seq<Event<J>>, b: seq<Event<J>>)
    requires IsRun(w, a) && IsRun(After(w, a), b)
    ensures IsRun(w, a + b) && After(w, a + b) == After(After(w, a), b)
    decreases |a|
  {
    hide Enabled, Step;
    if a == [] {
      assert a + b == b;
    } else {
      RunsJoin(Step(w, a[0]), a[1..], b);
      assert (a + b)[1..] == a[1..] + b;
    }
  }

  lemma OneEvent<J(!new)>(w: World<J>, e: Event<J>)
    requires Enabled(w, e)
    ensures IsRun(w, [e]) && After(w, [e]) == Step(w, e)
  {
    hide Enabled, Step;
    assert IsRun(Step(w, e), [e][1..]);
  }

  /** A finished validation is delivered as soon as it is polled for, and only that one leaves. */
  lemma FinishedIsDelivered<J>(w: World<J>, i: nat)
    requires Inv(w) && i < |Inflight(w.pipe)|
    ensures var e := Polled(Readiness(Some(i), false));
      && Enabled(w, e)
      && var v := Step(w, e);
         && Jobs(v.emitted) == Jobs(w.emitted) + [Inflight(w.pipe)[i]]
         && v.pipe == w.pipe.(inflight := Inflight(w.pipe)[..i] + Inflight(w.pipe)[i + 1..])
         && v.controls == w.controls && v.calls == w.calls
  {
    var v := Step(w, Polled(Readiness(Some(i), false)));
    JobsMore(w.emitted, v.emitted[|w.emitted|]);
  }

  /** Polls for the oldest job in flight deliver them all, in order. */
  lemma {:induction false} FlightEmpties<J(!new)>(w: World<J>) returns (events: seq<Event<J>>)
    requires Inv(w) && (w.pipe.ClearingForNewBlock? || w.pipe.RegularProcessing?)
    ensures IsRun(w, events)
    ensures var v := After(w, events);
      && v.pipe == w.pipe.(inflight := []) && Jobs(v.emitted) == Jobs(w.emitted) + w.pipe.inflight
      && v.controls == w.controls && v.calls == w.calls
    decreases |Inflight(w.pipe)|
  {
    hide IsRun, After, Inv, Step, Enabled, Jobs;
    if w.pipe.inflight == [] {
      events := [];
      NoEvents(w);
      assert Jobs(w.emitted) + [] == Jobs(w.emitted);
    } else {
      var e := Polled(Readiness(Some(0), false));
      FinishedIsDelivered(w, 0);
      StepKeepsInv(w, e);
      var v := Step(w, e);
      assert w.pipe.inflight[..0] + w.pipe.inflight[1..] == w.pipe.inflight[1..];
      var rest := FlightEmpties(v);
      events := [e] + rest;
      assert IsRun(w, events) && After(w, events) == After(v, rest) by {
        OneEvent(w, e);
        RunsJoin(w, [e], rest);
      }
      OldestFirst(Jobs(w.emitted), w.pipe.inflight);
    }
  }

  lemma OldestFirst<J>(out: seq<J>, flight: seq<J>)
    requires flight != []
    ensures out + [flight[0]] + flight[1..] == out + flight
  {
  }

  lemma NoEvents<J(!new)>(w: World<J>)
    ensures IsRun(w, []) && After(w, []) == w
  {
  }

  /** With nothing in flight an empty poll opens the clean-up ... */
  lemma EmptyPollClears<J>(w: World<J>)
    requires w.pipe.ClearingForNewBlock? && w.pipe.inflight == []
    ensures var e := Polled(Readiness(None, false));
      && Enabled(w, e)
      && Step(w, e) == w.(pipe := WaitingForStorageCleanup(w.pipe.waiting),
                          controls := w.controls + [Clear(w.pipe.notice, |w.started|, |w.emitted|)])
  {
  }

  /** ... the clean-up leads to telling the validator, and its answer back to regular processing. */
  lemma InformedResumes<J>(w: World<J>, told: Notice)
    requires w.pipe.WaitingForStorageCleanup? || w.pipe.InformState?
    ensures var v := if w.pipe.InformState? then w else Step(w, StorageClean(told));
      && v.pipe.InformState? && Waiting(v.pipe) == Waiting(w.pipe) && v.controls == w.controls && v.emitted == w.emitted
      && v.calls == w.calls && Enabled(v, Polled(Readiness(None, true)))
      && var u := Step(v, Polled(Readiness(None, true)));
         && u.pipe == RegularProcessing(Waiting(w.pipe)) && u.controls == w.controls + [Complete]
         && u.emitted == w.emitted && u.calls == w.calls
  {
  }

  /** The last two stages of a block change. */
  lemma CleanupEnds<J(!new)>(w: World<J>, told: Notice) returns (events: seq<Event<J>>)
    requires Inv(w) && (w.pipe.WaitingForStorageCleanup? || w.pipe.InformState?)
    ensures IsRun(w, events)
    ensures var v := After(w, events);
      && v.pipe == RegularProcessing(Waiting(w.pipe)) && v.emitted == w.emitted
      && v.controls == w.controls + [Complete] && v.calls == w.calls
  {
    hide IsRun, After, Inv, Step, Waiting;
    InformedResumes(w, told);
    var poll := Polled(Readiness(None, true));
    if w.pipe.InformState? {
      OneEvent(w, poll);
      events := [poll];
    } else {
      var clean := StorageClean(told);
      assert Enabled(w, clean);
      OneEvent(w, clean);
      OneEvent(Step(w, clean), poll);
      RunsJoin(w, [clean], [poll]);
      events := [clean] + [poll];
    }
  }

  /** From every reachable state, in whatever stage of a block change: the jobs in flight are delivered,
      one clear event (unless it has come) and one complete event follow, and regular processing
      resumes with what had been queued. */
  lemma BlockChangeEnds<J(!new)>(w: World<J>, told: Notice) returns (events: seq<Event<J>>, cleared: Control)
    requires Inv(w) && !w.pipe.RegularProcessing?
    ensures IsRun(w, events)
    ensures var v := After(w, events);
      && v.pipe == RegularProcessing(Waiting(w.pipe)) && v.calls == w.calls
      && Jobs(v.emitted) == Jobs(w.emitted) + Inflight(w.pipe)
      && v.controls == w.controls + (if w.pipe.ClearingForNewBlock? then [cleared] else []) + [Complete]
      && (w.pipe.ClearingForNewBlock? ==> cleared.Clear? && cleared.notice == w.pipe.notice)
  {
    hide IsRun, After, Inv, Step, Enabled;
    if w.pipe.ClearingForNewBlock? {
      var first := FlightEmpties(w);
      RunKeepsInv(w, first);
      var u := After(w, first);
      EmptyPollClears(u);
      var poll := Polled(Readiness(None, false));
      OneEvent(u, poll);
      StepKeepsInv(u, poll);
      RunsJoin(w, first, [poll]);
      var last := CleanupEnds(Step(u, poll), told);
      RunsJoin(w, first + [poll], last);
      events := first + [poll] + last;
      cleared := Clear(w.pipe.notice, |u.started|, |u.emitted|);
    } else {
      events := CleanupEnds(w, told);
      cleared := Complete;
      assert Jobs(w.emitted) + [] == Jobs(w.emitted) && w.controls + [] == w.controls;
    }
  }

  /** Which item a poll yields: the result of a finished job, whenever there is one; the clear event with
      nothing left in flight; the complete event when the validator has been told; the end of the
      stream only in regular processing with nothing in flight; and nothing yet otherwise. */
  lemma PollYields<J>(p: Pipeline<J>, ready: Readiness)
    requires Fits(p, ready)
    ensures var (q, res) := PollNext(p, ready);
      var idle := Inflight(p) == [];
      && (res.ValidatedOrder? <==> ready.job.Some?)
      && (res.ValidatedOrder? ==> res.job == Inflight(p)[ready.job.value])
      && (res.EnsureClearForTransition? <==> p.ClearingForNewBlock? && idle)
      && (res.EnsureClearForTransition? ==> res.notice == p.notice)
      && (res.TransitionComplete? <==> p.InformState? && ready.informed)
      && (res.Exhausted? <==> p.RegularProcessing? && idle)
      && (Waiting(q) == if res.TransitionComplete? then [] else Waiting(p))
  {
    assert ready.job.Some? ==> Inflight(p) != [];
  }
}
