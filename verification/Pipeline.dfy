/** The order validation pipeline: a four-state machine in front of the validator that keeps
    validation work from crossing a block change. */
module Pipeline {
  import opened Options

  type Hash = nat
  type Address = nat

  /** What the validator is told about a new block. */
  datatype Notice = Notice(block: nat, orders: seq<Hash>, addresses: seq<Address>)

  /** Jobs in flight are futures handed to the validator; waiting jobs are queued in order. */
  datatype Pipeline<J> =
    | ClearingForNewBlock(notice: Notice, waiting: seq<J>, inflight: seq<J>)
    | WaitingForStorageCleanup(waiting: seq<J>)
    | InformState(notice: Notice, waiting: seq<J>)
    | RegularProcessing(inflight: seq<J>)

  datatype Poll<J> =
    | Pending
    | Exhausted
    | ValidatedOrder(job: J)
    | EnsureClearForTransition(notice: Notice)
    | TransitionComplete

  function Inflight<J>(p: Pipeline<J>): seq<J> {
    if p.ClearingForNewBlock? || p.RegularProcessing? then p.inflight else []
  }

  function Waiting<J>(p: Pipeline<J>): seq<J> {
    if p.RegularProcessing? then [] else p.waiting
  }

  function Without<T>(s: seq<T>, i: nat): seq<T>
    requires i < |s|
  {
    s[..i] + s[i + 1..]
  }

  /** Panics unless processing is regular: the assertion covers two of the other three states
      and the irrefutable pattern after it covers the third. */
  function OnNewBlock<J>(p: Pipeline<J>, notice: Notice): Option<Pipeline<J>> {
    if p.RegularProcessing? then Some(ClearingForNewBlock(notice, [], p.inflight)) else None
  }

  function Notify<J>(p: Pipeline<J>, notice: Notice): Pipeline<J> {
    if p.WaitingForStorageCleanup? then InformState(notice, p.waiting) else p
  }

  function Submit<J>(p: Pipeline<J>, job: J): Pipeline<J> {
    if p.RegularProcessing? then p.(inflight := p.inflight + [job]) else p.(waiting := p.waiting + [job])
  }

  /** What the futures say when polled: which job in flight is done, if any, and whether the
      validator has finished its new-block work. */
  datatype Readiness = Readiness(job: Option<nat>, informed: bool)

  predicate Fits<J>(p: Pipeline<J>, ready: Readiness) {
    ready.job.Some? ==> ready.job.value < |Inflight(p)|
  }

  function PollNext<J>(p: Pipeline<J>, ready: Readiness): (Pipeline<J>, Poll<J>)
    requires Fits(p, ready)
  {
    match p
    case ClearingForNewBlock(notice, waiting, inflight) =>
      if ready.job.Some? then (p.(inflight := Without(inflight, ready.job.value)),
          ValidatedOrder(inflight[ready.job.value]))
      else if inflight != [] then (p, Pending)
      else (WaitingForStorageCleanup(waiting), EnsureClearForTransition(notice))
    case WaitingForStorageCleanup(_) => (p, Pending)
    case InformState(_, waiting) =>
      if ready.informed then (RegularProcessing(waiting), TransitionComplete) else (p, Pending)
    case RegularProcessing(inflight) =>
      if ready.job.Some? then (p.(inflight := Without(inflight, ready.job.value)),
          ValidatedOrder(inflight[ready.job.value]))
      else (p, if inflight == [] then Exhausted else Pending)
  }

  class OrderValidator<J> {
    var state: Pipeline<J>

    constructor ()
      ensures state == RegularProcessing([])
    {
      state := RegularProcessing([]);
    }

    /** Everything not yet started, as `get_waiting_orders` clones it. */
    method WaitingOrders() returns (orders: seq<J>)
      ensures orders == Waiting(state)
    {
      orders := match state
        case RegularProcessing(_) => []
        case InformState(_, waiting) => waiting
        case ClearingForNewBlock(_, waiting, _) => waiting
        case WaitingForStorageCleanup(waiting) => waiting;
    }

    method ClearForNewBlock(notice: Notice) returns (panicked: bool)
      modifies this
      ensures panicked <==> OnNewBlock(old(state), notice).None?
      ensures state == if panicked then old(state) else OnNewBlock(old(state), notice).value
    {
      if state.ClearingForNewBlock? || state.InformState? {
        return true;
      }
      if !state.RegularProcessing? {
        return true;
      }
      state := ClearingForNewBlock(notice, [], state.inflight);
      panicked := false;
    }

    method NotifyValidationOnChanges(notice: Notice)
      modifies this
      ensures state == Notify(old(state), notice)
    {
      if state.WaitingForStorageCleanup? {
        state := InformState(notice, state.waiting);
      }
    }

    method ValidateOrder(job: J)
      modifies this
      ensures state == Submit(old(state), job)
    {
      match state
      case RegularProcessing(inflight) => state := RegularProcessing(inflight + [job]);
      case WaitingForStorageCleanup(waiting) => state := WaitingForStorageCleanup(waiting + [job]);
      case ClearingForNewBlock(notice, waiting, inflight) =>
          state := ClearingForNewBlock(notice, waiting + [job], inflight);
      case InformState(notice, waiting) => state := InformState(notice, waiting + [job]);
    }

    /** Regular processing resumes, and the queue is drained into it in order. */
    method HandleInform()
      requires state.InformState?
      modifies this
      ensures state == RegularProcessing(old(state).waiting)
    {
      var queue := state.waiting;
      state := RegularProcessing([]);
      var i := 0;
      while i < |queue|
        invariant 0 <= i <= |queue|
        invariant state == RegularProcessing(queue[..i])
      {
        ValidateOrder(queue[i]);
        i := i + 1;
      }
      assert queue[..|queue|] == queue;
    }

    method PollOnce(ready: Readiness) returns (res: Poll<J>)
      requires Fits(state, ready)
      modifies this
      ensures (state, res) == PollNext(old(state), ready)
    {
      match state
      case ClearingForNewBlock(notice, waiting, inflight) =>
        if ready.job.Some? {
          state := ClearingForNewBlock(notice, waiting, Without(inflight, ready.job.value));
          return ValidatedOrder(inflight[ready.job.value]);
        }
        if inflight != [] {
          return Pending;
        }
        state := WaitingForStorageCleanup(waiting);
        return EnsureClearForTransition(notice);
      case WaitingForStorageCleanup(_) =>
        return Pending;
      case InformState(_, _) =>
        if !ready.informed {
          return Pending;
        }
        HandleInform();
        return TransitionComplete;
      case RegularProcessing(inflight) =>
        if ready.job.Some? {
          state := RegularProcessing(Without(inflight, ready.job.value));
          return ValidatedOrder(inflight[ready.job.value]);
        }
        return if inflight == [] then Exhausted else Pending;
    }
  }
}
