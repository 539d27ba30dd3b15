/** The library's retry engine (`RetryWhenDoOperationHelper`). The engine's
    own fields are the retry counter, the stop flag and the subscription
    handle; around them sit the RxJava chain (module Pipeline) and the queue
    of final callbacks waiting on the delivery scheduler. Every reaction of
    the engine is first a function on an `Engine` value (the specification
    used by the trace lemmas), then a method of the class that updates the
    fields in place and is proved to agree with that function. */
module LibraryHelper {
  import opened Common
  import opened Pipeline
  import opened LibraryBuilder

  /** What the final callback is told: exhausted failure, success, or error. */
  datatype Final<F, S> = Failed(failedBean: F) | Succeeded(successBean: S) | Errored(error: Throwable)

  /** The `disposable` field: null, a live subscription, or a disposed one. */
  datatype Subscription = NoSubscription | Live | Disposed

  /** The engine's state. `pending` holds the final callbacks handed to the
      delivery scheduler and not yet run; `delivered` records those that
      reached the final callback. */
  datatype Engine<F, S> = Engine(
    retryCount: nat,
    isStopNow: bool,
    disposable: Subscription,
    pipe: Pipe,
    pending: seq<Final<F, S>>,
    delivered: seq<Final<F, S>>)

  /** Everything that can happen to the engine. The operation's two callbacks,
      an exception thrown while invoking it, the chain's timers, completion
      and error, the owner's destruction and the delivery scheduler running
      the next queued callback are all events. */
  datatype Event<F, S> =
    | Start
    | TimerElapsed
    | AttemptFailed(f: F)
    | AttemptSucceeded(s: S)
    | OperationThrew(exception: Throwable)
    | ChainCompleted
    | ChainError(error: Throwable)
    | StopNow
    | OwnerDestroyed
    | DeliveryTick

  /** What the engine does in reaction to one event. */
  datatype Action<F, S> =
    | Nothing
    | Attempted                    // the operation was invoked
    | Retry(delay: nat)            // a retry is scheduled after `delay` units
    | Scheduled(outcome: Final<F, S>)  // a final callback was queued for delivery
    | Delivered(outcome: Final<F, S>)  // the final callback was invoked

  /** A helper that has not started yet. */
  function Initial<F, S>(): Engine<F, S> {
    Engine(0, false, NoSubscription, Unsubscribed, [], [])
  }

  ghost predicate ValidEngine<F, S>(e: Engine<F, S>) {
    Pipeline.Valid(e.pipe)
  }

  // ---------------------------------------------------------------------
  // The guards

  /** `isCanCallBack()`: a final callback is configured and `stopNow()` has
      not been called. */
  predicate CanCallBack<T, F, S>(cfg: Config<T>, e: Engine<F, S>) {
    cfg.finalCallBack.Some? && !e.isStopNow
  }

  /** `isDisposed(emitter)`: a missing subscription or emitter counts as
      disposed, and so does a disposed one of either. */
  predicate IsDisposed<F, S>(e: Engine<F, S>) {
    e.disposable != Live || e.pipe.emitter != Open
  }

  // ---------------------------------------------------------------------
  // One function per reaction

  /** `doRetryWhenOperation()`: reset the counter and the stop flag and
      subscribe a fresh chain that first waits the initial delay. Callbacks
      already queued on the delivery scheduler stay queued. */
  function StartRun<T, F, S>(cfg: Config<T>, e: Engine<F, S>): (r: Engine<F, S>)
    ensures ValidEngine(r) && r.retryCount == 0 && !r.isStopNow && r.disposable == Live
    ensures r.pipe.schedule == cfg.delayTimeList && r.pipe.zipped == 0 && r.pipe.attempts == 0
    ensures r.pipe.phase == InitialWait(cfg.delay) && !r.pipe.awaiting
    ensures r.pending == e.pending && r.delivered == e.delivered
  {
    e.(retryCount := 0, isStopNow := false, disposable := Live,
       pipe := Subscribe(cfg.delayTimeList, cfg.delay))
  }

  /** A timer of the chain fires: the operation is invoked if a listener is
      configured (`doOperation`), otherwise nothing ever reports. */
  function TimerStep<T, F, S>(cfg: Config<T>, e: Engine<F, S>): (r: (Engine<F, S>, Action<F, S>))
    ensures r.1 == Attempted <==> (e.pipe.phase.InitialWait? || e.pipe.phase.RetryWait?) && cfg.onDoOperationListener.Some?
    ensures r.1 != Attempted ==> r.1 == Nothing
    ensures r.0.retryCount == e.retryCount && r.0.isStopNow == e.isStopNow && r.0.pending == e.pending
            && r.0.delivered == e.delivered && r.0.pipe.zipped == e.pipe.zipped
  {
    var p := Pipeline.TimerElapsed(e.pipe, cfg.onDoOperationListener.Some?);
    (e.(pipe := p), if p.attempts > e.pipe.attempts then Attempted else Nothing)
  }

  /** The shared first half of `onFinalFailed`, `onFinalSuccess` and
      `onFinalError`: when a callback may be made, hand it to the delivery
      scheduler. */
  function ScheduleFinal<T, F, S>(cfg: Config<T>, e: Engine<F, S>, o: Final<F, S>): (r: (Engine<F, S>, Action<F, S>))
    ensures r.1 == Scheduled(o) <==> CanCallBack(cfg, e)
    ensures r.1 != Scheduled(o) ==> r == (e, Nothing)
    ensures r.0 == e.(pending := r.0.pending)
    ensures r.0.pending == e.pending + (if CanCallBack(cfg, e) then [o] else [])
  {
    if !CanCallBack(cfg, e) then (e, Nothing)
    else (e.(pending := e.pending + [o]), Scheduled(o))
  }

  /** `onDoOperationFaile`: count the failure; past the end of the delay list
      the failure is final, otherwise a live emitter signals the retry. */
  function FailedStep<T, F, S>(cfg: Config<T>, e: Engine<F, S>, f: F): (r: (Engine<F, S>, Action<F, S>))
    requires ValidEngine(e)
    ensures r.0.retryCount == e.retryCount + 1
    ensures r.1.Retry? <==> e.retryCount + 1 <= |cfg.delayTimeList| && !IsDisposed(e) && e.pipe.zipped < |e.pipe.schedule|
    ensures r.1.Retry? ==> r.1.delay == e.pipe.schedule[e.pipe.zipped]
    ensures r.1.Scheduled? <==> e.retryCount + 1 > |cfg.delayTimeList| && CanCallBack(cfg, e)
    ensures r.1.Scheduled? ==> r.1.outcome == Failed(f)
    ensures r.1.Retry? || r.1.Scheduled? || r.1 == Nothing
    ensures e.retryCount + 1 > |cfg.delayTimeList| ==> r.0.pipe == e.pipe
  {
    var e1 := e.(retryCount := e.retryCount + 1);
    if e1.retryCount > |cfg.delayTimeList| then ScheduleFinal(cfg, e1, Failed(f))
    else if !IsDisposed(e1) then
      var (p, d) := SignalError(e1.pipe);
      (e1.(pipe := p), if d.Some? then Retry(d.value) else Nothing)
    else (e1, Nothing)
  }

  /** The operation's `onSuccess`: the success is final at once; a live
      emitter then emits the value and completes the chain. */
  function SuccessStep<T, F, S>(cfg: Config<T>, e: Engine<F, S>, s: S): (r: (Engine<F, S>, Action<F, S>))
    ensures r.1 == (if CanCallBack(cfg, e) then Scheduled(Succeeded(s)) else Nothing)
    ensures r.0.pending == e.pending + (if CanCallBack(cfg, e) then [Succeeded(s)] else [])
    ensures !IsDisposed(e) ==> r.0.pipe.phase == Finished && r.0.pipe.emitter == Closed
    ensures IsDisposed(e) ==> r.0.pipe == e.pipe
    ensures r.0.retryCount == e.retryCount && r.0.pipe.zipped == e.pipe.zipped && r.0.delivered == e.delivered
  {
    var (e1, a) := ScheduleFinal(cfg, e, Succeeded(s));
    if !IsDisposed(e1) then (e1.(pipe := Emit(e1.pipe)), a) else (e1, a)
  }

  /** Invoking the operation threw: on a live emitter the exception is
      emitted as an error (and so retried); otherwise it is final. */
  function ThrewStep<T, F, S>(cfg: Config<T>, e: Engine<F, S>, x: Throwable): (r: (Engine<F, S>, Action<F, S>))
    requires ValidEngine(e)
    ensures r.0.retryCount == e.retryCount
    ensures r.1.Retry? <==> !IsDisposed(e) && e.pipe.zipped < |e.pipe.schedule|
    ensures r.1.Scheduled? <==> IsDisposed(e) && CanCallBack(cfg, e)
    ensures r.1.Scheduled? ==> r.1.outcome == Errored(x)
    ensures !IsDisposed(e) ==> r.0.pending == e.pending
  {
    if !IsDisposed(e) then
      var (p, d) := SignalError(e.pipe);
      (e.(pipe := p), if d.Some? then Retry(d.value) else Nothing)
    else ScheduleFinal(cfg, e, Errored(x))
  }

  /** The observer's `onError`: the chain ended with an error, which is final. */
  function ChainErrorStep<T, F, S>(cfg: Config<T>, e: Engine<F, S>, x: Throwable): (r: (Engine<F, S>, Action<F, S>))
    ensures r.1 == (if CanCallBack(cfg, e) then Scheduled(Errored(x)) else Nothing)
    ensures r.0.pipe.emitter != Open && r.0.retryCount == e.retryCount
  {
    ScheduleFinal(cfg, e.(pipe := Dispose(e.pipe)), Errored(x))
  }

  /** `stopNow()`: dispose the subscription if there is one, set the flag. */
  function StopStep<F, S>(e: Engine<F, S>): (r: Engine<F, S>)
    ensures r.isStopNow && r.disposable != Live && IsDisposed(r)
    ensures e.disposable == NoSubscription ==> r == e.(isStopNow := true)
    ensures r.retryCount == e.retryCount && r.pending == e.pending && r.delivered == e.delivered
    ensures r.pipe.awaiting == e.pipe.awaiting && r.pipe.attempts == e.pipe.attempts
  {
    var e1 := if e.disposable != NoSubscription then e.(disposable := Disposed, pipe := Dispose(e.pipe)) else e;
    e1.(isStopNow := true)
  }

  /** The owner's lifecycle ends: the owner binding disposes the subscription,
      without touching the stop flag. */
  function OwnerDestroyedStep<T, F, S>(cfg: Config<T>, e: Engine<F, S>): (r: Engine<F, S>)
    ensures cfg.owner.Some? && e.disposable == Live ==> r.disposable == Disposed && IsDisposed(r)
    ensures cfg.owner.None? ==> r == e
    ensures r.isStopNow == e.isStopNow && r.pending == e.pending && r.retryCount == e.retryCount
  {
    if cfg.owner.Some? && e.disposable == Live then e.(disposable := Disposed, pipe := Dispose(e.pipe))
    else e
  }

  /** The delivery scheduler runs the oldest queued callback, which checks the
      gate again before calling the final callback. */
  function DeliveryStep<T, F, S>(cfg: Config<T>, e: Engine<F, S>): (r: (Engine<F, S>, Action<F, S>))
    ensures r.1.Delivered? <==> e.pending != [] && CanCallBack(cfg, e)
    ensures r.1.Delivered? ==> r.1.outcome == e.pending[0] && r.0.delivered == e.delivered + [e.pending[0]]
    ensures !r.1.Delivered? ==> r.1 == Nothing && r.0.delivered == e.delivered
    ensures r.0.pending == if e.pending == [] then [] else e.pending[1..]
    ensures r.0 == e.(pending := r.0.pending, delivered := r.0.delivered)
  {
    if e.pending == [] then (e, Nothing)
    else
      var o := e.pending[0];
      var e1 := e.(pending := e.pending[1..]);
      if CanCallBack(cfg, e1) then (e1.(delivered := e1.delivered + [o]), Delivered(o)) else (e1, Nothing)
  }

  /** The engine's reaction to one event. */
  function Step<T, F, S>(cfg: Config<T>, e: Engine<F, S>, ev: Event<F, S>): (r: (Engine<F, S>, Action<F, S>))
    requires ValidEngine(e)
    ensures ValidEngine(r.0)
    ensures (r.1.Scheduled? || r.1.Delivered?) ==> CanCallBack(cfg, e) && !ev.Start?
    ensures !ev.DeliveryTick? ==> r.0.delivered == e.delivered
    ensures !ev.Start? ==> r.0.isStopNow == (e.isStopNow || ev.StopNow?)
    ensures r.1 == Attempted ==> cfg.onDoOperationListener.Some? && r.0.pipe.attempts == e.pipe.attempts + 1
    ensures r.1 != Attempted && !ev.Start? ==> r.0.pipe.attempts == e.pipe.attempts
  {
    match ev
    case Start => (StartRun(cfg, e), Nothing)
    case TimerElapsed => TimerStep(cfg, e)
    case AttemptFailed(f) => FailedStep(cfg, e.(pipe := CallbackArrived(e.pipe)), f)
    case AttemptSucceeded(s) => SuccessStep(cfg, e.(pipe := CallbackArrived(e.pipe)), s)
    case OperationThrew(x) => ThrewStep(cfg, e.(pipe := CallbackArrived(e.pipe)), x)
    case ChainCompleted => (e.(pipe := Complete(e.pipe)), Nothing)
    case ChainError(x) => ChainErrorStep(cfg, e, x)
    case StopNow => (StopStep(e), Nothing)
    case OwnerDestroyed => (OwnerDestroyedStep(cfg, e), Nothing)
    case DeliveryTick => DeliveryStep(cfg, e)
  }

  // ---------------------------------------------------------------------
  // Constructing a helper

  /** How the constructor ends. */
  datatype Construction<T> = Constructed(builder: Builder<T>) | Threw(error: Throwable)

  const NullPointer: Throwable := Throwable("java.lang.NullPointerException", "")

  /** The constructor as written: it adopts a non-null builder, but then asks
      the PARAMETER (not the field) whether debugging is on, so a null builder
      throws instead of falling back to the field's default builder. */
  function ConstructAsWritten<T>(given: Builder?<T>): (r: Construction<T>)
    ensures given == null ==> r == Threw(NullPointer)
    ensures given != null ==> r == Constructed(given)
  {
    if given != null then Constructed(given) else Threw(NullPointer)
  }

  /** The constructor as its null check intends: adopt a non-null builder,
      otherwise keep the default one. It never fails. */
  function AdoptedBuilder<T>(given: Builder?<T>, fieldDefault: Builder<T>): (r: Builder<T>)
    ensures given != null ==> r == given
    ensures given == null ==> r == fieldDefault
  {
    if given != null then given else fieldDefault
  }

  /** The two agree except on a null builder, where the written constructor
      throws. */
  lemma ConstructorThrowsOnlyOnNull<T>(given: Builder?<T>, fieldDefault: Builder<T>)
    ensures ConstructAsWritten(given).Threw? <==> given == null
    ensures given != null ==> ConstructAsWritten(given) == Constructed(AdoptedBuilder(given, fieldDefault))
  {
  }

  // ---------------------------------------------------------------------
  // The engine as an object updated in place

  class RetryWhenDoOperationHelper<T, F, S> {
    var builder: Builder<T>
    var retryCount: nat
    var isStopNow: bool
    var disposable: Subscription
    var pipe: Pipe                  // the RxJava chain
    var pending: seq<Final<F, S>>   // callbacks queued on the delivery scheduler
    ghost var delivered: seq<Final<F, S>>

    ghost predicate Valid()
      reads this, builder
    {
      builder.Valid() && Pipeline.Valid(pipe)
    }

    ghost function Model(): Engine<F, S>
      reads this
    {
      Engine(retryCount, isStopNow, disposable, pipe, pending, delivered)
    }

    /** `RetryWhenDoOperationHelper(builder)`, with the null fallback its
        guard intends (see ConstructAsWritten). */
    constructor (given: Builder?<T>)
      requires given != null ==> given.Valid()
      ensures Valid() && Model() == Initial()
      ensures given != null ==> builder == given
      ensures given == null ==> fresh(builder) && builder.Snapshot() == DefaultConfig()
    {
      var fallback := new Builder<T>();
      builder := AdoptedBuilder(given, fallback);
      retryCount := 0;
      isStopNow := false;
      disposable := NoSubscription;
      pipe := Unsubscribed;
      pending := [];
      delivered := [];
    }

    predicate IsCanCallBack()
      reads this, builder
      ensures IsCanCallBack() == CanCallBack(builder.Snapshot(), Model())
    {
      builder.finalCallBack.Some? && !isStopNow
    }

    predicate IsDisposedNow()
      reads this
      ensures IsDisposedNow() == IsDisposed(Model())
    {
      disposable != Live || pipe.emitter != Open
    }

    method DoRetryWhenOperation()
      requires Valid()
      modifies this
      ensures Valid() && builder == old(builder)
      ensures Model() == Step(old(builder.Snapshot()), old(Model()), Start).0
    {
      retryCount := 0;
      isStopNow := false;
      disposable := Live;
      pipe := Subscribe(builder.delayTimeList, builder.delay);
    }

    method OnTimerElapsed() returns (act: Action<F, S>)
      requires Valid()
      modifies this
      ensures Valid() && builder == old(builder)
      ensures (Model(), act) == Step(old(builder.Snapshot()), old(Model()), TimerElapsed)
    {
      var before := pipe.attempts;
      pipe := Pipeline.TimerElapsed(pipe, builder.onDoOperationListener.Some?);
      act := if pipe.attempts > before then Attempted else Nothing;
    }

    method ScheduleOnObserveScheduler(o: Final<F, S>) returns (act: Action<F, S>)
      requires Valid()
      modifies this
      ensures Valid() && builder == old(builder)
      ensures (Model(), act) == ScheduleFinal(old(builder.Snapshot()), old(Model()), o)
    {
      if !IsCanCallBack() {
        return Nothing;
      }
      pending := pending + [o];
      act := Scheduled(o);
    }

    method OnFinalFailed(f: F) returns (act: Action<F, S>)
      requires Valid()
      modifies this
      ensures Valid() && builder == old(builder)
      ensures (Model(), act) == ScheduleFinal(old(builder.Snapshot()), old(Model()), Failed(f))
    {
      act := ScheduleOnObserveScheduler(Failed(f));
    }

    method OnFinalSuccess(s: S) returns (act: Action<F, S>)
      requires Valid()
      modifies this
      ensures Valid() && builder == old(builder)
      ensures (Model(), act) == ScheduleFinal(old(builder.Snapshot()), old(Model()), Succeeded(s))
    {
      act := ScheduleOnObserveScheduler(Succeeded(s));
    }

    method OnFinalError(x: Throwable) returns (act: Action<F, S>)
      requires Valid()
      modifies this
      ensures Valid() && builder == old(builder)
      ensures (Model(), act) == ScheduleFinal(old(builder.Snapshot()), old(Model()), Errored(x))
    {
      act := ScheduleOnObserveScheduler(Errored(x));
    }

    /** The operation reports failure (`onDoOperationFaile`). */
    method OnFailed(f: F) returns (act: Action<F, S>)
      requires Valid()
      modifies this
      ensures Valid() && builder == old(builder)
      ensures (Model(), act) == Step(old(builder.Snapshot()), old(Model()), AttemptFailed(f))
    {
      pipe := CallbackArrived(pipe);
      retryCount := retryCount + 1;
      var isDisposed := IsDisposedNow();
      if retryCount > |builder.delayTimeList| {
        act := OnFinalFailed(f);
        return;
      }
      act := Nothing;
      if !isDisposed {
        var (p, d) := SignalError(pipe);
        pipe := p;
        if d.Some? {
          act := Retry(d.value);
        }
      }
    }

    /** The operation reports success. */
    method OnSuccess(s: S) returns (act: Action<F, S>)
      requires Valid()
      modifies this
      ensures Valid() && builder == old(builder)
      ensures (Model(), act) == Step(old(builder.Snapshot()), old(Model()), AttemptSucceeded(s))
    {
      pipe := CallbackArrived(pipe);
      act := OnFinalSuccess(s);
      if !IsDisposedNow() {
        pipe := Emit(pipe);
      }
    }

    /** Invoking the operation threw `x` (the catch around `doOperation`). */
    method OnDoOperationThrew(x: Throwable) returns (act: Action<F, S>)
      requires Valid()
      modifies this
      ensures Valid() && builder == old(builder)
      ensures (Model(), act) == Step(old(builder.Snapshot()), old(Model()), OperationThrew(x))
    {
      pipe := CallbackArrived(pipe);
      if !IsDisposedNow() {
        var (p, d) := SignalError(pipe);
        pipe := p;
        act := if d.Some? then Retry(d.value) else Nothing;
      } else {
        act := OnFinalError(x);
      }
    }

    method OnChainCompleted()
      requires Valid()
      modifies this
      ensures Valid() && builder == old(builder)
      ensures Model() == Step(old(builder.Snapshot()), old(Model()), ChainCompleted).0
    {
      pipe := Complete(pipe);
    }

    /** The observer's `onError`. */
    method ObserverOnError(x: Throwable) returns (act: Action<F, S>)
      requires Valid()
      modifies this
      ensures Valid() && builder == old(builder)
      ensures (Model(), act) == Step(old(builder.Snapshot()), old(Model()), ChainError(x))
    {
      pipe := Dispose(pipe);
      act := OnFinalError(x);
    }

    method StopNow()
      requires Valid()
      modifies this
      ensures Valid() && builder == old(builder)
      ensures Model() == Step(old(builder.Snapshot()), old(Model()), Event.StopNow).0
      ensures isStopNow && disposable != Live
    {
      if disposable != NoSubscription {
        disposable := Disposed;
        pipe := Dispose(pipe);
      }
      isStopNow := true;
    }

    method OnOwnerDestroyed()
      requires Valid()
      modifies this
      ensures Valid() && builder == old(builder)
      ensures Model() == Step(old(builder.Snapshot()), old(Model()), OwnerDestroyed).0
    {
      if builder.owner.Some? && disposable == Live {
        disposable := Disposed;
        pipe := Dispose(pipe);
      }
    }

    /** The delivery scheduler runs the oldest queued final callback. */
    method OnDeliveryTick() returns (act: Action<F, S>)
      requires Valid()
      modifies this
      ensures Valid() && builder == old(builder)
      ensures (Model(), act) == Step(old(builder.Snapshot()), old(Model()), DeliveryTick)
    {
      if pending == [] {
        return Nothing;
      }
      var o := pending[0];
      pending := pending[1..];
      if IsCanCallBack() {
        delivered := delivered + [o];
        act := Delivered(o);
      } else {
        act := Nothing;
      }
    }
  }

  /** `Builder.build()`: a helper bound to this very builder. */
  method Build<T, F, S>(b: Builder<T>) returns (h: RetryWhenDoOperationHelper<T, F, S>)
    requires b.Valid()
    ensures fresh(h) && h.builder == b && h.Valid() && h.Model() == Initial()
  {
    h := new RetryWhenDoOperationHelper<T, F, S>(b);
  }
}
