/** The earlier retry helper kept in the demo app. It shares the chain of
    module Pipeline with the library, but counts failures itself, hands the
    final result to the observer through `onNext` as an `OnNextResultBean`,
    keeps the final callback and the operation listener behind weak
    references, has no stop switch and always waits in seconds. */
module AppHelper {
  import opened Common
  import opened Pipeline

  /** A `WeakReference` field: never set (null), or set and still holding its
      referent, or set and cleared by the garbage collector. */
  datatype WeakRef = Unset | Set(referent: Option<Ref>)

  /** What the helper finds behind a weak reference field. */
  function Deref(w: WeakRef): (r: Option<Ref>)
    ensures r.Some? <==> w.Set? && w.referent.Some?
  {
    if w.Unset? then None else w.referent
  }

  /** The garbage collector clears the referent; an unset field stays unset. */
  function Cleared(w: WeakRef): (r: WeakRef)
    ensures Deref(r).None? && r.Unset? == w.Unset?
  {
    if w.Unset? then Unset else Set(None)
  }

  /** The nested builder's fields, as one value. */
  datatype AppConfig<T> = AppConfig(
    t: Option<T>,
    finalCallBackWeakRef: WeakRef,
    onDoOperationListenerWeakRef: WeakRef,
    delayTimeList: seq<nat>,   // in seconds
    subscribeOnScheduler: Scheduler,
    observeOnScheduler: Scheduler,
    owner: Option<Ref>)

  ghost predicate ValidConfig<T>(c: AppConfig<T>) {
    |c.delayTimeList| > 0
  }

  /** A fresh builder: retry once after 3 seconds on the io scheduler,
      deliver on the main thread, no callbacks set. */
  function DefaultConfig<T>(): (c: AppConfig<T>)
    ensures ValidConfig(c) && c.delayTimeList == [3]
    ensures c.subscribeOnScheduler == Io && c.observeOnScheduler == MainThread
    ensures c.finalCallBackWeakRef == Unset && c.onDoOperationListenerWeakRef == Unset && c.owner.None?
  {
    AppConfig(None, Unset, Unset, [3], Io, MainThread, None)
  }

  /** The weak reference a null-ignoring callback setter leaves: a new
      reference to a non-null argument, otherwise the current field. */
  function Wrapped(current: WeakRef, candidate: Option<Ref>): (r: WeakRef)
    ensures candidate.Some? ==> r == Set(candidate) && Deref(r) == candidate
    ensures candidate.None? ==> r == current
  {
    if candidate.Some? then Set(candidate) else current
  }

  /** The list `setDelayTimeList` keeps. */
  function AcceptedDelayTimeList(current: seq<nat>, candidate: Option<seq<nat>>): (r: seq<nat>)
    ensures |current| > 0 ==> |r| > 0
    ensures candidate.Some? && |candidate.value| > 0 ==> r == candidate.value
    ensures candidate.None? || candidate.value == [] ==> r == current
  {
    if candidate.Some? && |candidate.value| > 0 then candidate.value else current
  }

  class Builder<T> {
    var t: Option<T>
    var finalCallBackWeakRef: WeakRef
    var onDoOperationListenerWeakRef: WeakRef
    var delayTimeList: seq<nat>
    var subscribeOnScheduler: Scheduler
    var observeOnScheduler: Scheduler
    var owner: Option<Ref>

    ghost predicate Valid()
      reads this
    {
      |delayTimeList| > 0
    }

    function Snapshot(): (c: AppConfig<T>)
      reads this
      ensures Valid() ==> ValidConfig(c)
    {
      AppConfig(t, finalCallBackWeakRef, onDoOperationListenerWeakRef, delayTimeList,
                subscribeOnScheduler, observeOnScheduler, owner)
    }

    constructor ()
      ensures Valid() && Snapshot() == DefaultConfig()
    {
      t := None;
      finalCallBackWeakRef := Unset;
      onDoOperationListenerWeakRef := Unset;
      delayTimeList := [3];
      subscribeOnScheduler := Io;
      observeOnScheduler := MainThread;
      owner := None;
    }

    method SetSubscribeOnScheduler(scheduler: Option<Scheduler>) returns (b: Builder<T>)
      requires Valid()
      modifies this
      ensures Valid() && b == this
      ensures Snapshot() == old(Snapshot()).(subscribeOnScheduler :=
                if scheduler.Some? then scheduler.value else old(subscribeOnScheduler))
    {
      if scheduler.Some? {
        subscribeOnScheduler := scheduler.value;
      }
      b := this;
    }

    method SetObserveOnScheduler(scheduler: Option<Scheduler>) returns (b: Builder<T>)
      requires Valid()
      modifies this
      ensures Valid() && b == this
      ensures Snapshot() == old(Snapshot()).(observeOnScheduler :=
                if scheduler.Some? then scheduler.value else old(observeOnScheduler))
    {
      if scheduler.Some? {
        observeOnScheduler := scheduler.value;
      }
      b := this;
    }

    method SetOwner(o: Option<Ref>) returns (b: Builder<T>)
      requires Valid()
      modifies this
      ensures Valid() && b == this
      ensures Snapshot() == old(Snapshot()).(owner := o)
    {
      owner := o;
      b := this;
    }

    method SetParam(param: Option<T>) returns (b: Builder<T>)
      requires Valid()
      modifies this
      ensures Valid() && b == this
      ensures Snapshot() == old(Snapshot()).(t := param)
    {
      t := param;
      b := this;
    }

    method SetDelayTimeList(list: Option<seq<nat>>) returns (b: Builder<T>)
      requires Valid()
      modifies this
      ensures Valid() && b == this
      ensures Snapshot() == old(Snapshot()).(delayTimeList := AcceptedDelayTimeList(old(delayTimeList), list))
    {
      if list.Some? && |list.value| > 0 {
        delayTimeList := list.value;
      }
      b := this;
    }

    /** Unlike the library's, this setter ignores null. */
    method SetFinalCallBack(callBack: Option<Ref>) returns (b: Builder<T>)
      requires Valid()
      modifies this
      ensures Valid() && b == this
      ensures Snapshot() == old(Snapshot()).(finalCallBackWeakRef := Wrapped(old(finalCallBackWeakRef), callBack))
    {
      if callBack.Some? {
        finalCallBackWeakRef := Set(callBack);
      }
      b := this;
    }

    /** Unlike the library's, this setter ignores null. */
    method SetOnDoOperationListener(listener: Option<Ref>) returns (b: Builder<T>)
      requires Valid()
      modifies this
      ensures Valid() && b == this
      ensures Snapshot() == old(Snapshot()).(onDoOperationListenerWeakRef :=
                Wrapped(old(onDoOperationListenerWeakRef), listener))
    {
      if listener.Some? {
        onDoOperationListenerWeakRef := Set(listener);
      }
      b := this;
    }
  }

  // ---------------------------------------------------------------------
  // The engine

  /** The `r` an `OnNextResultBean` carries: the failed or the success bean. */
  datatype Payload<F, S> = FailedBean(f: F) | SuccessBean(s: S)

  /** `OnNextResultBean<R>`: whether the operation succeeded, and its result. */
  datatype OnNextResultBean<R> = OnNextResultBean(isSuccessed: bool, r: R)

  /** A call of the final callback. */
  datatype Invocation<R> = OnSuccess(r: R) | OnFailed(r: R)

  /** The helper's state: the configuration, the counter, the chain, the
      results queued on the observe-on scheduler and not yet seen by the
      observer, and the final callbacks made. */
  datatype AppEngine<T, F, S> = AppEngine(
    cfg: AppConfig<T>,
    count: nat,
    pipe: Pipe,
    inbox: seq<OnNextResultBean<Payload<F, S>>>,
    delivered: seq<Invocation<Payload<F, S>>>)

  datatype AppEvent<F, S> =
    | Start
    | TimerElapsed
    | AttemptFailed(f: F)
    | AttemptSucceeded(s: S)
    | ChainCompleted
    | OwnerDestroyed
    | DeliveryTick
    | FinalCallBackCollected   // the garbage collector clears the final callback
    | ListenerCollected        // the garbage collector clears the operation listener

  datatype AppAction<F, S> =
    | Nothing
    | Attempted
    | Retry(delay: nat)
    | Emitted(bean: OnNextResultBean<Payload<F, S>>)  // `onNext` on a live emitter
    | Undeliverable                                   // `onError` on a disposed emitter
    | Delivered(call: Invocation<Payload<F, S>>)

  ghost predicate ValidEngine<T, F, S>(e: AppEngine<T, F, S>) {
    Pipeline.Valid(e.pipe)
  }

  function Initial<T, F, S>(cfg: AppConfig<T>): AppEngine<T, F, S> {
    AppEngine(cfg, 0, Unsubscribed, [], [])
  }

  /** `doOperation` finds a listener behind its weak reference. */
  predicate ListenerAlive<T>(cfg: AppConfig<T>) {
    Deref(cfg.onDoOperationListenerWeakRef).Some?
  }

  /** The observer's `onNext`: nothing without a final callback (unset or
      collected), otherwise `onSuccess` or `onFailed` as the bean says. */
  function Route<R>(bean: OnNextResultBean<R>, finalCallBack: WeakRef): (r: Option<Invocation<R>>)
    ensures r.Some? <==> Deref(finalCallBack).Some?
    ensures r.Some? ==> r.value.r == bean.r && (r.value.OnSuccess? <==> bean.isSuccessed)
  {
    if finalCallBack.Unset? || finalCallBack.referent.None? then None
    else if bean.isSuccessed then Some(OnSuccess(bean.r))
    else Some(OnFailed(bean.r))
  }

  /** `doRetryWhenOperation()`: reset the counter and subscribe; the first
      attempt starts at once. */
  function StartRun<T, F, S>(e: AppEngine<T, F, S>): (r: (AppEngine<T, F, S>, AppAction<F, S>))
    ensures r.0.count == 0 && r.0.pipe.schedule == e.cfg.delayTimeList && r.0.pipe.zipped == 0
    ensures r.0.pipe.phase == Attempting && r.0.pipe.emitter == Open
    ensures r.0.pipe.attempts == (if ListenerAlive(e.cfg) then 1 else 0)
    ensures r.1 == (if ListenerAlive(e.cfg) then Attempted else Nothing)
    ensures r.0.inbox == e.inbox && r.0.delivered == e.delivered && r.0.cfg == e.cfg
  {
    var alive := ListenerAlive(e.cfg);
    (e.(count := 0, pipe := BeginAttempt(Subscribe(e.cfg.delayTimeList, 0), alive)),
     if alive then Attempted else Nothing)
  }

  /** A retry timer fires and the operation runs again if its listener is
      still there. */
  function TimerStep<T, F, S>(e: AppEngine<T, F, S>): (r: (AppEngine<T, F, S>, AppAction<F, S>))
    ensures r.1 == Attempted <==> (e.pipe.phase.InitialWait? || e.pipe.phase.RetryWait?) && ListenerAlive(e.cfg)
    ensures r.1 != Attempted ==> r.1 == Nothing
    ensures r.0 == e.(pipe := r.0.pipe) && r.0.pipe.zipped == e.pipe.zipped
  {
    var p := Pipeline.TimerElapsed(e.pipe, ListenerAlive(e.cfg));
    (e.(pipe := p), if p.attempts > e.pipe.attempts then Attempted else Nothing)
  }

  /** `emitter.onNext(bean); emitter.onComplete()`: on a live emitter the bean
      is queued for the observer and the chain ends; on a disposed one both
      are dropped. */
  function EmitResult<T, F, S>(e: AppEngine<T, F, S>, bean: OnNextResultBean<Payload<F, S>>): (r: (AppEngine<T, F, S>, AppAction<F, S>))
    ensures e.pipe.emitter == Open ==> r.1 == Emitted(bean) && r.0.inbox == e.inbox + [bean]
                                       && r.0.pipe.phase == Finished && r.0.pipe.emitter == Closed
    ensures e.pipe.emitter != Open ==> r == (e, Nothing)
    ensures r.0.count == e.count && r.0.delivered == e.delivered && r.0.cfg == e.cfg
  {
    if e.pipe.emitter == Open then (e.(pipe := Emit(e.pipe), inbox := e.inbox + [bean]), Emitted(bean))
    else (e, Nothing)
  }

  /** The per-attempt `onFailed`: count the failure; past the end of the
      delay list emit the failed result, otherwise signal an error so the
      chain retries. The error reaches RxJava's global handler when the
      emitter is already disposed. */
  function FailedStep<T, F, S>(e: AppEngine<T, F, S>, f: F): (r: (AppEngine<T, F, S>, AppAction<F, S>))
    requires ValidEngine(e)
    ensures e.pipe.emitter == Absent ==> r == (e, Nothing)
    ensures e.pipe.emitter != Absent ==> r.0.count == e.count + 1
    ensures r.1.Emitted? <==> e.pipe.emitter == Open && e.count + 1 > |e.cfg.delayTimeList|
    ensures r.1.Emitted? ==> r.1.bean == OnNextResultBean(false, FailedBean(f))
    ensures r.1.Retry? <==> e.pipe.emitter == Open && e.count + 1 <= |e.cfg.delayTimeList| && e.pipe.zipped < |e.pipe.schedule|
    ensures r.1.Retry? ==> r.1.delay == e.pipe.schedule[e.pipe.zipped]
    ensures r.1 == Undeliverable <==> e.pipe.emitter == Closed && e.count + 1 <= |e.cfg.delayTimeList|
    ensures !r.1.Emitted? ==> r.0.inbox == e.inbox
    ensures r.0.delivered == e.delivered && r.0.cfg == e.cfg
  {
    if e.pipe.emitter == Absent then (e, Nothing)
    else
      var e1 := e.(count := e.count + 1);
      if e1.count > |e.cfg.delayTimeList| then EmitResult(e1, OnNextResultBean(false, FailedBean(f)))
      else if e1.pipe.emitter == Open then
        var (p, d) := SignalError(e1.pipe);
        (e1.(pipe := p), if d.Some? then Retry(d.value) else Nothing)
      else
        assert e1.pipe.emitter == Closed;
        (e1, Undeliverable)
  }

  /** The per-attempt `onSuccess`: emit the successful result. */
  function SuccessStep<T, F, S>(e: AppEngine<T, F, S>, s: S): (r: (AppEngine<T, F, S>, AppAction<F, S>))
    ensures e.pipe.emitter == Open ==> r.1 == Emitted(OnNextResultBean(true, SuccessBean(s)))
    ensures e.pipe.emitter != Open ==> r == (e, Nothing)
    ensures r.0.count == e.count
  {
    if e.pipe.emitter == Absent then (e, Nothing)
    else EmitResult(e, OnNextResultBean(true, SuccessBean(s)))
  }

  /** The owner's lifecycle ends: AutoDispose disposes the chain, and the
      observe-on queue drops the results not yet delivered. */
  function OwnerDestroyedStep<T, F, S>(e: AppEngine<T, F, S>): (r: AppEngine<T, F, S>)
    ensures e.cfg.owner.Some? ==> r.inbox == [] && r.pipe.emitter != Open
    ensures e.cfg.owner.None? ==> r == e
    ensures r.delivered == e.delivered && r.count == e.count
  {
    if e.cfg.owner.Some? then e.(pipe := Dispose(e.pipe), inbox := []) else e
  }

  /** The observer's `onNext` runs for the oldest queued result. */
  function DeliveryStep<T, F, S>(e: AppEngine<T, F, S>): (r: (AppEngine<T, F, S>, AppAction<F, S>))
    ensures r.1.Delivered? <==> e.inbox != [] && Deref(e.cfg.finalCallBackWeakRef).Some?
    ensures r.1.Delivered? ==> Some(r.1.call) == Route(e.inbox[0], e.cfg.finalCallBackWeakRef)
                               && r.0.delivered == e.delivered + [r.1.call]
    ensures !r.1.Delivered? ==> r.1 == Nothing && r.0.delivered == e.delivered
    ensures r.0.inbox == if e.inbox == [] then [] else e.inbox[1..]
    ensures r.0 == e.(inbox := r.0.inbox, delivered := r.0.delivered)
  {
    if e.inbox == [] then (e, Nothing)
    else
      var e1 := e.(inbox := e.inbox[1..]);
      match Route(e.inbox[0], e.cfg.finalCallBackWeakRef)
      case None => (e1, Nothing)
      case Some(call) => (e1.(delivered := e1.delivered + [call]), Delivered(call))
  }

  /** The helper's reaction to one event. */
  function Step<T, F, S>(e: AppEngine<T, F, S>, ev: AppEvent<F, S>): (r: (AppEngine<T, F, S>, AppAction<F, S>))
    requires ValidEngine(e)
    ensures ValidEngine(r.0)
    ensures !ev.DeliveryTick? ==> r.0.delivered == e.delivered
    ensures r.1.Delivered? ==> Deref(e.cfg.finalCallBackWeakRef).Some?
    ensures r.1 == Attempted ==> ListenerAlive(e.cfg)
    ensures !ev.Start? ==> r.0.pipe.attempts == e.pipe.attempts + (if r.1 == Attempted then 1 else 0)
  {
    match ev
    case Start => StartRun(e)
    case TimerElapsed => TimerStep(e)
    case AttemptFailed(f) => FailedStep(e.(pipe := CallbackArrived(e.pipe)), f)
    case AttemptSucceeded(s) => SuccessStep(e.(pipe := CallbackArrived(e.pipe)), s)
    case ChainCompleted => (e.(pipe := Complete(e.pipe)), Nothing)
    case OwnerDestroyed => (OwnerDestroyedStep(e), Nothing)
    case DeliveryTick => DeliveryStep(e)
    case FinalCallBackCollected =>
      (e.(cfg := e.cfg.(finalCallBackWeakRef := Cleared(e.cfg.finalCallBackWeakRef))), Nothing)
    case ListenerCollected =>
      (e.(cfg := e.cfg.(onDoOperationListenerWeakRef := Cleared(e.cfg.onDoOperationListenerWeakRef))), Nothing)
  }

  // ---------------------------------------------------------------------
  // The helper as an object updated in place

  class RetryWhenDoOperationHelper<T, F, S> {
    var builder: Builder<T>
    var count: nat                  // the AtomicInteger
    var pipe: Pipe
    var inbox: seq<OnNextResultBean<Payload<F, S>>>
    ghost var delivered: seq<Invocation<Payload<F, S>>>

    ghost predicate Valid()
      reads this, builder
    {
      builder.Valid() && Pipeline.Valid(pipe)
    }

    ghost function Model(): AppEngine<T, F, S>
      reads this, builder
    {
      AppEngine(builder.Snapshot(), count, pipe, inbox, delivered)
    }

    /** The private constructor keeps its default builder when given null. */
    constructor (given: Builder?<T>)
      requires given != null ==> given.Valid()
      ensures Valid() && Model() == Initial(builder.Snapshot())
      ensures given != null ==> builder == given
      ensures given == null ==> fresh(builder) && builder.Snapshot() == DefaultConfig()
    {
      if given != null {
        builder := given;
      } else {
        builder := new Builder<T>();
      }
      count := 0;
      pipe := Unsubscribed;
      inbox := [];
      delivered := [];
    }

    method DoRetryWhenOperation() returns (act: AppAction<F, S>)
      requires Valid()
      modifies this
      ensures Valid() && builder == old(builder)
      ensures (Model(), act) == Step(old(Model()), Start)
    {
      count := 0;
      var alive := Deref(builder.onDoOperationListenerWeakRef).Some?;
      pipe := BeginAttempt(Subscribe(builder.delayTimeList, 0), alive);
      act := if alive then Attempted else Nothing;
    }

    method OnTimerElapsed() returns (act: AppAction<F, S>)
      requires Valid()
      modifies this
      ensures Valid() && builder == old(builder)
      ensures (Model(), act) == Step(old(Model()), TimerElapsed)
    {
      var before := pipe.attempts;
      pipe := Pipeline.TimerElapsed(pipe, Deref(builder.onDoOperationListenerWeakRef).Some?);
      act := if pipe.attempts > before then Attempted else Nothing;
    }

    method EmitOnNext(bean: OnNextResultBean<Payload<F, S>>) returns (act: AppAction<F, S>)
      requires Valid()
      modifies this
      ensures Valid() && builder == old(builder)
      ensures (Model(), act) == EmitResult(old(Model()), bean)
    {
      if pipe.emitter == Open {
        pipe := Emit(pipe);
        inbox := inbox + [bean];
        act := Emitted(bean);
      } else {
        act := Nothing;
      }
    }

    /** The per-attempt callback's `onFailed`. */
    method OnFailed(f: F) returns (act: AppAction<F, S>)
      requires Valid()
      modifies this
      ensures Valid() && builder == old(builder)
      ensures (Model(), act) == Step(old(Model()), AttemptFailed(f))
    {
      pipe := CallbackArrived(pipe);
      if pipe.emitter == Absent {
        return Nothing;
      }
      count := count + 1;
      if count > |builder.delayTimeList| {
        act := EmitOnNext(OnNextResultBean(false, FailedBean(f)));
        return;
      }
      if pipe.emitter == Open {
        var (p, d) := SignalError(pipe);
        pipe := p;
        act := if d.Some? then Retry(d.value) else Nothing;
      } else {
        act := Undeliverable;
      }
    }

    /** The per-attempt callback's `onSuccess`. */
    method OnSuccess(s: S) returns (act: AppAction<F, S>)
      requires Valid()
      modifies this
      ensures Valid() && builder == old(builder)
      ensures (Model(), act) == Step(old(Model()), AttemptSucceeded(s))
    {
      pipe := CallbackArrived(pipe);
      if pipe.emitter == Absent {
        return Nothing;
      }
      act := EmitOnNext(OnNextResultBean(true, SuccessBean(s)));
    }

    method OnChainCompleted()
      requires Valid()
      modifies this
      ensures Valid() && builder == old(builder)
      ensures Model() == Step(old(Model()), ChainCompleted).0
    {
      pipe := Complete(pipe);
    }

    method OnOwnerDestroyed()
      requires Valid()
      modifies this
      ensures Valid() && builder == old(builder)
      ensures Model() == Step(old(Model()), OwnerDestroyed).0
    {
      if builder.owner.Some? {
        pipe := Dispose(pipe);
        inbox := [];
      }
    }

    /** The observer's `onNext` for the oldest queued result. */
    method OnNext() returns (act: AppAction<F, S>)
      requires Valid()
      modifies this
      ensures Valid() && builder == old(builder)
      ensures (Model(), act) == Step(old(Model()), DeliveryTick)
    {
      if inbox == [] {
        return Nothing;
      }
      var bean := inbox[0];
      inbox := inbox[1..];
      var call := Route(bean, builder.finalCallBackWeakRef);
      if call.Some? {
        delivered := delivered + [call.value];
        act := Delivered(call.value);
      } else {
        act := Nothing;
      }
    }

    /** The garbage collector clears the final callback's referent. */
    method CollectFinalCallBack()
      requires Valid()
      modifies builder
      ensures Valid()
      ensures Model() == Step(old(Model()), FinalCallBackCollected).0
    {
      builder.finalCallBackWeakRef := Cleared(builder.finalCallBackWeakRef);
    }

    /** The garbage collector clears the operation listener's referent. */
    method CollectListener()
      requires Valid()
      modifies builder
      ensures Valid()
      ensures Model() == Step(old(Model()), ListenerCollected).0
    {
      builder.onDoOperationListenerWeakRef := Cleared(builder.onDoOperationListenerWeakRef);
    }
  }

  /** `Builder.build()`. */
  method Build<T, F, S>(b: Builder<T>) returns (h: RetryWhenDoOperationHelper<T, F, S>)
    requires b.Valid()
    ensures fresh(h) && h.builder == b && h.Valid() && h.Model() == Initial(b.Snapshot())
  {
    h := new RetryWhenDoOperationHelper<T, F, S>(b);
  }
}
