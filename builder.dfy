/** The library's fluent configuration object (`Builder`). Its setters never
    throw: the delay list and the two schedulers ignore null (and the list
    also an empty list), every other setter assigns what it is given. */
module LibraryBuilder {
  import opened Common

  /** Everything the getters report, as one value. Java `null` is `None`. */
  datatype Config<T> = Config(
    param: Option<T>,
    finalCallBack: Option<Ref>,
    onDoOperationListener: Option<Ref>,
    delayTimeList: seq<nat>,
    subscribeOnScheduler: Scheduler,
    observeOnScheduler: Scheduler,
    owner: Option<Ref>,
    isDebug: bool,
    delay: nat,       // initial delay, always in seconds
    unit: TimeUnit)   // unit of the retry delays

  /** A configuration the engine can run with: at least one retry delay. */
  ghost predicate ValidConfig<T>(c: Config<T>) {
    |c.delayTimeList| > 0
  }

  /** The configuration of a fresh builder: retry once after 3 units, run on
      the io scheduler, call back on the main thread, no initial delay. */
  function DefaultConfig<T>(): (c: Config<T>)
    ensures ValidConfig(c)
    ensures c.delayTimeList == [3] && c.delay == 0 && c.unit == Seconds
    ensures c.subscribeOnScheduler == Io && c.observeOnScheduler == MainThread
    ensures c.finalCallBack.None? && c.onDoOperationListener.None? && c.owner.None? && c.param.None?
  {
    Config(None, None, None, [3], Io, MainThread, None, false, 0, Seconds)
  }

  /** The list `setDelayTimeList` keeps: the candidate when it is non-null and
      non-empty, otherwise the current one. */
  function AcceptedDelayTimeList(current: seq<nat>, candidate: Option<seq<nat>>): (r: seq<nat>)
    ensures |current| > 0 ==> |r| > 0
    ensures r == current || (candidate == Some(r) && |r| > 0)
    ensures candidate.Some? && |candidate.value| > 0 ==> r == candidate.value
  {
    if candidate.Some? && |candidate.value| > 0 then candidate.value else current
  }

  /** The scheduler a guarded scheduler setter keeps. */
  function AcceptedScheduler(current: Scheduler, candidate: Option<Scheduler>): (r: Scheduler)
    ensures r == current || candidate == Some(r)
    ensures candidate.Some? ==> r == candidate.value
  {
    if candidate.Some? then candidate.value else current
  }

  class Builder<T> {
    var t: Option<T>
    var finalCallBack: Option<Ref>
    var onDoOperationListener: Option<Ref>
    var delayTimeList: seq<nat>
    var subscribeOnScheduler: Scheduler
    var observeOnScheduler: Scheduler
    var owner: Option<Ref>
    var isDebug: bool
    var delay: nat
    var unit: TimeUnit

    ghost predicate Valid()
      reads this
    {
      |delayTimeList| > 0
    }

    /** What the getters return, together. */
    function Snapshot(): (c: Config<T>)
      reads this
      ensures Valid() ==> ValidConfig(c)
    {
      Config(t, finalCallBack, onDoOperationListener, delayTimeList, subscribeOnScheduler,
             observeOnScheduler, owner, isDebug, delay, unit)
    }

    constructor ()
      ensures Valid() && Snapshot() == DefaultConfig()
    {
      t := None;
      finalCallBack := None;
      onDoOperationListener := None;
      delayTimeList := [3];
      subscribeOnScheduler := Io;
      observeOnScheduler := MainThread;
      owner := None;
      isDebug := false;
      delay := 0;
      unit := Seconds;
    }

    function GetT(): Option<T> reads this { t }
    function GetFinalCallBack(): Option<Ref> reads this { finalCallBack }
    function GetOnDoOperationListener(): Option<Ref> reads this { onDoOperationListener }
    function GetDelayTimeList(): seq<nat> reads this { delayTimeList }
    function GetSubscribeOnScheduler(): Scheduler reads this { subscribeOnScheduler }
    function GetObserveOnScheduler(): Scheduler reads this { observeOnScheduler }
    function GetOwner(): Option<Ref> reads this { owner }
    function IsDebug(): bool reads this { isDebug }
    function GetDelay(): nat reads this { delay }
    function GetUnit(): TimeUnit reads this { unit }

    method SetSubscribeOnScheduler(scheduler: Option<Scheduler>) returns (b: Builder<T>)
      requires Valid()
      modifies this
      ensures Valid() && b == this
      ensures Snapshot() == old(Snapshot()).(subscribeOnScheduler :=
                AcceptedScheduler(old(subscribeOnScheduler), scheduler))
    {
      if scheduler.Some? {
        subscribeOnScheduler := scheduler.value;
      }
      b := this;
    }

    method SetObserveOnScheduler(scheduler: Option<Scheduler>) returns (b: Builder<T>)
      requires Valid()
      modifies this
      ensures Valid() && b == this
      ensures Snapshot() == old(Snapshot()).(observeOnScheduler :=
                AcceptedScheduler(old(observeOnScheduler), scheduler))
    {
      if scheduler.Some? {
        observeOnScheduler := scheduler.value;
      }
      b := this;
    }

    method SetOwner(o: Option<Ref>) returns (b: Builder<T>)
      requires Valid()
      modifies this
      ensures Valid() && b == this
      ensures Snapshot() == old(Snapshot()).(owner := o)
    {
      owner := o;
      b := this;
    }

    method SetParam(param: Option<T>) returns (b: Builder<T>)
      requires Valid()
      modifies this
      ensures Valid() && b == this
      ensures Snapshot() == old(Snapshot()).(param := param)
    {
      t := param;
      b := this;
    }

    method SetDelayTimeList(list: Option<seq<nat>>) returns (b: Builder<T>)
      requires Valid()
      modifies this
      ensures Valid() && b == this
      ensures Snapshot() == old(Snapshot()).(delayTimeList :=
                AcceptedDelayTimeList(old(delayTimeList), list))
    {
      if list.Some? && |list.value| > 0 {
        delayTimeList := list.value;
      }
      b := this;
    }

    method SetFinalCallBack(callBack: Option<Ref>) returns (b: Builder<T>)
      requires Valid()
      modifies this
      ensures Valid() && b == this
      ensures Snapshot() == old(Snapshot()).(finalCallBack := callBack)
    {
      finalCallBack := callBack;
      b := this;
    }

    method SetOnDoOperationListener(listener: Option<Ref>) returns (b: Builder<T>)
      requires Valid()
      modifies this
      ensures Valid() && b == this
      ensures Snapshot() == old(Snapshot()).(onDoOperationListener := listener)
    {
      onDoOperationListener := listener;
      b := this;
    }

    method SetIsDebug(debug: bool) returns (b: Builder<T>)
      requires Valid()
      modifies this
      ensures Valid() && b == this
      ensures Snapshot() == old(Snapshot()).(isDebug := debug)
    {
      isDebug := debug;
      b := this;
    }

    method SetDelay(initialDelay: nat) returns (b: Builder<T>)
      requires Valid()
      modifies this
      ensures Valid() && b == this
      ensures Snapshot() == old(Snapshot()).(delay := initialDelay)
    {
      delay := initialDelay;
      b := this;
    }

    method SetUnit(timeUnit: TimeUnit) returns (b: Builder<T>)
      requires Valid()
      modifies this
      ensures Valid() && b == this
      ensures Snapshot() == old(Snapshot()).(unit := timeUnit)
    {
      unit := timeUnit;
      b := this;
    }
  }

}
