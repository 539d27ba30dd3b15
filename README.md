# RetryWhenDemo retry helper, modelled in Dafny

RetryWhenDemo wraps a caller-supplied asynchronous operation in an RxJava
`retryWhen` chain. A failed attempt is retried after the next entry of a
delay list. Once the list is used up, the last failure is final, and the
outcome goes to a final callback. There are two versions, and both are
modelled:

* The library's `RetryWhenDoOperationHelper` and its `Builder`, in modules
  `LibraryBuilder`, `LibraryHelper` and `LibraryTraces`. Its state is:
  * a retry counter;
  * a stop flag;
  * the subscription handle;
  * the RxJava chain;
  * the final callbacks queued on the observe-on scheduler.

  Each reaction to an event is first a function on an `Engine` value. It is
  then a method of the class `LibraryHelper.RetryWhenDoOperationHelper`,
  which updates the fields in place. Each method is proved equal to that
  function.
* The demo app's earlier `RetryWhenDoOperationHelper` and its nested
  `Builder`, in modules `AppHelper` and `AppTraces`. It differs from the
  library as follows:
  * It counts with its own counter.
  * It delivers the result through `onNext` as an `OnNextResultBean`.
  * It holds its callbacks behind weak references, which the garbage
    collector may clear at any step.
  * It has no stop switch.

The RxJava chain itself is modelled in module `Pipeline`: `Observable.create`
/ `retryWhen` / `zipWith(delayTimeList)` / `timer`. It is reduced to:
* the schedule;
* how many errors were zipped with it;
* a phase;
* the state of the current emitter;
* whether an attempt is still to report;
* the number of attempts.

Timers firing, the chain completing and the delivery scheduler running are
explicit events chosen by the environment. A trace is a sequence of events,
and `Run` folds the step function over it.

What is proved, for both helpers:
* **Delays in order.** The retries of a run wait exactly the entries of the
  delay list, in order and one per retry. So there are at most
  |delayTimeList| retries and at most |delayTimeList| + 1 attempts.
* **Permanent failure.** A permanently failing operation is attempted
  |delayTimeList| + 1 times and its last failure reaches the final
  callback. An operation that succeeds on attempt k + 1 delivers the
  success after the first k delays.
* **At most one final callback per run.** A run started with nothing queued
  calls the final callback at most once. This is proved only for runs with
  no restart and no `onError` reaching the observer, where the operation
  reports once per attempt.
* **Gates.**
  * Library: after `stopNow()`, nothing is queued or delivered until the
    next start. `stopNow()` is idempotent. Without a final callback or an operation listener,
    nothing is delivered or attempted.
  * App: the same holds when the weak references are unset or cleared. The
    observer routes success results to `onSuccess` and failures to
    `onFailed`.

Where the code does something other than its comments and method names
suggest, the model follows the code:
* The owner's destruction only disposes the subscription
  (retrywhendo/.../RetryWhenDoOperationHelper.java:105-119). It does not
  act as `stopNow()`: a running attempt that then succeeds is still
  delivered (`LibraryTraces.OwnerDestructionKeepsLateSuccess`).
* The stop flag is never set by a terminal delivery. It is cleared by every
  start, so a callback queued before `stopNow()` is delivered after a
  restart (`LibraryTraces.RestartRevivesQueuedCallback`).
* `setDelayTimeList` rejects only a null or empty list. Individual entries
  are not checked.
* An exception thrown while invoking the operation is retried when the
  emitter is live (:75-78). It is final only on a disposed emitter. Such an
  exception uses up a delay without being counted, so the last failure can
  be lost (`LibraryTraces.ThrowThenFailureIsNeverReported`).

## Model

| member | source | states |
|---|---|---|
| Pipeline.Subscribe | retrywhendo/src/main/java/com/hero/retrywhendo/RetryWhenDoOperationHelper.java:84-101 | a new chain has paired no error with the delay list, made no attempt and has no emitter yet |
| Pipeline.BeginAttempt | retrywhendo/src/main/java/com/hero/retrywhendo/RetryWhenDoOperationHelper.java:164-173 | each attempt gets a fresh open emitter; it counts as an attempt only when a listener is there to run the operation |
| Pipeline.TimerElapsed | retrywhendo/src/main/java/com/hero/retrywhendo/RetryWhenDoOperationHelper.java:84-101 | only a pending start-up or retry timer starts an attempt; in any other phase nothing changes |
| Pipeline.SignalError | retrywhendo/src/main/java/com/hero/retrywhendo/RetryWhenDoOperationHelper.java:84-92 | an error on an open emitter is paired with the next unused delay, in list order, and a retry waits exactly that delay; with the list used up no delay is returned; a closed emitter drops the error and nothing changes |
| Pipeline.Emit | retrywhendo/src/main/java/com/hero/retrywhendo/RetryWhenDoOperationHelper.java:195-201 | `onNext` then `onComplete` closes the emitter and finishes the chain without touching the schedule or the counts |
| Pipeline.Complete | retrywhendo/src/main/java/com/hero/retrywhendo/RetryWhenDoOperationHelper.java:84-92 | once every delay has been paired and an attempt is running, the chain completes and the last attempt's emitter is no longer open; otherwise nothing changes |
| Pipeline.Dispose | retrywhendo/src/main/java/com/hero/retrywhendo/RetryWhenDoOperationHelper.java:304-307 | disposing closes the emitter and ends a subscribed chain; an attempt already running may still report, and no attempt is added |
| Pipeline.CallbackArrived | retrywhendo/src/main/java/com/hero/retrywhendo/RetryWhenDoOperationHelper.java:173-203 | a report from the running attempt keeps the schedule bound and the pairing of attempts with delays, and breaks neither |
| LibraryBuilder.DefaultConfig | retrywhendo/src/main/java/com/hero/retrywhendo/Builder.java:39-57 | a fresh builder has the defaults these lines declare: the delay list [3], the io scheduler, delivery on the main thread, and no callback, listener, owner or parameter (the debug, initial-delay and unit defaults are assumed, see Left out) |
| LibraryBuilder.AcceptedDelayTimeList | retrywhendo/src/main/java/com/hero/retrywhendo/Builder.java:111-116 | a non-null non-empty list replaces the current one, anything else keeps it, and the kept list is never empty |
| LibraryBuilder.AcceptedScheduler | retrywhendo/src/main/java/com/hero/retrywhendo/Builder.java:87-99 | a non-null scheduler replaces the current one, null keeps it |
| LibraryBuilder.Builder.Snapshot | retrywhendo/src/main/java/com/hero/retrywhendo/Builder.java:59-85 | the getters together report a configuration with a non-empty delay list |
| LibraryBuilder.Builder.constructor | retrywhendo/src/main/java/com/hero/retrywhendo/Builder.java:42-57 | a new builder holds the default configuration |
| LibraryBuilder.Builder.SetSubscribeOnScheduler | retrywhendo/src/main/java/com/hero/retrywhendo/Builder.java:87-92 | changes only the subscribe-on scheduler, ignores null, returns the same builder |
| LibraryBuilder.Builder.SetObserveOnScheduler | retrywhendo/src/main/java/com/hero/retrywhendo/Builder.java:94-99 | changes only the observe-on scheduler, ignores null, returns the same builder |
| LibraryBuilder.Builder.SetOwner | retrywhendo/src/main/java/com/hero/retrywhendo/Builder.java:101-104 | sets the owner, null included, and nothing else; returns the same builder |
| LibraryBuilder.Builder.SetParam | retrywhendo/src/main/java/com/hero/retrywhendo/Builder.java:106-109 | sets the parameter, null included, and nothing else; returns the same builder |
| LibraryBuilder.Builder.SetDelayTimeList | retrywhendo/src/main/java/com/hero/retrywhendo/Builder.java:111-116 | replaces the list only by a non-null non-empty one and changes nothing else; returns the same builder |
| LibraryBuilder.Builder.SetFinalCallBack | retrywhendo/src/main/java/com/hero/retrywhendo/Builder.java:118-121 | sets the final callback, null included, and nothing else; returns the same builder |
| LibraryBuilder.Builder.SetOnDoOperationListener | retrywhendo/src/main/java/com/hero/retrywhendo/Builder.java:123-126 | sets the operation listener, null included, and nothing else; returns the same builder |
| LibraryBuilder.Builder.SetIsDebug | app/src/main/java/com/hero/retrywhendemo/FirstActivity.java:62 | sets the debug flag the helper reads, and nothing else |
| LibraryBuilder.Builder.SetDelay | app/src/main/java/com/hero/retrywhendemo/FirstActivity.java:63-64 | sets the initial delay (seconds, default 0), and nothing else |
| LibraryBuilder.Builder.SetUnit | app/src/main/java/com/hero/retrywhendemo/FirstActivity.java:69-70 | sets the unit of the retry delays, and nothing else |
| LibraryHelper.StartRun | retrywhendo/src/main/java/com/hero/retrywhendo/RetryWhenDoOperationHelper.java:62-101 | a start resets the counter to 0 and clears the stop flag, subscribes a new chain over the configured list that first waits the initial delay, and leaves already-queued callbacks queued |
| LibraryHelper.TimerStep | retrywhendo/src/main/java/com/hero/retrywhendo/RetryWhenDoOperationHelper.java:164-171 | the operation is invoked exactly when a pending timer fires and a listener is configured; counter, flag and queues are unchanged |
| LibraryHelper.ScheduleFinal | retrywhendo/src/main/java/com/hero/retrywhendo/RetryWhenDoOperationHelper.java:233-248 | a final outcome is queued for the delivery scheduler if and only if a final callback is configured and `stopNow()` has not been called; otherwise nothing changes |
| LibraryHelper.FailedStep | retrywhendo/src/main/java/com/hero/retrywhendo/RetryWhenDoOperationHelper.java:206-231 | every failure counts exactly once; past the end of the list the failure is queued as final (when the gate allows) and no retry is signalled; within budget a retry after the next delay happens if and only if subscription and emitter are live |
| LibraryHelper.SuccessStep | retrywhendo/src/main/java/com/hero/retrywhendo/RetryWhenDoOperationHelper.java:187-202 | a success is queued as final at once when the gate allows, and a live emitter is then completed; the counter is unchanged |
| LibraryHelper.ThrewStep | retrywhendo/src/main/java/com/hero/retrywhendo/RetryWhenDoOperationHelper.java:68-83 | an exception from the operation is retried on a live emitter (without counting) and is final, as an error, only on a disposed one |
| LibraryHelper.ChainErrorStep | retrywhendo/src/main/java/com/hero/retrywhendo/RetryWhenDoOperationHelper.java:141-147 | an error reaching the observer ends the chain and is queued as final when the gate allows |
| LibraryHelper.StopStep | retrywhendo/src/main/java/com/hero/retrywhendo/RetryWhenDoOperationHelper.java:304-310 | afterwards the flag is set and the subscription is not live; without a subscription only the flag changes; counter and queues are unchanged |
| LibraryHelper.OwnerDestroyedStep | retrywhendo/src/main/java/com/hero/retrywhendo/RetryWhenDoOperationHelper.java:105-119 | with an owner, its destruction disposes a live subscription; the stop flag and the queue are untouched |
| LibraryHelper.DeliveryStep | retrywhendo/src/main/java/com/hero/retrywhendo/RetryWhenDoOperationHelper.java:240-247 | the oldest queued outcome is removed, and reaches the final callback if and only if the gate still allows it when it runs |
| LibraryHelper.Step | retrywhendo/src/main/java/com/hero/retrywhendo/RetryWhenDoOperationHelper.java:233-310 | no event queues or delivers a final outcome unless the gate allows it; only a delivery changes the delivered log; only `stopNow()` sets the flag; an attempt is made only with a listener |
| LibraryHelper.ConstructAsWritten | retrywhendo/src/main/java/com/hero/retrywhendo/RetryWhenDoOperationHelper.java:53-60 | the constructor as written adopts a non-null builder and throws a NullPointerException on a null one |
| LibraryHelper.AdoptedBuilder | retrywhendo/src/main/java/com/hero/retrywhendo/RetryWhenDoOperationHelper.java:53-56 | a non-null builder is adopted, otherwise the default builder is kept; it never fails |
| LibraryHelper.ConstructorThrowsOnlyOnNull | retrywhendo/src/main/java/com/hero/retrywhendo/RetryWhenDoOperationHelper.java:53-60 | the written constructor fails exactly on a null builder and otherwise agrees with the intended one |
| LibraryHelper.RetryWhenDoOperationHelper.constructor | retrywhendo/src/main/java/com/hero/retrywhendo/RetryWhenDoOperationHelper.java:40-56 | a new helper adopts a non-null builder (else keeps a fresh default one), with counter 0, flag clear, no subscription, nothing queued |
| LibraryHelper.RetryWhenDoOperationHelper.IsCanCallBack | retrywhendo/src/main/java/com/hero/retrywhendo/RetryWhenDoOperationHelper.java:297-302 | true exactly when a final callback is configured and the stop flag is clear |
| LibraryHelper.RetryWhenDoOperationHelper.IsDisposedNow | retrywhendo/src/main/java/com/hero/retrywhendo/RetryWhenDoOperationHelper.java:318-334 | a missing or disposed subscription, or a missing or disposed emitter, counts as disposed |
| LibraryHelper.RetryWhenDoOperationHelper.DoRetryWhenOperation | retrywhendo/src/main/java/com/hero/retrywhendo/RetryWhenDoOperationHelper.java:62-122 | the fields after a start are those of the start reaction |
| LibraryHelper.RetryWhenDoOperationHelper.OnTimerElapsed | retrywhendo/src/main/java/com/hero/retrywhendo/RetryWhenDoOperationHelper.java:84-101 | the fields and the action after a timer are those of the timer reaction |
| LibraryHelper.RetryWhenDoOperationHelper.ScheduleOnObserveScheduler | retrywhendo/src/main/java/com/hero/retrywhendo/RetryWhenDoOperationHelper.java:238-248 | the shared body of the three final-callback methods queues exactly as the gated scheduling function says |
| LibraryHelper.RetryWhenDoOperationHelper.OnFinalFailed | retrywhendo/src/main/java/com/hero/retrywhendo/RetryWhenDoOperationHelper.java:233-252 | queues the exhausted failure behind the gate |
| LibraryHelper.RetryWhenDoOperationHelper.OnFinalSuccess | retrywhendo/src/main/java/com/hero/retrywhendo/RetryWhenDoOperationHelper.java:255-274 | queues the success behind the gate |
| LibraryHelper.RetryWhenDoOperationHelper.OnFinalError | retrywhendo/src/main/java/com/hero/retrywhendo/RetryWhenDoOperationHelper.java:276-295 | queues the error behind the gate |
| LibraryHelper.RetryWhenDoOperationHelper.OnFailed | retrywhendo/src/main/java/com/hero/retrywhendo/RetryWhenDoOperationHelper.java:206-231 | the in-place failure handler computes the same fields and action as the failure reaction |
| LibraryHelper.RetryWhenDoOperationHelper.OnSuccess | retrywhendo/src/main/java/com/hero/retrywhendo/RetryWhenDoOperationHelper.java:187-202 | the in-place success handler computes the same fields and action as the success reaction |
| LibraryHelper.RetryWhenDoOperationHelper.OnDoOperationThrew | retrywhendo/src/main/java/com/hero/retrywhendo/RetryWhenDoOperationHelper.java:68-83 | the catch around the operation computes the same fields and action as the exception reaction |
| LibraryHelper.RetryWhenDoOperationHelper.OnChainCompleted | retrywhendo/src/main/java/com/hero/retrywhendo/RetryWhenDoOperationHelper.java:84-92 | completion of the chain changes only the chain |
| LibraryHelper.RetryWhenDoOperationHelper.ObserverOnError | retrywhendo/src/main/java/com/hero/retrywhendo/RetryWhenDoOperationHelper.java:141-147 | the observer's `onError` computes the same fields and action as the chain-error reaction |
| LibraryHelper.RetryWhenDoOperationHelper.StopNow | retrywhendo/src/main/java/com/hero/retrywhendo/RetryWhenDoOperationHelper.java:304-310 | afterwards the flag is set and the subscription is not live, as the stop reaction says |
| LibraryHelper.RetryWhenDoOperationHelper.OnOwnerDestroyed | retrywhendo/src/main/java/com/hero/retrywhendo/RetryWhenDoOperationHelper.java:105-119 | the owner binding disposes as the owner reaction says |
| LibraryHelper.RetryWhenDoOperationHelper.OnDeliveryTick | retrywhendo/src/main/java/com/hero/retrywhendo/RetryWhenDoOperationHelper.java:240-247 | the delivery scheduler's task re-checks the gate and delivers as the delivery reaction says |
| LibraryHelper.Build | retrywhendo/src/main/java/com/hero/retrywhendo/Builder.java:128-130 | `build()` returns a new helper bound to this very builder, in its initial state |
| LibraryTraces.StepFollowsSchedule | retrywhendo/src/main/java/com/hero/retrywhendo/RetryWhenDoOperationHelper.java:84-92 | a retry's delay is the next unused entry of the schedule, and only a retry advances it |
| LibraryTraces.RetriesFollowSchedule | retrywhendo/src/main/java/com/hero/retrywhendo/RetryWhenDoOperationHelper.java:84-92 | over any run without a restart the retries wait exactly the next entries of the schedule, in order, never beyond its end |
| LibraryTraces.RetriesArePrefixOfDelayList | retrywhendo/src/main/java/com/hero/retrywhendo/RetryWhenDoOperationHelper.java:84-92 | after a start the delays waited are a prefix of the delay list, so at most \|delayTimeList\| retries |
| LibraryTraces.AttemptsBounded | retrywhendo/src/main/java/com/hero/retrywhendo/RetryWhenDoOperationHelper.java:84-101 | however the operation behaves, attempts never exceed the schedule length plus one |
| LibraryTraces.AttemptsAtMostDelaysPlusOne | retrywhendo/src/main/java/com/hero/retrywhendo/RetryWhenDoOperationHelper.java:62-101 | after a start at most \|delayTimeList\| + 1 attempts are made |
| LibraryTraces.FailureWithinBudget | retrywhendo/src/main/java/com/hero/retrywhendo/RetryWhenDoOperationHelper.java:206-231 | a failure within budget on a live chain counts once and retries after the next delay |
| LibraryTraces.RetryTimerFires | retrywhendo/src/main/java/com/hero/retrywhendo/RetryWhenDoOperationHelper.java:84-101 | a retry timer with a listener starts one more attempt |
| LibraryTraces.FailRoundsRetry | retrywhendo/src/main/java/com/hero/retrywhendo/RetryWhenDoOperationHelper.java:206-231 | k failures within budget retry after the next k delays in order, with k more attempts and the counter up by k |
| LibraryTraces.StartMakesFirstAttempt | retrywhendo/src/main/java/com/hero/retrywhendo/RetryWhenDoOperationHelper.java:62-101 | a start and its start-up timer make the first attempt with counter 0 and flag clear |
| LibraryTraces.LastFailureDelivered | retrywhendo/src/main/java/com/hero/retrywhendo/RetryWhenDoOperationHelper.java:206-252 | the failure past the budget is queued and then delivered as final, whether or not the chain completed first |
| LibraryTraces.PermanentFailureExhausts | retrywhendo/src/main/java/com/hero/retrywhendo/RetryWhenDoOperationHelper.java:206-252 | a permanently failing operation is attempted \|delayTimeList\| + 1 times, waits every delay in order, and its last failure is the one outcome delivered |
| LibraryTraces.NothingDeliveredAfterStop | retrywhendo/src/main/java/com/hero/retrywhendo/RetryWhenDoOperationHelper.java:233-310 | after `stopNow()` and until a new start, nothing is queued for or delivered to the final callback, whatever happens |
| LibraryTraces.StoppedStaysSilent | retrywhendo/src/main/java/com/hero/retrywhendo/RetryWhenDoOperationHelper.java:297-302 | with the flag set and no start, the flag stays set and no final callback is queued or made |
| LibraryTraces.StopNowIdempotent | retrywhendo/src/main/java/com/hero/retrywhendo/RetryWhenDoOperationHelper.java:304-310 | a second `stopNow()` changes nothing further |
| LibraryTraces.NoFinalCallBackIsSilent | retrywhendo/src/main/java/com/hero/retrywhendo/RetryWhenDoOperationHelper.java:297-302 | without a final callback no run queues or delivers anything |
| LibraryTraces.NoListenerNoAttempt | retrywhendo/src/main/java/com/hero/retrywhendo/RetryWhenDoOperationHelper.java:168-171 | without an operation listener the operation is never invoked |
| LibraryTraces.SuccessDelivered | retrywhendo/src/main/java/com/hero/retrywhendo/RetryWhenDoOperationHelper.java:187-202 | a success on a live attempt is queued at once and delivered, and the chain is finished with its emitter closed |
| LibraryTraces.SuccessOnAttempt | retrywhendo/src/main/java/com/hero/retrywhendo/RetryWhenDoOperationHelper.java:187-231 | after k failures within budget a success on attempt k + 1 is delivered, after the first k delays in order, and the chain is finished with no open emitter |
| LibraryTraces.FinishedStep | retrywhendo/src/main/java/com/hero/retrywhendo/RetryWhenDoOperationHelper.java:195-201 | once the chain is finished and its emitter is not open, every event other than a start leaves it so and makes no attempt |
| LibraryTraces.FinishedNoMoreAttempts | retrywhendo/src/main/java/com/hero/retrywhendo/RetryWhenDoOperationHelper.java:195-201 | after the chain is finished, any events without a start leave the attempt count unchanged and produce no attempt |
| LibraryTraces.NothingAttemptedAfterFinish | retrywhendo/src/main/java/com/hero/retrywhendo/RetryWhenDoOperationHelper.java:195-201 | a run that has finished the chain makes no further attempt whatever events without a start follow it |
| LibraryTraces.NoAttemptAfterSuccess | retrywhendo/src/main/java/com/hero/retrywhendo/RetryWhenDoOperationHelper.java:187-202 | after a delivered success, no event short of a new start brings another attempt of the operation |
| LibraryTraces.AtMostOneFinalCallback | retrywhendo/src/main/java/com/hero/retrywhendo/RetryWhenDoOperationHelper.java:206-295 | a run started with nothing queued calls the final callback at most once |
| LibraryTraces.RestartRevivesQueuedCallback | retrywhendo/src/main/java/com/hero/retrywhendo/RetryWhenDoOperationHelper.java:62-64 | a start clears the flag, so a callback queued before `stopNow()` is delivered after a restart |
| LibraryTraces.ThrowRetries | retrywhendo/src/main/java/com/hero/retrywhendo/RetryWhenDoOperationHelper.java:68-83 | an exception on a live attempt uses up the next delay without counting as a failure |
| LibraryTraces.LateFailureDropped | retrywhendo/src/main/java/com/hero/retrywhendo/RetryWhenDoOperationHelper.java:206-231 | a failure within budget arriving after the chain completed is dropped without any callback |
| LibraryTraces.ThrowThenFailureIsNeverReported | retrywhendo/src/main/java/com/hero/retrywhendo/RetryWhenDoOperationHelper.java:66-92 | with one delay, an exception followed by a failure on the last attempt ends with no final callback at all |
| LibraryTraces.OwnerDestructionKeepsLateSuccess | retrywhendo/src/main/java/com/hero/retrywhendo/RetryWhenDoOperationHelper.java:105-119 | the owner's destruction does not suppress a success from the attempt already running |
| AppHelper.Deref | app/src/main/java/com/hero/retrywhendemo/RetryWhenDoOperationHelper.java:104-107 | a weak reference yields its referent only when set and not cleared |
| AppHelper.Cleared | app/src/main/java/com/hero/retrywhendemo/RetryWhenDoOperationHelper.java:204-214 | a collected weak reference yields nothing; an unset field stays unset |
| AppHelper.DefaultConfig | app/src/main/java/com/hero/retrywhendemo/RetryWhenDoOperationHelper.java:219-229 | a fresh nested builder retries once after 3 seconds on io, delivers on the main thread, nothing set |
| AppHelper.Wrapped | app/src/main/java/com/hero/retrywhendemo/RetryWhenDoOperationHelper.java:267-279 | a non-null callback gets a new weak reference to it; null keeps the field |
| AppHelper.AcceptedDelayTimeList | app/src/main/java/com/hero/retrywhendemo/RetryWhenDoOperationHelper.java:260-265 | a non-null non-empty list replaces the current one; anything else keeps it |
| AppHelper.Builder.constructor | app/src/main/java/com/hero/retrywhendemo/RetryWhenDoOperationHelper.java:202-234 | a new nested builder holds the default configuration |
| AppHelper.Builder.SetSubscribeOnScheduler | app/src/main/java/com/hero/retrywhendemo/RetryWhenDoOperationHelper.java:236-241 | changes only that scheduler, ignoring null |
| AppHelper.Builder.SetObserveOnScheduler | app/src/main/java/com/hero/retrywhendemo/RetryWhenDoOperationHelper.java:243-248 | changes only that scheduler, ignoring null |
| AppHelper.Builder.SetOwner | app/src/main/java/com/hero/retrywhendemo/RetryWhenDoOperationHelper.java:250-253 | sets the owner, null included, and nothing else |
| AppHelper.Builder.SetParam | app/src/main/java/com/hero/retrywhendemo/RetryWhenDoOperationHelper.java:255-258 | sets the parameter and nothing else |
| AppHelper.Builder.SetDelayTimeList | app/src/main/java/com/hero/retrywhendemo/RetryWhenDoOperationHelper.java:260-265 | replaces the list only by a non-null non-empty one |
| AppHelper.Builder.SetFinalCallBack | app/src/main/java/com/hero/retrywhendemo/RetryWhenDoOperationHelper.java:267-272 | a non-null callback is wrapped in a new weak reference; null is ignored |
| AppHelper.Builder.SetOnDoOperationListener | app/src/main/java/com/hero/retrywhendemo/RetryWhenDoOperationHelper.java:274-279 | a non-null listener is wrapped in a new weak reference; null is ignored |
| AppHelper.Route | app/src/main/java/com/hero/retrywhendemo/RetryWhenDoOperationHelper.java:100-119 | the observer calls the final callback if and only if it is still reachable, with the bean's result, `onSuccess` exactly for a successful bean and `onFailed` otherwise |
| AppHelper.StartRun | app/src/main/java/com/hero/retrywhendemo/RetryWhenDoOperationHelper.java:65-79 | a start resets the counter to 0 and runs the first attempt at once, when the listener is alive |
| AppHelper.TimerStep | app/src/main/java/com/hero/retrywhendemo/RetryWhenDoOperationHelper.java:69-76 | a retry timer invokes the operation exactly when the listener is still alive |
| AppHelper.EmitResult | app/src/main/java/com/hero/retrywhendemo/RetryWhenDoOperationHelper.java:165-167 | a result on a live emitter is queued for the observer and completes the chain; on a disposed one it is dropped |
| AppHelper.FailedStep | app/src/main/java/com/hero/retrywhendemo/RetryWhenDoOperationHelper.java:157-174 | with no emitter nothing happens; otherwise the failure counts once; past the budget the failed result is emitted (on a live emitter); within budget a live emitter retries after the next delay and a disposed one sends the error to RxJava's global handler |
| AppHelper.SuccessStep | app/src/main/java/com/hero/retrywhendemo/RetryWhenDoOperationHelper.java:181-190 | a success emits a successful result on a live emitter and is otherwise dropped; the counter is unchanged |
| AppHelper.OwnerDestroyedStep | app/src/main/java/com/hero/retrywhendemo/RetryWhenDoOperationHelper.java:82-85 | with an owner, its destruction disposes the chain and drops undelivered results |
| AppHelper.DeliveryStep | app/src/main/java/com/hero/retrywhendemo/RetryWhenDoOperationHelper.java:100-119 | the oldest queued result is removed and routed; a call is made exactly when the final callback is reachable |
| AppHelper.Step | app/src/main/java/com/hero/retrywhendemo/RetryWhenDoOperationHelper.java:65-192 | only a delivery changes the delivered log, only with a reachable final callback; an attempt needs a live listener |
| AppHelper.RetryWhenDoOperationHelper.constructor | app/src/main/java/com/hero/retrywhendemo/RetryWhenDoOperationHelper.java:49-63 | a new helper adopts a non-null builder or keeps a fresh default one, counter 0, not subscribed |
| AppHelper.RetryWhenDoOperationHelper.DoRetryWhenOperation | app/src/main/java/com/hero/retrywhendemo/RetryWhenDoOperationHelper.java:65-88 | the fields and action after a start are those of the start reaction |
| AppHelper.RetryWhenDoOperationHelper.OnTimerElapsed | app/src/main/java/com/hero/retrywhendemo/RetryWhenDoOperationHelper.java:69-76 | the fields and action after a timer are those of the timer reaction |
| AppHelper.RetryWhenDoOperationHelper.EmitOnNext | app/src/main/java/com/hero/retrywhendemo/RetryWhenDoOperationHelper.java:165-167 | emits as the emitting function says |
| AppHelper.RetryWhenDoOperationHelper.OnFailed | app/src/main/java/com/hero/retrywhendemo/RetryWhenDoOperationHelper.java:157-174 | the per-attempt `onFailed` computes the same fields and action as the failure reaction |
| AppHelper.RetryWhenDoOperationHelper.OnSuccess | app/src/main/java/com/hero/retrywhendemo/RetryWhenDoOperationHelper.java:181-190 | the per-attempt `onSuccess` computes the same fields and action as the success reaction |
| AppHelper.RetryWhenDoOperationHelper.OnChainCompleted | app/src/main/java/com/hero/retrywhendemo/RetryWhenDoOperationHelper.java:69-76 | completion changes only the chain |
| AppHelper.RetryWhenDoOperationHelper.OnOwnerDestroyed | app/src/main/java/com/hero/retrywhendemo/RetryWhenDoOperationHelper.java:82-85 | the owner binding disposes as the owner reaction says |
| AppHelper.RetryWhenDoOperationHelper.OnNext | app/src/main/java/com/hero/retrywhendemo/RetryWhenDoOperationHelper.java:100-119 | the observer's `onNext` routes and delivers as the delivery reaction says |
| AppHelper.RetryWhenDoOperationHelper.CollectFinalCallBack | app/src/main/java/com/hero/retrywhendemo/RetryWhenDoOperationHelper.java:204-208 | the collector clears only the final callback's referent |
| AppHelper.RetryWhenDoOperationHelper.CollectListener | app/src/main/java/com/hero/retrywhendemo/RetryWhenDoOperationHelper.java:210-214 | the collector clears only the listener's referent |
| AppHelper.Build | app/src/main/java/com/hero/retrywhendemo/RetryWhenDoOperationHelper.java:281-283 | `build()` returns a new helper bound to this builder, in its initial state |
| AppTraces.RetriesFollowSchedule | app/src/main/java/com/hero/retrywhendemo/RetryWhenDoOperationHelper.java:69-76 | without a restart the retries wait exactly the next entries of the schedule, in order, never beyond its end |
| AppTraces.RetriesArePrefixOfDelayList | app/src/main/java/com/hero/retrywhendemo/RetryWhenDoOperationHelper.java:69-76 | after a start the delays waited (in seconds) are a prefix of the delay list, so at most \|delayTimeList\| retries |
| AppTraces.AttemptsBounded | app/src/main/java/com/hero/retrywhendemo/RetryWhenDoOperationHelper.java:65-76 | attempts never exceed the schedule length plus one |
| AppTraces.AttemptsAtMostDelaysPlusOne | app/src/main/java/com/hero/retrywhendemo/RetryWhenDoOperationHelper.java:65-76 | after a start at most \|delayTimeList\| + 1 attempts are made |
| AppTraces.NoListenerNoAttempt | app/src/main/java/com/hero/retrywhendemo/RetryWhenDoOperationHelper.java:147-153 | with the listener unset or collected the operation is never invoked, restarts included |
| AppTraces.NoCallBackNothingDelivered | app/src/main/java/com/hero/retrywhendemo/RetryWhenDoOperationHelper.java:104-118 | with the final callback unset or collected nothing is ever delivered |
| AppTraces.FailureWithinBudget | app/src/main/java/com/hero/retrywhendemo/RetryWhenDoOperationHelper.java:162-173 | a failure within budget on a live emitter counts once and retries after the next delay of the list |
| AppTraces.RetryTimerFires | app/src/main/java/com/hero/retrywhendemo/RetryWhenDoOperationHelper.java:69-76 | a retry timer with a live listener starts one more attempt |
| AppTraces.FailRoundsRetry | app/src/main/java/com/hero/retrywhendemo/RetryWhenDoOperationHelper.java:162-173 | k failures within budget retry after the next k delays in order, with k more attempts and the counter up by k |
| AppTraces.StartThenFailRounds | app/src/main/java/com/hero/retrywhendemo/RetryWhenDoOperationHelper.java:65-173 | a start and k failures within budget leave attempt k + 1 running after the first k delays |
| AppTraces.LastFailureDelivered | app/src/main/java/com/hero/retrywhendemo/RetryWhenDoOperationHelper.java:162-169 | the failure past the budget is emitted as an unsuccessful result and reaches `onFailed` |
| AppTraces.PermanentFailureExhausts | app/src/main/java/com/hero/retrywhendemo/RetryWhenDoOperationHelper.java:157-174 | a permanently failing operation is attempted \|delayTimeList\| + 1 times, waits every delay in order, and its last failure reaches `onFailed` |
| AppTraces.LastFailureLostOnClosedEmitter | app/src/main/java/com/hero/retrywhendemo/RetryWhenDoOperationHelper.java:162-169 | a failure past the budget after the chain completed is dropped with the emitter |
| AppTraces.PermanentFailureLostAfterCompletion | app/src/main/java/com/hero/retrywhendemo/RetryWhenDoOperationHelper.java:65-76 | when the chain completes before the last failure arrives, the final callback is never called |
| AppTraces.SuccessDelivered | app/src/main/java/com/hero/retrywhendemo/RetryWhenDoOperationHelper.java:181-190 | a success on a live emitter reaches `onSuccess` with its bean, and the chain is finished with its emitter closed |
| AppTraces.SuccessOnAttempt | app/src/main/java/com/hero/retrywhendemo/RetryWhenDoOperationHelper.java:155-190 | after k failures within budget a success on attempt k + 1 reaches `onSuccess`, after the first k delays, and the chain is finished with no open emitter |
| AppTraces.FinishedStep | app/src/main/java/com/hero/retrywhendemo/RetryWhenDoOperationHelper.java:187-189 | once the chain is finished and its emitter is not open, every event other than a start leaves it so and makes no attempt |
| AppTraces.FinishedNoMoreAttempts | app/src/main/java/com/hero/retrywhendemo/RetryWhenDoOperationHelper.java:187-189 | after the chain is finished, any events without a start leave the attempt count unchanged and produce no attempt |
| AppTraces.NothingAttemptedAfterFinish | app/src/main/java/com/hero/retrywhendemo/RetryWhenDoOperationHelper.java:187-189 | a run that has finished the chain makes no further attempt whatever events without a start follow it |
| AppTraces.NoAttemptAfterSuccess | app/src/main/java/com/hero/retrywhendemo/RetryWhenDoOperationHelper.java:181-190 | after a success reaches `onSuccess`, no event short of a new start brings another attempt of the operation |
| AppTraces.DisposedRetrySignalIsUndeliverable | app/src/main/java/com/hero/retrywhendemo/RetryWhenDoOperationHelper.java:171-173 | a failure within budget after the owner disposed the chain signals its error on a disposed emitter |
| AppTraces.AtMostOneFinalCallback | app/src/main/java/com/hero/retrywhendemo/RetryWhenDoOperationHelper.java:100-192 | a run started with nothing queued calls the final callback at most once |

## Left out

- RxJava, AutoDispose and Android internals are abstracted: `retryWhen`, `zipWith`, `timer`, `concatMap`/`flatMap`, `subscribeOn`/`observeOn`, the main-Looper check and the scheduler hops. Timers, chain completion, owner destruction and the delivery scheduler are events the environment chooses.
- When the chain completes relative to the last attempt's report depends on thread timing. It is the free event `ChainCompleted`, and both orders are proved about.
- When an owner is set off the main thread, the library subscribes only after a hop to the main thread (retrywhendo/.../RetryWhenDoOperationHelper.java:111-118). The model subscribes at once.
- `doRetryWhenOperation` returns the `disposable` field. That field is null until `onSubscribe` runs. The return value is not modelled.
- The library's direct final call for a null observe-on scheduler (:250-251, :272-273, :293-294) is not modelled. The setter ignores null and the default is non-null, so the branch is unreachable.
- Logging, debug output, `toString` and Gson serialisation are not modelled. The debug flag is only stored.
- Delays are natural numbers. Null or negative `Integer` entries in the list are not modelled. Time units are stored but carry no arithmetic.
- A second start while a run is still active replaces the chain in the model. In RxJava the earlier subscription would keep running beside the new one. Overlapping runs are not modelled.
- The app helper has no catch around the operation. An exception thrown by its listener is handled inside RxJava's `create` operator, which is not part of this model.
- The app observer's `onSubscribe`, `onError` and `onComplete` only log, so they are not modelled.
- The library's `bean/OnNextResultBean.java` is not used by the library engine. The library's private `OnNextBean` only reaches the observer's logging `onNext`, so emitted values are not modelled there.
- LibraryTraces.AtMostOneFinalCallback: holds only for runs without a restart and without an `onError` reaching the observer. It also assumes the operation reports once per attempt. A restart can revive a queued callback (`LibraryTraces.RestartRevivesQueuedCallback`).
- AppTraces.AtMostOneFinalCallback: holds only for runs without a restart, and assumes the operation reports once per attempt.
- LibraryTraces.NothingDeliveredAfterStop: holds until the next start, because a start clears the stop flag.
- LibraryHelper.FailedStep, LibraryHelper.SuccessStep, LibraryHelper.ThrewStep, AppHelper.FailedStep and AppHelper.SuccessStep: a report is applied to the emitter of the attempt that is running when it arrives. In the source each callback object keeps the emitter of the attempt that created it (retrywhendo/src/main/java/com/hero/retrywhendo/RetryWhenDoOperationHelper.java:173-203, app/src/main/java/com/hero/retrywhendemo/RetryWhenDoOperationHelper.java:155-190). A late report from an earlier attempt, such as an `onFailed` after that attempt threw or a second report from one attempt, therefore finds that attempt's own emitter closed: in the library it only counts, and in the app its `onError` goes to RxJava's global handler. In the model it acts on the current attempt instead and can retry or finish it. The step functions and the trace lemmas built on them are faithful only for runs where every report comes from the running attempt.
- LibraryTraces.Run and AppTraces.Run: every trace property takes one configuration for the whole run, so it assumes no builder setter is called between a start and the end of the run. The helper keeps the builder by reference and reads it again at each step, for example the list size at retrywhendo/src/main/java/com/hero/retrywhendo/RetryWhenDoOperationHelper.java:209, while the zip walks the list it took at subscription (:84-85). The class methods read the builder afresh at every call, as the source does.
- LibraryBuilder.DefaultConfig: the fields `isDebug`, `delay` and `unit`, with their setters `LibraryBuilder.Builder.SetIsDebug`, `LibraryBuilder.Builder.SetDelay` and `LibraryBuilder.Builder.SetUnit`, are not declared in retrywhendo/src/main/java/com/hero/retrywhendo/Builder.java. The helper reads them (retrywhendo/src/main/java/com/hero/retrywhendo/RetryWhenDoOperationHelper.java:57, :91, :97) and the demo sets them (app/src/main/java/com/hero/retrywhendemo/FirstActivity.java:62-70). Their defaults false, 0 and seconds are assumptions of the model.

## Findings

| source | as written | input that shows it | evidently intended | confidence | as-written member | corrected member |
|---|---|---|---|---|---|---|
| retrywhendo/src/main/java/com/hero/retrywhendo/RetryWhenDoOperationHelper.java:53-60 | after guarding against a null builder, the constructor calls `isDebug()` on the parameter, not the field | `new RetryWhenDoOperationHelper<>(null)` (package-private; `build()` always passes a builder) | fall back to the field's default builder, as the null check intends | high; not executed | LibraryHelper.ConstructAsWritten | LibraryHelper.AdoptedBuilder |
