/** The RxJava chain both helpers build around the operation, reduced to the
    events the helpers can observe:

      Observable.create(emitter -> doOperation(emitter))
        .retryWhen(errors -> errors.zipWith(delayTimeList, (e, d) -> d)
                                   .concatMap(d -> timer(d)))

    Each error emitted on the current emitter is paired, in order, with the
    next entry of the delay list; when its timer fires the operation is
    subscribed to again with a fresh emitter. Once every entry has been
    paired the chain completes after the last timer, which disposes the
    emitter of the final attempt. Timers are explicit "elapsed" steps. */
module Pipeline {
  import opened Common

  /** The `ObservableEmitter` handed to the current attempt: none yet, open, or
      closed (it emitted a terminal signal or the chain disposed it). */
  datatype Emitter = Absent | Open | Closed

  datatype Phase =
    | Idle                    // never subscribed
    | InitialWait(delay: nat) // the start-up timer is pending
    | Attempting              // an attempt has been subscribed
    | RetryWait(delay: nat)   // a retry timer is pending
    | Finished                // completed or disposed: no further attempt

  /** `schedule` is the delay list the zip walks, `zipped` how many errors it
      has paired so far; `awaiting` is true while a started attempt has not
      yet called back; `attempts` counts calls of the operation in this run. */
  datatype Pipe = Pipe(schedule: seq<nat>, zipped: nat, phase: Phase,
                       emitter: Emitter, awaiting: bool, attempts: nat)

  const Unsubscribed: Pipe := Pipe([], 0, Idle, Absent, false, 0)

  /** The zip never pairs more errors than the list has entries. */
  ghost predicate Valid(p: Pipe) {
    p.zipped <= |p.schedule|
  }

  /** Subscribing builds a fresh chain over `schedule` that waits `initialDelay`
      before the first attempt. */
  function Subscribe(schedule: seq<nat>, initialDelay: nat): (p: Pipe)
    ensures Valid(p) && p.attempts == 0 && !p.awaiting && p.emitter == Absent
  {
    Pipe(schedule, 0, InitialWait(initialDelay), Absent, false, 0)
  }

  /** The operation is subscribed to with a fresh emitter; it is called only
      when a listener is present, otherwise the attempt never reports. */
  function BeginAttempt(p: Pipe, listenerPresent: bool): (q: Pipe)
    ensures q.emitter == Open && q.phase == Attempting
    ensures q.attempts == if listenerPresent then p.attempts + 1 else p.attempts
    ensures q.schedule == p.schedule && q.zipped == p.zipped
  {
    p.(phase := Attempting, emitter := Open, awaiting := listenerPresent,
       attempts := if listenerPresent then p.attempts + 1 else p.attempts)
  }

  /** A pending timer fires; any other phase ignores the step. */
  function TimerElapsed(p: Pipe, listenerPresent: bool): (q: Pipe)
    ensures p.phase.InitialWait? || p.phase.RetryWait? ==> q == BeginAttempt(p, listenerPresent)
    ensures !(p.phase.InitialWait? || p.phase.RetryWait?) ==> q == p
  {
    if p.phase.InitialWait? || p.phase.RetryWait? then BeginAttempt(p, listenerPresent) else p
  }

  /** `emitter.onError(..)`: on an open emitter the error is paired with the
      next delay (returned), or, with the list used up, dropped by the
      finished zip and the chain ends. A closed emitter drops it. */
  function SignalError(p: Pipe): (r: (Pipe, Option<nat>))
    requires Valid(p)
    ensures Valid(r.0) && r.0.schedule == p.schedule && r.0.attempts == p.attempts
    ensures r.1.Some? <==> p.emitter == Open && p.zipped < |p.schedule|
    ensures r.1.Some? ==> r.1.value == p.schedule[p.zipped] && r.0.zipped == p.zipped + 1
                          && r.0.phase == RetryWait(r.1.value)
    ensures r.1.None? ==> r.0.zipped == p.zipped
    ensures p.emitter == Open ==> r.0.emitter == Closed
    ensures p.emitter != Open ==> r.0 == p
  {
    if p.emitter != Open then (p, None)
    else if p.zipped < |p.schedule| then
      var d := p.schedule[p.zipped];
      (p.(emitter := Closed, phase := RetryWait(d), zipped := p.zipped + 1), Some(d))
    else (p.(emitter := Closed, phase := Finished), None)
  }

  /** `emitter.onNext(..)` followed by `emitter.onComplete()` on an open
      emitter: the value reaches the observer and the chain completes. */
  function Emit(p: Pipe): (q: Pipe)
    requires p.emitter == Open
    ensures q.emitter == Closed && q.phase == Finished
    ensures q.schedule == p.schedule && q.zipped == p.zipped && q.attempts == p.attempts
  {
    p.(emitter := Closed, phase := Finished)
  }

  /** The zip has paired every entry and the last timer has fired, so the
      chain completes and disposes the final attempt's emitter. Whether this
      happens before or after the final attempt calls back depends on timing
      the helpers do not control, so it is an event of its own. */
  function Complete(p: Pipe): (q: Pipe)
    ensures p.phase == Attempting && p.zipped == |p.schedule| ==>
              q.phase == Finished && q.emitter != Open
    ensures !(p.phase == Attempting && p.zipped == |p.schedule|) ==> q == p
  {
    if p.phase == Attempting && p.zipped == |p.schedule| then
      p.(phase := Finished, emitter := if p.emitter == Open then Closed else p.emitter)
    else p
  }

  /** Disposing the subscription cancels timers and closes the emitter; an
      operation already running may still call back. */
  function Dispose(p: Pipe): (q: Pipe)
    ensures q.emitter != Open && q.awaiting == p.awaiting && q.attempts == p.attempts
    ensures q.phase == (if p.phase == Idle then Idle else Finished)
  {
    p.(phase := if p.phase == Idle then Idle else Finished,
       emitter := if p.emitter == Open then Closed else p.emitter)
  }

  /** The running attempt has called back (or thrown); the chain's schedule
      bound and attempt pairing hold afterwards exactly when they held before. */
  function CallbackArrived(p: Pipe): (q: Pipe)
    ensures Valid(q) <==> Valid(p)
    ensures AttemptInv(q) <==> AttemptInv(p)
  {
    p.(awaiting := false)
  }

  /** Attempts and paired delays: an attempt starts only at subscription or
      after a timer, and each retry timer used up one delay. */
  ghost predicate AttemptInv(p: Pipe) {
    p.attempts <= p.zipped + 1 && (p.phase.InitialWait? || p.phase.RetryWait? ==> p.attempts <= p.zipped)
  }
}
