/** Properties of the demo app's helper over sequences of events. */
module AppTraces {
  import opened Common
  import opened Pipeline
  import opened AppHelper

  /** The helper's state and actions after a sequence of events. */
  function Run<T, F, S>(e: AppEngine<T, F, S>, es: seq<AppEvent<F, S>>): (r: (AppEngine<T, F, S>, seq<AppAction<F, S>>))
    requires ValidEngine(e)
    ensures ValidEngine(r.0) && |r.1| == |es|
    decreases |es|
  {
    if es == [] then (e, [])
    else
      var step := Step(e, es[0]);
      var rest := Run(step.0, es[1..]);
      (rest.0, [step.1] + rest.1)
  }

  lemma {:induction false} RunAppend<T, F, S>(e: AppEngine<T, F, S>, xs: seq<AppEvent<F, S>>, ys: seq<AppEvent<F, S>>)
    requires ValidEngine(e)
    ensures Run(e, xs + ys).0 == Run(Run(e, xs).0, ys).0
    ensures Run(e, xs + ys).1 == Run(e, xs).1 + Run(Run(e, xs).0, ys).1
    decreases |xs|
  {
    if xs != [] {
      assert (xs + ys)[1..] == xs[1..] + ys;
      RunAppend(Step(e, xs[0]).0, xs[1..], ys);
    } else {
      assert xs + ys == ys;
    }
  }

  /** Two runs chained: the second starts where the first ended. */
  lemma ComposeRuns<T, F, S>(e: AppEngine<T, F, S>, xs: seq<AppEvent<F, S>>, ys: seq<AppEvent<F, S>>,
                             first: (AppEngine<T, F, S>, seq<AppAction<F, S>>), second: (AppEngine<T, F, S>, seq<AppAction<F, S>>))
    requires ValidEngine(e) && Run(e, xs) == first && Run(first.0, ys) == second
    ensures Run(e, xs + ys) == (second.0, first.1 + second.1)
  {
    RunAppend(e, xs, ys);
  }

  lemma RunOne<T, F, S>(e: AppEngine<T, F, S>, ev: AppEvent<F, S>)
    requires ValidEngine(e)
    ensures Run(e, [ev]) == (Step(e, ev).0, [Step(e, ev).1])
  {
    var step := Step(e, ev);
    assert [ev][1..] == [];
    assert Run(step.0, []) == (step.0, []);
    assert [step.1] + [] == [step.1];
  }

  lemma RunTwo<T, F, S>(e: AppEngine<T, F, S>, ev1: AppEvent<F, S>, ev2: AppEvent<F, S>)
    requires ValidEngine(e)
    ensures Run(e, [ev1, ev2]) ==
      (Step(Step(e, ev1).0, ev2).0, [Step(e, ev1).1, Step(Step(e, ev1).0, ev2).1])
  {
    var s1 := Step(e, ev1);
    var es := [ev1, ev2];
    assert es[0] == ev1 && es[1..] == [ev2];
    RunOne(s1.0, ev2);
    var s2 := Step(s1.0, ev2);
    assert Run(e, es) == (Run(s1.0, [ev2]).0, [s1.1] + Run(s1.0, [ev2]).1);
    assert [s1.1] + [s2.1] == [s1.1, s2.1];
  }

  predicate NoStart<F, S>(es: seq<AppEvent<F, S>>) {
    forall i | 0 <= i < |es| :: !es[i].Start?
  }

  lemma NoStartTail<F, S>(es: seq<AppEvent<F, S>>)
    requires es != [] && NoStart(es)
    ensures !es[0].Start? && NoStart(es[1..])
  {
    forall i | 0 <= i < |es[1..]| ensures !es[1..][i].Start? {
      assert es[1..][i] == es[i + 1];
    }
  }

  /** The delays of the retries among `acts`, in order. This and the two
      lemmas after it have the same shape as their namesakes in
      LibraryTraces; they are repeated here because the app's actions are a
      datatype of their own. */
  function RetryDelays<F, S>(acts: seq<AppAction<F, S>>): seq<nat> {
    if acts == [] then []
    else (if acts[0].Retry? then [acts[0].delay] else []) + RetryDelays(acts[1..])
  }

  lemma {:induction false} RetryDelaysAppend<F, S>(xs: seq<AppAction<F, S>>, ys: seq<AppAction<F, S>>)
    ensures RetryDelays(xs + ys) == RetryDelays(xs) + RetryDelays(ys)
    decreases |xs|
  {
    if xs == [] {
      assert xs + ys == ys;
    } else {
      var h := if xs[0].Retry? then [xs[0].delay] else [];
      assert (xs + ys)[0] == xs[0] && (xs + ys)[1..] == xs[1..] + ys;
      assert RetryDelays(xs + ys) == h + RetryDelays(xs[1..] + ys);
      RetryDelaysAppend(xs[1..], ys);
      assert h + (RetryDelays(xs[1..]) + RetryDelays(ys)) == (h + RetryDelays(xs[1..])) + RetryDelays(ys);
    }
  }

  lemma {:induction false} NonRetryDelays<F, S>(acts: seq<AppAction<F, S>>)
    requires forall i | 0 <= i < |acts| :: !acts[i].Retry?
    ensures RetryDelays(acts) == []
    decreases |acts|
  {
    if acts != [] {
      NonRetryDelays(acts[1..]);
    }
  }

  // ---------------------------------------------------------------------
  // The delay schedule and the attempt bound

  lemma StepFollowsSchedule<T, F, S>(e: AppEngine<T, F, S>, ev: AppEvent<F, S>)
    requires ValidEngine(e) && !ev.Start?
    ensures var (e1, a) := Step(e, ev);
      e1.pipe.schedule == e.pipe.schedule &&
      (a.Retry? ==> e.pipe.zipped < |e.pipe.schedule| && a.delay == e.pipe.schedule[e.pipe.zipped]
                    && e1.pipe.zipped == e.pipe.zipped + 1) &&
      (!a.Retry? ==> e1.pipe.zipped == e.pipe.zipped)
  {
  }

  /** Without a restart, the retries wait the entries of the schedule in list
      order, one entry per retry, never beyond its end. */
  lemma {:induction false} RetriesFollowSchedule<T, F, S>(e: AppEngine<T, F, S>, es: seq<AppEvent<F, S>>)
    requires ValidEngine(e) && NoStart(es)
    ensures var (e1, acts) := Run(e, es);
      e1.pipe.schedule == e.pipe.schedule && e.pipe.zipped <= e1.pipe.zipped <= |e.pipe.schedule| &&
      RetryDelays(acts) == e.pipe.schedule[e.pipe.zipped..e1.pipe.zipped]
    decreases |es|
  {
    if es != [] {
      var (e1, a) := Step(e, es[0]);
      StepFollowsSchedule(e, es[0]);
      NoStartTail(es);
      RetriesFollowSchedule(e1, es[1..]);
      var (e2, rest) := Run(e1, es[1..]);
      var acts := [a] + rest;
      assert acts[1..] == rest;
      if a.Retry? {
        assert e.pipe.schedule[e.pipe.zipped..e2.pipe.zipped]
            == [a.delay] + e.pipe.schedule[e1.pipe.zipped..e2.pipe.zipped];
      }
    }
  }

  /** After a start, the retries wait a prefix of the delay list (in
      seconds), so at most |delayTimeList| retries happen. */
  lemma RetriesArePrefixOfDelayList<T, F, S>(e: AppEngine<T, F, S>, es: seq<AppEvent<F, S>>)
    requires ValidEngine(e) && NoStart(es)
    ensures var delays := RetryDelays(Run(StartRun(e).0, es).1);
      |delays| <= |e.cfg.delayTimeList| && delays == e.cfg.delayTimeList[..|delays|]
  {
    RetriesFollowSchedule(StartRun(e).0, es);
  }

  lemma StepKeepsAttemptInv<T, F, S>(e: AppEngine<T, F, S>, ev: AppEvent<F, S>)
    requires ValidEngine(e) && AttemptInv(e.pipe)
    ensures AttemptInv(Step(e, ev).0.pipe)
  {
  }

  lemma {:induction false} AttemptsBounded<T, F, S>(e: AppEngine<T, F, S>, es: seq<AppEvent<F, S>>)
    requires ValidEngine(e) && AttemptInv(e.pipe) && NoStart(es)
    ensures var e1 := Run(e, es).0;
      AttemptInv(e1.pipe) && e1.pipe.attempts <= |e.pipe.schedule| + 1
    decreases |es|
  {
    StepKeepsAttemptInv(e, if es == [] then ChainCompleted else es[0]);
    if es != [] {
      StepFollowsSchedule(e, es[0]);
      NoStartTail(es);
      AttemptsBounded(Step(e, es[0]).0, es[1..]);
    }
  }

  /** After a start, at most |delayTimeList| + 1 attempts are made. */
  lemma AttemptsAtMostDelaysPlusOne<T, F, S>(e: AppEngine<T, F, S>, es: seq<AppEvent<F, S>>)
    requires ValidEngine(e) && NoStart(es)
    ensures Run(StartRun(e).0, es).0.pipe.attempts <= |e.cfg.delayTimeList| + 1
  {
    AttemptsBounded(StartRun(e).0, es);
  }

  // ---------------------------------------------------------------------
  // Weak references

  /** With no operation listener behind its weak reference (never set or
      collected) the operation is never invoked, restarts included. */
  lemma {:induction false} NoListenerNoAttempt<T, F, S>(e: AppEngine<T, F, S>, es: seq<AppEvent<F, S>>)
    requires ValidEngine(e) && !ListenerAlive(e.cfg)
    ensures var r := Run(e, es);
      !ListenerAlive(r.0.cfg) && forall i | 0 <= i < |r.1| :: r.1[i] != Attempted
    decreases |es|
  {
    if es != [] {
      var step := Step(e, es[0]);
      NoListenerNoAttempt(step.0, es[1..]);
      var acts := [step.1] + Run(step.0, es[1..]).1;
      assert forall i | 1 <= i < |acts| :: acts[i] == Run(step.0, es[1..]).1[i - 1];
    }
  }

  /** With no final callback behind its weak reference, nothing is ever
      delivered, whatever the operation reports. */
  lemma {:induction false} NoCallBackNothingDelivered<T, F, S>(e: AppEngine<T, F, S>, es: seq<AppEvent<F, S>>)
    requires ValidEngine(e) && Deref(e.cfg.finalCallBackWeakRef).None?
    ensures var r := Run(e, es);
      Deref(r.0.cfg.finalCallBackWeakRef).None? && r.0.delivered == e.delivered
    decreases |es|
  {
    if es != [] {
      NoCallBackNothingDelivered(Step(e, es[0]).0, es[1..]);
    }
  }

  // ---------------------------------------------------------------------
  // A permanently failing operation, and success

  function FailRounds<F, S>(fs: seq<F>): (r: seq<AppEvent<F, S>>)
    ensures |r| == 2 * |fs|
  {
    if fs == [] then [] else [AttemptFailed(fs[0]), TimerElapsed] + FailRounds(fs[1..])
  }

  function RetryActions<F, S>(ds: seq<nat>): seq<AppAction<F, S>> {
    if ds == [] then [] else [Retry(ds[0]), Attempted] + RetryActions(ds[1..])
  }

  lemma {:induction false} RetryActionsDelays<F, S>(ds: seq<nat>)
    ensures RetryDelays(RetryActions<F, S>(ds)) == ds
    decreases |ds|
  {
    if ds != [] {
      RetryActionsDelays<F, S>(ds[1..]);
      RetryDelaysAppend<F, S>([Retry(ds[0]), Attempted], RetryActions(ds[1..]));
      var two: seq<AppAction<F, S>> := [Retry(ds[0]), Attempted];
      assert two[1..] == [Attempted];
    }
  }

  /** A start with a live listener makes the first attempt at once. */
  lemma StartMakesFirstAttempt<T, F, S>(e: AppEngine<T, F, S>)
    requires ValidEngine(e) && ListenerAlive(e.cfg)
    ensures Run(e, [Start]) ==
      (e.(count := 0, pipe := Pipe(e.cfg.delayTimeList, 0, Attempting, Open, true, 1)), [Attempted])
  {
    RunOne(e, Start);
  }

  /** One failure within budget and its retry timer. */
  lemma OneFailRound<T, F, S>(e: AppEngine<T, F, S>, f: F)
    requires ValidEngine(e) && ListenerAlive(e.cfg) && e.count < |e.cfg.delayTimeList|
    requires e.pipe == Pipe(e.cfg.delayTimeList, e.count, Attempting, Open, true, e.pipe.attempts)
    ensures Run(e, [AttemptFailed(f), TimerElapsed]) ==
      (e.(count := e.count + 1, pipe := e.pipe.(zipped := e.count + 1, attempts := e.pipe.attempts + 1)),
       [Retry(e.cfg.delayTimeList[e.count]), Attempted])
  {
    var mid := e.(count := e.count + 1,
                  pipe := e.pipe.(zipped := e.count + 1, phase := RetryWait(e.cfg.delayTimeList[e.count]),
                                  emitter := Closed, awaiting := false));
    FailureWithinBudget(e, f);
    RetryTimerFires(mid);
    RunTwo(e, AttemptFailed(f), TimerElapsed);
  }

  /** A failure within budget on a live emitter counts once and retries
      after the next delay of the list. */
  lemma FailureWithinBudget<T, F, S>(e: AppEngine<T, F, S>, f: F)
    requires ValidEngine(e)
    requires e.pipe.phase == Attempting && e.pipe.emitter == Open && e.pipe.awaiting
    requires e.pipe.schedule == e.cfg.delayTimeList && e.count == e.pipe.zipped
    requires e.pipe.zipped < |e.cfg.delayTimeList|
    ensures Step(e, AttemptFailed(f)) ==
      (e.(count := e.count + 1,
          pipe := e.pipe.(zipped := e.pipe.zipped + 1, phase := RetryWait(e.cfg.delayTimeList[e.pipe.zipped]),
                          emitter := Closed, awaiting := false)),
       Retry(e.cfg.delayTimeList[e.pipe.zipped]))
  {
  }

  /** A retry timer with a live listener starts one more attempt. */
  lemma RetryTimerFires<T, F, S>(e: AppEngine<T, F, S>)
    requires ValidEngine(e) && ListenerAlive(e.cfg) && e.pipe.phase.RetryWait?
    ensures Step(e, TimerElapsed) ==
      (e.(pipe := e.pipe.(phase := Attempting, emitter := Open, awaiting := true, attempts := e.pipe.attempts + 1)),
       Attempted)
  {
  }

  /** The first of several failure rounds, in front of the run of the rest. */
  lemma FirstFailRound<T, F, S>(e: AppEngine<T, F, S>, fs: seq<F>, rest: (AppEngine<T, F, S>, seq<AppAction<F, S>>))
    requires ValidEngine(e) && ListenerAlive(e.cfg) && 0 < |fs| && e.count < |e.cfg.delayTimeList|
    requires e.pipe == Pipe(e.cfg.delayTimeList, e.count, Attempting, Open, true, e.pipe.attempts)
    requires rest == Run(e.(count := e.count + 1, pipe := e.pipe.(zipped := e.count + 1, attempts := e.pipe.attempts + 1)),
                         FailRounds(fs[1..]))
    ensures Run(e, FailRounds(fs)) == (rest.0, [Retry(e.cfg.delayTimeList[e.count]), Attempted] + rest.1)
  {
    var round: seq<AppEvent<F, S>> := [AttemptFailed(fs[0]), TimerElapsed];
    assert FailRounds<F, S>(fs) == round + FailRounds(fs[1..]);
    OneFailRound(e, fs[0]);
    ComposeRuns(e, round, FailRounds(fs[1..]), Run(e, round), rest);
  }

  /** While the budget lasts, each failure counts once, retries after the
      next delay of the list, and the timer starts one more attempt. */
  lemma {:induction false} FailRoundsRetry<T, F, S>(e: AppEngine<T, F, S>, fs: seq<F>)
    requires ValidEngine(e) && ListenerAlive(e.cfg) && e.count + |fs| <= |e.cfg.delayTimeList|
    requires e.pipe == Pipe(e.cfg.delayTimeList, e.count, Attempting, Open, true, e.pipe.attempts)
    ensures Run(e, FailRounds(fs)) ==
      (e.(count := e.count + |fs|, pipe := e.pipe.(zipped := e.count + |fs|, attempts := e.pipe.attempts + |fs|)),
       RetryActions(e.cfg.delayTimeList[e.count..e.count + |fs|]))
    decreases |fs|
  {
    var k := e.count;
    if fs == [] {
      assert FailRounds<F, S>(fs) == [];
      assert e.cfg.delayTimeList[k..k] == [];
    } else {
      var next := e.(count := k + 1, pipe := e.pipe.(zipped := k + 1, attempts := e.pipe.attempts + 1));
      FirstFailRound(e, fs, Run(next, FailRounds(fs[1..])));
      FailRoundsRetry(next, fs[1..]);
      RetryActionsSliceHead<F, S>(e.cfg.delayTimeList, k, |fs|);
    }
  }

  /** Retrying after the delays `s[k..k+n]` is retrying after `s[k]` and then
      after the rest of the slice. */
  lemma RetryActionsSliceHead<F, S>(s: seq<nat>, k: nat, n: nat)
    requires 0 < n && k + n <= |s|
    ensures RetryActions<F, S>(s[k..k + n]) == [Retry(s[k]), Attempted] + RetryActions(s[k + 1..k + n])
  {
    var ds := s[k..k + n];
    assert ds[0] == s[k];
    assert ds[1..] == s[k + 1..k + n];
  }

  /** Started with a live listener, k failures within budget retry after the
      first k delays in order and leave the (k+1)-th attempt running. */
  lemma StartThenFailRounds<T, F, S>(e: AppEngine<T, F, S>, fs: seq<F>)
    requires ValidEngine(e) && ListenerAlive(e.cfg) && |fs| <= |e.cfg.delayTimeList|
    ensures var r := Run(e, [Start] + FailRounds(fs));
      r.0 == e.(count := |fs|, pipe := Pipe(e.cfg.delayTimeList, |fs|, Attempting, Open, true, |fs| + 1)) &&
      r.1 == [Attempted] + RetryActions(e.cfg.delayTimeList[..|fs|])
  {
    var head: seq<AppEvent<F, S>> := [Start];
    RunAppend(e, head, FailRounds(fs));
    StartMakesFirstAttempt(e);
    FailRoundsRetry(Run(e, head).0, fs);
    assert e.cfg.delayTimeList[0..|fs|] == e.cfg.delayTimeList[..|fs|];
  }

  /** On a live emitter the failure past the budget is emitted and reaches
      the final callback's `onFailed`. */
  lemma LastFailureDelivered<T, F, S>(e: AppEngine<T, F, S>, last: F)
    requires ValidEngine(e) && e.inbox == [] && Deref(e.cfg.finalCallBackWeakRef).Some?
    requires e.pipe.emitter == Open && e.count == |e.cfg.delayTimeList|
    ensures var r := Run(e, [AttemptFailed(last), DeliveryTick]);
      r.0.count == e.count + 1 && r.0.pipe.attempts == e.pipe.attempts && r.0.inbox == [] &&
      r.0.delivered == e.delivered + [OnFailed(FailedBean(last))] &&
      r.1 == [Emitted(OnNextResultBean(false, FailedBean(last))), Delivered(OnFailed(FailedBean(last)))]
  {
    RunTwo(e, AttemptFailed(last), DeliveryTick);
  }

  function PermanentFailure<F, S>(fs: seq<F>, last: F): seq<AppEvent<F, S>> {
    [Start] + FailRounds(fs) + [AttemptFailed(last), DeliveryTick]
  }

  /** A permanently failing operation is attempted |delayTimeList| + 1 times,
      the retries wait the delays in order, and the last failure reaches the
      final callback's `onFailed`. */
  lemma PermanentFailureExhausts<T, F, S>(e: AppEngine<T, F, S>, fs: seq<F>, last: F)
    requires ValidEngine(e) && e.inbox == []
    requires ListenerAlive(e.cfg) && Deref(e.cfg.finalCallBackWeakRef).Some?
    requires |fs| == |e.cfg.delayTimeList|
    ensures var r := Run(e, PermanentFailure(fs, last));
      r.0.pipe.attempts == |e.cfg.delayTimeList| + 1 && r.0.count == |e.cfg.delayTimeList| + 1 &&
      r.0.delivered == e.delivered + [OnFailed(FailedBean(last))] && r.0.inbox == [] &&
      RetryDelays(r.1) == e.cfg.delayTimeList
  {
    var head: seq<AppEvent<F, S>> := [Start] + FailRounds(fs);
    var tail: seq<AppEvent<F, S>> := [AttemptFailed(last), DeliveryTick];
    var m := Run(e, head);
    RunAppend(e, head, tail);
    StartThenFailRounds(e, fs);
    assert e.cfg.delayTimeList[..|fs|] == e.cfg.delayTimeList;
    LastFailureDelivered(m.0, last);
    ActionDelays([Attempted], RetryActions(e.cfg.delayTimeList), Run(m.0, tail).1, e.cfg.delayTimeList);
  }

  lemma ActionDelays<F, S>(h: seq<AppAction<F, S>>, m: seq<AppAction<F, S>>, t: seq<AppAction<F, S>>, delays: seq<nat>)
    requires h == [Attempted] && m == RetryActions(delays)
    requires forall i | 0 <= i < |t| :: !t[i].Retry?
    ensures RetryDelays((h + m) + t) == delays
  {
    RetryActionsDelays<F, S>(delays);
    NonRetryDelays(h);
    NonRetryDelays(t);
    RetryDelaysAppend(h, m);
    RetryDelaysAppend(h + m, t);
  }

  /** The chain completes (and disposes the last attempt's emitter) before
      the last failure arrives: the failed result is dropped with the
      emitter, and the final callback never runs. */
  lemma LastFailureLostOnClosedEmitter<T, F, S>(e: AppEngine<T, F, S>, last: F)
    requires ValidEngine(e) && e.inbox == []
    requires e.pipe.phase == Attempting && e.pipe.zipped == |e.pipe.schedule| && e.count == |e.cfg.delayTimeList|
    ensures var r := Run(e, [ChainCompleted, AttemptFailed(last), DeliveryTick]);
      r.0.delivered == e.delivered && r.0.inbox == [] && r.0.pipe.attempts == e.pipe.attempts &&
      r.1 == [Nothing, Nothing, Nothing]
  {
    var z1: seq<AppEvent<F, S>> := [ChainCompleted];
    var z2: seq<AppEvent<F, S>> := [AttemptFailed(last), DeliveryTick];
    assert z1 + z2 == [ChainCompleted, AttemptFailed(last), DeliveryTick];
    RunAppend(e, z1, z2);
    RunOne(e, ChainCompleted);
    RunTwo(Step(e, ChainCompleted).0, AttemptFailed(last), DeliveryTick);
  }

  function FailureAfterCompletion<F, S>(fs: seq<F>, last: F): seq<AppEvent<F, S>> {
    [Start] + FailRounds(fs) + [ChainCompleted, AttemptFailed(last), DeliveryTick]
  }

  /** Unlike the library, which hands the last failure to the final callback
      directly, this helper loses it whenever the chain has completed first:
      |delayTimeList| + 1 attempts, and the final callback is never called. */
  lemma PermanentFailureLostAfterCompletion<T, F, S>(e: AppEngine<T, F, S>, fs: seq<F>, last: F)
    requires ValidEngine(e) && e.inbox == [] && ListenerAlive(e.cfg)
    requires |fs| == |e.cfg.delayTimeList|
    ensures var r := Run(e, FailureAfterCompletion(fs, last));
      r.0.pipe.attempts == |e.cfg.delayTimeList| + 1 && r.0.delivered == e.delivered && r.0.inbox == []
  {
    var head: seq<AppEvent<F, S>> := [Start] + FailRounds(fs);
    var tail: seq<AppEvent<F, S>> := [ChainCompleted, AttemptFailed(last), DeliveryTick];
    RunAppend(e, head, tail);
    StartThenFailRounds(e, fs);
    LastFailureLostOnClosedEmitter(Run(e, head).0, last);
  }

  /** A success on a live emitter reaches the final callback's `onSuccess`. */
  lemma SuccessDelivered<T, F, S>(e: AppEngine<T, F, S>, s: S)
    requires ValidEngine(e) && e.inbox == [] && Deref(e.cfg.finalCallBackWeakRef).Some?
    requires e.pipe.emitter == Open
    ensures var r := Run(e, [AttemptSucceeded(s), DeliveryTick]);
      r.0.count == e.count && r.0.pipe.attempts == e.pipe.attempts && r.0.inbox == [] &&
      r.0.pipe.phase == Finished && r.0.pipe.emitter == Closed &&
      r.0.delivered == e.delivered + [OnSuccess(SuccessBean(s))] &&
      r.1 == [Emitted(OnNextResultBean(true, SuccessBean(s))), Delivered(OnSuccess(SuccessBean(s)))]
  {
    RunTwo(e, AttemptSucceeded(s), DeliveryTick);
  }

  function SuccessAfter<F, S>(fs: seq<F>, s: S): seq<AppEvent<F, S>> {
    [Start] + FailRounds(fs) + [AttemptSucceeded(s), DeliveryTick]
  }

  /** After k failures within budget the (k+1)-th attempt succeeds: the
      retries waited the first k delays and `onSuccess` gets the bean. */
  lemma SuccessOnAttempt<T, F, S>(e: AppEngine<T, F, S>, fs: seq<F>, s: S)
    requires ValidEngine(e) && e.inbox == []
    requires ListenerAlive(e.cfg) && Deref(e.cfg.finalCallBackWeakRef).Some?
    requires |fs| <= |e.cfg.delayTimeList|
    ensures var r := Run(e, SuccessAfter(fs, s));
      r.0.pipe.attempts == |fs| + 1 && r.0.count == |fs| &&
      r.0.pipe.phase == Finished && r.0.pipe.emitter != Open &&
      r.0.delivered == e.delivered + [OnSuccess(SuccessBean(s))] && r.0.inbox == [] &&
      RetryDelays(r.1) == e.cfg.delayTimeList[..|fs|]
  {
    var head: seq<AppEvent<F, S>> := [Start] + FailRounds(fs);
    var tail: seq<AppEvent<F, S>> := [AttemptSucceeded(s), DeliveryTick];
    var m := Run(e, head);
    RunAppend(e, head, tail);
    StartThenFailRounds(e, fs);
    SuccessDelivered(m.0, s);
    ActionDelays([Attempted], RetryActions(e.cfg.delayTimeList[..|fs|]), Run(m.0, tail).1, e.cfg.delayTimeList[..|fs|]);
  }

  /** A finished chain whose emitter is no longer open stays so under every
      event but a start, and no such event invokes the operation. */
  lemma FinishedStep<T, F, S>(e: AppEngine<T, F, S>, ev: AppEvent<F, S>)
    requires ValidEngine(e) && e.pipe.phase == Finished && e.pipe.emitter != Open && !ev.Start?
    ensures var r := Step(e, ev);
      r.0.pipe.phase == Finished && r.0.pipe.emitter != Open && r.1 != Attempted
  {
  }

  /** Once the chain has finished, nothing short of a new start invokes the
      operation again, whatever else happens. */
  lemma {:induction false} FinishedNoMoreAttempts<T, F, S>(e: AppEngine<T, F, S>, es: seq<AppEvent<F, S>>)
    requires ValidEngine(e) && e.pipe.phase == Finished && e.pipe.emitter != Open && NoStart(es)
    ensures var r := Run(e, es);
      r.0.pipe.phase == Finished && r.0.pipe.attempts == e.pipe.attempts &&
      forall i | 0 <= i < |r.1| :: r.1[i] != Attempted
    decreases |es|
  {
    if es != [] {
      var step := Step(e, es[0]);
      NoStartTail(es);
      FinishedStep(e, es[0]);
      FinishedNoMoreAttempts(step.0, es[1..]);
      var acts := [step.1] + Run(step.0, es[1..]).1;
      assert forall i | 1 <= i < |acts| :: acts[i] == Run(step.0, es[1..]).1[i - 1];
    }
  }

  /** A run that has finished the chain, followed by events without a start:
      the continuation attempts nothing. */
  lemma NothingAttemptedAfterFinish<T, F, S>(e: AppEngine<T, F, S>, xs: seq<AppEvent<F, S>>, es: seq<AppEvent<F, S>>)
    requires ValidEngine(e) && NoStart(es)
    requires Run(e, xs).0.pipe.phase == Finished && Run(e, xs).0.pipe.emitter != Open
    ensures var r := Run(e, xs + es);
      r.0.pipe.attempts == Run(e, xs).0.pipe.attempts && forall i | |xs| <= i < |r.1| :: r.1[i] != Attempted
  {
    var m := Run(e, xs);
    var t := Run(m.0, es);
    ComposeRuns(e, xs, es, m, t);
    FinishedNoMoreAttempts(m.0, es);
    NoAttemptInSuffix(m.1, t.1);
  }

  /** Appending actions none of which is an attempt adds no attempt. */
  lemma NoAttemptInSuffix<F, S>(head: seq<AppAction<F, S>>, tail: seq<AppAction<F, S>>)
    requires forall i | 0 <= i < |tail| :: tail[i] != Attempted
    ensures forall i | |head| <= i < |head + tail| :: (head + tail)[i] != Attempted
  {
    forall i | |head| <= i < |head + tail| ensures (head + tail)[i] != Attempted {
      assert (head + tail)[i] == tail[i - |head|];
    }
  }

  /** An operation that succeeds on attempt k + 1 is invoked exactly k + 1
      times: whatever follows the success, short of a new start, makes no
      further attempt. */
  lemma NoAttemptAfterSuccess<T, F, S>(e: AppEngine<T, F, S>, fs: seq<F>, s: S, es: seq<AppEvent<F, S>>)
    requires ValidEngine(e) && e.inbox == []
    requires ListenerAlive(e.cfg) && Deref(e.cfg.finalCallBackWeakRef).Some?
    requires |fs| <= |e.cfg.delayTimeList| && NoStart(es)
    ensures var n := |SuccessAfter<F, S>(fs, s)|; var r := Run(e, SuccessAfter(fs, s) + es);
      r.0.pipe.attempts == |fs| + 1 && forall i | n <= i < |r.1| :: r.1[i] != Attempted
  {
    SuccessOnAttempt(e, fs, s);
    NothingAttemptedAfterFinish(e, SuccessAfter(fs, s), es);
  }

  /** When the owner is destroyed while an attempt runs and that attempt then
      fails within budget, the retry error is signalled on a disposed
      emitter and goes to RxJava's global error handler. */
  lemma DisposedRetrySignalIsUndeliverable<T, F, S>(e: AppEngine<T, F, S>, f: F)
    requires ValidEngine(e) && e.cfg.owner.Some?
    requires e.pipe.emitter == Open && e.count + 1 <= |e.cfg.delayTimeList|
    ensures Run(e, [OwnerDestroyed, AttemptFailed(f)]).1 == [Nothing, Undeliverable]
  {
    RunTwo(e, OwnerDestroyed, AttemptFailed(f));
  }

  // ---------------------------------------------------------------------
  // At most one final callback per run

  /** As for the library: no second start, and the operation reports only
      for an attempt that is running and has not reported yet. */
  predicate Allowed<T, F, S>(e: AppEngine<T, F, S>, ev: AppEvent<F, S>) {
    !ev.Start? && (ev.AttemptFailed? || ev.AttemptSucceeded? ==> e.pipe.awaiting)
  }

  predicate WellBehaved<T, F, S>(e: AppEngine<T, F, S>, es: seq<AppEvent<F, S>>)
    requires ValidEngine(e)
    decreases |es|
  {
    es == [] || (Allowed(e, es[0]) && WellBehaved(Step(e, es[0]).0, es[1..]))
  }

  /** Queued plus delivered results number at most one, and once a result is
      out the chain has finished with no attempt still to report. */
  ghost predicate OnceInv<T, F, S>(e: AppEngine<T, F, S>) {
    var out := |e.inbox| + |e.delivered|;
    out <= 1 &&
    (e.pipe.awaiting ==> e.pipe.phase == Attempting || e.pipe.phase == Finished) &&
    (out == 1 ==> !e.pipe.awaiting && e.pipe.phase == Finished)
  }

  lemma StepKeepsOnceInv<T, F, S>(e: AppEngine<T, F, S>, ev: AppEvent<F, S>)
    requires ValidEngine(e) && OnceInv(e) && Allowed(e, ev)
    ensures OnceInv(Step(e, ev).0)
  {
    match ev
    case AttemptFailed(f) =>
      var e1 := e.(pipe := CallbackArrived(e.pipe));
      assert |e1.inbox| + |e1.delivered| == 0;
    case AttemptSucceeded(s) =>
      var e1 := e.(pipe := CallbackArrived(e.pipe));
      assert |e1.inbox| + |e1.delivered| == 0;
    case _ =>
  }

  lemma {:induction false} OnceInvKept<T, F, S>(e: AppEngine<T, F, S>, es: seq<AppEvent<F, S>>)
    requires ValidEngine(e) && OnceInv(e) && WellBehaved(e, es)
    ensures OnceInv(Run(e, es).0)
    decreases |es|
  {
    if es != [] {
      StepKeepsOnceInv(e, es[0]);
      OnceInvKept(Step(e, es[0]).0, es[1..]);
    }
  }

  /** A run started with nothing queued calls the final callback at most
      once. */
  lemma AtMostOneFinalCallback<T, F, S>(e: AppEngine<T, F, S>, es: seq<AppEvent<F, S>>)
    requires ValidEngine(e) && e.inbox == [] && e.delivered == []
    requires WellBehaved(StartRun(e).0, es)
    ensures |Run(StartRun(e).0, es).0.delivered| <= 1
  {
    OnceInvKept(StartRun(e).0, es);
  }
}
