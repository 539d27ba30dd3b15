/** Properties of the library engine over sequences of events. */
module LibraryTraces {
  import opened Common
  import opened Pipeline
  import opened LibraryBuilder
  import opened LibraryHelper

  /** The engine's state and actions after a sequence of events. */
  function Run<T, F, S>(cfg: Config<T>, e: Engine<F, S>, es: seq<Event<F, S>>): (r: (Engine<F, S>, seq<Action<F, S>>))
    requires ValidEngine(e)
    ensures ValidEngine(r.0) && |r.1| == |es|
    decreases |es|
  {
    if es == [] then (e, [])
    else
      var step := Step(cfg, e, es[0]);
      var rest := Run(cfg, step.0, es[1..]);
      (rest.0, [step.1] + rest.1)
  }

  /** Running two sequences one after the other is running their concatenation. */
  lemma {:induction false} RunAppend<T, F, S>(cfg: Config<T>, e: Engine<F, S>, xs: seq<Event<F, S>>, ys: seq<Event<F, S>>)
    requires ValidEngine(e)
    ensures Run(cfg, e, xs + ys).0 == Run(cfg, Run(cfg, e, xs).0, ys).0
    ensures Run(cfg, e, xs + ys).1 == Run(cfg, e, xs).1 + Run(cfg, Run(cfg, e, xs).0, ys).1
    decreases |xs|
  {
    if xs != [] {
      assert (xs + ys)[1..] == xs[1..] + ys;
      RunAppend(cfg, Step(cfg, e, xs[0]).0, xs[1..], ys);
    } else {
      assert xs + ys == ys;
    }
  }

  /** Running a single event is one step. */
  lemma RunOne<T, F, S>(cfg: Config<T>, e: Engine<F, S>, ev: Event<F, S>)
    requires ValidEngine(e)
    ensures Run(cfg, e, [ev]) == (Step(cfg, e, ev).0, [Step(cfg, e, ev).1])
  {
    var step := Step(cfg, e, ev);
    assert [ev][1..] == [];
    assert Run(cfg, step.0, []) == (step.0, []);
    assert [step.1] + [] == [step.1];
  }

  /** Running two events is two steps. */
  lemma RunTwo<T, F, S>(cfg: Config<T>, e: Engine<F, S>, ev1: Event<F, S>, ev2: Event<F, S>)
    requires ValidEngine(e)
    ensures Run(cfg, e, [ev1, ev2]) ==
      (Step(cfg, Step(cfg, e, ev1).0, ev2).0, [Step(cfg, e, ev1).1, Step(cfg, Step(cfg, e, ev1).0, ev2).1])
  {
    var s1 := Step(cfg, e, ev1);
    var es := [ev1, ev2];
    assert es[0] == ev1 && es[1..] == [ev2];
    RunOne(cfg, s1.0, ev2);
    var s2 := Step(cfg, s1.0, ev2);
    assert Run(cfg, e, es) == (Run(cfg, s1.0, [ev2]).0, [s1.1] + Run(cfg, s1.0, [ev2]).1);
    assert [s1.1] + [s2.1] == [s1.1, s2.1];
  }

  /** Two runs chained: the second starts where the first ended. */
  lemma ComposeRuns<T, F, S>(cfg: Config<T>, e: Engine<F, S>, xs: seq<Event<F, S>>, ys: seq<Event<F, S>>,
                             first: (Engine<F, S>, seq<Action<F, S>>), second: (Engine<F, S>, seq<Action<F, S>>))
    requires ValidEngine(e) && Run(cfg, e, xs) == first && Run(cfg, first.0, ys) == second
    ensures Run(cfg, e, xs + ys) == (second.0, first.1 + second.1)
  {
    RunAppend(cfg, e, xs, ys);
  }

  /** Running three sequences one after the other. */
  lemma RunThree<T, F, S>(cfg: Config<T>, e: Engine<F, S>, xs: seq<Event<F, S>>, ys: seq<Event<F, S>>, zs: seq<Event<F, S>>)
    requires ValidEngine(e)
    ensures var h := Run(cfg, e, xs); var m := Run(cfg, h.0, ys); var t := Run(cfg, m.0, zs);
      Run(cfg, e, xs + ys + zs) == (t.0, (h.1 + m.1) + t.1)
  {
    RunAppend(cfg, e, xs + ys, zs);
    RunAppend(cfg, e, xs, ys);
  }

  predicate NoStart<F, S>(es: seq<Event<F, S>>) {
    forall i | 0 <= i < |es| :: !es[i].Start?
  }

  /** The delays of the retries among `acts`, in order. AppTraces repeats
      this, RetryDelaysAppend and NonRetryDelays over the app's own actions. */
  function RetryDelays<F, S>(acts: seq<Action<F, S>>): seq<nat> {
    if acts == [] then []
    else (if acts[0].Retry? then [acts[0].delay] else []) + RetryDelays(acts[1..])
  }

  /** No final callback is queued or made among `acts`. */
  predicate Silent<F, S>(acts: seq<Action<F, S>>) {
    forall i | 0 <= i < |acts| :: !acts[i].Scheduled? && !acts[i].Delivered?
  }

  // ---------------------------------------------------------------------
  // The delay schedule

  /** One step other than a start: a retry's delay is the next entry of the
      schedule the chain walks, and only a retry advances it. */
  lemma StepFollowsSchedule<T, F, S>(cfg: Config<T>, e: Engine<F, S>, ev: Event<F, S>)
    requires ValidEngine(e) && !ev.Start?
    ensures var (e1, a) := Step(cfg, e, ev);
      e1.pipe.schedule == e.pipe.schedule &&
      (a.Retry? ==> e.pipe.zipped < |e.pipe.schedule| && a.delay == e.pipe.schedule[e.pipe.zipped]
                    && e1.pipe.zipped == e.pipe.zipped + 1) &&
      (!a.Retry? ==> e1.pipe.zipped == e.pipe.zipped)
  {
  }

  /** Over any run without a restart, the retries wait exactly the entries of
      the schedule in list order, one entry per retry, never beyond its end. */
  lemma {:induction false} RetriesFollowSchedule<T, F, S>(cfg: Config<T>, e: Engine<F, S>, es: seq<Event<F, S>>)
    requires ValidEngine(e) && NoStart(es)
    ensures var (e1, acts) := Run(cfg, e, es);
      e1.pipe.schedule == e.pipe.schedule && e.pipe.zipped <= e1.pipe.zipped <= |e.pipe.schedule| &&
      RetryDelays(acts) == e.pipe.schedule[e.pipe.zipped..e1.pipe.zipped]
    decreases |es|
  {
    if es != [] {
      var (e1, a) := Step(cfg, e, es[0]);
      StepFollowsSchedule(cfg, e, es[0]);
      assert NoStart(es[1..]) by {
        forall i | 0 <= i < |es[1..]| ensures !es[1..][i].Start? {
          assert es[1..][i] == es[i + 1];
        }
      }
      RetriesFollowSchedule(cfg, e1, es[1..]);
      var (e2, rest) := Run(cfg, e1, es[1..]);
      var acts := [a] + rest;
      assert acts[1..] == rest;
      if a.Retry? {
        assert e.pipe.schedule[e.pipe.zipped..e2.pipe.zipped]
            == [a.delay] + e.pipe.schedule[e1.pipe.zipped..e2.pipe.zipped];
      }
    }
  }

  /** From a start, the retries of a run are a prefix of the configured delay
      list, so there are at most as many retries as delays. */
  lemma RetriesArePrefixOfDelayList<T, F, S>(cfg: Config<T>, e: Engine<F, S>, es: seq<Event<F, S>>)
    requires ValidEngine(e) && NoStart(es)
    ensures var delays := RetryDelays(Run(cfg, StartRun(cfg, e), es).1);
      |delays| <= |cfg.delayTimeList| && delays == cfg.delayTimeList[..|delays|]
  {
    RetriesFollowSchedule(cfg, StartRun(cfg, e), es);
  }

  // ---------------------------------------------------------------------
  // The attempt bound

  lemma StepKeepsAttemptInv<T, F, S>(cfg: Config<T>, e: Engine<F, S>, ev: Event<F, S>)
    requires ValidEngine(e) && AttemptInv(e.pipe)
    ensures AttemptInv(Step(cfg, e, ev).0.pipe)
  {
  }

  /** However the operation behaves, a run makes at most one attempt more
      than its delay list has entries. */
  lemma {:induction false} AttemptsBounded<T, F, S>(cfg: Config<T>, e: Engine<F, S>, es: seq<Event<F, S>>)
    requires ValidEngine(e) && AttemptInv(e.pipe) && NoStart(es)
    ensures var e1 := Run(cfg, e, es).0;
      AttemptInv(e1.pipe) && e1.pipe.attempts <= |e.pipe.schedule| + 1
    decreases |es|
  {
    StepKeepsAttemptInv(cfg, e, if es == [] then StopNow else es[0]);
    if es != [] {
      var e1 := Step(cfg, e, es[0]).0;
      StepFollowsSchedule(cfg, e, es[0]);
      assert NoStart(es[1..]) by {
        forall i | 0 <= i < |es[1..]| ensures !es[1..][i].Start? {
          assert es[1..][i] == es[i + 1];
        }
      }
      AttemptsBounded(cfg, e1, es[1..]);
    }
  }

  /** From a start: at most |delayTimeList| + 1 attempts. */
  lemma AttemptsAtMostDelaysPlusOne<T, F, S>(cfg: Config<T>, e: Engine<F, S>, es: seq<Event<F, S>>)
    requires ValidEngine(e) && NoStart(es)
    ensures Run(cfg, StartRun(cfg, e), es).0.pipe.attempts <= |cfg.delayTimeList| + 1
  {
    AttemptsBounded(cfg, StartRun(cfg, e), es);
  }

  // ---------------------------------------------------------------------
  // A permanently failing operation

  /** Each failure followed by its retry timer. */
  function FailRounds<F, S>(fs: seq<F>): (r: seq<Event<F, S>>)
    ensures |r| == 2 * |fs|
  {
    if fs == [] then [] else [AttemptFailed(fs[0]), TimerElapsed] + FailRounds(fs[1..])
  }

  /** The actions of retrying after each delay of `ds`. */
  function RetryActions<F, S>(ds: seq<nat>): seq<Action<F, S>> {
    if ds == [] then [] else [Retry(ds[0]), Attempted] + RetryActions(ds[1..])
  }

  /** A failure within budget, on a live emitter, signals a retry after the
      next delay. */
  lemma FailureWithinBudget<T, F, S>(cfg: Config<T>, e: Engine<F, S>, f: F)
    requires ValidEngine(e) && e.disposable == Live && e.pipe.emitter == Open
    requires e.retryCount + 1 <= |cfg.delayTimeList| && e.pipe.zipped < |e.pipe.schedule|
    ensures Step(cfg, e, AttemptFailed(f)) ==
      (e.(retryCount := e.retryCount + 1,
          pipe := e.pipe.(awaiting := false, emitter := Closed, zipped := e.pipe.zipped + 1,
                          phase := RetryWait(e.pipe.schedule[e.pipe.zipped]))),
       Retry(e.pipe.schedule[e.pipe.zipped]))
  {
  }

  /** A pending retry timer fires and, with a listener, the operation runs again. */
  lemma RetryTimerFires<T, F, S>(cfg: Config<T>, e: Engine<F, S>)
    requires ValidEngine(e) && e.pipe.phase.RetryWait? && cfg.onDoOperationListener.Some?
    ensures Step(cfg, e, TimerElapsed) ==
      (e.(pipe := e.pipe.(phase := Attempting, emitter := Open, awaiting := true,
                          attempts := e.pipe.attempts + 1)), Attempted)
  {
  }

  /** One failure within budget and its retry timer. */
  lemma OneFailRound<T, F, S>(cfg: Config<T>, e: Engine<F, S>, f: F)
    requires ValidEngine(e) && cfg.onDoOperationListener.Some? && e.disposable == Live
    requires e.retryCount < |cfg.delayTimeList|
    requires e.pipe == Pipe(cfg.delayTimeList, e.retryCount, Attempting, Open, true, e.pipe.attempts)
    ensures Run(cfg, e, [AttemptFailed(f), TimerElapsed]) ==
      (e.(retryCount := e.retryCount + 1,
          pipe := e.pipe.(zipped := e.retryCount + 1, attempts := e.pipe.attempts + 1)),
       [Retry(cfg.delayTimeList[e.retryCount]), Attempted])
  {
    RunTwo(cfg, e, AttemptFailed(f), TimerElapsed);
    FailureWithinBudget(cfg, e, f);
    RetryTimerFires(cfg, Step(cfg, e, AttemptFailed(f)).0);
  }

  /** The first of several failure rounds, in front of the run of the rest. */
  lemma FirstFailRound<T, F, S>(cfg: Config<T>, e: Engine<F, S>, fs: seq<F>, rest: (Engine<F, S>, seq<Action<F, S>>))
    requires ValidEngine(e) && cfg.onDoOperationListener.Some? && e.disposable == Live
    requires 0 < |fs| && e.retryCount < |cfg.delayTimeList|
    requires e.pipe == Pipe(cfg.delayTimeList, e.retryCount, Attempting, Open, true, e.pipe.attempts)
    requires rest == Run(cfg, e.(retryCount := e.retryCount + 1,
                                 pipe := e.pipe.(zipped := e.retryCount + 1, attempts := e.pipe.attempts + 1)),
                         FailRounds(fs[1..]))
    ensures Run(cfg, e, FailRounds(fs)) == (rest.0, [Retry(cfg.delayTimeList[e.retryCount]), Attempted] + rest.1)
  {
    var round: seq<Event<F, S>> := [AttemptFailed(fs[0]), TimerElapsed];
    assert FailRounds<F, S>(fs) == round + FailRounds(fs[1..]);
    OneFailRound(cfg, e, fs[0]);
    ComposeRuns(cfg, e, round, FailRounds(fs[1..]), Run(cfg, e, round), rest);
  }

  /** While the budget lasts, each failure counts once, retries after the next
      delay of the list, and the timer starts one more attempt. */
  lemma {:induction false} FailRoundsRetry<T, F, S>(cfg: Config<T>, e: Engine<F, S>, fs: seq<F>)
    requires ValidEngine(e) && cfg.onDoOperationListener.Some? && e.disposable == Live
    requires e.retryCount + |fs| <= |cfg.delayTimeList|
    requires e.pipe == Pipe(cfg.delayTimeList, e.retryCount, Attempting, Open, true, e.pipe.attempts)
    ensures Run(cfg, e, FailRounds(fs)) ==
      (e.(retryCount := e.retryCount + |fs|,
          pipe := e.pipe.(zipped := e.retryCount + |fs|, attempts := e.pipe.attempts + |fs|)),
       RetryActions(cfg.delayTimeList[e.retryCount..e.retryCount + |fs|]))
    decreases |fs|
  {
    var k := e.retryCount;
    if fs == [] {
      assert FailRounds<F, S>(fs) == [];
      assert cfg.delayTimeList[k..k] == [];
    } else {
      var next := e.(retryCount := k + 1, pipe := e.pipe.(zipped := k + 1, attempts := e.pipe.attempts + 1));
      FirstFailRound(cfg, e, fs, Run(cfg, next, FailRounds(fs[1..])));
      FailRoundsRetry(cfg, next, fs[1..]);
      RetryActionsSliceHead<F, S>(cfg.delayTimeList, k, |fs|);
    }
  }

  /** Retrying after the delays `s[k..k+n]` is retrying after `s[k]` and then
      after the rest of the slice. */
  lemma RetryActionsSliceHead<F, S>(s: seq<nat>, k: nat, n: nat)
    requires 0 < n && k + n <= |s|
    ensures RetryActions<F, S>(s[k..k + n]) == [Retry(s[k]), Attempted] + RetryActions(s[k + 1..k + n])
  {
    var ds := s[k..k + n];
    assert ds[0] == s[k];
    assert ds[1..] == s[k + 1..k + n];
  }

  /** The run of a permanently failing operation: started, the first attempt
      fails, each delay of the list is waited in order before one more
      attempt, and the last of the |delayTimeList| + 1 failures is final. The
      chain may or may not complete before that last failure arrives. */
  function PermanentFailure<F, S>(fs: seq<F>, last: F, completedFirst: bool): seq<Event<F, S>> {
    [Start, TimerElapsed] + FailRounds(fs)
      + ((if completedFirst then [ChainCompleted] else []) + [AttemptFailed(last), DeliveryTick])
  }

  /** Starting and letting the start-up timer fire makes the first attempt. */
  lemma StartMakesFirstAttempt<T, F, S>(cfg: Config<T>, e: Engine<F, S>)
    requires ValidEngine(e) && cfg.onDoOperationListener.Some?
    ensures Run(cfg, e, [Start, TimerElapsed]) ==
      (Engine(0, false, Live, Pipe(cfg.delayTimeList, 0, Attempting, Open, true, 1), e.pending, e.delivered),
       [Nothing, Attempted])
  {
    RunTwo(cfg, e, Start, TimerElapsed);
  }

  /** The failure past the budget is queued and then delivered, whether or
      not the chain completed first. */
  lemma LastFailureDelivered<T, F, S>(cfg: Config<T>, e: Engine<F, S>, last: F, completedFirst: bool)
    requires ValidEngine(e) && cfg.finalCallBack.Some? && !e.isStopNow && e.pending == []
    requires e.retryCount == |cfg.delayTimeList|
    ensures var tail: seq<Event<F, S>> := (if completedFirst then [ChainCompleted] else []) + [AttemptFailed(last), DeliveryTick];
      var r := Run(cfg, e, tail);
      r.0.retryCount == e.retryCount + 1 && r.0.pipe.attempts == e.pipe.attempts &&
      r.0.pending == [] && r.0.delivered == e.delivered + [Failed(last)] &&
      r.1 == (if completedFirst then [Nothing] else []) + [Scheduled(Failed(last)), Delivered(Failed(last))]
  {
    var e1 := if completedFirst then e.(pipe := Complete(e.pipe)) else e;
    RunTwo(cfg, e1, AttemptFailed(last), DeliveryTick);
    if completedFirst {
      RunOne(cfg, e, ChainCompleted);
      RunAppend(cfg, e, [ChainCompleted], [AttemptFailed(last), DeliveryTick]);
    } else {
      var two: seq<Event<F, S>> := [AttemptFailed(last), DeliveryTick];
      assert [] + two == two;
    }
  }

  lemma PermanentFailureExhausts<T, F, S>(cfg: Config<T>, e: Engine<F, S>, fs: seq<F>, last: F, completedFirst: bool)
    requires ValidEngine(e) && e.pending == []
    requires cfg.onDoOperationListener.Some? && cfg.finalCallBack.Some?
    requires |fs| == |cfg.delayTimeList|
    ensures var r := Run(cfg, e, PermanentFailure(fs, last, completedFirst));
      r.0.pipe.attempts == |cfg.delayTimeList| + 1 &&
      r.0.retryCount == |cfg.delayTimeList| + 1 &&
      r.0.delivered == e.delivered + [Failed(last)] && r.0.pending == [] &&
      RetryDelays(r.1) == cfg.delayTimeList &&
      r.1[|r.1| - 2..] == [Scheduled(Failed(last)), Delivered(Failed(last))]
  {
    var n := |cfg.delayTimeList|;
    var head: seq<Event<F, S>> := [Start, TimerElapsed];
    var tail: seq<Event<F, S>> := (if completedFirst then [ChainCompleted] else []) + [AttemptFailed(last), DeliveryTick];
    var h := Run(cfg, e, head);
    var m := Run(cfg, h.0, FailRounds(fs));
    var t := Run(cfg, m.0, tail);
    RunThree(cfg, e, head, FailRounds(fs), tail);
    StartMakesFirstAttempt(cfg, e);
    FailRoundsRetry(cfg, h.0, fs);
    assert cfg.delayTimeList[0..n] == cfg.delayTimeList;
    LastFailureDelivered(cfg, m.0, last, completedFirst);
    FailureActions(h.1, m.1, t.1, cfg.delayTimeList, last, completedFirst);
  }

  /** The actions of a permanent failure: no retry outside the rounds, and the
      final failure scheduled and delivered last. */
  lemma FailureActions<F, S>(h: seq<Action<F, S>>, m: seq<Action<F, S>>, t: seq<Action<F, S>>,
                             delays: seq<nat>, last: F, completedFirst: bool)
    requires h == [Nothing, Attempted] && m == RetryActions(delays)
    requires t == (if completedFirst then [Nothing] else []) + [Scheduled(Failed(last)), Delivered(Failed(last))]
    ensures RetryDelays((h + m) + t) == delays
    ensures var all := (h + m) + t; all[|all| - 2..] == [Scheduled(Failed(last)), Delivered(Failed(last))]
  {
    RetryActionsDelays<F, S>(delays);
    NonRetryDelays(h);
    NonRetryDelays(t);
    RetryDelaysAppend(h, m);
    RetryDelaysAppend(h + m, t);
  }

  lemma {:induction false} RetryDelaysAppend<F, S>(xs: seq<Action<F, S>>, ys: seq<Action<F, S>>)
    ensures RetryDelays(xs + ys) == RetryDelays(xs) + RetryDelays(ys)
    decreases |xs|
  {
    if xs == [] {
      assert xs + ys == ys;
    } else {
      var h := if xs[0].Retry? then [xs[0].delay] else [];
      assert (xs + ys)[0] == xs[0] && (xs + ys)[1..] == xs[1..] + ys;
      assert RetryDelays(xs + ys) == h + RetryDelays(xs[1..] + ys);
      RetryDelaysAppend(xs[1..], ys);
      assert h + (RetryDelays(xs[1..]) + RetryDelays(ys)) == (h + RetryDelays(xs[1..])) + RetryDelays(ys);
    }
  }

  lemma {:induction false} RetryActionsDelays<F, S>(ds: seq<nat>)
    ensures RetryDelays(RetryActions<F, S>(ds)) == ds
    decreases |ds|
  {
    if ds != [] {
      var r := RetryActions<F, S>(ds);
      RetryActionsDelays<F, S>(ds[1..]);
      RetryDelaysAppend<F, S>([Retry(ds[0]), Attempted], RetryActions(ds[1..]));
      var two: seq<Action<F, S>> := [Retry(ds[0]), Attempted];
      assert two[1..] == [Attempted];
    }
  }

  lemma {:induction false} NonRetryDelays<F, S>(acts: seq<Action<F, S>>)
    requires forall i | 0 <= i < |acts| :: !acts[i].Retry?
    ensures RetryDelays(acts) == []
    decreases |acts|
  {
    if acts != [] {
      NonRetryDelays(acts[1..]);
    }
  }

  // ---------------------------------------------------------------------
  // The stop gate

  /** After `stopNow()`, and as long as no new run is started, the final
      callback is never called and nothing is even queued for it. */
  lemma {:induction false} NothingDeliveredAfterStop<T, F, S>(cfg: Config<T>, e: Engine<F, S>, es: seq<Event<F, S>>)
    requires ValidEngine(e) && NoStart(es)
    ensures var r := Run(cfg, StopStep(e), es);
      r.0.isStopNow && r.0.delivered == e.delivered && Silent(r.1)
  {
    StoppedStaysSilent(cfg, StopStep(e), es);
  }

  lemma {:induction false} StoppedStaysSilent<T, F, S>(cfg: Config<T>, e: Engine<F, S>, es: seq<Event<F, S>>)
    requires ValidEngine(e) && e.isStopNow && NoStart(es)
    ensures var r := Run(cfg, e, es);
      r.0.isStopNow && r.0.delivered == e.delivered && Silent(r.1)
    decreases |es|
  {
    if es != [] {
      var step := Step(cfg, e, es[0]);
      assert NoStart(es[1..]) by {
        forall i | 0 <= i < |es[1..]| ensures !es[1..][i].Start? {
          assert es[1..][i] == es[i + 1];
        }
      }
      StoppedStaysSilent(cfg, step.0, es[1..]);
      var acts := [step.1] + Run(cfg, step.0, es[1..]).1;
      assert forall i | 1 <= i < |acts| :: acts[i] == Run(cfg, step.0, es[1..]).1[i - 1];
    }
  }

  /** Calling `stopNow()` a second time changes nothing further. */
  lemma StopNowIdempotent<T, F, S>(cfg: Config<T>, e: Engine<F, S>)
    requires ValidEngine(e)
    ensures Run(cfg, e, [StopNow, StopNow]) == (Run(cfg, e, [StopNow]).0, [Nothing, Nothing])
  {
    RunOne(cfg, e, StopNow);
    RunTwo(cfg, e, StopNow, StopNow);
  }

  /** Without a final callback configured, no run ever queues or makes one. */
  lemma {:induction false} NoFinalCallBackIsSilent<T, F, S>(cfg: Config<T>, e: Engine<F, S>, es: seq<Event<F, S>>)
    requires ValidEngine(e) && cfg.finalCallBack.None?
    ensures var r := Run(cfg, e, es); r.0.delivered == e.delivered && Silent(r.1)
    decreases |es|
  {
    if es != [] {
      var step := Step(cfg, e, es[0]);
      NoFinalCallBackIsSilent(cfg, step.0, es[1..]);
      var acts := [step.1] + Run(cfg, step.0, es[1..]).1;
      assert forall i | 1 <= i < |acts| :: acts[i] == Run(cfg, step.0, es[1..]).1[i - 1];
    }
  }

  // ---------------------------------------------------------------------
  // The operation listener

  /** Without an operation listener the operation is never invoked: no run
      makes an attempt, whatever happens. */
  lemma {:induction false} NoListenerNoAttempt<T, F, S>(cfg: Config<T>, e: Engine<F, S>, es: seq<Event<F, S>>)
    requires ValidEngine(e) && cfg.onDoOperationListener.None? && NoStart(es)
    ensures var r := Run(cfg, e, es);
      r.0.pipe.attempts == e.pipe.attempts && forall i | 0 <= i < |r.1| :: r.1[i] != Attempted
    decreases |es|
  {
    if es != [] {
      var step := Step(cfg, e, es[0]);
      assert NoStart(es[1..]) by {
        forall i | 0 <= i < |es[1..]| ensures !es[1..][i].Start? {
          assert es[1..][i] == es[i + 1];
        }
      }
      NoListenerNoAttempt(cfg, step.0, es[1..]);
      var acts := [step.1] + Run(cfg, step.0, es[1..]).1;
      assert forall i | 1 <= i < |acts| :: acts[i] == Run(cfg, step.0, es[1..]).1[i - 1];
    }
  }

  // ---------------------------------------------------------------------
  // Success

  /** The run of an operation that fails `|fs|` times within budget and then
      succeeds, with the success delivered. */
  function SuccessAfter<F, S>(fs: seq<F>, s: S): seq<Event<F, S>> {
    [Start, TimerElapsed] + FailRounds(fs) + [AttemptSucceeded(s), DeliveryTick]
  }

  /** A success on a live attempt is final at once and reaches the final
      callback, and the chain ends. */
  lemma SuccessDelivered<T, F, S>(cfg: Config<T>, e: Engine<F, S>, s: S)
    requires ValidEngine(e) && CanCallBack(cfg, e) && e.pending == []
    requires e.disposable == Live && e.pipe.phase == Attempting && e.pipe.emitter == Open
    ensures var r := Run(cfg, e, [AttemptSucceeded(s), DeliveryTick]);
      r.0.pipe.phase == Finished && r.0.pipe.emitter == Closed &&
      r.0.pending == [] && r.0.delivered == e.delivered + [Succeeded(s)] &&
      r.0.pipe.attempts == e.pipe.attempts && r.0.retryCount == e.retryCount &&
      r.1 == [Scheduled(Succeeded(s)), Delivered(Succeeded(s))]
  {
    RunTwo(cfg, e, AttemptSucceeded(s), DeliveryTick);
  }

  /** After k failures within budget the (k+1)-th attempt succeeds: the
      retries waited the first k delays in order and the success, and only
      the success, is delivered. */
  lemma SuccessOnAttempt<T, F, S>(cfg: Config<T>, e: Engine<F, S>, fs: seq<F>, s: S)
    requires ValidEngine(e) && e.pending == []
    requires cfg.onDoOperationListener.Some? && cfg.finalCallBack.Some?
    requires |fs| <= |cfg.delayTimeList|
    ensures var r := Run(cfg, e, SuccessAfter(fs, s));
      r.0.pipe.attempts == |fs| + 1 && r.0.retryCount == |fs| &&
      r.0.pipe.phase == Finished && r.0.pipe.emitter != Open &&
      r.0.delivered == e.delivered + [Succeeded(s)] && r.0.pending == [] &&
      RetryDelays(r.1) == cfg.delayTimeList[..|fs|] &&
      r.1[|r.1| - 2..] == [Scheduled(Succeeded(s)), Delivered(Succeeded(s))]
  {
    var head: seq<Event<F, S>> := [Start, TimerElapsed];
    var tail: seq<Event<F, S>> := [AttemptSucceeded(s), DeliveryTick];
    var h := Run(cfg, e, head);
    var m := Run(cfg, h.0, FailRounds(fs));
    var t := Run(cfg, m.0, tail);
    RunThree(cfg, e, head, FailRounds(fs), tail);
    StartMakesFirstAttempt(cfg, e);
    FailRoundsRetry(cfg, h.0, fs);
    SuccessDelivered(cfg, m.0, s);
    SuccessActions(h.1, m.1, t.1, cfg.delayTimeList[..|fs|], Succeeded(s));
  }

  lemma SuccessActions<F, S>(h: seq<Action<F, S>>, m: seq<Action<F, S>>, t: seq<Action<F, S>>,
                             delays: seq<nat>, o: Final<F, S>)
    requires h == [Nothing, Attempted] && m == RetryActions(delays)
    requires t == [Scheduled(o), Delivered(o)]
    ensures RetryDelays((h + m) + t) == delays
    ensures var all := (h + m) + t; all[|all| - 2..] == t
  {
    RetryActionsDelays<F, S>(delays);
    NonRetryDelays(h);
    NonRetryDelays(t);
    RetryDelaysAppend(h, m);
    RetryDelaysAppend(h + m, t);
  }

  /** A finished chain whose emitter is no longer open stays so under every
      event but a start, and no such event invokes the operation. */
  lemma FinishedStep<T, F, S>(cfg: Config<T>, e: Engine<F, S>, ev: Event<F, S>)
    requires ValidEngine(e) && e.pipe.phase == Finished && e.pipe.emitter != Open && !ev.Start?
    ensures var r := Step(cfg, e, ev);
      r.0.pipe.phase == Finished && r.0.pipe.emitter != Open && r.1 != Attempted
  {
  }

  /** Once the chain has finished, nothing short of a new start invokes the
      operation again, whatever else happens. */
  lemma {:induction false} FinishedNoMoreAttempts<T, F, S>(cfg: Config<T>, e: Engine<F, S>, es: seq<Event<F, S>>)
    requires ValidEngine(e) && e.pipe.phase == Finished && e.pipe.emitter != Open && NoStart(es)
    ensures var r := Run(cfg, e, es);
      r.0.pipe.phase == Finished && r.0.pipe.attempts == e.pipe.attempts &&
      forall i | 0 <= i < |r.1| :: r.1[i] != Attempted
    decreases |es|
  {
    if es != [] {
      var step := Step(cfg, e, es[0]);
      assert !es[0].Start?;
      FinishedStep(cfg, e, es[0]);
      assert NoStart(es[1..]) by {
        forall i | 0 <= i < |es[1..]| ensures !es[1..][i].Start? {
          assert es[1..][i] == es[i + 1];
        }
      }
      FinishedNoMoreAttempts(cfg, step.0, es[1..]);
      var acts := [step.1] + Run(cfg, step.0, es[1..]).1;
      assert forall i | 1 <= i < |acts| :: acts[i] == Run(cfg, step.0, es[1..]).1[i - 1];
    }
  }

  /** An operation that succeeds on attempt k + 1 is invoked exactly k + 1
      times: whatever follows the success, short of a new start, makes no
      further attempt. */
  lemma NoAttemptAfterSuccess<T, F, S>(cfg: Config<T>, e: Engine<F, S>, fs: seq<F>, s: S, es: seq<Event<F, S>>)
    requires ValidEngine(e) && e.pending == []
    requires cfg.onDoOperationListener.Some? && cfg.finalCallBack.Some?
    requires |fs| <= |cfg.delayTimeList| && NoStart(es)
    ensures var n := |SuccessAfter<F, S>(fs, s)|; var r := Run(cfg, e, SuccessAfter(fs, s) + es);
      r.0.pipe.attempts == |fs| + 1 && forall i | n <= i < |r.1| :: r.1[i] != Attempted
  {
    SuccessOnAttempt(cfg, e, fs, s);
    NothingAttemptedAfterFinish(cfg, e, SuccessAfter(fs, s), es);
  }

  /** A run that has finished the chain, followed by events without a start:
      the continuation attempts nothing. */
  lemma NothingAttemptedAfterFinish<T, F, S>(cfg: Config<T>, e: Engine<F, S>, xs: seq<Event<F, S>>, es: seq<Event<F, S>>)
    requires ValidEngine(e) && NoStart(es)
    requires Run(cfg, e, xs).0.pipe.phase == Finished && Run(cfg, e, xs).0.pipe.emitter != Open
    ensures var r := Run(cfg, e, xs + es);
      r.0.pipe.attempts == Run(cfg, e, xs).0.pipe.attempts && forall i | |xs| <= i < |r.1| :: r.1[i] != Attempted
  {
    var m := Run(cfg, e, xs);
    var t := Run(cfg, m.0, es);
    ComposeRuns(cfg, e, xs, es, m, t);
    FinishedNoMoreAttempts(cfg, m.0, es);
    NoAttemptInSuffix(m.1, t.1);
  }

  /** Appending actions none of which is an attempt adds no attempt. */
  lemma NoAttemptInSuffix<F, S>(head: seq<Action<F, S>>, tail: seq<Action<F, S>>)
    requires forall i | 0 <= i < |tail| :: tail[i] != Attempted
    ensures forall i | |head| <= i < |head + tail| :: (head + tail)[i] != Attempted
  {
    forall i | |head| <= i < |head + tail| ensures (head + tail)[i] != Attempted {
      assert (head + tail)[i] == tail[i - |head|];
    }
  }

  // ---------------------------------------------------------------------
  // At most one final callback per run

  /** The environment of a single run as RxJava drives it: no second start,
      the observer's `onError` never fires (every error is routed to the
      retry handler), and the operation reports only for an attempt that
      was started and has not reported yet. */
  predicate Allowed<F, S>(e: Engine<F, S>, ev: Event<F, S>) {
    !ev.Start? && !ev.ChainError? &&
    (ev.AttemptFailed? || ev.AttemptSucceeded? || ev.OperationThrew? ==> e.pipe.awaiting)
  }

  predicate WellBehaved<T, F, S>(cfg: Config<T>, e: Engine<F, S>, es: seq<Event<F, S>>)
    requires ValidEngine(e)
    decreases |es|
  {
    es == [] || (Allowed(e, es[0]) && WellBehaved(cfg, Step(cfg, e, es[0]).0, es[1..]))
  }

  /** Queued plus delivered final callbacks number at most one; an attempt
      still to report runs or has been cut off; once the outcome is queued no
      attempt is running and no timer is pending. */
  ghost predicate OnceInv<F, S>(e: Engine<F, S>) {
    var out := |e.pending| + |e.delivered|;
    out <= 1 &&
    (e.pipe.awaiting ==> e.pipe.phase == Attempting || e.pipe.phase == Finished) &&
    (out == 1 ==> !e.pipe.awaiting && !e.pipe.phase.InitialWait? && !e.pipe.phase.RetryWait?)
  }

  lemma StepKeepsOnceInv<T, F, S>(cfg: Config<T>, e: Engine<F, S>, ev: Event<F, S>)
    requires ValidEngine(e) && OnceInv(e) && Allowed(e, ev)
    ensures OnceInv(Step(cfg, e, ev).0)
  {
    match ev
    case AttemptFailed(f) =>
      var e1 := e.(pipe := CallbackArrived(e.pipe));
      assert |e1.pending| + |e1.delivered| == 0;
    case AttemptSucceeded(s) =>
      var e1 := e.(pipe := CallbackArrived(e.pipe));
      assert |e1.pending| + |e1.delivered| == 0;
    case OperationThrew(x) =>
      var e1 := e.(pipe := CallbackArrived(e.pipe));
      assert |e1.pending| + |e1.delivered| == 0;
    case _ =>
  }

  lemma {:induction false} OnceInvKept<T, F, S>(cfg: Config<T>, e: Engine<F, S>, es: seq<Event<F, S>>)
    requires ValidEngine(e) && OnceInv(e) && WellBehaved(cfg, e, es)
    ensures OnceInv(Run(cfg, e, es).0)
    decreases |es|
  {
    if es != [] {
      StepKeepsOnceInv(cfg, e, es[0]);
      OnceInvKept(cfg, Step(cfg, e, es[0]).0, es[1..]);
    }
  }

  /** A run started on a helper with nothing queued calls the final callback
      at most once, however the attempts go and whatever is stopped or
      disposed along the way. */
  lemma AtMostOneFinalCallback<T, F, S>(cfg: Config<T>, e: Engine<F, S>, es: seq<Event<F, S>>)
    requires ValidEngine(e) && e.pending == [] && e.delivered == []
    requires WellBehaved(cfg, StartRun(cfg, e), es)
    ensures |Run(cfg, StartRun(cfg, e), es).0.delivered| <= 1
  {
    OnceInvKept(cfg, StartRun(cfg, e), es);
  }

  // ---------------------------------------------------------------------
  // Consequences of the code as written

  /** The stop flag is cleared by a new start, so a callback queued before
      `stopNow()` and not yet run is delivered after a restart. */
  lemma RestartRevivesQueuedCallback<T, F, S>(cfg: Config<T>, e: Engine<F, S>, o: Final<F, S>)
    requires ValidEngine(e) && cfg.finalCallBack.Some? && e.pending == [o]
    ensures var r := Run(cfg, e, [StopNow, Start, DeliveryTick]);
      r.0.delivered == e.delivered + [o] && r.1 == [Nothing, Nothing, Delivered(o)]
  {
    var one: seq<Event<F, S>> := [StopNow];
    var two: seq<Event<F, S>> := [Start, DeliveryTick];
    assert one + two == [StopNow, Start, DeliveryTick];
    RunAppend(cfg, e, one, two);
    RunOne(cfg, e, StopNow);
    RunTwo(cfg, StopStep(e), Start, DeliveryTick);
  }

  /** An attempt that throws on a live emitter is retried without being
      counted as a failure. */
  lemma ThrowRetries<T, F, S>(cfg: Config<T>, e: Engine<F, S>, x: Throwable)
    requires ValidEngine(e) && cfg.onDoOperationListener.Some?
    requires e.disposable == Live && e.pipe.phase == Attempting && e.pipe.emitter == Open
    requires e.pipe.zipped < |e.pipe.schedule|
    ensures var r := Run(cfg, e, [OperationThrew(x), TimerElapsed]);
      r.0 == e.(pipe := e.pipe.(zipped := e.pipe.zipped + 1, awaiting := true, attempts := e.pipe.attempts + 1)) &&
      r.1 == [Retry(e.pipe.schedule[e.pipe.zipped]), Attempted]
  {
    RunTwo(cfg, e, OperationThrew(x), TimerElapsed);
  }

  /** The chain completes before the last attempt reports failure with the
      counter still within budget: the failure is dropped. */
  lemma LateFailureDropped<T, F, S>(cfg: Config<T>, e: Engine<F, S>, f: F)
    requires ValidEngine(e) && e.pending == []
    requires e.pipe.phase == Attempting && e.pipe.zipped == |e.pipe.schedule|
    requires e.retryCount + 1 <= |cfg.delayTimeList|
    ensures var r := Run(cfg, e, [ChainCompleted, AttemptFailed(f), DeliveryTick]);
      r.0.delivered == e.delivered && r.0.pending == [] && r.0.retryCount == e.retryCount + 1 &&
      r.0.pipe.attempts == e.pipe.attempts && r.1 == [Nothing, Nothing, Nothing]
  {
    var z1: seq<Event<F, S>> := [ChainCompleted];
    var z2: seq<Event<F, S>> := [AttemptFailed(f), DeliveryTick];
    assert z1 + z2 == [ChainCompleted, AttemptFailed(f), DeliveryTick];
    RunAppend(cfg, e, z1, z2);
    RunOne(cfg, e, ChainCompleted);
    RunTwo(cfg, Step(cfg, e, ChainCompleted).0, AttemptFailed(f), DeliveryTick);
  }

  /** With one delay, an attempt that throws uses up the delay without
      counting as a failure; when the chain has completed before the retry
      reports failure, the counter is still within budget and the emitter is
      closed, so the failure is dropped and the final callback never runs. */
  lemma ThrowThenFailureIsNeverReported<T, F, S>(cfg: Config<T>, e: Engine<F, S>, d: nat, x: Throwable, f: F)
    requires ValidEngine(e) && cfg.delayTimeList == [d]
    requires cfg.onDoOperationListener.Some? && cfg.finalCallBack.Some? && e.pending == []
    ensures var es: seq<Event<F, S>> := [Start, TimerElapsed, OperationThrew(x), TimerElapsed,
                                         ChainCompleted, AttemptFailed(f), DeliveryTick];
      var r := Run(cfg, e, es);
      r.0.delivered == e.delivered && r.0.pending == [] && r.0.pipe.attempts == 2 && r.0.retryCount == 1 &&
      r.1 == [Nothing, Attempted, Retry(d), Attempted, Nothing, Nothing, Nothing]
  {
    var xs: seq<Event<F, S>> := [Start, TimerElapsed];
    var ys: seq<Event<F, S>> := [OperationThrew(x), TimerElapsed];
    var zs: seq<Event<F, S>> := [ChainCompleted, AttemptFailed(f), DeliveryTick];
    assert xs + ys + zs == [Start, TimerElapsed, OperationThrew(x), TimerElapsed,
                            ChainCompleted, AttemptFailed(f), DeliveryTick];
    RunThree(cfg, e, xs, ys, zs);
    StartMakesFirstAttempt(cfg, e);
    var e1 := Run(cfg, e, xs).0;
    ThrowRetries(cfg, e1, x);
    LateFailureDropped(cfg, Run(cfg, e1, ys).0, f);
  }

  /** The owner's destruction disposes the chain but leaves the stop flag
      alone, so an attempt already running that then succeeds still reaches
      the final callback. */
  lemma OwnerDestructionKeepsLateSuccess<T, F, S>(cfg: Config<T>, e: Engine<F, S>, s: S)
    requires ValidEngine(e) && cfg.owner.Some? && CanCallBack(cfg, e) && e.pending == []
    requires e.disposable == Live
    ensures Run(cfg, e, [OwnerDestroyed, AttemptSucceeded(s), DeliveryTick]).0.delivered == e.delivered + [Succeeded(s)]
  {
    var owner: seq<Event<F, S>> := [OwnerDestroyed];
    var two: seq<Event<F, S>> := [AttemptSucceeded(s), DeliveryTick];
    assert owner + two == [OwnerDestroyed, AttemptSucceeded(s), DeliveryTick];
    RunAppend(cfg, e, owner, two);
    RunOne(cfg, e, OwnerDestroyed);
    var e1 := OwnerDestroyedStep(cfg, e);
    RunTwo(cfg, e1, AttemptSucceeded(s), DeliveryTick);
  }
}
