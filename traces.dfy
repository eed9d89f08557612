/**
 * Sequences of calls on one operation, and what holds along them.
 *
 * `HideCall` stands for every way `hide` is reached other than `cancel`: the
 * timer firing, a tap on the view, or a direct call. `AnimationCompletion`
 * is the exit animation's completion closure; it can only run while an exit
 * animation is pending, and is skipped otherwise.
 */
module Traces {
  import opened Wrappers
  import opened Messages
  import opened Lifecycle

  datatype Event = StartCall | CancelCall | HideCall | AnimationCompletion

  function Step(s: OpState, e: Event): OpState {
    match e
    case StartCall => Start(s)
    case CancelCall => Cancel(s)
    case HideCall => Hide(s)
    case AnimationCompletion =>
      if s.pendingCompletions > 0 then AnimationCompleted(s) else s
  }

  function Run(s: OpState, evs: seq<Event>): OpState
    decreases |evs|
  {
    if evs == [] then s else Run(Step(s, evs[0]), evs[1..])
  }

  /** How many of the events call `hide` (directly or through `cancel`). */
  function HideCount(evs: seq<Event>): nat {
    if evs == [] then 0
    else (if evs[0] == CancelCall || evs[0] == HideCall then 1 else 0) + HideCount(evs[1..])
  }

  lemma {:induction false} RunAppend(s: OpState, evs: seq<Event>, e: Event)
    ensures Run(s, evs + [e]) == Step(Run(s, evs), e)
    decreases |evs|
  {
    if evs == [] {
      assert [e][1..] == [];
    } else {
      assert (evs + [e])[1..] == evs[1..] + [e];
      RunAppend(Step(s, evs[0]), evs[1..], e);
    }
  }

  /**
   * Every `hide` leads to exactly one `stop`, at once or when its exit
   * animation completes: stops done plus stops pending grow by one per hide.
   */
  lemma {:induction false} StopsMatchHides(s: OpState, evs: seq<Event>)
    ensures Run(s, evs).stopCalls + Run(s, evs).pendingCompletions ==
            s.stopCalls + s.pendingCompletions + HideCount(evs)
    decreases |evs|
  {
    if evs != [] {
      StopsMatchHides(Step(s, evs[0]), evs[1..]);
    }
  }

  /**
   * Hence once no exit animation is pending, a fresh operation has stopped
   * exactly as often as `hide` was called: two hides stop it twice.
   */
  lemma StopsOfFreshOperation(m: Option<Message>, anchored: bool, height: real, offset: real,
                              c: Controller, evs: seq<Event>)
    requires Run(Fresh(m, anchored, height, offset, c), evs).pendingCompletions == 0
    ensures Run(Fresh(m, anchored, height, offset, c), evs).stopCalls == HideCount(evs)
  {
    StopsMatchHides(Fresh(m, anchored, height, offset, c), evs);
  }

  /** No call ever clears `finished` or `cancelled`. */
  lemma {:induction false} TerminalFlagsPersist(s: OpState, evs: seq<Event>)
    ensures s.finished ==> Run(s, evs).finished
    ensures s.cancelled ==> Run(s, evs).cancelled
    decreases |evs|
  {
    if evs != [] {
      TerminalFlagsPersist(Step(s, evs[0]), evs[1..]);
    }
  }

  /** The operation reports finished exactly when `stop` has run at least once. */
  lemma {:induction false} FinishedIffStopped(s: OpState, evs: seq<Event>)
    requires s.finished <==> s.stopCalls > 0
    ensures Run(s, evs).finished <==> Run(s, evs).stopCalls > 0
    decreases |evs|
  {
    if evs != [] {
      FinishedIffStopped(Step(s, evs[0]), evs[1..]);
    }
  }

  /** Only `start` sets `executing`: without it an idle operation never executes. */
  lemma {:induction false} OnlyStartExecutes(s: OpState, evs: seq<Event>)
    requires !s.executing && StartCall !in evs
    ensures !Run(s, evs).executing
    decreases |evs|
  {
    if evs != [] {
      assert evs[0] != StartCall;
      assert StartCall !in evs[1..] by {
        forall i | 0 <= i < |evs[1..]| ensures evs[1..][i] != StartCall {
          assert evs[1..][i] == evs[i + 1];
        }
      }
      OnlyStartExecutes(Step(s, evs[0]), evs[1..]);
    }
  }

  /** The message, the constraint, the height and the target controller never change. */
  lemma {:induction false} SetupIsConstant(s: OpState, evs: seq<Event>)
    ensures SameSetup(s, Run(s, evs))
    decreases |evs|
  {
    if evs != [] {
      SetupIsConstant(Step(s, evs[0]), evs[1..]);
    }
  }

  /** Any sequence of calls that ends in a `hide` or a `cancel` leaves no timer armed. */
  lemma EndingInHideClearsTimer(s: OpState, evs: seq<Event>, e: Event)
    requires e == HideCall || e == CancelCall
    ensures !Run(s, evs + [e]).timerArmed
  {
    RunAppend(s, evs, e);
  }
}
