/**
 * The lifecycle of one `MessageOperation` as pure transitions on a value.
 *
 * An `OpState` holds the operation's three status flags, its two dismissal
 * triggers, an abstract view of the message view (the controller it is attached
 * to, and the constant of its top constraint, called the offset), and two
 * counters that are bookkeeping rather than program state: the exit animations
 * whose completion has not yet run, and the number of `stop` calls so far (each
 * posts one isFinished/isExecuting notification to the queue).
 */
module Lifecycle {
  import opened Wrappers
  import opened Messages

  /** A view controller, as far as `show` looks at it. */
  datatype Controller = Controller(id: nat, beingDismissed: bool, presenting: Option<Controller>)

  /**
   * The controller `show` presents into: a controller that is being dismissed
   * hands over to the controller that presented it, if there is one.
   */
  function Retarget(c: Controller): (t: Controller)
    ensures c.beingDismissed && c.presenting.Some? ==> Some(t) == c.presenting
    ensures !c.beingDismissed || c.presenting.None? ==> t == c
  {
    if c.beingDismissed then c.presenting.GetOr(c) else c
  }

  /**
   * Retargeting takes one step only: when the presenting controller is itself
   * being dismissed, retargeting again would move on once more.
   */
  lemma RetargetTakesOneStep()
    ensures exists c: Controller :: Retarget(Retarget(c)) != Retarget(c)
  {
    var q := Controller(2, false, None);
    var p := Controller(1, true, Some(q));
    var c := Controller(0, true, Some(p));
    assert Retarget(c) == p;
    assert Retarget(p) == q;
  }

  datatype OpState = OpState(
    cancelled: bool,
    executing: bool,
    finished: bool,
    timerArmed: bool,
    tapInstalled: bool,
    message: Option<Message>,
    hasTopConstraint: bool,
    height: real,
    controller: Controller,
    superview: Option<Controller>,
    offset: real,
    pendingCompletions: nat,
    stopCalls: nat)

  /** What no transition changes: the view's message, constraint, height and the target controller. */
  predicate SameSetup(s: OpState, r: OpState) {
    r.message == s.message && r.hasTopConstraint == s.hasTopConstraint &&
    r.height == s.height && r.controller == s.controller
  }

  predicate SameFlags(s: OpState, r: OpState) {
    r.cancelled == s.cancelled && r.executing == s.executing && r.finished == s.finished
  }

  predicate SameTriggers(s: OpState, r: OpState) {
    r.timerArmed == s.timerArmed && r.tapInstalled == s.tapInstalled
  }

  predicate SameView(s: OpState, r: OpState) {
    r.superview == s.superview && r.offset == s.offset
  }

  predicate SameBookkeeping(s: OpState, r: OpState) {
    r.pendingCompletions == s.pendingCompletions && r.stopCalls == s.stopCalls
  }

  /** A new operation around a view that is not yet in any view hierarchy. */
  function Fresh(message: Option<Message>, hasTopConstraint: bool, height: real, offset: real,
                 controller: Controller): OpState
  {
    OpState(false, false, false, false, false, message, hasTopConstraint, height, controller,
            None, offset, 0, 0)
  }

  /** The view has both a top constraint and a message, so it can be animated. */
  predicate Anchored(s: OpState) {
    s.hasTopConstraint && s.message.Some?
  }

  /** `hide` animates the view out only when it is anchored and still attached. */
  predicate CanAnimateOut(s: OpState) {
    Anchored(s) && s.superview.Some?
  }

  /** `stop`: the operation reports that it is finished and no longer executing. */
  function Stop(s: OpState): (r: OpState)
    ensures r.finished && !r.executing && r.cancelled == s.cancelled
    ensures r.stopCalls == s.stopCalls + 1 && r.pendingCompletions == s.pendingCompletions
    ensures SameSetup(s, r) && SameTriggers(s, r) && SameView(s, r)
  {
    s.(finished := true, executing := false, stopCalls := s.stopCalls + 1)
  }

  /**
   * `configureDismissal`: nothing without a message; otherwise an `Automatic`
   * duration arms the timer and a dismissible message gets a tap recognizer.
   */
  function ConfigureDismissal(s: OpState): (r: OpState)
    ensures s.message.None? ==> r == s
    ensures s.message.Some? ==>
      (r.timerArmed <==> s.timerArmed || s.message.value.duration == Automatic)
    ensures s.message.Some? ==>
      (r.tapInstalled <==> s.tapInstalled || s.message.value.dismissible)
    ensures SameSetup(s, r) && SameFlags(s, r) && SameView(s, r) && SameBookkeeping(s, r)
  {
    match s.message
    case None => s
    case Some(m) =>
      var timed := if m.duration == Automatic then s.(timerArmed := true) else s;
      if m.dismissible then timed.(tapInstalled := true) else timed
  }

  /**
   * `show`: attach the view to the retargeted controller, configure dismissal,
   * and, when the view is anchored, leave the offset at 0 (the view is first
   * pushed off screen and then animated back in; only the end state is kept).
   */
  function Show(s: OpState): (r: OpState)
    ensures r.superview == Some(Retarget(s.controller))
    ensures Anchored(s) ==> r.offset == 0.0
    ensures !Anchored(s) ==> r.offset == s.offset
    ensures SameTriggers(ConfigureDismissal(s), r)
    ensures SameSetup(s, r) && SameFlags(s, r) && SameBookkeeping(s, r)
  {
    var attached := s.(superview := Some(Retarget(s.controller)));
    var configured := ConfigureDismissal(attached);
    if Anchored(configured) then configured.(offset := 0.0)
    else configured
  }

  /** `start`: mark the operation executing, then show it. */
  function Start(s: OpState): (r: OpState)
    ensures r.executing && r.finished == s.finished && r.cancelled == s.cancelled
    ensures r.superview == Some(Retarget(s.controller))
    ensures Anchored(s) ==> r.offset == 0.0
    ensures !Anchored(s) ==> r.offset == s.offset
    ensures SameTriggers(ConfigureDismissal(s), r)
    ensures SameSetup(s, r) && SameBookkeeping(s, r)
  {
    Show(s.(executing := true))
  }

  /** The first step of `hide`: invalidate and forget the timer, if there is one. */
  function ClearTimer(s: OpState): (r: OpState)
    ensures !r.timerArmed
    ensures !s.timerArmed ==> r == s
    ensures r.tapInstalled == s.tapInstalled
    ensures SameSetup(s, r) && SameFlags(s, r) && SameView(s, r) && SameBookkeeping(s, r)
  {
    if s.timerArmed then s.(timerArmed := false) else s
  }

  /**
   * `hide`: clear the timer; then either start the exit animation (offset
   * -height, one more completion pending, nothing finished yet) or detach the
   * view and stop at once. The tap recognizer stays installed.
   */
  function Hide(s: OpState): (r: OpState)
    ensures !r.timerArmed && r.tapInstalled == s.tapInstalled && r.cancelled == s.cancelled
    ensures SameSetup(s, r)
    ensures CanAnimateOut(s) ==>
      r.offset == -s.height && r.superview == s.superview &&
      r.finished == s.finished && r.executing == s.executing &&
      r.pendingCompletions == s.pendingCompletions + 1 && r.stopCalls == s.stopCalls
    ensures !CanAnimateOut(s) ==>
      r.superview.None? && r.finished && !r.executing && r.offset == s.offset &&
      r.pendingCompletions == s.pendingCompletions && r.stopCalls == s.stopCalls + 1
  {
    var cleared := ClearTimer(s);
    if CanAnimateOut(cleared) then
      cleared.(offset := -cleared.height, pendingCompletions := cleared.pendingCompletions + 1)
    else
      Stop(cleared.(superview := None))
  }

  /** `cancel`: mark the operation cancelled, then hide it. */
  function Cancel(s: OpState): (r: OpState)
    ensures r.cancelled && !r.timerArmed && r.tapInstalled == s.tapInstalled
    ensures SameSetup(s, r)
    ensures CanAnimateOut(s) ==>
      r.offset == -s.height && r.superview == s.superview &&
      r.finished == s.finished && r.executing == s.executing &&
      r.pendingCompletions == s.pendingCompletions + 1 && r.stopCalls == s.stopCalls
    ensures !CanAnimateOut(s) ==>
      r.superview.None? && r.finished && !r.executing && r.offset == s.offset &&
      r.pendingCompletions == s.pendingCompletions && r.stopCalls == s.stopCalls + 1
  {
    Hide(s.(cancelled := true))
  }

  /** The completion of an exit animation: detach the view and stop. */
  function AnimationCompleted(s: OpState): (r: OpState)
    requires s.pendingCompletions > 0
    ensures r.superview.None? && r.finished && !r.executing && r.cancelled == s.cancelled
    ensures r.pendingCompletions == s.pendingCompletions - 1 && r.stopCalls == s.stopCalls + 1
    ensures r.offset == s.offset && SameSetup(s, r) && SameTriggers(s, r)
  {
    Stop(s.(superview := None, pendingCompletions := s.pendingCompletions - 1))
  }
}
