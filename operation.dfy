/**
 * `MessageOperation`, the queue operation that presents one message view.
 * Every method updates the fields in place; its postcondition says that the
 * new state is the corresponding `Lifecycle` transition of the old one.
 */
module MessageOperations {
  import opened Wrappers
  import opened Messages
  import opened Lifecycle

  class MessageOperation {
    // the view and the controller are fixed at construction
    const message: Option<Message>
    const hasTopConstraint: bool
    const height: real
    const controller: Controller

    var cancelled: bool
    var executing: bool
    var finished: bool
    var timerArmed: bool
    var tapInstalled: bool

    // the view's superview and the constant of its top constraint
    var superview: Option<Controller>
    var offset: real

    // exit animations whose completion has not run yet, and `stop` calls so far
    ghost var pendingCompletions: nat
    ghost var stopCalls: nat

    ghost function State(): OpState
      reads this
    {
      OpState(cancelled, executing, finished, timerArmed, tapInstalled, message,
              hasTopConstraint, height, controller, superview, offset,
              pendingCompletions, stopCalls)
    }

    constructor (message: Option<Message>, hasTopConstraint: bool, height: real, offset: real,
                 controller: Controller)
      ensures State() == Fresh(message, hasTopConstraint, height, offset, controller)
    {
      this.message := message;
      this.hasTopConstraint := hasTopConstraint;
      this.height := height;
      this.controller := controller;
      this.offset := offset;
      cancelled, executing, finished := false, false, false;
      timerArmed, tapInstalled := false, false;
      superview := None;
      pendingCompletions, stopCalls := 0, 0;
    }

    method Start()
      modifies this
      ensures State() == Lifecycle.Start(old(State()))
    {
      executing := true;
      Show();
    }

    method Show()
      modifies this
      ensures State() == Lifecycle.Show(old(State()))
    {
      var target := Retarget(controller);
      superview := Some(target);
      ConfigureDismissal();
      if hasTopConstraint && message.Some? {
        offset := -height;  // the second layout pass puts the view off screen
        offset := 0.0;      // and the entrance animation brings it back
      }
    }

    method ConfigureDismissal()
      modifies this
      ensures State() == Lifecycle.ConfigureDismissal(old(State()))
    {
      if message.None? {
        return;
      }
      var m := message.value;
      if m.duration == Automatic {
        timerArmed := true;
      }
      if m.dismissible {
        tapInstalled := true;
      }
    }

    method Cancel()
      modifies this
      ensures State() == Lifecycle.Cancel(old(State()))
    {
      cancelled := true;
      Hide();
    }

    method Hide()
      modifies this
      ensures State() == Lifecycle.Hide(old(State()))
    {
      if timerArmed {
        timerArmed := false;
      }
      if hasTopConstraint && message.Some? && superview.Some? {
        offset := -height;
        pendingCompletions := pendingCompletions + 1;
      } else {
        superview := None;
        Stop();
      }
    }

    /** The completion closure of the exit animation that `Hide` started. */
    method AnimationCompleted()
      requires pendingCompletions > 0
      modifies this
      ensures State() == Lifecycle.AnimationCompleted(old(State()))
    {
      pendingCompletions := pendingCompletions - 1;
      superview := None;
      Stop();
    }

    method Stop()
      modifies this
      ensures State() == Lifecycle.Stop(old(State()))
    {
      finished := true;
      executing := false;
      stopCalls := stopCalls + 1;
    }
  }
}
