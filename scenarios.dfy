/** Concrete paths through one operation's lifecycle. */
module Scenarios {
  import opened Wrappers
  import opened Messages
  import opened Lifecycle
  import opened Traces

  /** Clearing an already cleared timer changes nothing. */
  lemma ClearTimerIsIdempotent(s: OpState)
    ensures ClearTimer(ClearTimer(s)) == ClearTimer(s)
    ensures !Hide(Hide(s)).timerArmed
  {
  }

  /**
   * Cancelling an operation that never started and whose view is not attached
   * detaches and finishes at once: it ends cancelled AND finished, not executing,
   * without a timer.
   */
  lemma CancelBeforeStart(m: Option<Message>, anchored: bool, height: real, offset: real,
                          c: Controller)
    ensures var r := Cancel(Fresh(m, anchored, height, offset, c));
      r.cancelled && r.finished && !r.executing && !r.timerArmed && r.superview.None? &&
      r.stopCalls == 1 && r.pendingCompletions == 0
  {
  }

  /**
   * Hiding an attached, anchored view moves it off screen and finishes nothing;
   * the completion closure then detaches the view and finishes the operation.
   */
  lemma AnimatedHideFinishesOnCompletion(s: OpState)
    requires CanAnimateOut(s) && !s.finished
    ensures var h := Hide(s);
      !h.finished && h.superview == s.superview && h.offset == -s.height &&
      h.pendingCompletions > 0 &&
      AnimationCompleted(h).finished && AnimationCompleted(h).superview.None?
  {
  }

  /** The shown state of a fresh operation whose view is anchored. */
  lemma StartedAnchoredCanAnimateOut(m: Message, height: real, offset: real, c: Controller)
    ensures var s := Start(Fresh(Some(m), true, height, offset, c));
      CanAnimateOut(s) && s.executing && !s.finished && s.offset == 0.0 &&
      s.superview == Some(Retarget(c)) &&
      (s.timerArmed <==> m.duration == Automatic) && (s.tapInstalled <==> m.dismissible)
  {
  }

  /**
   * `hide` has no guard against a second call during the exit animation: both
   * calls take the animated branch, and both completions stop the operation.
   */
  lemma RepeatedHideStopsTwice(s: OpState)
    requires CanAnimateOut(s)
    ensures Run(s, [HideCall, HideCall]).pendingCompletions == s.pendingCompletions + 2
    ensures Run(s, [HideCall, HideCall, AnimationCompletion, AnimationCompletion]).stopCalls ==
            s.stopCalls + 2
  {
  }

  /** Cancelling a shown operation also ends with it both cancelled and finished. */
  lemma CancelShownEndsCancelledAndFinished(m: Message, height: real, offset: real,
                                            c: Controller)
    ensures var shown := Start(Fresh(Some(m), true, height, offset, c));
      var cancelled := Cancel(shown);
      cancelled.cancelled && !cancelled.finished && cancelled.pendingCompletions == 1 &&
      AnimationCompleted(cancelled).cancelled && AnimationCompleted(cancelled).finished
  {
  }

  /** Without a message, starting arms neither trigger. */
  lemma NoMessageArmsNothing(anchored: bool, height: real, offset: real, c: Controller)
    ensures var s := Start(Fresh(None, anchored, height, offset, c));
      !s.timerArmed && !s.tapInstalled && s.offset == offset
  {
  }

  /**
   * A message from the full `show` overload, left to its defaults, gets both an
   * auto-dismiss timer and a tap recognizer when its operation starts.
   */
  lemma DefaultsArmBothTriggers(kind: MessageType, title: string, anchored: bool, height: real,
                                offset: real, c: Controller)
    ensures var s := Start(Fresh(Some(ShowMessage(kind, title)), anchored, height, offset, c));
      s.timerArmed && s.tapInstalled
  {
  }
}
