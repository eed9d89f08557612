# Turms message operations in Dafny

Turms shows transient "messages" (banners) over an iOS app's view hierarchy.
`MessageController` puts each message into an operation queue that runs one
operation at a time. Each message is presented by a `MessageOperation`. That
operation keeps three status flags (`cancelled`, `executing`, `finished`), an
optional auto-dismiss timer and an optional tap recognizer. Its methods
`start`, `show`, `configureDismissal`, `cancel`, `hide` and `stop` change
those fields and the message view (which view it is attached to, and the
constant of its top constraint).

This project models that state machine in three layers:

- `Lifecycle` (lifecycle.dfy) writes each method as a pure transition on an
  `OpState` value. Each function's postcondition states the method's effect on
  every field.
- `MessageOperations.MessageOperation` (operation.dfy) is a class with the same
  fields. Each method updates them in place and is proved to produce exactly
  the `Lifecycle` transition of the old state.
- `Traces` (traces.dfy) and `Scenarios` (scenarios.dfy) prove what holds
  along any sequence of calls, and along particular paths.

`Messages` (messages.dfy) holds the message record and the defaults of the
full `MessageController.show` overload (`Messages.ShowMessage`). `Wrappers` holds `Option`.

Two counters in the state are bookkeeping, not fields of the source.
`pendingCompletions` counts exit animations whose completion closure has not
run yet. `stopCalls` counts calls of `stop`; each call posts one
isFinished/isExecuting change to the queue. The completion closure of the
exit animation is the explicit method `AnimationCompleted`. A timer firing
or a tap is a call of `Hide` by the caller.

The model records three behaviours of the code that a reader might not expect:

- `hide` has no guard against a second call while the exit animation runs
  (Turms/MessageController.swift:184-196). The view leaves its superview only
  in the completion closure (line 194), so a second `hide` or a `cancel`
  arriving during the exit animation takes the animated branch again and
  schedules a second `stop`. An example is a `cancel` during an exit that the
  timer started. `Traces.StopsMatchHides` proves that each hide yields exactly
  one stop, and `Scenarios.RepeatedHideStopsTwice` exhibits the double stop.
- `cancel` sets `_cancelled` (line 172) and then reaches `stop` (line 206), so
  cancelled and finished both end true (`Scenarios.CancelBeforeStart`,
  `Scenarios.CancelShownEndsCancelledAndFinished`).
- `hide` clears only the timer (lines 178-182). The tap recognizer added at
  line 166 stays installed on the view (`Lifecycle.Hide` keeps `tapInstalled`).

## Model

| member | source | states |
|---|---|---|
| Messages.ShowDefaults | Turms/MessageController.swift:38 | left to its defaults, the full overload gives duration `Automatic`, dismissible, no subtitle, no image, position `NavBarOverlay` |
| Lifecycle.Retarget | Turms/MessageController.swift:116-119 | a controller being dismissed is replaced by its presenting controller when it has one; otherwise, and whenever it is not being dismissed, the target is the controller itself |
| Lifecycle.RetargetTakesOneStep | Turms/MessageController.swift:116-119 | retargeting is a single step, not repeated until a controller that is not being dismissed is reached: for some controller a second retarget moves on again, so `Retarget` is not idempotent |
| Lifecycle.Start | Turms/MessageController.swift:107-111 | after `start` the operation is executing; `finished` and `cancelled` are unchanged; the view is attached to the retargeted controller; an anchored view ends at offset 0, otherwise the offset is kept; the triggers are as `configureDismissal` sets them |
| Lifecycle.Show | Turms/MessageController.swift:113-148 | the view ends up attached to the retargeted controller; the triggers are as `configureDismissal` sets them; an anchored view ends at offset 0 (otherwise the entrance is skipped and the offset is kept); the flags are unchanged |
| Lifecycle.ConfigureDismissal | Turms/MessageController.swift:150-168 | with no message nothing changes; otherwise the timer ends up armed iff it was armed or the duration is `Automatic`, and the tap recognizer ends up installed iff it was already installed or the message is dismissible; nothing else changes |
| Lifecycle.ClearTimer | Turms/MessageController.swift:178-182 | afterwards no timer is armed; when none was armed, nothing changes |
| Lifecycle.Hide | Turms/MessageController.swift:176-202 | the timer is always cleared and the tap recognizer and `cancelled` are kept; an attached, anchored view moves to offset -height with one more completion pending and nothing finished; otherwise the view is detached and the operation stops at once |
| Lifecycle.Cancel | Turms/MessageController.swift:170-174 | `cancelled` becomes true, the timer is cleared and the tap recognizer kept; an attached, anchored view moves to offset -height, stays attached, with one more completion pending and the other flags and the stop count unchanged; otherwise the view is detached, the operation finishes and stops once more, and the offset and pending completions are kept |
| Lifecycle.Stop | Turms/MessageController.swift:204-208 | `finished` becomes true and `executing` false; `cancelled`, the triggers and the view are untouched |
| Lifecycle.AnimationCompleted | Turms/MessageController.swift:191-196 | the completion of a pending exit animation detaches the view and stops the operation; one completion fewer is pending |
| Traces.StopsMatchHides | Turms/MessageController.swift:176-208 | over any sequence of calls, stops done plus stops pending grow by exactly one per `hide` or `cancel` call |
| Traces.StopsOfFreshOperation | Turms/MessageController.swift:184-201 | once no exit animation is pending, a new operation has stopped exactly as many times as `hide` was reached |
| Traces.TerminalFlagsPersist | Turms/MessageController.swift:170-208 | no call ever clears `finished` or `cancelled` |
| Traces.FinishedIffStopped | Turms/MessageController.swift:204-208 | along any calls, starting from a state where `finished` means "stopped at least once", `finished` keeps that meaning |
| Traces.OnlyStartExecutes | Turms/MessageController.swift:107-111 | without a `start` call an operation that is not executing never becomes executing |
| Traces.SetupIsConstant | Turms/MessageController.swift:53-56 | the message, the top constraint, the view height and the target controller never change |
| Traces.EndingInHideClearsTimer | Turms/MessageController.swift:178-182 | any sequence of calls ending in `hide` or `cancel` leaves no timer armed |
| Scenarios.ClearTimerIsIdempotent | Turms/MessageController.swift:178-182 | clearing the timer twice is the same as clearing it once; two hides leave no timer |
| Scenarios.CancelBeforeStart | Turms/MessageController.swift:170-201 | cancelling a never-started operation whose view is not attached ends cancelled, finished, not executing, detached, without a timer, after one stop |
| Scenarios.AnimatedHideFinishesOnCompletion | Turms/MessageController.swift:184-196 | hiding an attached, anchored view moves it to -height and finishes nothing; the completion then detaches it and finishes the operation |
| Scenarios.StartedAnchoredCanAnimateOut | Turms/MessageController.swift:107-168 | a started operation with an anchored view is executing, attached to the retargeted controller at offset 0, with a timer iff `Automatic` and a tap recognizer iff dismissible |
| Scenarios.RepeatedHideStopsTwice | Turms/MessageController.swift:176-202 | two hides during one exit animation leave two completions pending, and running both stops the operation twice |
| Scenarios.CancelShownEndsCancelledAndFinished | Turms/MessageController.swift:170-196 | cancelling a shown operation animates it out; after the completion it is both cancelled and finished |
| Scenarios.NoMessageArmsNothing | Turms/MessageController.swift:152 | when the view has no message, starting arms no timer and installs no tap recognizer, and the offset is not touched |
| Scenarios.DefaultsArmBothTriggers | Turms/MessageController.swift:38-40 | a message from the full `show` overload, left to its defaults, gets both a timer and a tap recognizer when its operation starts |
| MessageOperations.MessageOperation.constructor | Turms/MessageController.swift:100-105 | a new operation has all flags false, no timer, no tap recognizer, a detached view and nothing pending |
| MessageOperations.MessageOperation.Start | Turms/MessageController.swift:107-111 | the fields end as `Lifecycle.Start` of the old state |
| MessageOperations.MessageOperation.Show | Turms/MessageController.swift:113-148 | the fields end as `Lifecycle.Show` of the old state |
| MessageOperations.MessageOperation.ConfigureDismissal | Turms/MessageController.swift:150-168 | the fields end as `Lifecycle.ConfigureDismissal` of the old state |
| MessageOperations.MessageOperation.Cancel | Turms/MessageController.swift:170-174 | the fields end as `Lifecycle.Cancel` of the old state |
| MessageOperations.MessageOperation.Hide | Turms/MessageController.swift:176-202 | the fields end as `Lifecycle.Hide` of the old state |
| MessageOperations.MessageOperation.AnimationCompleted | Turms/MessageController.swift:191-196 | the fields end as `Lifecycle.AnimationCompleted` of the old state |
| MessageOperations.MessageOperation.Stop | Turms/MessageController.swift:204-208 | the fields end as `Lifecycle.Stop` of the old state |

## Left out

- The operation queue (`NSOperationQueue` with `maxConcurrentOperationCount = 1`, Turms/MessageController.swift:13-31) is not modelled. Its one-at-a-time, in-order scheduling belongs to the platform library. So `MessageController.show(message:controller:)` and the `show(type:message:controller:)` overload, which only build a view and an operation and enqueue it, are left out. The `Message` initialiser that the short overload uses is not part of this model.
- The main-queue dispatch in `show` (line 122) happens at once in the model. So a `cancel` that reaches the operation after `start` but before the dispatched block runs is not represented.
- View-tree work is reduced to the attached controller: inserting above a navigation bar versus adding a subview, and the `layoutIfNeeded` passes (lines 124-131, 138, 144).
- Animation timing and easing (`animationDuration`, `.CurveEaseInOut`) are not modelled. The `completed` argument of the completion closure is ignored, as the source ignores it.
- The display time `displayTimeBase + displayTimePerPixel * height` (line 157) is floating-point arithmetic on fields of `Message`, which is defined outside this file. The model records only that a timer is armed.
- Timer and tap firing are not modelled; each is a caller's `Hide` call. The model tracks one timer and one tap recognizer as booleans. If `configureDismissal` ran twice, the source would keep an earlier timer alive without invalidating it and add a second recognizer. The model cannot show this.
- Key-value-observing notifications (lines 60-61, 71-72, 81-82) appear only as the `stopCalls` count. The `concurrent` and `asynchronous` getters, which always return true, are not modelled.
- `MessageControllerDelegate` (lines 44-48) is declared but never called, so it is not modelled.
- `MessageType`, `MessageDuration`, `MessagePosition`, `Message` and `MessageView` are defined outside this file. The only enum cases the file names are `.Automatic` (lines 38, 155) and `.NavBarOverlay` (line 38); the other cases are assumed. Of the message and view, the model observes only `duration == .Automatic`, `dismissible`, the view's message, top constraint, height and superview.
- `message.animationDuration` (lines 142, 187) and `displayTimeBase`/`displayTimePerPixel` (line 157) are not modelled.
- The view's message and top constraint, and the controller's `isBeingDismissed()` and `presentingViewController`, are taken as they stand when `show` runs (line 117). They belong to `MessageView` and UIKit, which could change them; the operation itself never writes them.
- The view's height is taken as fixed once the view is laid out. The source reads `CGRectGetHeight(self.view.frame)` afresh at lines 137, 157 and 186, and a layout pass could change it between those reads.
- `Traces.Step` skips an animation completion when none is pending, because the animation system never delivers one then.
