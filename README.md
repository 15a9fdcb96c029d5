# RecordingButton, modelled in Dafny

A model of SHRecordingButton, an iOS control for recording. It is a round
button with a progress ring that fills up to a configurable timeout. It comes
with a label that shows the elapsed time as `MM:SS` and blinks a red dot
while recording.

The button is a state machine. It has an interaction mode: `Pressing` means
hold to record, `Pressed` means tap to toggle. It has a status: `Idle`,
`Paused` or `Recording`. It keeps an ordered list of recorded segments. Each
touch-down that starts or resumes recording appends a segment. The repeating
0.1 s tick sets the newest segment to the time since recording last
(re)started. The one-shot timeout timer is scheduled for the budget the
earlier segments left. Each segment is drawn as its own arc on the ring. Its
start angle is advanced by the earlier segments' share of the timeout. Its
stroke fraction is measured against the budget that was left when it began.

Files:

- `progress.dfy`, module `SegmentProgress`: the segment total, the stroke
  fraction of the newest arc and its start angle, as functions. Lemmas say
  how they fit together: the arc stays within the ring, the angle it sweeps
  is its share of the whole timeout, consecutive arcs join, and the ring is
  full when the timeout fires.
- `recording_button.dfy`, module `RecordingButtonControl`: class
  `RecordingButton` with the Swift class's fields. The segment list is a
  `seq<real>` holding only the segment times. Its methods are the touch
  handlers, the tick, the timeout, start / pause / end, the deferred settle
  callback of `endRecording`, cancel and back. Several scenario methods
  drive the whole machine. The helper methods `OpenSegment` and
  `RecordSegment` run a tap, a tick and (for `RecordSegment`) a second tap
  for those scenarios.
- `time_format.dfy`, module `TimeFormat`: `convertSecToMinSec` with Swift's
  truncating `Int(_:)`, `/` and `%` written out. It has a parser back from
  `MM:SS` and round-trip lemmas in both directions.
- `recording_time_label.dfy`, module `TimeLabel`: class `RecordingTimeLabel`
  with the text, the dot's hidden flag and the blink timer.

`SegmentProgress.Sum` and `SegmentProgress.ElapsedBefore` are reference
definitions with no contract of their own: the segment total as a left fold
and the total before the newest segment. What they satisfy is stated by
`SumNonNegative`, `SumAppend`, `SumUpdateLast` and `SumRemoveLast`.
`TotalRecordingSec` is proved equal to `Sum`. In `TimeFormat`, `Abs`,
`DigitValue`, `DigitChar` and `Decimal` are helpers: `Decimal` is the string
interpolation of one signed digit used by `ConvertSecToMinSec`, a `-`
followed by the digit when it is negative.

Environment inputs:

- The wall clock (`NSDate()`) is the `now` parameter.
- Timers are flags. The run loop fires them by calling `Tick` (which runs
  `updateProgress`), `TimeoutRecording`, `SettleAfterEnd` and `Recording`.
  `Tick` and `TimeoutRecording` require their handle to be set, and
  `SettleAfterEnd` requires a queued callback.
- The delegate's calls are recorded in the ghost field `events`.

The code behaves as follows, which may be unexpected:

- `Idle` does not mean the segment list is empty. After a timeout and its
  settle callback, the button is `Idle` and still holds its segments (see
  `RunToTimeout`).
- `cancelRecording` clears only the segments and the start time. A button
  cancelled while recording stays `Recording` with both timers set (see
  `CancelWhileRecording`).
- `backRecording` removes the last element without checking. So a
  non-empty list is its precondition, not a no-op case.
- The stroke fraction and start angle have no guard against division by
  zero. A zero denominator is excluded by precondition, not defined as 1.
- The total is not capped at the timeout. Between the timeout firing and
  the settle callback, the tick timer is still set.
- In `Pressing` mode, a touch-down appends a segment whatever the status.

## Model

| member | source | states |
|---|---|---|
| `RecordingButtonControl.RecordingButton.constructor` | RecordingButton/RecordingButton.swift:33-52 | A new button is in `Pressing` mode, `Idle`, with a zero timeout, no segments, no timers and an enabled button. `Valid()` holds. |
| `RecordingButtonControl.RecordingButton.TotalRecordingSec` | RecordingButton/RecordingButton.swift:42-48 | The loop returns exactly the sum of the segment times, in order. |
| `SegmentProgress.SumNonNegative` | RecordingButton/RecordingButton.swift:42-48 | When no segment time is negative, the total is not negative. |
| `RecordingButtonControl.RecordingButton.DidTouchDown` | RecordingButton/RecordingButton.swift:106-125 | In `Pressing` mode, or from `Idle`/`Paused`: exactly one zero segment is appended, status is `Recording`, the start time is `now`, both timers are set, and the timeout interval is the timeout minus the earlier segments. The delegate hears start, then the total. In `Pressed` mode while recording: status is `Paused`, both timers are cleared, the segments are unchanged, and the delegate hears end. Mode, timeout and queued settles are unchanged. `Valid()` is preserved. |
| `RecordingButtonControl.RecordingButton.DidTouchUp` | RecordingButton/RecordingButton.swift:127-132 | In `Pressing` mode: `Paused`, both timers cleared, the button enabled, the segments and start time unchanged, and the delegate hears end. In `Pressed` mode nothing changes. |
| `RecordingButtonControl.RecordingButton.UpdateProgress` | RecordingButton/RecordingButton.swift:135-162 | With segments, only the newest is overwritten, with `now - startRecordingTime`. The new total is the earlier total plus that time, and that total is reported. With no segments nothing changes. |
| `RecordingButtonControl.RecordingButton.Tick` | RecordingButton/RecordingButton.swift:197 | The repeating tick fires only while its handle is set. Its effect is that of `updateProgress`: with segments, only the newest is overwritten with `now - startRecordingTime`, the total becomes the earlier total plus that time, and that total is reported. With no segments nothing changes. |
| `RecordingButtonControl.RecordingButton.TimeoutRecording` | RecordingButton/RecordingButton.swift:164-167 | It fires only while the timeout handle is set. The delegate hears end, the button is disabled, and one more settle callback is queued. Status, timers and segments are untouched. |
| `RecordingButtonControl.RecordingButton.AddNewProgressPath` | RecordingButton/RecordingButton.swift:169-180 | Exactly one segment of time zero is appended. |
| `RecordingButtonControl.RecordingButton.StartRecording` | RecordingButton/RecordingButton.swift:182-199 | Status is `Recording` and the start time is `now`. The newest segment is reset to zero and the rest are kept. Both timers are set. The timeout interval equals the timeout minus the earlier segments' time. The delegate hears start, then the total. |
| `RecordingButtonControl.RecordingButton.PauseRecording` | RecordingButton/RecordingButton.swift:202-216 | Status is `Paused`, the button is enabled and both timers are cleared; nothing else changes. |
| `RecordingButtonControl.RecordingButton.EndRecording` | RecordingButton/RecordingButton.swift:220-224 | The button is disabled and one settle callback is queued. The segments are kept. |
| `RecordingButtonControl.RecordingButton.SettleAfterEnd` | RecordingButton/RecordingButton.swift:224-236 | One queued callback runs: `Idle`, the button enabled, both timers cleared, the segments kept. `Valid()` holds afterwards. |
| `RecordingButtonControl.RecordingButton.TimersOnlyWhileRecording` | RecordingButton/RecordingButton.swift:182-236 | Under `Valid()`, outside `Recording` neither timer handle is set, so neither `Tick` nor `TimeoutRecording` can fire. |
| `RecordingButtonControl.RecordingButton.CancelRecording` | RecordingButton/RecordingButton.swift:240-248 | The segment list is empty and the start time is zero. Status and timers are untouched. |
| `RecordingButtonControl.RecordingButton.BackRecording` | RecordingButton/RecordingButton.swift:250-263 | Requires a segment. Exactly the newest segment is removed and the order of the rest is kept. The total drops by that segment's time. The new total is reported, and idle is reported exactly when no segment is left. Status is untouched. |
| `SegmentProgress.StrokeEnd` | RecordingButton/RecordingButton.swift:149-154 | The newest arc's fraction times the budget left when it began equals its recording time. With one segment this is the timeout itself, so both branches agree. |
| `SegmentProgress.StrokeEndBounds` | RecordingButton/RecordingButton.swift:149-154 | While the newest segment stays within its budget, its fraction lies in [0, 1]. It is 1 exactly when the budget is used up. |
| `SegmentProgress.CalculateStartAngle` | RecordingButton/RecordingButton.swift:267-281 | With at most one segment the angle is 1.5π. Otherwise it is 1.5π + 2π · (earlier segments) / timeout. The same formula holds for one segment. |
| `SegmentProgress.StartAngleInRing` | RecordingButton/RecordingButton.swift:267-281 | While the earlier segments fit in a positive timeout, the start angle lies between 1.5π and the arc's end at 3.5π. |
| `SegmentProgress.ArcSweep` | RecordingButton/RecordingButton.swift:139-154 | Stroke fraction times the path from start angle to 3.5π equals 2π · recordingTime / timeout. So each arc shows its share of the whole timeout. |
| `SegmentProgress.ArcsJoin` | RecordingButton/RecordingButton.swift:139-154 | Once a segment is closed, the next segment's arc starts exactly where the closed segment's arc ended. |
| `SegmentProgress.BudgetUsedAtTimeout` | RecordingButton/RecordingButton.swift:183-198 | A tick exactly one timeout interval after the start makes the total equal the timeout and fills the newest arc. |
| `RecordingButtonControl.HoldAndRelease` | RecordingButton/RecordingButton.swift:106-132 | Holding for 5 s with a 30 s timeout and releasing leaves one segment `[5]`, status `Paused` and a stroke fraction of 5/30. |
| `RecordingButtonControl.ToggleTwoSegments` | RecordingButton/RecordingButton.swift:111-123 | Toggling 10 s, pause, 5 s, pause with a 60 s timeout gives segments `[10, 5]` and a total of 15. The second arc starts at 1.5π + 2π · 10/60, with a fraction of 5/50. |
| `RecordingButtonControl.RunToTimeout` | RecordingButton/RecordingButton.swift:164-236 | With a 10 s timeout, the timer is scheduled for 10 s. At that moment the tick brings the segment to 10. The delegate hears start, 0, 10, end. After settling the button is `Idle` with the segment still there. |
| `RecordingButtonControl.BackTwice` | RecordingButton/RecordingButton.swift:250-263 | With segments of 3 s and 4 s, two steps back report totals 3 and 0 and leave no segment. The delegate hears only the total 3 after the first step, then the total 0 and idle after the second. |
| `RecordingButtonControl.CancelWhileRecording` | RecordingButton/RecordingButton.swift:240-248 | Cancel while recording empties the segments. Status stays `Recording` with both timers set. The next tick leaves the segments empty and reports nothing to the delegate. |
| `TimeFormat.Trunc` | RecordingButton/RecordingTimeLabel.swift:67 | `Int(sec)` is the integer part toward zero. For a non-negative time it is at most the time and less than one past it. For a negative time it mirrors this. |
| `TimeFormat.Quot` | RecordingButton/RecordingTimeLabel.swift:69-72 | Swift's `/` gives the quotient of the magnitudes with the sign of the dividend. |
| `TimeFormat.Rem` | RecordingButton/RecordingTimeLabel.swift:68-72 | Swift's `%` gives the remainder of the magnitudes, smaller than the divisor, with the sign of the dividend. |
| `TimeFormat.ConvertSecToMinSec` | RecordingButton/RecordingTimeLabel.swift:66-74 | The text has 5 to 9 characters (each of the four places may carry a `-` for a negative time). For sec ≥ 0 it has exactly 5, with `:` at index 2. |
| `TimeFormat.ParseMinSec` | RecordingButton/RecordingTimeLabel.swift:66-74 | Reading a well-formed `MM:SS` text back gives a number of seconds in [0, 6000). |
| `TimeFormat.FormatOfNat` | RecordingButton/RecordingTimeLabel.swift:66-74 | For whole seconds n ≥ 0 the text is: minutes' tens mod 10, minutes mod 10, `:`, tens of n mod 60, n mod 10. |
| `TimeFormat.FormatZero` | RecordingButton/RecordingTimeLabel.swift:32 | Zero seconds shows as `00:00`. |
| `TimeFormat.FormatShape` | RecordingButton/RecordingTimeLabel.swift:66-74 | For sec ≥ 0 the text has five characters: digits at 0, 1, 3, 4 and `:` at 2. The seconds tens digit is in 0..5. The seconds digits spell `Int(sec) % 60` and the minute digits `(Int(sec) / 60) % 100`. |
| `TimeFormat.ParseFormat` | RecordingButton/RecordingTimeLabel.swift:66-74 | Round trip: for sec ≥ 0, `(10·m1 + m0)·60 + 10·s1 + s0 == Int(sec) % 6000`. So minutes wrap modulo 100. |
| `TimeFormat.FormatParse` | RecordingButton/RecordingTimeLabel.swift:66-74 | The other direction: every well-formed `MM:SS` text is the text of the seconds it spells. |
| `TimeFormat.FormatTruncates` | RecordingButton/RecordingTimeLabel.swift:67 | Every sec in [n, n+1) with n ≥ 0 formats the same as n. |
| `TimeLabel.RecordingTimeLabel.constructor` | RecordingButton/RecordingTimeLabel.swift:18-42 | After `setup` the text is `00:00`, the dot is hidden and no blink timer is set. |
| `TimeLabel.RecordingTimeLabel.UpdateTime` | RecordingButton/RecordingTimeLabel.swift:45-48 | The text is the formatted time. |
| `TimeLabel.RecordingTimeLabel.StartRecording` | RecordingButton/RecordingTimeLabel.swift:50-53 | The text is `00:00` and the blink timer is set. A timer the handle held before is counted as still running. |
| `TimeLabel.RecordingTimeLabel.EndRecording` | RecordingButton/RecordingTimeLabel.swift:55-59 | The dot is hidden and the blink timer cleared, whatever the state before. |
| `TimeLabel.RecordingTimeLabel.Recording` | RecordingButton/RecordingTimeLabel.swift:61-63 | The dot's hidden flag flips. |
| `TimeLabel.BlinkTwice` | RecordingButton/RecordingTimeLabel.swift:61-63 | Two blinks restore the dot and change nothing else: text, blink handle and number of stray timers are unchanged. |
| `TimeLabel.EndTwice` | RecordingButton/RecordingTimeLabel.swift:55-59 | Ending twice leaves the same state as ending once: the dot hidden, no blink handle, and text and stray timers unchanged. |
| `TimeLabel.StartBlinkEnd` | RecordingButton/RecordingTimeLabel.swift:50-63 | Start, three blinks, end: the text is `00:00`, the dot hidden, no timer set and no stray timer. |

## Left out

- Rendering: the `CAShapeLayer`s of the segments and the background ring.
  This covers their creation, styling, visibility and removal. It also
  covers the `UIBezierPath` arc geometry, the button's frame, centre and
  corner radius, the label's `sizeToFit` and the red dot view's geometry.
  Only each segment's time is kept.
- `UpdateProgress` does not write a stroke fraction or start angle. In the
  code those values go only into the newest layer. `StrokeEnd` and
  `CalculateStartAngle` state them as functions. So `UpdateProgress` needs
  no precondition against the division by zero that, in Double arithmetic,
  only draws an infinite or NaN stroke.
- Timer scheduling and timing: `NSTimer` and `dispatch_after` become flags,
  a counter of queued settle callbacks, and methods the run loop calls. The
  0.1 s, 0.5 s and settle delays are not modelled as time. Neither is how
  `NSTimer` treats a non-positive interval.
- The wall clock: `startRecording` reads the clock twice, directly and
  inside `updateProgress`. The model uses one `now` for both, so the reset
  segment is exactly zero.
- Floating point: times, fractions and angles are `real`. There is no
  rounding, NaN or infinity. π is `M_PI` written as the shortest decimal
  that rounds to that Double, not the Double's exact binary value.
- The delegate is optional in the code. The event log records the calls a
  set delegate receives.
- UIKit does not deliver touches to a disabled button. `DidTouchDown` and
  `DidTouchUp` do not check `enabled`; the flag is kept as state.
- Swift's `Int` is taken as 64 bits wide. `Int(_:)` on an out-of-range
  Double stops the program, which is the precondition `InIntRange`. 32-bit
  devices are not modelled.
- `mode` and `timeout` are plain fields that the host assigns, as in the
  code. There is no setter to model.
- RecordingButton/ViewController.swift is not part of this model. It is host
  layout and delegate glue with no logic of the control.
- `TimeoutRecording`: the one-shot timeout timer's handle stays set after
  it fires, until the settle callback clears it. The model therefore does
  not rule out the timeout firing again in that window, which the real
  one-shot timer cannot do.
- The `print` in `setup` and the commented-out code are not modelled.
- The host-level "Back/Delete" toggle is not in the code. Only
  `backRecording` is modelled.
