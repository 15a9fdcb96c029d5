/** The recording time label: the elapsed time as `MM:SS` text and a red dot
    that blinks while recording. The blink timer (repeating, 0.5 s) is a flag
    for its handle; the run loop fires it by calling `Recording`. */
module TimeLabel {
  import opened TimeFormat

  class RecordingTimeLabel {
    var text: string
    var dotHidden: bool
    /** Whether the blink timer handle is set. */
    var blinkTimer: bool
    /** Blink timers still scheduled although no handle refers to them any
        more: `startRecording` overwrites the handle without invalidating
        the timer it held. */
    var strayBlinkTimers: nat

    /** `init` followed by `setup`: the text shows zero time and the dot is
        hidden; no timer is scheduled yet. */
    constructor ()
      ensures text == "00:00" && dotHidden && !blinkTimer && strayBlinkTimers == 0
    {
      text := ConvertSecToMinSec(0.0);
      FormatZero();
      dotHidden := true;
      blinkTimer := false;
      strayBlinkTimers := 0;
    }

    /** `updateTime`: show the given time. */
    method UpdateTime(recordingTime: real)
      requires InIntRange(recordingTime)
      modifies this`text
      ensures text == ConvertSecToMinSec(recordingTime)
    {
      text := ConvertSecToMinSec(recordingTime);
    }

    /** `startRecording`: the text goes back to zero and the blink timer is
        scheduled; a timer it replaces keeps running. */
    method StartRecording()
      modifies this`text, this`blinkTimer, this`strayBlinkTimers
      ensures text == "00:00" && blinkTimer
      ensures strayBlinkTimers == old(strayBlinkTimers) + (if old(blinkTimer) then 1 else 0)
    {
      FormatZero();
      UpdateTime(0.0);
      if blinkTimer {
        strayBlinkTimers := strayBlinkTimers + 1;
      }
      blinkTimer := true;
    }

    /** `endRecording`: the dot is hidden and the blink timer dropped,
        whatever the state before. */
    method EndRecording()
      modifies this`dotHidden, this`blinkTimer
      ensures dotHidden && !blinkTimer
    {
      dotHidden := true;
      blinkTimer := false;
    }

    /** `recording`, the blink: the dot's visibility flips. */
    method Recording()
      modifies this`dotHidden
      ensures dotHidden == !old(dotHidden)
    {
      dotHidden := !dotHidden;
    }
  }

  /** Two blinks in a row restore the dot. */
  method BlinkTwice(timeLabel: RecordingTimeLabel)
    modifies timeLabel`dotHidden
    ensures timeLabel.dotHidden == old(timeLabel.dotHidden)
    ensures timeLabel.text == old(timeLabel.text) && timeLabel.blinkTimer == old(timeLabel.blinkTimer)
    ensures timeLabel.strayBlinkTimers == old(timeLabel.strayBlinkTimers)
  {
    timeLabel.Recording();
    timeLabel.Recording();
  }

  /** Ending twice leaves the label as ending once does. */
  method EndTwice(timeLabel: RecordingTimeLabel)
    modifies timeLabel`dotHidden, timeLabel`blinkTimer
    ensures timeLabel.dotHidden && !timeLabel.blinkTimer
    ensures timeLabel.text == old(timeLabel.text)
    ensures timeLabel.strayBlinkTimers == old(timeLabel.strayBlinkTimers)
  {
    timeLabel.EndRecording();
    ghost var once := (timeLabel.dotHidden, timeLabel.blinkTimer, timeLabel.text);
    timeLabel.EndRecording();
    assert (timeLabel.dotHidden, timeLabel.blinkTimer, timeLabel.text) == once;
  }

  /** A label that starts, blinks three times and ends: zero time shown, the
      dot hidden and no timer left. */
  method StartBlinkEnd() returns (text: string, dotHidden: bool, timerSet: bool, strays: nat)
    ensures text == "00:00" && dotHidden && !timerSet && strays == 0
  {
    var timeLabel := new RecordingTimeLabel();
    timeLabel.StartRecording();
    timeLabel.Recording();
    timeLabel.Recording();
    timeLabel.Recording();
    assert !timeLabel.dotHidden;
    timeLabel.EndRecording();
    text, dotHidden, timerSet, strays := timeLabel.text, timeLabel.dotHidden, timeLabel.blinkTimer, timeLabel.strayBlinkTimers;
  }
}
