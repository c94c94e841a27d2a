// The modal dialog shown while the camera warms up before the application
// quits: a progress bar from the starting to the target temperature, a
// status line and a force-quit button.
module ShutdownDialog {
  import opened Wrappers

  function Abs(x: real): (a: real)
    ensures a >= 0.0 && (a == x || a == -x)
  {
    if x < 0.0 then -x else x
  }

  /**
   * The progress bar value for temperature `t` on the way from `start` to
   * `target`, in percent truncated toward zero and clamped to 0..100; a
   * range of 0.1 °C or less counts as done.
   */
  function Progress(start: real, target: real, t: real): (p: int)
    ensures 0 <= p <= 100
    ensures Abs(target - start) <= 0.1 ==> p == 100
    ensures Abs(target - start) > 0.1 && t == start ==> p == 0
    ensures Abs(target - start) > 0.1 && t == target ==> p == 100
  {
    var range := target - start;
    if Abs(range) > 0.1 then
      var fraction := (t - start) / range;
      assert t == target ==> fraction == 1.0 by { DivSelf(range); }
      ClampInt(Trunc(fraction * 100.0), 0, 100)
    else 100
  }

  lemma {:induction false} DivSelf(x: real)
    requires x != 0.0
    ensures x / x == 1.0
  {
  }

  /** Warming from -60 °C towards -20 °C, -40 °C is half way. */
  lemma {:induction false} HalfWay()
    ensures Progress(-60.0, -20.0, -40.0) == 50
  {
    assert (-40.0 - -60.0) / (-20.0 - -60.0) * 100.0 == 50.0;
  }

  lemma {:induction false} TruncMonotone(x: real, y: real)
    requires x <= y
    ensures Trunc(x) <= Trunc(y)
  {
  }

  /**
   * The further along the range a temperature is, the fuller the bar: in
   * either direction (warming or cooling), a reading that has covered a
   * larger fraction of the range never shows less progress.
   */
  lemma {:induction false} ProgressMonotone(start: real, target: real, t1: real, t2: real)
    requires Abs(target - start) > 0.1
    requires (t1 - start) / (target - start) <= (t2 - start) / (target - start)
    ensures Progress(start, target, t1) <= Progress(start, target, t2)
  {
    var a, b := (t1 - start) / (target - start), (t2 - start) / (target - start);
    assert a * 100.0 <= b * 100.0;
    TruncMonotone(a * 100.0, b * 100.0);
  }

  class Dialog {
    var startTemp: real
    var targetTemp: real
    var progress: int
    var temperature: Option<(real, string)>
    var statusText: string
    var forceQuitEnabled: bool
    var forceQuitRequests: nat

    ghost predicate Valid()
      reads this`progress
    {
      0 <= progress <= 100
    }

    /** A fresh dialog: from 0 °C to -20 °C, an empty bar and force-quit available. */
    constructor ()
      ensures Valid()
      ensures startTemp == 0.0 && targetTemp == -20.0 && progress == 0
      ensures temperature == None && statusText == "Preparing shutdown..."
      ensures forceQuitEnabled && forceQuitRequests == 0
    {
      startTemp, targetTemp, progress := 0.0, -20.0, 0;
      temperature, statusText := None, "Preparing shutdown...";
      forceQuitEnabled, forceQuitRequests := true, 0;
    }

    method SetTemperatureRange(start: real, target: real)
      modifies this`startTemp, this`targetTemp
      ensures startTemp == start && targetTemp == target
    {
      startTemp, targetTemp := start, target;
    }

    /** Shows reading `t` with its status and moves the bar to its progress along the range. */
    method UpdateTemperature(t: real, status: string)
      modifies this`temperature, this`progress
      ensures Valid()
      ensures temperature == Some((t, status))
      ensures progress == Progress(startTemp, targetTemp, t)
      ensures t == targetTemp ==> progress == 100
    {
      temperature := Some((t, status));
      progress := Progress(startTemp, targetTemp, t);
    }

    method SetStatus(message: string)
      modifies this`statusText
      ensures statusText == message
    {
      statusText := message;
    }

    /** Fills the bar, reports completion and disables force-quit. */
    method OnShutdownComplete()
      modifies this`progress, this`statusText, this`forceQuitEnabled
      ensures Valid()
      ensures progress == 100 && statusText == "Shutdown complete" && !forceQuitEnabled
    {
      progress := 100;
      statusText := "Shutdown complete";
      forceQuitEnabled := false;
    }

    /** A click on force-quit requests it only while the button is enabled. */
    method ClickForceQuit()
      modifies this`forceQuitRequests
      ensures forceQuitRequests == old(forceQuitRequests) + (if forceQuitEnabled then 1 else 0)
    {
      if forceQuitEnabled {
        forceQuitRequests := forceQuitRequests + 1;
      }
    }
  }
}
