// The PyMeasure wavelength scan procedures: clip the requested range to the
// grating's limits, step the spectrograph's centre wavelength over a grid and
// acquire a spectrum (or an image) at every position.  `startup` and
// `shutdown` are those of the spectrum procedure (PmSpectrum.DeviceOwner).
module WavelengthScan {
  import opened Wrappers
  import opened Spectra
  import opened Acquisition

  /** The parameters of `WavelengthScanProcedure`. */
  datatype ScanParams = ScanParams(start: real, end: real, step: real, exposure: real, grating: int)

  /** The parameters of `WavelengthImageScanProcedure`. */
  datatype ImageScanParams = ImageScanParams(
    start: real, end: real, step: real, exposure: real, grating: int, hbin: int, vbin: int)

  const DefaultScan := ScanParams(400.0, 700.0, 50.0, 0.1, 1)
  const DefaultImageScan := ImageScanParams(400.0, 700.0, 50.0, 1.0, 1, 1, 1)

  /** The requested range cut down to the grating's `(wl_min, wl_max)`. */
  function Clip(start: real, end: real, limits: (real, real)): (r: (real, real))
    ensures r.0 >= start && r.0 >= limits.0 && (r.0 == start || r.0 == limits.0)
    ensures r.1 <= end && r.1 <= limits.1 && (r.1 == end || r.1 == limits.1)
  {
    (if start > limits.0 then start else limits.0, if end < limits.1 then end else limits.1)
  }

  /** Clipping twice is clipping once, and a non-empty clipped range lies within the limits. */
  lemma {:induction false} ClipIdempotent(start: real, end: real, limits: (real, real))
    ensures var r := Clip(start, end, limits);
            Clip(r.0, r.1, limits) == r
            && (r.0 < r.1 ==> limits.0 <= r.0 < r.1 <= limits.1)
  {
  }

  /** Whether the wavelength setter accepts `nm` for the current grating. */
  predicate InLimits(nm: real, limits: (real, real))
  {
    limits.0 <= nm <= limits.1
  }

  /** The positions as written: `np.arange(start, end + step, step)`. */
  function Grid(start: real, end: real, step: real): (r: seq<real>)
    requires step != 0.0
    ensures |r| == ArangeCount(start, end + step, step)
  {
    Arange(start, end + step, step)
  }

  /** Grid point i is start + i·step. */
  lemma {:induction false} GridPoints(start: real, end: real, step: real)
    requires step != 0.0
    ensures forall i :: 0 <= i < |Grid(start, end, step)| ==> Grid(start, end, step)[i] == start + (i as real) * step
  {
    ArangePoints(start, end + step, step);
  }

  /**
   * For a positive step and `start <= end` the grid starts at `start`, every
   * position but the last lies below `end`, and the last one reaches `end`
   * and may pass it by less than one step.
   */
  lemma {:induction false} GridShape(start: real, end: real, step: real)
    requires step > 0.0 && start <= end
    ensures var g := Grid(start, end, step);
            |g| >= 1 && g[0] == start
            && (forall i :: 0 <= i < |g| - 1 ==> start <= g[i] < end)
            && end <= g[|g| - 1] < end + step
  {
    var g := Grid(start, end, step);
    GridPoints(start, end, step);
    ArangeBelowStop(start, end + step, step, 0);
    var n := |g|;
    ArangeBelowStop(start, end + step, step, n - 1);
    ArangeBelowStop(start, end + step, step, n);
    forall i | 0 <= i < n - 1
      ensures start <= g[i] < end
    {
      ArangeBelowStop(start, end + step, step, i + 1);
      assert start + ((i + 1) as real) * step == g[i] + step;
    }
  }

  /** The grid `start, start + 400/7 …` from 400 to 700 by 70 ends at 750, past 700. */
  lemma {:induction false} GridOvershoots()
    ensures var g := Grid(400.0, 700.0, 70.0);
            |g| == 6 && g[5] == 750.0 && g[5] > 700.0
  {
    var g := Grid(400.0, 700.0, 70.0);
    GridPoints(400.0, 700.0, 70.0);
    assert (770.0 - 400.0) / 70.0 == 37.0 / 7.0;
  }

  /** The evidently intended positions: the grid without a last point beyond `end`. */
  function IntendedGrid(start: real, end: real, step: real): (r: seq<real>)
    requires step != 0.0
    ensures r <= Grid(start, end, step) && |Grid(start, end, step)| <= |r| + 1
  {
    var g := Grid(start, end, step);
    if |g| > 0 && g[|g| - 1] > end then g[..|g| - 1] else g
  }

  /**
   * For a positive step over a non-empty range the intended grid starts at
   * `start`, stays within [start, end], and holds every grid point up to `end`.
   */
  lemma {:induction false} IntendedGridWithin(start: real, end: real, step: real)
    requires step > 0.0 && start < end
    ensures var r := IntendedGrid(start, end, step);
            |r| >= 1 && r[0] == start
            && (forall i :: 0 <= i < |r| ==> start <= r[i] <= end)
            && (forall i :: 0 <= i < |Grid(start, end, step)| && Grid(start, end, step)[i] <= end ==> i < |r|)
  {
    GridShape(start, end, step);
  }

  /** The instrument calls for the first `d` positions of a spectrum scan. */
  function ScanCalls(positions: seq<real>, d: nat, xpixels: int, width: real): (r: seq<Call>)
    requires d <= |positions|
    ensures |r| == 3 * d
  {
    if d == 0 then []
    else ScanCalls(positions, d - 1, xpixels, width)
         + [SetWavelength(positions[d - 1]), Calibrate(xpixels, width), AcquireFvb(1)]
  }

  /** What position i emits: one row per `zip(pixel_wavelengths, spectrum)` pair, then 100·(i+1)/n. */
  function PositionBlock(rig: Rig, positions: seq<real>, i: nat): (r: seq<Emit>)
    requires i < |positions|
  {
    Tagged([positions[i]], Zip(rig.calibration(i), rig.fvb(i))) + [Progress(Percent(i + 1, |positions|))]
  }

  /** The emits of the first `d` positions. */
  function ScanEmits(rig: Rig, positions: seq<real>, d: nat): (r: seq<Emit>)
    requires d <= |positions|
  {
    if d == 0 then [] else ScanEmits(rig, positions, d - 1) + PositionBlock(rig, positions, d - 1)
  }

  /** The progress values of the first d positions are 100·1/n, …, 100·d/n, and results only zip pairs. */
  lemma {:induction false} ScanReport(rig: Rig, positions: seq<real>, d: nat)
    requires d <= |positions|
    ensures Progresses(ScanEmits(rig, positions, d)) == Percents(d, |positions|)
    ensures |ResultRows(ScanEmits(rig, positions, d))| == ZipCount(rig, d)
  {
    if d > 0 {
      ScanReport(rig, positions, d - 1);
      BlockReport([positions[d - 1]], Zip(rig.calibration(d - 1), rig.fvb(d - 1)), Percent(d, |positions|));
      FiltersDistribute(ScanEmits(rig, positions, d - 1), PositionBlock(rig, positions, d - 1));
    }
  }

  /** The number of `zip` pairs over the first d positions. */
  function ZipCount(rig: Rig, d: nat): nat
  {
    if d == 0 then 0 else ZipCount(rig, d - 1) + |Zip(rig.calibration(d - 1), rig.fvb(d - 1))|
  }

  /**
   * The scan loop: before each position consult `should_stop` (call 1 + i),
   * set the centre wavelength (the setter raises `ValueError` outside the
   * limits), calibrate for all `xpixels`, acquire, and emit the position's block.
   */
  method ScanLoop(rig: Rig, positions: seq<real>, calls0: seq<Call>) returns (out: Outcome, done: nat, emits: seq<Emit>, calls: seq<Call>)
    requires |calls0| == 3
    ensures done <= |positions| && (out.Completed? <==> done == |positions|)
    ensures emits == ScanEmits(rig, positions, done)
    ensures calls0 + ScanCalls(positions, done, rig.xpixels, rig.pixelWidth) <= calls
    ensures out.Completed? || out.Stopped? ==> calls == calls0 + ScanCalls(positions, done, rig.xpixels, rig.pixelWidth)
    ensures NoStopIn(rig, 1, 1 + done)
    ensures forall j :: 0 <= j < done ==> InLimits(positions[j], rig.limits) && |rig.calibration(j)| > 0
    ensures out.Stopped? ==> rig.stop(1 + done)
    ensures out.Completed? || out.Stopped? || out == Raised(rig.fault) || out == Raised(ValueError) || out == Raised(IndexError)
    ensures out.Raised? && rig.failAt.None? ==>
      (out == Raised(ValueError) && !InLimits(positions[done], rig.limits))
      || (out == Raised(IndexError) && InLimits(positions[done], rig.limits) && |rig.calibration(done)| == 0)
    ensures ScanClear(rig, positions) ==> out.Completed?
  {
    emits, calls := [], calls0;
    done := 0;
    while done < |positions|
      invariant done <= |positions|
      invariant emits == ScanEmits(rig, positions, done)
      invariant calls == calls0 + ScanCalls(positions, done, rig.xpixels, rig.pixelWidth)
      invariant Passed(rig, positions, done)
    {
      var failed, nextEmits, nextCalls := ScanTurn(rig, positions, done, calls0, emits, calls);
      if failed.Some? {
        PassedMeans(rig, positions, done);
        if failed.value.Stopped? || rig.failAt.None? {
          ScanBlocked(rig, positions, done);
        }
        return failed.value, done, nextEmits, nextCalls;
      }
      emits, calls := nextEmits, nextCalls;
      done := done + 1;
    }
    PassedMeans(rig, positions, done);
    PrefixRefl(calls);
    out := Completed;
  }

  /**
   * Nothing stops the spectrum scan: no instrument call raises, `should_stop`
   * answers no before every position, and every position is within the
   * limits with a non-empty calibration.
   */
  ghost predicate ScanClear(rig: Rig, positions: seq<real>)
  {
    rig.failAt.None? && NoStopIn(rig, 1, 1 + |positions|)
    && forall j :: 0 <= j < |positions| ==> InLimits(positions[j], rig.limits) && |rig.calibration(j)| > 0
  }

  /** A stop, a position outside the limits or an empty calibration at position `d` keeps the scan from completing. */
  lemma {:induction false} ScanBlocked(rig: Rig, positions: seq<real>, d: nat)
    requires d < |positions|
    requires rig.stop(1 + d) || !InLimits(positions[d], rig.limits) || |rig.calibration(d)| == 0
    ensures !ScanClear(rig, positions)
  {
  }

  /** The first `d` positions passed the loop's checks: no stop, within the limits, calibrated. */
  ghost predicate Passed(rig: Rig, positions: seq<real>, d: nat)
  {
    d <= |positions| &&
    (d == 0 || (Passed(rig, positions, d - 1) && !rig.stop(d)
                && InLimits(positions[d - 1], rig.limits) && |rig.calibration(d - 1)| > 0))
  }

  lemma {:induction false} PassedMeans(rig: Rig, positions: seq<real>, d: nat)
    requires Passed(rig, positions, d)
    ensures NoStopIn(rig, 1, 1 + d)
    ensures forall j :: 0 <= j < d ==> InLimits(positions[j], rig.limits) && |rig.calibration(j)| > 0
  {
    if d > 0 {
      PassedMeans(rig, positions, d - 1);
    }
  }

  /**
   * One position of the scan loop: set the centre wavelength, calibrate,
   * acquire and emit the position's block. `failed` is the exception that
   * ends the loop there, with nothing emitted.
   */
  method ScanTurn(rig: Rig, positions: seq<real>, i: nat, calls0: seq<Call>, emits0: seq<Emit>, before: seq<Call>)
    returns (failed: Option<Outcome>, emits: seq<Emit>, calls: seq<Call>)
    requires i < |positions|
    requires emits0 == ScanEmits(rig, positions, i)
    requires before == calls0 + ScanCalls(positions, i, rig.xpixels, rig.pixelWidth)
    ensures calls0 + ScanCalls(positions, i, rig.xpixels, rig.pixelWidth) <= calls
    ensures failed.None? ==>
      emits == ScanEmits(rig, positions, i + 1) &&
      calls == calls0 + ScanCalls(positions, i + 1, rig.xpixels, rig.pixelWidth) &&
      !rig.stop(1 + i) && InLimits(positions[i], rig.limits) && |rig.calibration(i)| > 0
    ensures failed.Some? ==> emits == emits0
    ensures failed.Some? ==>
      failed.value == Stopped || failed.value == Raised(rig.fault)
      || failed.value == Raised(ValueError) || failed.value == Raised(IndexError)
    ensures failed.Some? && failed.value.Stopped? ==> rig.stop(1 + i) && calls == before
    ensures failed.Some? && failed.value.Raised? && rig.failAt.None? ==>
      (failed.value == Raised(ValueError) && !InLimits(positions[i], rig.limits))
      || (failed.value == Raised(IndexError) && InLimits(positions[i], rig.limits) && |rig.calibration(i)| == 0)
  {
    emits := emits0;
    if rig.stop(1 + i) {
      PrefixRefl(before);
      return Some(Stopped), emits, before;
    }
    var nm := positions[i];
    calls := before + [SetWavelength(nm)];
    if !InLimits(nm, rig.limits) { return Some(Raised(ValueError)), emits, calls; }
    if FailsAt(rig, |calls| - 1) { return Some(Raised(rig.fault)), emits, calls; }
    calls := calls + [Calibrate(rig.xpixels, rig.pixelWidth)];
    if FailsAt(rig, |calls| - 1) { return Some(Raised(rig.fault)), emits, calls; }
    if |rig.calibration(i)| == 0 { return Some(Raised(IndexError)), emits, calls; }
    calls := calls + [AcquireFvb(1)];
    if FailsAt(rig, |calls| - 1) { return Some(Raised(rig.fault)), emits, calls; }
    failed, emits := None, emits + PositionBlock(rig, positions, i);
  }

  /**
   * The part of `execute` before the loop: set the grating, check, read the
   * limits and clip.  `None` means `execute` went on to build the grid.
   */
  method Prepare(grating: int, start: real, end: real, rig: Rig) returns (early: Option<Outcome>, range: (real, real), calls: seq<Call>)
    ensures calls == [SetGrating(grating)] || calls == [SetGrating(grating), GetLimits]
    ensures early.None? ==>
      (calls == [SetGrating(grating), GetLimits] && !rig.stop(0)
       && !FailsAt(rig, 0) && !FailsAt(rig, 1) && range == Clip(start, end, rig.limits) && range.0 < range.1)
    ensures early == Some(Completed) <==>
      !FailsAt(rig, 0) && !rig.stop(0) && !FailsAt(rig, 1) && Clip(start, end, rig.limits).0 >= Clip(start, end, rig.limits).1
    ensures early == Some(Stopped) <==> !FailsAt(rig, 0) && rig.stop(0)
    ensures early.Some? && early.value.Raised? ==> early.value == Raised(rig.fault) && (FailsAt(rig, 0) || FailsAt(rig, 1))
  {
    calls := [SetGrating(grating)];
    range := Clip(start, end, rig.limits);
    if FailsAt(rig, 0) { return Some(Raised(rig.fault)), range, calls; }
    if rig.stop(0) { return Some(Stopped), range, calls; }
    calls := calls + [GetLimits];
    if FailsAt(rig, 1) { return Some(Raised(rig.fault)), range, calls; }
    if range.0 >= range.1 { return Some(Completed), range, calls; }
    early := None;
  }

  /** The grid `execute` builds once the range is known: as written, or the intended one. */
  function Positions(range: (real, real), step: real, intended: bool): seq<real>
    requires step != 0.0
  {
    if intended then IntendedGrid(range.0, range.1, step) else Grid(range.0, range.1, step)
  }

  /**
   * `WavelengthScanProcedure.execute` over the given grid: `done` positions
   * were reported in full; the grid is empty when `execute` returned before
   * building it.
   */
  method ScanOver(p: ScanParams, rig: Rig, intended: bool)
    returns (out: Outcome, positions: seq<real>, done: nat, emits: seq<Emit>, calls: seq<Call>)
    ensures var r := Clip(p.start, p.end, rig.limits);
      !rig.stop(0) && rig.failAt.None? && r.0 >= r.1 ==> out.Completed? && emits == []
    ensures var r := Clip(p.start, p.end, rig.limits);
      r.0 < r.1 && p.step != 0.0 && !FailsAt(rig, 0) && !rig.stop(0) && !FailsAt(rig, 1) ==>
        positions == Positions(r, p.step, intended)
    ensures done <= |positions| && emits == ScanEmits(rig, positions, done)
    ensures forall j :: 0 <= j < done ==> InLimits(positions[j], rig.limits) && |rig.calibration(j)| > 0
    ensures out.Completed? && |positions| > 0 ==>
      done == |positions|
      && calls == [SetGrating(p.grating), GetLimits, SetExposure(p.exposure)]
                  + ScanCalls(positions, |positions|, rig.xpixels, rig.pixelWidth)
    ensures out.Raised? && out != Raised(ZeroDivisionError) && rig.failAt.None? ==>
      done < |positions|
      && ((out == Raised(ValueError) && !InLimits(positions[done], rig.limits))
          || (out == Raised(IndexError) && |rig.calibration(done)| == 0))
    ensures out.Stopped? ==> rig.stop(0) || rig.stop(1 + done)
    ensures out == Raised(ZeroDivisionError) && rig.failAt.None? ==> p.step == 0.0
    ensures Smooth(rig) && p.step != 0.0
      && (forall j :: 0 <= j < |positions| ==> InLimits(positions[j], rig.limits) && |rig.calibration(j)| > 0)
      ==> out.Completed?
  {
    var early, range;
    early, range, calls := Prepare(p.grating, p.start, p.end, rig);
    positions, done, emits := [], 0, [];
    if early.Some? { return early.value, positions, done, emits, calls; }
    if p.step == 0.0 { return Raised(ZeroDivisionError), positions, done, emits, calls; }
    positions := Positions(range, p.step, intended);
    calls := calls + [SetExposure(p.exposure)];
    if FailsAt(rig, 2) { return Raised(rig.fault), positions, done, emits, calls; }
    out, done, emits, calls := ScanLoop(rig, positions, calls);
  }

  /**
   * `execute` as written: the grid's last position can pass `end`; when the
   * range was clipped to the grating's upper limit, that position is beyond
   * what the wavelength setter accepts and the scan raises `ValueError` after
   * reporting every earlier position.
   */
  method ExecuteAsWritten(p: ScanParams, rig: Rig) returns (out: Outcome, emits: seq<Emit>, calls: seq<Call>)
    ensures var r := Clip(p.start, p.end, rig.limits);
      var g := Grid(r.0, r.1, if p.step == 0.0 then 1.0 else p.step);
      Smooth(rig) && p.step > 0.0 && r.0 < r.1 && r.1 == rig.limits.1 && g[|g| - 1] > r.1
      && (forall j :: 0 <= j < |g| ==> |rig.calibration(j)| > 0)
      ==> out == Raised(ValueError) && |Progresses(emits)| == |g| - 1
  {
    var positions, done;
    out, positions, done, emits, calls := ScanOver(p, rig, false);
    var r := Clip(p.start, p.end, rig.limits);
    if Smooth(rig) && p.step > 0.0 && r.0 < r.1 && r.1 == rig.limits.1 {
      GridShape(r.0, r.1, p.step);
      var g := positions;
      if g[|g| - 1] > r.1 && (forall j :: 0 <= j < |g| ==> |rig.calibration(j)| > 0) {
        assert out.Completed? || out == Raised(ValueError) by {
          assert !out.Stopped?;
        }
        OvershootStops(g, done, rig.limits, r.1);
        ScanReport(rig, g, done);
      }
    }
  }

  /**
   * The loop stops at a position outside the limits; when only the last one
   * is, it stops there.
   */
  lemma {:induction false} OvershootStops(g: seq<real>, done: nat, limits: (real, real), end: real)
    requires |g| >= 1 && g[|g| - 1] > end && end == limits.1
    requires forall i :: 0 <= i < |g| - 1 ==> limits.0 <= g[i] < end
    requires done <= |g| && forall j :: 0 <= j < done ==> InLimits(g[j], limits)
    requires done == |g| || !InLimits(g[done], limits)
    ensures done == |g| - 1
  {
  }

  /**
   * The evidently intended `execute`: positions stay within [start, end], so
   * without faults or stops, and with a calibration at every position, the
   * scan completes and its last progress value is 100.
   */
  method Execute(p: ScanParams, rig: Rig) returns (out: Outcome, emits: seq<Emit>, calls: seq<Call>)
    ensures var r := Clip(p.start, p.end, rig.limits);
      var g := IntendedGrid(r.0, r.1, if p.step == 0.0 then 1.0 else p.step);
      Smooth(rig) && p.step > 0.0 && r.0 < r.1
      && (forall j :: 0 <= j < |g| ==> |rig.calibration(j)| > 0)
      ==> out.Completed? && |Progresses(emits)| == |g| && Progresses(emits)[|g| - 1] == 100.0
          && |ResultRows(emits)| == ZipCount(rig, |g|)
  {
    var positions, done;
    out, positions, done, emits, calls := ScanOver(p, rig, true);
    var r := Clip(p.start, p.end, rig.limits);
    if Smooth(rig) && p.step > 0.0 && r.0 < r.1 {
      IntendedGridWithin(r.0, r.1, p.step);
      var g := positions;
      if forall j :: 0 <= j < |g| ==> |rig.calibration(j)| > 0 {
        assert forall j :: 0 <= j < |g| ==> InLimits(g[j], rig.limits);
        ScanReport(rig, g, |g|);
        PercentGrows(|g|, |g|, |g|);
      }
    }
  }

  /** The instrument calls for the first `d` positions of an image scan. */
  function ImageScanCalls(positions: seq<real>, d: nat, effX: int, width: real, hbin: int, vbin: int): (r: seq<Call>)
    requires d <= |positions|
    ensures |r| == 3 * d
  {
    if d == 0 then []
    else ImageScanCalls(positions, d - 1, effX, width, hbin, vbin)
         + [SetWavelength(positions[d - 1]), Calibrate(effX, width), AcquireImage(hbin, vbin)]
  }

  /** The pixels of one image as tagged result rows (none when the calibration is too short). */
  function ImageBlock(tag: seq<real>, wl: seq<real>, img: Image): seq<Emit>
  {
    if img.cols <= |wl| then ImagePoints(tag, wl, img, img.rows) else []
  }

  /** The emits of the first `d` positions of an image scan. */
  function ImageScanEmits(rig: Rig, positions: seq<real>, d: nat): (r: seq<Emit>)
    requires d <= |positions|
  {
    if d == 0 then []
    else ImageScanEmits(rig, positions, d - 1)
         + ImageBlock([positions[d - 1]], rig.calibration(d - 1), rig.image(d - 1))
         + [Progress(Percent(d, |positions|))]
  }

  /** The number of pixels of the first d images. */
  function PixelCount(rig: Rig, d: nat): nat
  {
    if d == 0 then 0 else PixelCount(rig, d - 1) + Pixels(rig.image(d - 1))
  }

  /** An image scan reports 100·1/n, …, 100·d/n over d positions. */
  lemma {:induction false} ImageScanTicks(rig: Rig, positions: seq<real>, d: nat)
    requires d <= |positions|
    ensures Progresses(ImageScanEmits(rig, positions, d)) == Percents(d, |positions|)
  {
    if d > 0 {
      ImageScanTicks(rig, positions, d - 1);
      ImageBlockRows([positions[d - 1]], rig.calibration(d - 1), rig.image(d - 1));
      BlockThenTick(ImageScanEmits(rig, positions, d - 1),
                    ImageBlock([positions[d - 1]], rig.calibration(d - 1), rig.image(d - 1)), Percent(d, |positions|));
    }
  }

  /** When every calibration covers its image's columns, each position yields rows·cols results. */
  lemma {:induction false} ImageScanResults(rig: Rig, positions: seq<real>, d: nat)
    requires d <= |positions|
    requires forall j :: 0 <= j < d ==> rig.image(j).cols <= |rig.calibration(j)|
    ensures |ResultRows(ImageScanEmits(rig, positions, d))| == PixelCount(rig, d)
  {
    if d > 0 {
      ImageScanResults(rig, positions, d - 1);
      ImageScanResultsStep(rig, positions, d);
    }
  }

  /** A position whose calibration covers its image adds that image's pixels to the results. */
  lemma {:induction false} ImageScanResultsStep(rig: Rig, positions: seq<real>, d: nat)
    requires 0 < d <= |positions| && rig.image(d - 1).cols <= |rig.calibration(d - 1)|
    requires |ResultRows(ImageScanEmits(rig, positions, d - 1))| == PixelCount(rig, d - 1)
    ensures |ResultRows(ImageScanEmits(rig, positions, d))| == PixelCount(rig, d)
  {
    var block := ImageBlock([positions[d - 1]], rig.calibration(d - 1), rig.image(d - 1));
    ImageBlockRows([positions[d - 1]], rig.calibration(d - 1), rig.image(d - 1));
    BlockThenTick(ImageScanEmits(rig, positions, d - 1), block, Percent(d, |positions|));
  }

  /** One image's block holds no progress and, when the calibration covers it, rows·cols results. */
  lemma {:induction false} ImageBlockRows(tag: seq<real>, wl: seq<real>, img: Image)
    ensures Progresses(ImageBlock(tag, wl, img)) == []
    ensures img.cols <= |wl| ==> |ResultRows(ImageBlock(tag, wl, img))| == Pixels(img)
  {
    if img.cols <= |wl| {
      ImagePointsCount(tag, wl, img, img.rows);
    }
  }

  /**
   * One position of the image scan: set the wavelength (`ValueError` outside
   * the limits), calibrate (`IndexError` when the calibration is empty, from
   * the spectrograph's log line), acquire and emit every pixel, then the
   * progress 100·(i+1)/n.  On failure `block` holds the pixels emitted before it.
   */
  method ImagePosition(rig: Rig, nm: real, i: nat, n: nat, effX: int, width: real, hbin: int, vbin: int, calls0: seq<Call>)
    returns (failed: Option<Outcome>, block: seq<Emit>, calls: seq<Call>)
    requires i < n
    ensures failed.None? ==>
      calls == calls0 + [SetWavelength(nm), Calibrate(effX, width), AcquireImage(hbin, vbin)]
      && block == ImageBlock([nm], rig.calibration(i), rig.image(i)) + [Progress(Percent(i + 1, n))]
      && InLimits(nm, rig.limits) && |rig.calibration(i)| > 0
    ensures failed.Some? ==> calls0 <= calls && Progresses(block) == [] && failed.value.Raised?
    ensures failed.Some? && rig.failAt.None? ==>
      (failed.value == Raised(ValueError) && !InLimits(nm, rig.limits))
      || (failed.value == Raised(IndexError) && InLimits(nm, rig.limits) && ShortCalibration(rig, i))
    ensures rig.failAt.None? && InLimits(nm, rig.limits) && ImageCalibrated(rig, i) ==> failed.None?
  {
    calls := calls0 + [SetWavelength(nm)];
    block := [];
    if !InLimits(nm, rig.limits) { return Some(Raised(ValueError)), block, calls; }
    if FailsAt(rig, |calls| - 1) { return Some(Raised(rig.fault)), block, calls; }
    calls := calls + [Calibrate(effX, width)];
    if FailsAt(rig, |calls| - 1) { return Some(Raised(rig.fault)), block, calls; }
    if |rig.calibration(i)| == 0 { return Some(Raised(IndexError)), block, calls; }
    calls := calls + [AcquireImage(hbin, vbin)];
    if FailsAt(rig, |calls| - 1) { return Some(Raised(rig.fault)), block, calls; }
    var ok, pixels := EmitImage([nm], rig.calibration(i), rig.image(i));
    if !ok { return Some(Raised(IndexError)), pixels, calls; }
    assert pixels == ImageBlock([nm], rig.calibration(i), rig.image(i)) by {
      if rig.image(i).rows == 0 {
        assert |pixels| == 0;
      }
    }
    failed, block := None, pixels + [Progress(Percent(i + 1, n))];
  }

  /** The image scan loop over the positions, one `ImageScanTurn` each. */
  method ImageScanLoop(rig: Rig, positions: seq<real>, effX: int, width: real, hbin: int, vbin: int, calls0: seq<Call>)
    returns (out: Outcome, done: nat, emits: seq<Emit>, calls: seq<Call>)
    requires |calls0| == 3
    ensures done <= |positions| && (out.Completed? <==> done == |positions|)
    ensures Progresses(emits) == Progresses(ImageScanEmits(rig, positions, done))
    ensures out.Completed? || out.Stopped? ==> emits == ImageScanEmits(rig, positions, done)
    ensures calls0 + ImageScanCalls(positions, done, effX, width, hbin, vbin) <= calls
    ensures out.Completed? || out.Stopped? ==> calls == calls0 + ImageScanCalls(positions, done, effX, width, hbin, vbin)
    ensures forall j :: 0 <= j < done ==> InLimits(positions[j], rig.limits)
    ensures out.Stopped? ==> rig.stop(1 + done)
    ensures out.Raised? && rig.failAt.None? ==>
      done < |positions|
      && ((out == Raised(ValueError) && !InLimits(positions[done], rig.limits))
          || (out == Raised(IndexError) && ShortCalibration(rig, done)))
    ensures ImageScanClear(rig, positions) ==> out.Completed?
  {
    emits, calls := [], calls0;
    done := 0;
    while done < |positions|
      invariant done <= |positions|
      invariant emits == ImageScanEmits(rig, positions, done)
      invariant calls == calls0 + ImageScanCalls(positions, done, effX, width, hbin, vbin)
      invariant forall j :: 0 <= j < done ==> InLimits(positions[j], rig.limits)
    {
      var failed, nextEmits, nextCalls := ImageScanTurn(rig, positions, done, effX, width, hbin, vbin, emits, calls0, calls);
      if failed.Some? {
        return failed.value, done, nextEmits, nextCalls;
      }
      emits, calls := nextEmits, nextCalls;
      done := done + 1;
    }
    PrefixRefl(calls);
    out := Completed;
  }

  /**
   * Nothing stops the image scan: no instrument call raises, `should_stop`
   * answers no before every position, and every position is within the
   * limits with a non-empty calibration as wide as its image.
   */
  ghost predicate ImageScanClear(rig: Rig, positions: seq<real>)
  {
    rig.failAt.None? && NoStopIn(rig, 1, 1 + |positions|)
    && forall j :: 0 <= j < |positions| ==> InLimits(positions[j], rig.limits) && ImageCalibrated(rig, j)
  }

  /** The calibration at position `j` is non-empty and has a wavelength for every column of the image. */
  ghost predicate ImageCalibrated(rig: Rig, j: nat)
  {
    0 < |rig.calibration(j)| && rig.image(j).cols <= |rig.calibration(j)|
  }

  /**
   * Why position `j` raises IndexError: an empty calibration (the
   * spectrograph's log line), or one narrower than an image that has rows.
   */
  ghost predicate ShortCalibration(rig: Rig, j: nat)
  {
    |rig.calibration(j)| == 0 || (|rig.calibration(j)| < rig.image(j).cols && rig.image(j).rows > 0)
  }

  /** A stop, a position outside the limits or a short calibration at position `d` keeps the scan from completing. */
  lemma {:induction false} ImageScanBlocked(rig: Rig, positions: seq<real>, d: nat)
    requires d < |positions|
    requires rig.stop(1 + d) || !InLimits(positions[d], rig.limits) || !ImageCalibrated(rig, d)
    ensures !ImageScanClear(rig, positions)
  {
  }

  /**
   * One pass of the image scan loop at position `done`: `should_stop`, then
   * `ImagePosition`, extending the emits and calls of the positions before it.
   */
  method ImageScanTurn(rig: Rig, positions: seq<real>, done: nat, effX: int, width: real, hbin: int, vbin: int,
                       emits0: seq<Emit>, calls0: seq<Call>, callsBefore: seq<Call>)
    returns (failed: Option<Outcome>, emits: seq<Emit>, calls: seq<Call>)
    requires done < |positions|
    requires emits0 == ImageScanEmits(rig, positions, done)
    requires callsBefore == calls0 + ImageScanCalls(positions, done, effX, width, hbin, vbin)
    ensures failed.None? ==>
      emits == ImageScanEmits(rig, positions, done + 1)
      && calls == calls0 + ImageScanCalls(positions, done + 1, effX, width, hbin, vbin)
      && !rig.stop(1 + done) && InLimits(positions[done], rig.limits)
    ensures failed.Some? ==>
      Progresses(emits) == Progresses(emits0) && calls0 + ImageScanCalls(positions, done, effX, width, hbin, vbin) <= calls
      && (failed.value.Stopped? || failed.value.Raised?)
    ensures failed.Some? && failed.value.Stopped? ==> rig.stop(1 + done) && emits == emits0 && calls == callsBefore
    ensures failed.Some? && failed.value.Raised? && rig.failAt.None? ==>
      (failed.value == Raised(ValueError) && !InLimits(positions[done], rig.limits))
      || (failed.value == Raised(IndexError) && ShortCalibration(rig, done))
    ensures failed.Some? ==> !ImageScanClear(rig, positions)
  {
    if rig.stop(1 + done) {
      PrefixRefl(callsBefore);
      ImageScanBlocked(rig, positions, done);
      return Some(Stopped), emits0, callsBefore;
    }
    var block;
    failed, block, calls := ImagePosition(rig, positions[done], done, |positions|, effX, width, hbin, vbin, callsBefore);
    if failed.Some? {
      if rig.failAt.None? {
        ImageScanBlocked(rig, positions, done);
      }
      FiltersDistribute(emits0, block);
      return failed, emits0 + block, calls;
    }
    ImageScanStepAppends(rig, positions, done, effX, width, hbin, vbin, calls0);
    emits := emits0 + block;
  }

  /** One more position appends its pixels and tick to the emits and its three calls to the calls. */
  lemma {:induction false} ImageScanStepAppends(rig: Rig, positions: seq<real>, d: nat, effX: int, width: real,
                                                hbin: int, vbin: int, calls0: seq<Call>)
    requires d < |positions|
    ensures ImageScanEmits(rig, positions, d + 1)
      == ImageScanEmits(rig, positions, d)
         + (ImageBlock([positions[d]], rig.calibration(d), rig.image(d)) + [Progress(Percent(d + 1, |positions|))])
    ensures calls0 + ImageScanCalls(positions, d + 1, effX, width, hbin, vbin)
      == calls0 + ImageScanCalls(positions, d, effX, width, hbin, vbin)
         + [SetWavelength(positions[d]), Calibrate(effX, width), AcquireImage(hbin, vbin)]
  {
    AppendAssoc(ImageScanEmits(rig, positions, d), ImageBlock([positions[d]], rig.calibration(d), rig.image(d)),
                [Progress(Percent(d + 1, |positions|))]);
    AppendAssoc(calls0, ImageScanCalls(positions, d, effX, width, hbin, vbin),
                [SetWavelength(positions[d]), Calibrate(effX, width), AcquireImage(hbin, vbin)]);
  }

  /** `WavelengthImageScanProcedure.execute` over the given grid. */
  method ImageScanOver(p: ImageScanParams, rig: Rig, intended: bool)
    returns (out: Outcome, positions: seq<real>, done: nat, emits: seq<Emit>, calls: seq<Call>)
    ensures var r := Clip(p.start, p.end, rig.limits);
      !rig.stop(0) && rig.failAt.None? && r.0 >= r.1 ==> out.Completed? && emits == []
    ensures var r := Clip(p.start, p.end, rig.limits);
      r.0 < r.1 && p.step != 0.0 && !FailsAt(rig, 0) && !rig.stop(0) && !FailsAt(rig, 1) ==>
        positions == Positions(r, p.step, intended)
    ensures done <= |positions| && Progresses(emits) == Progresses(ImageScanEmits(rig, positions, done))
    ensures forall j :: 0 <= j < done ==> InLimits(positions[j], rig.limits)
    ensures out.Completed? && |positions| > 0 ==>
      done == |positions| && p.hbin != 0 && p.vbin != 0
      && calls == [SetGrating(p.grating), GetLimits, SetExposure(p.exposure)]
                  + ImageScanCalls(positions, |positions|, PyDiv(rig.xpixels, p.hbin),
                                   rig.pixelWidth * (p.hbin as real), p.hbin, p.vbin)
      && emits == ImageScanEmits(rig, positions, |positions|)
    ensures out.Raised? && out != Raised(ZeroDivisionError) && rig.failAt.None? ==>
      done < |positions|
      && ((out == Raised(ValueError) && !InLimits(positions[done], rig.limits))
          || (out == Raised(IndexError) && !ImageCalibrated(rig, done)))
    ensures out.Stopped? ==> rig.stop(0) || rig.stop(1 + done)
    ensures out == Raised(ZeroDivisionError) && rig.failAt.None? ==> p.step == 0.0 || p.hbin == 0 || p.vbin == 0
    ensures Smooth(rig) && p.step != 0.0 && p.hbin != 0 && p.vbin != 0
      && ImageReady(rig, positions)
      ==> out.Completed?
  {
    var early, range;
    early, range, calls := Prepare(p.grating, p.start, p.end, rig);
    positions, done, emits := [], 0, [];
    if early.Some? { return early.value, positions, done, emits, calls; }
    if p.step == 0.0 { return Raised(ZeroDivisionError), positions, done, emits, calls; }
    positions := Positions(range, p.step, intended);
    if Smooth(rig) && ImageReady(rig, positions) {
      SmoothImageClear(rig, positions);
    }
    assert calls + [SetExposure(p.exposure)] == [SetGrating(p.grating), GetLimits, SetExposure(p.exposure)];
    out, done, emits, calls := ImageScanRun(p, rig, positions, calls);
  }

  /** Every position is within the limits and has a calibration for its image. */
  ghost predicate ImageReady(rig: Rig, positions: seq<real>)
  {
    forall j :: 0 <= j < |positions| ==> InLimits(positions[j], rig.limits) && ImageCalibrated(rig, j)
  }

  /** Without faults or stops, positions within the limits and calibrated leave nothing to stop the image scan. */
  lemma SmoothImageClear(rig: Rig, positions: seq<real>)
    requires Smooth(rig) && ImageReady(rig, positions)
    ensures ImageScanClear(rig, positions)
  {
  }

  /**
   * The image `execute` once the grid is built: derive the binned width
   * (`ZeroDivisionError` for a zero bin), set the exposure, and run the loop.
   */
  method ImageScanRun(p: ImageScanParams, rig: Rig, positions: seq<real>, calls0: seq<Call>)
    returns (out: Outcome, done: nat, emits: seq<Emit>, calls: seq<Call>)
    requires |calls0| == 2
    ensures done <= |positions| && Progresses(emits) == Progresses(ImageScanEmits(rig, positions, done))
    ensures forall j :: 0 <= j < done ==> InLimits(positions[j], rig.limits)
    ensures out.Completed? ==>
      done == |positions| && p.hbin != 0 && p.vbin != 0
      && calls == calls0 + [SetExposure(p.exposure)]
                  + ImageScanCalls(positions, |positions|, PyDiv(rig.xpixels, p.hbin),
                                   rig.pixelWidth * (p.hbin as real), p.hbin, p.vbin)
      && emits == ImageScanEmits(rig, positions, |positions|)
    ensures out.Raised? && out != Raised(ZeroDivisionError) && rig.failAt.None? ==>
      done < |positions|
      && ((out == Raised(ValueError) && !InLimits(positions[done], rig.limits))
          || (out == Raised(IndexError) && !ImageCalibrated(rig, done)))
    ensures out.Stopped? ==> rig.stop(1 + done)
    ensures out == Raised(ZeroDivisionError) && rig.failAt.None? ==> p.hbin == 0 || p.vbin == 0
    ensures p.hbin != 0 && p.vbin != 0 && ImageScanClear(rig, positions) ==> out.Completed?
  {
    done, emits, calls := 0, [], calls0;
    // `xpixels // hbin` and `ypixels // vbin` come before the exposure is set.
    if p.hbin == 0 || p.vbin == 0 { return Raised(ZeroDivisionError), done, emits, calls; }
    var effX := PyDiv(rig.xpixels, p.hbin);
    calls := calls + [SetExposure(p.exposure)];
    if FailsAt(rig, 2) {
      if rig.failAt.None? { assert false; }
      return Raised(rig.fault), done, emits, calls;
    }
    out, done, emits, calls := ImageScanLoop(rig, positions, effX, rig.pixelWidth * (p.hbin as real), p.hbin, p.vbin, calls);
  }

  /** The image `execute` as written: the same overshooting last position. */
  method ExecuteImageAsWritten(p: ImageScanParams, rig: Rig) returns (out: Outcome, emits: seq<Emit>, calls: seq<Call>)
    ensures var r := Clip(p.start, p.end, rig.limits);
      var g := Grid(r.0, r.1, if p.step == 0.0 then 1.0 else p.step);
      Smooth(rig) && p.step > 0.0 && r.0 < r.1 && r.1 == rig.limits.1 && g[|g| - 1] > r.1
      && p.hbin != 0 && p.vbin != 0
      && (forall j :: 0 <= j < |g| ==> ImageCalibrated(rig, j))
      ==> out == Raised(ValueError) && |Progresses(emits)| == |g| - 1
  {
    var positions, done;
    out, positions, done, emits, calls := ImageScanOver(p, rig, false);
    var r := Clip(p.start, p.end, rig.limits);
    if Smooth(rig) && p.step > 0.0 && r.0 < r.1 && r.1 == rig.limits.1 && p.hbin != 0 && p.vbin != 0 {
      GridShape(r.0, r.1, p.step);
      var g := positions;
      if g[|g| - 1] > r.1 && (forall j :: 0 <= j < |g| ==> ImageCalibrated(rig, j)) {
        assert out.Completed? || out == Raised(ValueError) by {
          assert !out.Stopped?;
        }
        OvershootStops(g, done, rig.limits, r.1);
        ImageScanTicks(rig, g, done);
      }
    }
  }

  /** The evidently intended image `execute`: positions within [start, end]. */
  method ExecuteImage(p: ImageScanParams, rig: Rig) returns (out: Outcome, emits: seq<Emit>, calls: seq<Call>)
    ensures var r := Clip(p.start, p.end, rig.limits);
      var g := IntendedGrid(r.0, r.1, if p.step == 0.0 then 1.0 else p.step);
      Smooth(rig) && p.step > 0.0 && r.0 < r.1 && p.hbin != 0 && p.vbin != 0
      && (forall j :: 0 <= j < |g| ==> ImageCalibrated(rig, j))
      ==> out.Completed? && |Progresses(emits)| == |g| && Progresses(emits)[|g| - 1] == 100.0
          && |ResultRows(emits)| == PixelCount(rig, |g|)
  {
    var positions, done;
    out, positions, done, emits, calls := ImageScanOver(p, rig, true);
    var r := Clip(p.start, p.end, rig.limits);
    if Smooth(rig) && p.step > 0.0 && r.0 < r.1 && p.hbin != 0 && p.vbin != 0 {
      IntendedGridWithin(r.0, r.1, p.step);
      var g := positions;
      if forall j :: 0 <= j < |g| ==> ImageCalibrated(rig, j) {
        assert forall j :: 0 <= j < |g| ==> InLimits(g[j], rig.limits);
        ImageScanTicks(rig, g, |g|);
        assert forall j :: 0 <= j < |g| ==> rig.image(j).cols <= |rig.calibration(j)| by {
          forall j | 0 <= j < |g| ensures rig.image(j).cols <= |rig.calibration(j)| {
            assert ImageCalibrated(rig, j);
          }
        }
        ImageScanResults(rig, g, |g|);
        PercentGrows(|g|, |g|, |g|);
      }
    }
  }
}
