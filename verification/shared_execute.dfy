// The `execute` bodies that the PyMeasure spectrum/image procedures and their
// shared-hardware Qt counterparts have in common.  They differ only in the
// binning factors, which are parameters here.
module SharedExecute {
  import opened Wrappers
  import opened Spectra
  import opened Acquisition

  /**
   * One single-spectrum acquisition: the grating and centre wavelength to set,
   * the exposure, the accumulation count, the binning used for the calibration
   * request and the binning passed to each `acquire_fvb`.
   */
  datatype SpectrumRun = SpectrumRun(
    grating: int,
    wavelength: real,
    exposure: real,
    accumulations: int,
    calHbin: int,
    acqHbin: int)

  /** One image acquisition and its binning. */
  datatype ImageRun = ImageRun(
    grating: int,
    wavelength: real,
    exposure: real,
    hbin: int,
    vbin: int)

  /** The number of calibrated pixels: `xpixels // hbin`. */
  function EffPixels(rig: Rig, hbin: int): int
    requires hbin != 0
  {
    PyDiv(rig.xpixels, hbin)
  }

  /** The spectrum a completed run reports: the mean of n > 1 acquisitions, else the one. */
  function Averaged(rig: Rig, n: int, len: int): seq<real>
    requires n > 1 ==> len >= 0 && AllBroadcastable(len, Acquired(rig, n))
  {
    if n > 1 then Mean(Acquired(rig, n), len) else rig.fvb(0)
  }

  /** The progress emitted by a completed run: the ramp for n > 1, else a single 100. */
  function SpectrumProgress(n: int): seq<Emit>
  {
    if n > 1 then Ramp(n) else [Progress(100.0)]
  }

  /** The checks of `should_stop` a completed spectrum run makes. */
  function SpectrumChecks(n: int): nat
  {
    if n > 1 then 3 + n else 3
  }

  /**
   * `execute` of a spectrum procedure: grating, check, wavelength, check,
   * calibration, check, exposure, then one acquisition or n accumulated ones
   * with progress, then one result row per `zip(wavelengths, spectrum)` pair.
   */
  method SpectrumExecute(p: SpectrumRun, rig: Rig) returns (out: Outcome, emits: seq<Emit>, calls: seq<Call>)
    ensures |calls| >= 1 && calls[0] == SetGrating(p.grating)
    ensures !out.Completed? ==> ResultRows(emits) == []
    ensures out.Stopped? ==> exists k: nat :: k < SpectrumChecks(p.accumulations) && rig.stop(k)
    ensures out.Completed? ==>
      p.calHbin != 0 && |calls| >= 4
      && calls[..4] == [SetGrating(p.grating), SetWavelength(p.wavelength),
                        Calibrate(EffPixels(rig, p.calHbin), rig.pixelWidth * (p.calHbin as real)),
                        SetExposure(p.exposure)]
      && calls[4..] == Repeated(AcquireFvb(p.acqHbin), if p.accumulations > 1 then p.accumulations else 1)
      && NoStopIn(rig, 0, SpectrumChecks(p.accumulations))
      && (p.accumulations > 1 ==> Accumulable(rig, p.accumulations, EffPixels(rig, p.calHbin)))
      && emits == SpectrumProgress(p.accumulations)
                  + Tagged([], Zip(rig.calibration(0), Averaged(rig, p.accumulations, EffPixels(rig, p.calHbin))))
    ensures Smooth(rig) && p.calHbin != 0 && |rig.calibration(0)| > 0
      && (p.accumulations > 1 ==> Accumulable(rig, p.accumulations, EffPixels(rig, p.calHbin)))
      ==> out.Completed?
    ensures out.Raised? && rig.failAt.None? && p.calHbin != 0 && |rig.calibration(0)| > 0
      ==> out == Raised(ValueError)
  {
    emits, calls := [], [SetGrating(p.grating)];
    if FailsAt(rig, 0) { return Raised(rig.fault), emits, calls; }
    if rig.stop(0) { return Stopped, emits, calls; }
    calls := calls + [SetWavelength(p.wavelength)];
    if FailsAt(rig, 1) { return Raised(rig.fault), emits, calls; }
    if rig.stop(1) { return Stopped, emits, calls; }
    if p.calHbin == 0 { return Raised(ZeroDivisionError), emits, calls; }
    var eff := EffPixels(rig, p.calHbin);
    calls := calls + [Calibrate(eff, rig.pixelWidth * (p.calHbin as real))];
    if FailsAt(rig, 2) { return Raised(rig.fault), emits, calls; }
    var wavelengths := rig.calibration(0);
    // The log line after the calibration reads its first and last element.
    if |wavelengths| == 0 { return Raised(IndexError), emits, calls; }
    if rig.stop(2) { return Stopped, emits, calls; }
    calls := calls + [SetExposure(p.exposure)];
    if FailsAt(rig, 3) { return Raised(rig.fault), emits, calls; }
    out, emits, calls := AcquireSpectrum(rig, p.accumulations, eff, p.acqHbin, wavelengths, calls);
  }

  /** The accumulations are possible: a non-negative accumulator each acquisition broadcasts into. */
  ghost predicate Accumulable(rig: Rig, n: nat, len: int)
  {
    len >= 0 && AllBroadcastable(len, Acquired(rig, n))
  }

  /** The acquisition half of `SpectrumExecute`, after the exposure is set (4 calls made). */
  method AcquireSpectrum(rig: Rig, n: int, eff: int, acqHbin: int, wavelengths: seq<real>, calls0: seq<Call>)
    returns (out: Outcome, emits: seq<Emit>, calls: seq<Call>)
    requires |calls0| == 4
    ensures |calls| >= 4 && calls[..4] == calls0
    ensures calls[4..] == Repeated(AcquireFvb(acqHbin), |calls| - 4)
    ensures !out.Completed? ==> ResultRows(emits) == []
    ensures out.Stopped? ==> n > 1 && exists k: nat :: 3 <= k < 3 + n && rig.stop(k)
    ensures out.Completed? ==>
      |calls| == 4 + (if n > 1 then n else 1)
      && (n > 1 ==> NoStopIn(rig, 3, 3 + n) && Accumulable(rig, n, eff))
      && emits == SpectrumProgress(n) + Tagged([], Zip(wavelengths, Averaged(rig, n, eff)))
    ensures rig.failAt.None? && (n > 1 ==> NoStopIn(rig, 3, 3 + n) && Accumulable(rig, n, eff))
      ==> out.Completed?
    ensures out.Raised? && rig.failAt.None? ==> out == Raised(ValueError)
  {
    var spectrum;
    if n > 1 {
      if eff < 0 { return Raised(ValueError), [], calls0; }
      var o, s, e, c := AccumulateWithProgress(rig, n, eff, acqHbin, 3, calls0);
      emits, calls := e, c;
      if !o.Completed? {
        RampHasNoResults(n, |emits|);
        assert o.Stopped? ==> rig.stop(3 + |emits|);
        return o, emits, calls;
      }
      spectrum := s;
    } else {
      calls := calls0 + [AcquireFvb(acqHbin)];
      if FailsAt(rig, 4) { return Raised(rig.fault), [], calls; }
      spectrum := rig.fvb(0);
      emits := [Progress(100.0)];
    }
    emits := emits + Tagged([], Zip(wavelengths, spectrum));
    out := Completed;
  }

  lemma {:induction false} RampHasNoResults(n: nat, k: nat)
    requires k <= n
    ensures ResultRows(Ramp(n)[..k]) == []
  {
    ProgressOnlyHasNoResults(Ramp(n)[..k]);
  }

  lemma {:induction false} ProgressOnlyHasNoResults(emits: seq<Emit>)
    requires forall i :: 0 <= i < |emits| ==> emits[i].Progress?
    ensures ResultRows(emits) == []
  {
    if emits != [] {
      ProgressOnlyHasNoResults(emits[..|emits| - 1]);
      FiltersLast(emits);
    }
  }

  /** Progress after row y of `rows`: 50 + 50·(y+1)/rows. */
  function RowPercent(y: nat, rows: nat): real
    requires y < rows
  {
    50.0 + 50.0 * ((y + 1) as real) / (rows as real)
  }

  /** The first `n` image rows, each followed by its progress value. */
  function RowsWithProgress(wl: seq<real>, img: Image, n: nat): (r: seq<Emit>)
    requires img.cols <= |wl| && n <= img.rows
  {
    if n == 0 then []
    else RowsWithProgress(wl, img, n - 1) + ImageRow([], wl, img, n - 1) + [Progress(RowPercent(n - 1, img.rows))]
  }

  /** Each emitted row contributes `cols` result rows ... */
  lemma {:induction false} RowsWithProgressResults(wl: seq<real>, img: Image, n: nat)
    requires img.cols <= |wl| && n <= img.rows
    ensures |ResultRows(RowsWithProgress(wl, img, n))| == n * img.cols
  {
    if n > 0 {
      var before := RowsWithProgress(wl, img, n - 1);
      var row := ImageRow([], wl, img, n - 1);
      var tick := [Progress(RowPercent(n - 1, img.rows))];
      RowsWithProgressResults(wl, img, n - 1);
      ImageRowRows([], wl, img, n - 1);
      FiltersDistribute(before, row);
      FiltersDistribute(before + row, tick);
      assert ResultRows(tick) == [] by { assert tick[..0] == []; }
      MulStep(n, img.cols);
    }
  }

  /** ... and one progress value, 50 + 50·(y+1)/rows after row y. */
  lemma {:induction false} RowsWithProgressTicks(wl: seq<real>, img: Image, n: nat)
    requires img.cols <= |wl| && n <= img.rows
    ensures Progresses(RowsWithProgress(wl, img, n)) == seq(n, y requires 0 <= y < n => RowPercent(y, img.rows))
  {
    if n > 0 {
      var before := RowsWithProgress(wl, img, n - 1);
      var row := ImageRow([], wl, img, n - 1);
      var tick := [Progress(RowPercent(n - 1, img.rows))];
      RowsWithProgressTicks(wl, img, n - 1);
      ImageRowRows([], wl, img, n - 1);
      FiltersDistribute(before, row);
      FiltersDistribute(before + row, tick);
      assert Progresses(tick) == [RowPercent(n - 1, img.rows)] by { assert tick[..0] == []; }
    }
  }

  /**
   * `execute` of an image procedure: grating, check, wavelength, check,
   * calibration for `xpixels // hbin` pixels, check, exposure and one image;
   * then progress 50 and, row by row after a check, the row's pixels and
   * the row's progress.
   */
  method ImageExecute(p: ImageRun, rig: Rig) returns (out: Outcome, emits: seq<Emit>, calls: seq<Call>)
    ensures |calls| >= 1 && calls[0] == SetGrating(p.grating)
    ensures out.Completed? ==>
      p.hbin != 0 && p.vbin != 0 && |calls| == 5
      && calls[1..] == [SetWavelength(p.wavelength),
                        Calibrate(EffPixels(rig, p.hbin), rig.pixelWidth * (p.hbin as real)),
                        SetExposure(p.exposure), AcquireImage(p.hbin, p.vbin)]
      && NoStopIn(rig, 0, 3 + rig.image(0).rows)
      && (rig.image(0).rows > 0 ==> rig.image(0).cols <= |rig.calibration(0)|)
      && |ResultRows(emits)| == rig.image(0).rows * rig.image(0).cols
    ensures out.Completed? && rig.image(0).cols <= |rig.calibration(0)| ==>
      emits == [Progress(50.0)] + RowsWithProgress(rig.calibration(0), rig.image(0), rig.image(0).rows)
    ensures out.Stopped? ==> exists k: nat :: k < 3 + rig.image(0).rows && rig.stop(k)
    ensures out.Stopped? && rig.image(0).cols <= |rig.calibration(0)| ==>
      (emits == [] || exists y :: 0 <= y < rig.image(0).rows
                        && emits == [Progress(50.0)] + RowsWithProgress(rig.calibration(0), rig.image(0), y))
    ensures (Smooth(rig) && p.hbin != 0 && p.vbin != 0 && |rig.calibration(0)| > 0
             && rig.image(0).cols <= |rig.calibration(0)|) ==> out.Completed?
  {
    emits, calls := [], [SetGrating(p.grating)];
    if FailsAt(rig, 0) { return Raised(rig.fault), emits, calls; }
    if rig.stop(0) { return Stopped, emits, calls; }
    calls := calls + [SetWavelength(p.wavelength)];
    if FailsAt(rig, 1) { return Raised(rig.fault), emits, calls; }
    if rig.stop(1) { return Stopped, emits, calls; }
    if p.hbin == 0 { return Raised(ZeroDivisionError), emits, calls; }
    var eff := EffPixels(rig, p.hbin);
    calls := calls + [Calibrate(eff, rig.pixelWidth * (p.hbin as real))];
    if FailsAt(rig, 2) { return Raised(rig.fault), emits, calls; }
    var wl := rig.calibration(0);
    if |wl| == 0 { return Raised(IndexError), emits, calls; }
    if rig.stop(2) { return Stopped, emits, calls; }
    if p.vbin == 0 { return Raised(ZeroDivisionError), emits, calls; }
    calls := calls + [SetExposure(p.exposure)];
    if FailsAt(rig, 3) { return Raised(rig.fault), emits, calls; }
    calls := calls + [AcquireImage(p.hbin, p.vbin)];
    if FailsAt(rig, 4) { return Raised(rig.fault), emits, calls; }
    var img := rig.image(0);
    var o, e := ImageRows(rig, wl, img);
    FiltersDistribute([Progress(50.0)], e);
    assert ResultRows([Progress(50.0)]) == [] by { assert [Progress(50.0)][..0] == []; }
    out, emits := o, [Progress(50.0)] + e;
  }

  /**
   * The row loop of an image `execute`, after the 50% progress: per row a
   * stop check, the row's points, then the row's progress. A row wider than
   * the calibration emits the points it reaches and raises IndexError.
   */
  method ImageRows(rig: Rig, wl: seq<real>, img: Image) returns (out: Outcome, emits: seq<Emit>)
    ensures out.Completed? || out.Stopped? || out == Raised(IndexError)
    ensures out.Completed? ==>
      NoStopIn(rig, 3, 3 + img.rows)
      && (img.rows > 0 ==> img.cols <= |wl|)
      && |ResultRows(emits)| == img.rows * img.cols
    ensures out.Completed? && img.cols <= |wl| ==> emits == RowsWithProgress(wl, img, img.rows)
    ensures out.Stopped? ==> exists k: nat :: 3 <= k < 3 + img.rows && rig.stop(k)
    ensures out.Stopped? && img.cols <= |wl| ==>
      exists y :: 0 <= y < img.rows && emits == RowsWithProgress(wl, img, y)
    ensures out == Raised(IndexError) ==> img.rows > 0 && |wl| < img.cols
    ensures NoStopIn(rig, 3, 3 + img.rows) && (img.rows == 0 || img.cols <= |wl|) ==> out.Completed?
  {
    emits := [];
    if img.rows > 0 && |wl| < img.cols {
      // Row 0 runs past the calibration: its first |wl| points, then IndexError.
      if rig.stop(3) { return Stopped, emits; }
      var x := 0;
      while x < |wl|
        invariant 0 <= x <= |wl| && |emits| == x
        invariant forall i :: 0 <= i < |emits| ==> emits[i].Results?
      {
        emits := emits + [Results([wl[x], 0.0, img.pixel(0, x)])];
        x := x + 1;
      }
      return Raised(IndexError), emits;
    }
    if img.rows == 0 {
      assert ResultRows(emits) == [];
      return Completed, emits;
    }
    var y := 0;
    while y < img.rows
      invariant 0 <= y <= img.rows
      invariant emits == RowsWithProgress(wl, img, y)
      invariant NoStopIn(rig, 3, 3 + y)
    {
      if rig.stop(3 + y) { return Stopped, emits; }
      var x := 0;
      var row := [];
      while x < img.cols
        invariant 0 <= x <= img.cols
        invariant row == RowPrefix([], wl, img, y, x)
      {
        row := row + [Results([] + [wl[x], y as real, img.pixel(y, x)])];
        x := x + 1;
      }
      emits := emits + row + [Progress(RowPercent(y, img.rows))];
      y := y + 1;
    }
    RowsWithProgressResults(wl, img, img.rows);
    out := Completed;
  }
}
