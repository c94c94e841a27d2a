// The shared-hardware spectrum procedure of the Qt application.  Its
// `startup`/`shutdown` are the shared-hardware rule (module SharedHardware)
// and its image `execute` is the PyMeasure one (SharedExecute.ImageExecute).
module QtSpectrum {
  import opened Wrappers
  import opened Spectra
  import opened Acquisition
  import opened SharedExecute

  /** The parameters of the Qt `SpectrumProcedure`. */
  datatype SpectrumParams = SpectrumParams(
    exposureTime: real,
    centerWavelength: real,
    grating: int,
    hbin: int,
    numAccumulations: int,
    delayPosition: real)

  /** The parameters of the Qt `ImageProcedure`. */
  datatype ImageParams = ImageParams(
    exposureTime: real,
    centerWavelength: real,
    grating: int,
    hbin: int,
    vbin: int,
    delayPosition: real)

  const DefaultSpectrum := SpectrumParams(0.1, 500.0, 1, 1, 1, 0.0)
  const DefaultImage := ImageParams(1.0, 500.0, 1, 1, 1, 0.0)

  /**
   * `SpectrumProcedure.execute` as written: the calibration and the
   * accumulator use `xpixels // hbin` pixels, but every `acquire_fvb()` is
   * made at its default binning of 1.  When the camera then returns a full
   * row of `xpixels` values, accumulating with hbin > 1 cannot broadcast.
   */
  method ExecuteSpectrumAsWritten(p: SpectrumParams, rig: Rig) returns (out: Outcome, emits: seq<Emit>, calls: seq<Call>)
    ensures !out.Completed? ==> ResultRows(emits) == []
    ensures out.Completed? ==>
      p.hbin != 0 && |calls| >= 4
      && calls[2] == Calibrate(PyDiv(rig.xpixels, p.hbin), rig.pixelWidth * (p.hbin as real))
      && calls[4..] == Repeated(AcquireFvb(1), if p.numAccumulations > 1 then p.numAccumulations else 1)
    ensures Smooth(rig) && |rig.calibration(0)| > 0 && p.hbin >= 2 && p.numAccumulations > 1
      && rig.xpixels >= 2 && |rig.fvb(0)| == rig.xpixels
      ==> out == Raised(ValueError)
  {
    var run := SpectrumRun(p.grating, p.centerWavelength, p.exposureTime, p.numAccumulations, p.hbin, 1);
    out, emits, calls := SpectrumExecute(run, rig);
    if Smooth(rig) && |rig.calibration(0)| > 0 && p.hbin >= 2 && p.numAccumulations > 1
       && rig.xpixels >= 2 && |rig.fvb(0)| == rig.xpixels {
      BinningNarrows(rig.xpixels, p.hbin);
      assert !Broadcastable(EffPixels(rig, p.hbin), Acquired(rig, p.numAccumulations)[0]);
    }
  }

  /**
   * The evidently intended `execute`: each acquisition uses the procedure's
   * own binning, so with `xpixels // hbin` values per acquisition it
   * completes with the mean of the accumulations.
   */
  method ExecuteSpectrum(p: SpectrumParams, rig: Rig) returns (out: Outcome, emits: seq<Emit>, calls: seq<Call>)
    ensures !out.Completed? ==> ResultRows(emits) == []
    ensures out.Completed? ==>
      p.hbin != 0 && |calls| >= 4
      && calls[..4] == [SetGrating(p.grating), SetWavelength(p.centerWavelength),
                        Calibrate(PyDiv(rig.xpixels, p.hbin), rig.pixelWidth * (p.hbin as real)),
                        SetExposure(p.exposureTime)]
      && calls[4..] == Repeated(AcquireFvb(p.hbin), if p.numAccumulations > 1 then p.numAccumulations else 1)
      && (p.numAccumulations > 1 ==> Accumulable(rig, p.numAccumulations, PyDiv(rig.xpixels, p.hbin)))
      && emits == SpectrumProgress(p.numAccumulations)
                  + Tagged([], Zip(rig.calibration(0), Averaged(rig, p.numAccumulations, PyDiv(rig.xpixels, p.hbin))))
    ensures Smooth(rig) && |rig.calibration(0)| > 0 && p.hbin >= 1 && rig.xpixels >= 0
      && (forall i :: 0 <= i < p.numAccumulations ==> |rig.fvb(i)| == rig.xpixels / p.hbin)
      ==> out.Completed?
  {
    var run := SpectrumRun(p.grating, p.centerWavelength, p.exposureTime, p.numAccumulations, p.hbin, p.hbin);
    out, emits, calls := SpectrumExecute(run, rig);
    assert run.calHbin == p.hbin && run.acqHbin == p.hbin && run.accumulations == p.numAccumulations;
    if out.Completed? {
      assert EffPixels(rig, p.hbin) == PyDiv(rig.xpixels, p.hbin);
      var cal := Calibrate(PyDiv(rig.xpixels, p.hbin), rig.pixelWidth * (p.hbin as real));
      assert Calibrate(EffPixels(rig, run.calHbin), rig.pixelWidth * (run.calHbin as real)) == cal;
      assert calls[..4] == [SetGrating(p.grating), SetWavelength(p.centerWavelength), cal, SetExposure(p.exposureTime)];
    }
    if Smooth(rig) && |rig.calibration(0)| > 0 && p.hbin >= 1 && rig.xpixels >= 0
       && (forall i :: 0 <= i < p.numAccumulations ==> |rig.fvb(i)| == rig.xpixels / p.hbin)
       && p.numAccumulations > 1 {
      assert AllBroadcastable(EffPixels(rig, p.hbin), Acquired(rig, p.numAccumulations));
    }
  }

  /** Binning by two or more leaves fewer pixels than there are columns. */
  lemma {:induction false} BinningNarrows(xpixels: int, hbin: int)
    requires xpixels >= 1 && hbin >= 2
    ensures 0 <= PyDiv(xpixels, hbin) < xpixels
  {
    var q := xpixels / hbin;
    assert q * hbin <= xpixels;
    assert q * 2 <= q * hbin;
  }
}
