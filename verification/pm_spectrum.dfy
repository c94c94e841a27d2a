// The PyMeasure spectrum and image procedures, which create, own and shut
// down their own camera and spectrograph.
module PmSpectrum {
  import opened Wrappers
  import opened Spectra
  import opened Acquisition
  import opened SharedExecute

  /** The parameters of `SpectrumProcedure`. */
  datatype SpectrumParams = SpectrumParams(
    exposureTime: real,
    centerWavelength: real,
    grating: int,
    numAccumulations: int,
    coolerEnabled: bool,
    targetTemperature: int)

  /** The parameters of `ImageProcedure`. */
  datatype ImageParams = ImageParams(
    exposureTime: real,
    centerWavelength: real,
    grating: int,
    hbin: int,
    vbin: int,
    coolerEnabled: bool,
    targetTemperature: int)

  const DefaultSpectrum := SpectrumParams(0.1, 500.0, 1, 1, true, -60)
  const DefaultImage := ImageParams(1.0, 500.0, 1, 1, 1, true, -60)

  /** What a procedure asks of the devices it creates, in order. */
  datatype DeviceOp =
    | CameraInit
    | SpectrographInit
    | CoolerOn(target: int)
    | CameraShutdown
    | SpectrographShutdown

  /** Which `initialize()` raises during `startup`, if any. */
  datatype InitFailure = NoFailure | CameraFails | SpectrographFails

  /**
   * The device operations of `startup`: create and initialise the camera,
   * then the spectrograph, then switch the cooler on only when enabled.
   */
  function StartupOps(coolerEnabled: bool, target: int, failure: InitFailure): (r: seq<DeviceOp>)
    ensures CameraInit in r
    ensures SpectrographInit in r <==> !failure.CameraFails?
    ensures CoolerOn(target) in r <==> failure.NoFailure? && coolerEnabled
    ensures forall t :: CoolerOn(t) in r ==> t == target
    ensures r[0] == CameraInit
  {
    if failure.CameraFails? then [CameraInit]
    else if failure.SpectrographFails? then [CameraInit, SpectrographInit]
    else [CameraInit, SpectrographInit] + (if coolerEnabled then [CoolerOn(target)] else [])
  }

  /** `shutdown`: every device whose attribute exists, camera first. */
  function ShutdownOps(hasCamera: bool, hasSpectrograph: bool): (r: seq<DeviceOp>)
    ensures CameraShutdown in r <==> hasCamera
    ensures SpectrographShutdown in r <==> hasSpectrograph
    ensures |r| == (if hasCamera then 1 else 0) + (if hasSpectrograph then 1 else 0)
    ensures hasCamera ==> r[0] == CameraShutdown
  {
    (if hasCamera then [CameraShutdown] else []) + (if hasSpectrograph then [SpectrographShutdown] else [])
  }

  /** A PyMeasure procedure object and the device operations it has made. */
  class DeviceOwner {
    var hasCamera: bool
    var hasSpectrograph: bool
    var ops: seq<DeviceOp>

    constructor ()
      ensures !hasCamera && !hasSpectrograph && ops == []
    {
      hasCamera, hasSpectrograph, ops := false, false, [];
    }

    /** `startup`; the attribute is set before `initialize()` runs, so it survives a failure. */
    method Startup(coolerEnabled: bool, target: int, failure: InitFailure) returns (r: Result<()>)
      modifies this
      ensures ops == old(ops) + StartupOps(coolerEnabled, target, failure)
      ensures hasCamera
      ensures hasSpectrograph == (old(hasSpectrograph) || !failure.CameraFails?)
      ensures r.Ok? <==> failure.NoFailure?
      ensures r.Err? ==> r.error == RuntimeError
    {
      hasCamera := true;
      ops := ops + [CameraInit];
      if failure.CameraFails? { return Err(RuntimeError); }
      hasSpectrograph := true;
      ops := ops + [SpectrographInit];
      if failure.SpectrographFails? { return Err(RuntimeError); }
      if coolerEnabled {
        ops := ops + [CoolerOn(target)];
      }
      return Ok(());
    }

    method Shutdown()
      modifies this`ops
      ensures ops == old(ops) + ShutdownOps(hasCamera, hasSpectrograph)
    {
      if hasCamera { ops := ops + [CameraShutdown]; }
      if hasSpectrograph { ops := ops + [SpectrographShutdown]; }
    }
  }

  /** After a `startup` on a fresh procedure, `shutdown` visits exactly the devices it created. */
  lemma {:induction false} ShutdownMatchesStartup(coolerEnabled: bool, target: int, failure: InitFailure)
    ensures var started := StartupOps(coolerEnabled, target, failure);
            var stopped := ShutdownOps(true, !failure.CameraFails?);
            (CameraShutdown in stopped <==> CameraInit in started)
            && (SpectrographShutdown in stopped <==> SpectrographInit in started)
  {
  }

  /** The run `execute` makes: calibration for all `xpixels`, and `acquire_fvb()` at its default binning. */
  function SpectrumRunOf(p: SpectrumParams): SpectrumRun
  {
    SpectrumRun(p.grating, p.centerWavelength, p.exposureTime, p.numAccumulations, 1, 1)
  }

  /** Every one of the first n acquisitions has one value per detector column. */
  ghost predicate FullWidth(rig: Rig, n: nat)
  {
    forall i :: 0 <= i < n ==> |rig.fvb(i)| == rig.xpixels
  }

  /**
   * `SpectrumProcedure.execute`. Without faults or stops, and when every
   * acquisition has one value per detector column, it completes with the
   * average of the accumulations zipped against the calibration.
   */
  method ExecuteSpectrum(p: SpectrumParams, rig: Rig) returns (out: Outcome, emits: seq<Emit>, calls: seq<Call>)
    ensures !out.Completed? ==> ResultRows(emits) == []
    ensures out.Completed? ==>
      |calls| >= 4
      && calls[..4] == [SetGrating(p.grating), SetWavelength(p.centerWavelength),
                        Calibrate(rig.xpixels, rig.pixelWidth), SetExposure(p.exposureTime)]
      && calls[4..] == Repeated(AcquireFvb(1), if p.numAccumulations > 1 then p.numAccumulations else 1)
      && (p.numAccumulations > 1 ==> Accumulable(rig, p.numAccumulations, rig.xpixels))
      && emits == SpectrumProgress(p.numAccumulations)
                  + Tagged([], Zip(rig.calibration(0), Averaged(rig, p.numAccumulations, rig.xpixels)))
    ensures Smooth(rig) && |rig.calibration(0)| > 0
      && (p.numAccumulations > 1 ==> rig.xpixels >= 0 && FullWidth(rig, p.numAccumulations))
      ==> out.Completed?
  {
    out, emits, calls := SpectrumExecute(SpectrumRunOf(p), rig);
    assert PyDiv(rig.xpixels, 1) == rig.xpixels;
    if p.numAccumulations > 1 && rig.xpixels >= 0 && FullWidth(rig, p.numAccumulations) {
      assert AllBroadcastable(rig.xpixels, Acquired(rig, p.numAccumulations));
    }
  }

  /**
   * The emits of a completed spectrum run: the progress values (n ramp values
   * climbing to 100, or one 100), then one result row per `zip` pair.
   */
  lemma {:induction false} SpectrumReport(n: int, wl: seq<real>, spectrum: seq<real>)
    ensures var emits := SpectrumProgress(n) + Tagged([], Zip(wl, spectrum));
            |ResultRows(emits)| == (if |wl| < |spectrum| then |wl| else |spectrum|)
            && |Progresses(emits)| == (if n > 1 then n else 1)
            && Progresses(emits)[|Progresses(emits)| - 1] == 100.0
  {
    var progress := SpectrumProgress(n);
    FiltersDistribute(progress, Tagged([], Zip(wl, spectrum)));
    TaggedRows([], Zip(wl, spectrum));
    ProgressOnlyHasNoResults(progress);
    OnlyProgress(progress);
    if n > 1 {
      RampClimbsTo100(n);
    }
    assert Tagged([], Zip(wl, spectrum)) + [] == Tagged([], Zip(wl, spectrum));
  }

  /** A run of progress emits filters to its percentages. */
  lemma {:induction false} OnlyProgress(emits: seq<Emit>)
    requires forall i :: 0 <= i < |emits| ==> emits[i].Progress?
    ensures Progresses(emits) == seq(|emits|, i requires 0 <= i < |emits| => emits[i].percent)
  {
    if emits != [] {
      OnlyProgress(emits[..|emits| - 1]);
      FiltersLast(emits);
    }
  }

  /** `ImageProcedure.execute`, whose body the Qt image procedure repeats. */
  method ExecuteImage(p: ImageParams, rig: Rig) returns (out: Outcome, emits: seq<Emit>, calls: seq<Call>)
    ensures out.Completed? ==> |ResultRows(emits)| == rig.image(0).rows * rig.image(0).cols
    ensures out.Completed? && rig.image(0).cols <= |rig.calibration(0)| ==>
      emits == [Progress(50.0)] + RowsWithProgress(rig.calibration(0), rig.image(0), rig.image(0).rows)
    ensures out.Completed? ==>
      p.hbin != 0 && |calls| == 5
      && calls[2] == Calibrate(PyDiv(rig.xpixels, p.hbin), rig.pixelWidth * (p.hbin as real))
    ensures (Smooth(rig) && p.hbin != 0 && p.vbin != 0 && |rig.calibration(0)| > 0
             && rig.image(0).cols <= |rig.calibration(0)|) ==> out.Completed?
  {
    out, emits, calls := ImageExecute(ImageRun(p.grating, p.centerWavelength, p.exposureTime, p.hbin, p.vbin), rig);
  }
}
