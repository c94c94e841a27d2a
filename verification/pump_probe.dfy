// The PyMeasure pump-probe procedures: hold the spectrograph at one centre
// wavelength and step a delay stage over a grid of delays, acquiring a
// (possibly accumulated) spectrum or an image at every delay.
module PumpProbe {
  import opened Wrappers
  import opened Spectra
  import opened Acquisition
  import opened WavelengthScan

  /** The parameters of `PumpProbeProcedure`. */
  datatype Params = Params(
    delayStart: real,
    delayEnd: real,
    delayStep: real,
    centerWavelength: real,
    grating: int,
    exposure: real,
    numAccumulations: int)

  /** The parameters of `PumpProbeImageProcedure`. */
  datatype ImageParams = ImageParams(
    delayStart: real,
    delayEnd: real,
    delayStep: real,
    centerWavelength: real,
    grating: int,
    exposure: real,
    hbin: int,
    vbin: int)

  const DefaultParams := Params(-10.0, 100.0, 1.0, 500.0, 1, 0.1, 1)
  const DefaultImageParams := ImageParams(-10.0, 100.0, 1.0, 500.0, 1, 1.0, 1, 1)

  /** `np.arange(delay_start, delay_end + delay_step, delay_step)`; there is no start < end check. */
  lemma {:induction false} DelayGrid()
    ensures |Grid(0.0, 2.0, 1.0)| == 3 && Grid(0.0, 2.0, 1.0) == [0.0, 1.0, 2.0]
    ensures |Grid(5.0, 5.0, 1.0)| == 1
    ensures |Grid(2.0, 0.0, 1.0)| == 0
  {
    assert |Grid(0.0, 2.0, 1.0)| == 3;
    GridPoints(0.0, 2.0, 1.0);
  }

  /** Acquisitions per delay: n when accumulating, else one. */
  function Shots(n: int): (r: nat)
    ensures r >= 1 && (n > 1 ==> r == n)
  {
    if n > 1 then n else 1
  }

  /** `should_stop` checks per delay: before and after the move, and one per accumulation. */
  function Checks(n: int): (r: nat)
    ensures r >= 2 && (n > 1 ==> r == 2 + n)
  {
    if n > 1 then 2 + n else 2
  }

  /** The `n` acquisitions from the `base`-th one on. */
  function AcquiredFrom(rig: Rig, base: nat, n: nat): (r: seq<seq<real>>)
    ensures |r| == n && forall i :: 0 <= i < n ==> r[i] == rig.fvb(base + i)
  {
    if n == 0 then [] else AcquiredFrom(rig, base, n - 1) + [rig.fvb(base + n - 1)]
  }

  /**
   * The spectrum reported at delay i: with n > 1 the mean of that delay's
   * acquisitions, if each adds into `len` zeros; else its one acquisition.
   */
  function DelaySpectrum(rig: Rig, n: int, len: int, i: nat): (r: Option<seq<real>>)
    ensures r.Some? <==> n <= 1 || (len >= 0 && AllBroadcastable(len, AcquiredFrom(rig, i * Shots(n), n)))
    ensures n <= 1 ==> r == Some(rig.fvb(i))
    ensures r.Some? && n > 1 ==> |r.value| == len
  {
    if n <= 1 then Some(rig.fvb(i))
    else if len >= 0 && AllBroadcastable(len, AcquiredFrom(rig, i * n, n)) then Some(Mean(AcquiredFrom(rig, i * n, n), len))
    else None
  }

  /** With n > 1, each value of the reported spectrum times n is the sum of that pixel over the delay's acquisitions. */
  lemma {:induction false} DelayMean(rig: Rig, n: int, len: int, i: nat)
    requires n > 1 && DelaySpectrum(rig, n, len, i).Some?
    ensures var r := DelaySpectrum(rig, n, len, i).value;
            len >= 0 && AllBroadcastable(len, AcquiredFrom(rig, i * n, n))
            && forall j :: 0 <= j < len ==> r[j] * (n as real) == ColumnSum(AcquiredFrom(rig, i * n, n), len, j)
  {
  }

  /** When every acquisition at a delay returns the same spectrum, that spectrum is what is reported. */
  lemma {:induction false} SteadyDelaySpectrum(rig: Rig, n: int, i: nat, x: seq<real>)
    requires n > 1 && |x| > 0
    requires forall k :: i * n <= k < i * n + n ==> rig.fvb(k) == x
    ensures DelaySpectrum(rig, n, |x|, i) == Some(x)
  {
    var rows := AcquiredFrom(rig, i * Shots(n), n);
    forall k | 0 <= k < n
      ensures rows[k] == x
    {
      assert rows[k] == rig.fvb(i * n + k);
    }
    assert rows == seq(n, _ => x);
    MeanOfRepeats(x, n);
  }

  /** Every delay below `d` yields a spectrum. */
  ghost predicate Accumulates(rig: Rig, n: int, len: int, d: nat)
  {
    forall i :: 0 <= i < d ==> DelaySpectrum(rig, n, len, i).Some?
  }

  /** One more delay that yields a spectrum extends the run of delays that do. */
  lemma {:induction false} AccumulatesStep(rig: Rig, n: int, len: int, d: nat)
    requires Accumulates(rig, n, len, d) && DelaySpectrum(rig, n, len, d).Some?
    ensures Accumulates(rig, n, len, d + 1)
  {
  }

  /** A delay below `total` without a spectrum keeps the whole grid from accumulating. */
  lemma {:induction false} AccumulatesFails(rig: Rig, n: int, len: int, d: nat, total: nat)
    requires d < total && DelaySpectrum(rig, n, len, d).None?
    ensures !Accumulates(rig, n, len, total)
  {
  }

  /** The spectrum each delay reports (empty where it fails). */
  function Reported(rig: Rig, n: int, len: int): (f: nat -> seq<real>)
    ensures forall i: nat :: DelaySpectrum(rig, n, len, i).Some? ==> Some(f(i)) == DelaySpectrum(rig, n, len, i)
  {
    (i: nat) => if DelaySpectrum(rig, n, len, i).Some? then DelaySpectrum(rig, n, len, i).value else []
  }

  /** What delay i emits: one row `[delay, wavelength, intensity]` per `zip` pair, then 100·(i+1)/N. */
  function DelayBlock(delays: seq<real>, wl: seq<real>, spectrum: seq<real>, i: nat): seq<Emit>
    requires i < |delays|
  {
    Tagged([delays[i]], Zip(wl, spectrum)) + [Progress(Percent(i + 1, |delays|))]
  }

  /** The emits of the first d delays, given the spectrum of each. */
  function DelayEmits(delays: seq<real>, wl: seq<real>, spectra: nat -> seq<real>, d: nat): seq<Emit>
    requires d <= |delays|
  {
    if d == 0 then [] else DelayEmits(delays, wl, spectra, d - 1) + DelayBlock(delays, wl, spectra(d - 1), d - 1)
  }

  /** The instrument calls of delay i: the stage move, then its acquisitions. */
  function DelayStep(delay: real, n: int): (r: seq<Call>)
    ensures |r| == 1 + Shots(n) && r[0] == MoveStage(delay)
    ensures forall k :: 1 <= k < |r| ==> r[k] == AcquireFvb(1)
  {
    [MoveStage(delay)] + Repeated(AcquireFvb(1), Shots(n))
  }

  /** The instrument calls of the first d delays. */
  function DelayCalls(delays: seq<real>, n: int, d: nat): (r: seq<Call>)
    requires d <= |delays|
  {
    if d == 0 then [] else DelayCalls(delays, n, d - 1) + DelayStep(delays[d - 1], n)
  }

  /** One more delay appends its block to the emits and its step to the calls. */
  lemma {:induction false} DelayStepAppends(delays: seq<real>, wl: seq<real>, spectra: nat -> seq<real>, n: int, d: nat,
                                            calls0: seq<Call>)
    requires d < |delays|
    ensures DelayEmits(delays, wl, spectra, d + 1) == DelayEmits(delays, wl, spectra, d) + DelayBlock(delays, wl, spectra(d), d)
    ensures calls0 + DelayCalls(delays, n, d + 1) == calls0 + DelayCalls(delays, n, d) + DelayStep(delays[d], n)
  {
    AppendAssoc(calls0, DelayCalls(delays, n, d), DelayStep(delays[d], n));
  }

  /** Over d delays the progress values are 100·1/N, …, 100·d/N. */
  lemma {:induction false} DelayTicks(delays: seq<real>, wl: seq<real>, spectra: nat -> seq<real>, d: nat)
    requires d <= |delays|
    ensures Progresses(DelayEmits(delays, wl, spectra, d)) == Percents(d, |delays|)
  {
    if d > 0 {
      var before := DelayEmits(delays, wl, spectra, d - 1);
      var rows := Tagged([delays[d - 1]], Zip(wl, spectra(d - 1)));
      var tick := [Progress(Percent(d, |delays|))];
      assert DelayEmits(delays, wl, spectra, d) == (before + rows) + tick;
      DelayTicks(delays, wl, spectra, d - 1);
      TaggedRows([delays[d - 1]], Zip(wl, spectra(d - 1)));
      FiltersDistribute(before, rows);
      FiltersDistribute(before + rows, tick);
      assert Progresses(tick) == [Percent(d, |delays|)] by { assert tick[..0] == []; }
      assert Progresses(before + rows) == Progresses(before);
    }
  }

  /** When every spectrum has `len` values, each of d delays gives min(|wavelengths|, len) results. */
  lemma {:induction false} DelayResults(delays: seq<real>, wl: seq<real>, spectra: nat -> seq<real>, len: nat, d: nat)
    requires d <= |delays| && forall i :: 0 <= i < d ==> |spectra(i)| == len
    ensures |ResultRows(DelayEmits(delays, wl, spectra, d))| == d * (if |wl| < len then |wl| else len)
  {
    if d > 0 {
      var before := DelayEmits(delays, wl, spectra, d - 1);
      var pairs := Zip(wl, spectra(d - 1));
      var rows := Tagged([delays[d - 1]], pairs);
      var tick := [Progress(Percent(d, |delays|))];
      assert DelayEmits(delays, wl, spectra, d) == (before + rows) + tick;
      DelayResults(delays, wl, spectra, len, d - 1);
      TaggedRows([delays[d - 1]], pairs);
      FiltersDistribute(before, rows);
      FiltersDistribute(before + rows, tick);
      assert ResultRows(tick) == [] by { assert tick[..0] == []; }
      MulStep(d, if |wl| < len then |wl| else len);
    }
  }

  /**
   * The accumulation loop at delay i: before each of n acquisitions consult
   * `should_stop` (from the `stopBase`-th call on), acquire, and add into
   * `len` zeros; finally divide by n.
   */
  method Accumulate(rig: Rig, n: int, len: int, i: nat, stopBase: nat, calls0: seq<Call>)
    returns (failed: Option<Outcome>, spectrum: seq<real>, calls: seq<Call>)
    requires n > 1 && len >= 0
    ensures failed.None? ==>
      calls == calls0 + Repeated(AcquireFvb(1), n) && NoStopIn(rig, stopBase, stopBase + n)
      && DelaySpectrum(rig, n, len, i) == Some(spectrum)
    ensures failed.Some? ==> calls0 <= calls
    ensures failed == Some(Stopped) ==> !NoStopIn(rig, stopBase, stopBase + n)
    ensures failed.Some? && failed != Some(Stopped) ==>
      (failed == Some(Raised(rig.fault)) && rig.failAt.Some?)
      || (failed == Some(Raised(ValueError)) && DelaySpectrum(rig, n, len, i).None?)
    ensures rig.failAt.None? && NoStopIn(rig, stopBase, stopBase + n) && DelaySpectrum(rig, n, len, i).Some?
      ==> failed.None?
  {
    var acc := Zeros(len);
    calls := calls0;
    var j := 0;
    ghost var rows: seq<seq<real>> := [];
    ghost var all := AcquiredFrom(rig, i * n, n);
    assert acc == Sums(rows, len);
    while j < n
      invariant 0 <= j <= n
      invariant calls == calls0 + Repeated(AcquireFvb(1), j)
      invariant NoStopIn(rig, stopBase, stopBase + j)
      invariant rows == all[..j] && AllBroadcastable(len, rows)
      invariant acc == Sums(rows, len)
    {
      if rig.stop(stopBase + j) { return Some(Stopped), [], calls; }
      calls := calls + [AcquireFvb(1)];
      if FailsAt(rig, |calls| - 1) { return Some(Raised(rig.fault)), [], calls; }
      var data := rig.fvb(i * n + j);
      var next := AddInto(acc, data);
      if next.None? {
        assert !AllBroadcastable(len, all) by {
          assert all[j] == data;
        }
        return Some(Raised(ValueError)), [], calls;
      }
      AddIntoSums(rows, len, data);
      acc := next.value;
      rows := rows + [data];
      assert rows == all[..j + 1];
      j := j + 1;
    }
    assert rows == all;
    spectrum := Scale(acc, n);
    failed := None;
  }

  /**
   * One delay of `PumpProbeProcedure.execute`: check, move the stage to the
   * delay, check, acquire (accumulating when n > 1) and emit the delay's block.
   */
  method DelayPoint(rig: Rig, delays: seq<real>, wl: seq<real>, n: int, len: int, i: nat, stopBase: nat, calls0: seq<Call>)
    returns (failed: Option<Outcome>, block: seq<Emit>, calls: seq<Call>)
    requires i < |delays|
    ensures failed.None? ==>
      DelaySpectrum(rig, n, len, i).Some? && block == DelayBlock(delays, wl, Reported(rig, n, len)(i), i)
      && calls == calls0 + DelayStep(delays[i], n) && NoStopIn(rig, stopBase, stopBase + Checks(n))
    ensures failed.Some? ==> calls0 <= calls && (failed.value.Stopped? || failed.value.Raised?)
    ensures failed == Some(Stopped) ==> !NoStopIn(rig, stopBase, stopBase + Checks(n))
    ensures failed.Some? && failed != Some(Stopped) ==>
      (failed == Some(Raised(rig.fault)) && rig.failAt.Some?)
      || (failed == Some(Raised(ValueError)) && DelaySpectrum(rig, n, len, i).None?)
    ensures rig.failAt.None? && NoStopIn(rig, stopBase, stopBase + Checks(n)) && DelaySpectrum(rig, n, len, i).Some?
      ==> failed.None?
  {
    block := [];
    calls := calls0;
    if rig.stop(stopBase) { return Some(Stopped), block, calls; }
    calls := calls + [MoveStage(delays[i])];
    if FailsAt(rig, |calls| - 1) { return Some(Raised(rig.fault)), block, calls; }
    if rig.stop(stopBase + 1) { return Some(Stopped), block, calls; }
    var spectrum;
    if n > 1 {
      // `np.zeros(xpixels)` refuses a negative size.
      if len < 0 { return Some(Raised(ValueError)), block, calls; }
      var f, s, c := Accumulate(rig, n, len, i, stopBase + 2, calls);
      if f.Some? {
        if f == Some(Stopped) {
          StopWidens(rig, stopBase, stopBase + Checks(n), stopBase + 2, stopBase + 2 + n);
        }
        return f, block, c;
      }
      spectrum, calls := s, c;
    } else {
      calls := calls + [AcquireFvb(1)];
      if FailsAt(rig, |calls| - 1) { return Some(Raised(rig.fault)), block, calls; }
      spectrum := rig.fvb(i);
    }
    assert calls == calls0 + DelayStep(delays[i], n);
    block := Tagged([delays[i]], Zip(wl, spectrum)) + [Progress(Percent(i + 1, |delays|))];
    failed := None;
  }

  /** `DelayPoint` at delay `done`, extending the emits and calls of the delays before it. */
  method DelayTurn(rig: Rig, delays: seq<real>, wl: seq<real>, n: int, len: int, done: nat,
                   emits0: seq<Emit>, calls0: seq<Call>, callsBefore: seq<Call>)
    returns (failed: Option<Outcome>, emits: seq<Emit>, calls: seq<Call>)
    requires done < |delays| && Accumulates(rig, n, len, done)
    requires emits0 == DelayEmits(delays, wl, Reported(rig, n, len), done)
    requires callsBefore == calls0 + DelayCalls(delays, n, done)
    ensures failed.None? ==>
      Accumulates(rig, n, len, done + 1)
      && emits == DelayEmits(delays, wl, Reported(rig, n, len), done + 1)
      && calls == calls0 + DelayCalls(delays, n, done + 1)
    ensures failed.Some? ==> emits == emits0 && callsBefore <= calls && (failed.value.Stopped? || failed.value.Raised?)
    ensures failed == Some(Stopped) ==> !NoStopIn(rig, 2, StopBase(n, |delays|))
    ensures failed.Some? && failed != Some(Stopped) && rig.failAt.None? ==>
      failed == Some(Raised(ValueError)) && !Accumulates(rig, n, len, |delays|)
  {
    var block;
    failed, block, calls := DelayPoint(rig, delays, wl, n, len, done, StopBase(n, done), callsBefore);
    if failed.Some? {
      if failed == Some(Stopped) {
        StopWithin(rig, n, done, |delays|);
      } else if rig.failAt.None? {
        AccumulatesFails(rig, n, len, done, |delays|);
      }
      return failed, emits0, calls;
    }
    AccumulatesStep(rig, n, len, done);
    DelayStepAppends(delays, wl, Reported(rig, n, len), n, done, calls0);
    emits := emits0 + block;
  }

  /** The delay loop of `PumpProbeProcedure.execute`, after the exposure is set. */
  method DelayLoop(rig: Rig, delays: seq<real>, wl: seq<real>, n: int, len: int, calls0: seq<Call>)
    returns (out: Outcome, done: nat, emits: seq<Emit>, calls: seq<Call>)
    ensures done <= |delays| && (out.Completed? <==> done == |delays|)
    ensures Accumulates(rig, n, len, done) && emits == DelayEmits(delays, wl, Reported(rig, n, len), done)
    ensures calls0 + DelayCalls(delays, n, done) <= calls
    ensures out.Completed? ==> calls == calls0 + DelayCalls(delays, n, |delays|)
    ensures out.Stopped? ==> !NoStopIn(rig, 2, StopBase(n, |delays|))
    ensures out.Completed? || out.Stopped? || out.Raised?
    ensures out.Raised? && rig.failAt.None? ==> out == Raised(ValueError) && !Accumulates(rig, n, len, |delays|)
    ensures rig.failAt.None? && NoStopIn(rig, 2, StopBase(n, |delays|)) && Accumulates(rig, n, len, |delays|)
      ==> out.Completed?
  {
    emits, calls := [], calls0;
    done := 0;
    while done < |delays|
      invariant done <= |delays|
      invariant Accumulates(rig, n, len, done) && emits == DelayEmits(delays, wl, Reported(rig, n, len), done)
      invariant calls == calls0 + DelayCalls(delays, n, done)
    {
      var failed, nextEmits, nextCalls := DelayTurn(rig, delays, wl, n, len, done, emits, calls0, calls);
      if failed.Some? {
        return failed.value, done, emits, nextCalls;
      }
      emits, calls := nextEmits, nextCalls;
      done := done + 1;
    }
    out := Completed;
  }

  /** The number of `should_stop` calls made before delay i's checks: two before the loop, `Checks(n)` per delay. */
  function StopBase(n: int, i: nat): (r: nat)
    ensures r >= 2
  {
    if i == 0 then 2 else StopBase(n, i - 1) + Checks(n)
  }

  /** Delay i's checks start after the two initial ones and the `Checks(n)` of each earlier delay. */
  lemma {:induction false} StopBaseCounts(n: int, i: nat)
    ensures StopBase(n, i) == 2 + i * Checks(n)
  {
    if i > 0 {
      StopBaseCounts(n, i - 1);
      MulStep(i, Checks(n));
    }
  }

  /** The checks of an earlier delay come before those of every later one. */
  lemma {:induction false} StopBaseGrows(n: int, i: nat, j: nat)
    requires i < j
    ensures StopBase(n, i) + Checks(n) <= StopBase(n, j)
  {
    if i + 1 < j {
      StopBaseGrows(n, i, j - 1);
    }
  }

  /** A stop answered at the d-th delay lies inside the checks of the whole loop. */
  lemma {:induction false} StopWithin(rig: Rig, n: int, done: nat, total: nat)
    requires done < total && !NoStopIn(rig, StopBase(n, done), StopBase(n, done) + Checks(n))
    ensures !NoStopIn(rig, 2, StopBase(n, total))
  {
    StopBaseGrows(n, done, total);
  }

  lemma {:induction false} StopWidens(rig: Rig, lo: nat, hi: nat, lo2: nat, hi2: nat)
    requires lo <= lo2 && hi2 <= hi && !NoStopIn(rig, lo2, hi2)
    ensures !NoStopIn(rig, lo, hi)
  {
  }

  /**
   * The start of both `execute` methods: grating, check, centre wavelength,
   * check, then the calibration `calibrate` (refused with
   * `ZeroDivisionError` when its binning is zero, and `IndexError` from the
   * spectrograph's log line when it is empty), then the delay grid and the
   * exposure.
   */
  method Setup(grating: int, center: real, calibrate: Call, binned: bool,
               delayStart: real, delayEnd: real, delayStep: real, exposure: real, rig: Rig)
    returns (early: Option<Outcome>, wl: seq<real>, delays: seq<real>, calls: seq<Call>)
    ensures early.None? ==>
      calls == [SetGrating(grating), SetWavelength(center), calibrate, SetExposure(exposure)]
      && wl == rig.calibration(0) && |wl| > 0 && binned
      && delayStep != 0.0 && delays == Grid(delayStart, delayEnd, delayStep)
    ensures early == Some(Completed) ==> false
    ensures early == Some(Stopped) ==> rig.stop(0) || rig.stop(1)
    ensures early.Some? && early != Some(Stopped) && rig.failAt.None? ==>
      (early == Some(Raised(ZeroDivisionError)) && (!binned || delayStep == 0.0))
      || (early == Some(Raised(IndexError)) && |rig.calibration(0)| == 0)
  {
    wl, delays, calls := [], [], [SetGrating(grating)];
    if FailsAt(rig, 0) { return Some(Raised(rig.fault)), wl, delays, calls; }
    if rig.stop(0) { return Some(Stopped), wl, delays, calls; }
    calls := calls + [SetWavelength(center)];
    if FailsAt(rig, 1) { return Some(Raised(rig.fault)), wl, delays, calls; }
    if rig.stop(1) { return Some(Stopped), wl, delays, calls; }
    if !binned { return Some(Raised(ZeroDivisionError)), wl, delays, calls; }
    calls := calls + [calibrate];
    if FailsAt(rig, 2) { return Some(Raised(rig.fault)), wl, delays, calls; }
    wl := rig.calibration(0);
    if |wl| == 0 { return Some(Raised(IndexError)), wl, delays, calls; }
    // `np.arange` with a zero step divides by zero.
    if delayStep == 0.0 { return Some(Raised(ZeroDivisionError)), wl, delays, calls; }
    delays := Grid(delayStart, delayEnd, delayStep);
    calls := calls + [SetExposure(exposure)];
    if FailsAt(rig, 3) { return Some(Raised(rig.fault)), wl, delays, calls; }
    early := None;
  }

  /**
   * `PumpProbeProcedure.execute`: grating, check, centre wavelength, check,
   * calibration for all `xpixels`, the delay grid, exposure, then the delays.
   */
  method Execute(p: Params, rig: Rig) returns (out: Outcome, emits: seq<Emit>, calls: seq<Call>)
    ensures out.Completed? ==>
      p.delayStep != 0.0
      && var delays := Grid(p.delayStart, p.delayEnd, p.delayStep);
      Accumulates(rig, p.numAccumulations, rig.xpixels, |delays|)
      && calls == [SetGrating(p.grating), SetWavelength(p.centerWavelength),
                   Calibrate(rig.xpixels, rig.pixelWidth), SetExposure(p.exposure)]
                  + DelayCalls(delays, p.numAccumulations, |delays|)
      && emits == DelayEmits(delays, rig.calibration(0), Reported(rig, p.numAccumulations, rig.xpixels), |delays|)
    ensures out.Stopped? ==> exists k :: rig.stop(k)
    ensures out.Raised? && rig.failAt.None? ==>
      out == Raised(IndexError) || out == Raised(ZeroDivisionError) || out == Raised(ValueError)
    ensures Smooth(rig) && p.delayStep != 0.0 && |rig.calibration(0)| > 0
      && Accumulates(rig, p.numAccumulations, rig.xpixels, |Grid(p.delayStart, p.delayEnd, p.delayStep)|)
      ==> out.Completed?
  {
    emits := [];
    var early, wl, delays;
    early, wl, delays, calls := Setup(p.grating, p.centerWavelength, Calibrate(rig.xpixels, rig.pixelWidth), true,
                                      p.delayStart, p.delayEnd, p.delayStep, p.exposure, rig);
    if early.Some? { return early.value, emits, calls; }
    var done;
    out, done, emits, calls := DelayLoop(rig, delays, wl, p.numAccumulations, rig.xpixels, calls);
  }

  /**
   * A completed pump-probe run over `d` delays reports d progress values
   * ending at 100, and with n > 1 accumulations d·min(|wavelengths|, xpixels) results.
   */
  lemma {:induction false} PumpProbeReport(rig: Rig, delays: seq<real>, wl: seq<real>, n: int, len: int)
    requires |delays| > 0 && Accumulates(rig, n, len, |delays|)
    ensures var emits := DelayEmits(delays, wl, Reported(rig, n, len), |delays|);
            |Progresses(emits)| == |delays| && Progresses(emits)[|delays| - 1] == 100.0
            && (n > 1 ==> |ResultRows(emits)| == |delays| * (if |wl| < len then |wl| else len))
  {
    DelayTicks(delays, wl, Reported(rig, n, len), |delays|);
    if n > 1 {
      assert DelaySpectrum(rig, n, len, 0).Some?;
      forall i | 0 <= i < |delays|
        ensures |Reported(rig, n, len)(i)| == len
      {
        assert DelaySpectrum(rig, n, len, i).Some?;
      }
      DelayResults(delays, wl, Reported(rig, n, len), len, |delays|);
    }
    PercentGrows(|delays|, |delays|, |delays|);
  }

  /** The instrument calls of the first d delays of the image variant. */
  function ImageDelayCalls(delays: seq<real>, hbin: int, vbin: int, d: nat): (r: seq<Call>)
    requires d <= |delays|
    ensures |r| == 2 * d
  {
    if d == 0 then [] else ImageDelayCalls(delays, hbin, vbin, d - 1) + [MoveStage(delays[d - 1]), AcquireImage(hbin, vbin)]
  }

  /** The emits of the first d delays of the image variant. */
  function ImageDelayEmits(rig: Rig, delays: seq<real>, wl: seq<real>, d: nat): seq<Emit>
    requires d <= |delays|
  {
    if d == 0 then []
    else ImageDelayEmits(rig, delays, wl, d - 1) + ImageBlock([delays[d - 1]], wl, rig.image(d - 1))
         + [Progress(Percent(d, |delays|))]
  }

  /** The image variant reports 100·1/N, …, 100·d/N over d delays. */
  lemma {:induction false} ImageDelayTicks(rig: Rig, delays: seq<real>, wl: seq<real>, d: nat)
    requires d <= |delays|
    ensures Progresses(ImageDelayEmits(rig, delays, wl, d)) == Percents(d, |delays|)
  {
    if d > 0 {
      var before := ImageDelayEmits(rig, delays, wl, d - 1);
      var block := ImageBlock([delays[d - 1]], wl, rig.image(d - 1));
      var tick := [Progress(Percent(d, |delays|))];
      assert ImageDelayEmits(rig, delays, wl, d) == (before + block) + tick;
      ImageDelayTicks(rig, delays, wl, d - 1);
      ImageBlockRows([delays[d - 1]], wl, rig.image(d - 1));
      FiltersDistribute(before, block);
      FiltersDistribute(before + block, tick);
      assert Progresses(tick) == [Percent(d, |delays|)] by { assert tick[..0] == []; }
      assert Progresses(before + block) == Progresses(before);
    }
  }

  /**
   * One delay of the image variant: check, move, check, acquire a binned
   * image and emit every pixel against the calibration, then the progress.
   */
  method ImageDelayPoint(rig: Rig, delays: seq<real>, wl: seq<real>, hbin: int, vbin: int, i: nat, calls0: seq<Call>)
    returns (failed: Option<Outcome>, block: seq<Emit>, calls: seq<Call>)
    requires i < |delays|
    ensures failed.None? ==>
      block == ImageBlock([delays[i]], wl, rig.image(i)) + [Progress(Percent(i + 1, |delays|))]
      && calls == calls0 + [MoveStage(delays[i]), AcquireImage(hbin, vbin)]
      && !rig.stop(2 + 2 * i) && !rig.stop(3 + 2 * i)
    ensures failed.Some? ==> calls0 <= calls && Progresses(block) == [] && (failed.value.Stopped? || failed.value.Raised?)
    ensures failed == Some(Stopped) ==> rig.stop(2 + 2 * i) || rig.stop(3 + 2 * i)
    ensures failed.Some? && failed != Some(Stopped) && rig.failAt.None? ==>
      failed == Some(Raised(IndexError)) && |wl| < rig.image(i).cols
    ensures rig.failAt.None? && !rig.stop(2 + 2 * i) && !rig.stop(3 + 2 * i) && rig.image(i).cols <= |wl|
      ==> failed.None?
  {
    block, calls := [], calls0;
    if rig.stop(2 + 2 * i) { return Some(Stopped), block, calls; }
    calls := calls + [MoveStage(delays[i])];
    if FailsAt(rig, |calls| - 1) { return Some(Raised(rig.fault)), block, calls; }
    if rig.stop(3 + 2 * i) { return Some(Stopped), block, calls; }
    calls := calls + [AcquireImage(hbin, vbin)];
    if FailsAt(rig, |calls| - 1) { return Some(Raised(rig.fault)), block, calls; }
    var ok, pixels := EmitImage([delays[i]], wl, rig.image(i));
    if !ok { return Some(Raised(IndexError)), pixels, calls; }
    assert pixels == ImageBlock([delays[i]], wl, rig.image(i)) by {
      if rig.image(i).rows == 0 {
        assert |pixels| == 0;
      }
    }
    failed, block := None, pixels + [Progress(Percent(i + 1, |delays|))];
  }

  /** The delay loop of the image variant. */
  method ImageDelayLoop(rig: Rig, delays: seq<real>, wl: seq<real>, hbin: int, vbin: int, calls0: seq<Call>)
    returns (out: Outcome, done: nat, emits: seq<Emit>, calls: seq<Call>)
    ensures done <= |delays| && (out.Completed? <==> done == |delays|)
    ensures Progresses(emits) == Progresses(ImageDelayEmits(rig, delays, wl, done))
    ensures out.Completed? ==>
      emits == ImageDelayEmits(rig, delays, wl, |delays|) && calls == calls0 + ImageDelayCalls(delays, hbin, vbin, |delays|)
    ensures calls0 + ImageDelayCalls(delays, hbin, vbin, done) <= calls
    ensures out.Stopped? ==> rig.stop(2 + 2 * done) || rig.stop(3 + 2 * done)
    ensures out.Completed? || out.Stopped? || out.Raised?
    ensures out.Raised? && rig.failAt.None? ==> out == Raised(IndexError) && done < |delays| && |wl| < rig.image(done).cols
    ensures ImageLoopClear(rig, delays, wl) ==> out.Completed?
  {
    emits, calls := [], calls0;
    done := 0;
    while done < |delays|
      invariant done <= |delays|
      invariant emits == ImageDelayEmits(rig, delays, wl, done)
      invariant calls == calls0 + ImageDelayCalls(delays, hbin, vbin, done)
    {
      var failed, nextEmits, nextCalls := ImageDelayTurn(rig, delays, wl, hbin, vbin, done, emits, calls0, calls);
      if failed.Some? {
        if rig.failAt.None? {
          ImageLoopBlocked(rig, delays, wl, done);
        }
        return failed.value, done, nextEmits, nextCalls;
      }
      emits, calls := nextEmits, nextCalls;
      done := done + 1;
    }
    out := Completed;
    PrefixRefl(calls);
  }

  /** `ImageDelayPoint` at delay `done`, extending the emits and calls of the delays before it. */
  method ImageDelayTurn(rig: Rig, delays: seq<real>, wl: seq<real>, hbin: int, vbin: int, done: nat,
                        emits0: seq<Emit>, calls0: seq<Call>, callsBefore: seq<Call>)
    returns (failed: Option<Outcome>, emits: seq<Emit>, calls: seq<Call>)
    requires done < |delays|
    requires emits0 == ImageDelayEmits(rig, delays, wl, done)
    requires callsBefore == calls0 + ImageDelayCalls(delays, hbin, vbin, done)
    ensures failed.None? ==>
      emits == ImageDelayEmits(rig, delays, wl, done + 1) && calls == calls0 + ImageDelayCalls(delays, hbin, vbin, done + 1)
      && !rig.stop(2 + 2 * done) && !rig.stop(3 + 2 * done)
    ensures failed.Some? ==>
      Progresses(emits) == Progresses(emits0) && calls0 + ImageDelayCalls(delays, hbin, vbin, done) <= calls
      && (failed.value.Stopped? || failed.value.Raised?)
    ensures failed.Some? && failed.value.Stopped? ==> rig.stop(2 + 2 * done) || rig.stop(3 + 2 * done)
    ensures failed.Some? && !failed.value.Stopped? && rig.failAt.None? ==>
      failed.value == Raised(IndexError) && |wl| < rig.image(done).cols
  {
    var block;
    failed, block, calls := ImageDelayPoint(rig, delays, wl, hbin, vbin, done, callsBefore);
    if failed.Some? {
      FiltersDistribute(emits0, block);
      return failed, emits0 + block, calls;
    }
    ImageStepAppends(rig, delays, wl, hbin, vbin, done, calls0);
    emits := emits0 + block;
  }

  /** One more delay appends its pixels and tick to the emits and its move and acquisition to the calls. */
  lemma {:induction false} ImageStepAppends(rig: Rig, delays: seq<real>, wl: seq<real>, hbin: int, vbin: int, d: nat,
                                            calls0: seq<Call>)
    requires d < |delays|
    ensures ImageDelayEmits(rig, delays, wl, d + 1)
      == ImageDelayEmits(rig, delays, wl, d) + (ImageBlock([delays[d]], wl, rig.image(d)) + [Progress(Percent(d + 1, |delays|))])
    ensures calls0 + ImageDelayCalls(delays, hbin, vbin, d + 1)
      == calls0 + ImageDelayCalls(delays, hbin, vbin, d) + [MoveStage(delays[d]), AcquireImage(hbin, vbin)]
  {
    AppendAssoc(ImageDelayEmits(rig, delays, wl, d), ImageBlock([delays[d]], wl, rig.image(d)), [Progress(Percent(d + 1, |delays|))]);
    AppendAssoc(calls0, ImageDelayCalls(delays, hbin, vbin, d), [MoveStage(delays[d]), AcquireImage(hbin, vbin)]);
  }

  /**
   * Nothing stops the image loop: no instrument call raises, `should_stop`
   * answers no at both checks of every delay, and no image is wider than
   * the wavelengths.
   */
  ghost predicate ImageLoopClear(rig: Rig, delays: seq<real>, wl: seq<real>)
  {
    rig.failAt.None? && NoStopIn(rig, 2, 2 + 2 * |delays|)
    && forall i :: 0 <= i < |delays| ==> rig.image(i).cols <= |wl|
  }

  /** A stop answered at delay `d`, or an image wider than the wavelengths there, keeps the loop from completing. */
  lemma {:induction false} ImageLoopBlocked(rig: Rig, delays: seq<real>, wl: seq<real>, d: nat)
    requires d < |delays| && (rig.stop(2 + 2 * d) || rig.stop(3 + 2 * d) || |wl| < rig.image(d).cols)
    ensures !ImageLoopClear(rig, delays, wl)
  {
  }

  /**
   * `PumpProbeImageProcedure.execute`: grating, check, centre wavelength,
   * check, calibration for `xpixels // hbin` pixels of width
   * `pixel_width · hbin`, the delay grid, exposure, then the delays.
   */
  method ExecuteImage(p: ImageParams, rig: Rig) returns (out: Outcome, emits: seq<Emit>, calls: seq<Call>)
    ensures out.Completed? ==>
      p.delayStep != 0.0 && p.hbin != 0
      && var delays := Grid(p.delayStart, p.delayEnd, p.delayStep);
      calls == [SetGrating(p.grating), SetWavelength(p.centerWavelength),
                Calibrate(PyDiv(rig.xpixels, p.hbin), rig.pixelWidth * (p.hbin as real)), SetExposure(p.exposure)]
               + ImageDelayCalls(delays, p.hbin, p.vbin, |delays|)
      && emits == ImageDelayEmits(rig, delays, rig.calibration(0), |delays|)
    ensures out.Stopped? ==> exists k :: rig.stop(k)
    ensures out.Raised? && rig.failAt.None? ==> out == Raised(IndexError) || out == Raised(ZeroDivisionError)
    ensures Smooth(rig) && p.delayStep != 0.0 && p.hbin != 0 && |rig.calibration(0)| > 0
      && (forall i :: 0 <= i < |Grid(p.delayStart, p.delayEnd, p.delayStep)| ==> rig.image(i).cols <= |rig.calibration(0)|)
      ==> out.Completed?
  {
    emits := [];
    var early, wl, delays;
    // `xpixels // hbin` divides by zero when hbin is 0; PyDiv's value is then unused.
    var cal := Calibrate(if p.hbin == 0 then 0 else PyDiv(rig.xpixels, p.hbin), rig.pixelWidth * (p.hbin as real));
    early, wl, delays, calls := Setup(p.grating, p.centerWavelength, cal, p.hbin != 0,
                                      p.delayStart, p.delayEnd, p.delayStep, p.exposure, rig);
    if early.Some? { return early.value, emits, calls; }
    assert cal == Calibrate(PyDiv(rig.xpixels, p.hbin), rig.pixelWidth * (p.hbin as real));
    var done;
    out, done, emits, calls := ImageDelayLoop(rig, delays, wl, p.hbin, p.vbin, calls);
  }

  /** Which delay stage `startup` builds: the mock one (0–300 mm at 50 mm/s) or a Newport stage on COM1. */
  datatype StageChoice = MockStage(positionMin: real, positionMax: real, velocity: real) | NewportStage(port: string)

  function StageFor(useMockStage: bool): (s: StageChoice)
    ensures useMockStage <==> s.MockStage?
    ensures s.MockStage? ==> s.positionMin == 0.0 && s.positionMax == 300.0
  {
    if useMockStage then MockStage(0.0, 300.0, 50.0) else NewportStage("COM1")
  }

  /** The device operations of a pump-probe procedure, in order. */
  datatype DeviceOp =
    | CameraInit
    | SpectrographInit
    | StageInit(stage: StageChoice)
    | CoolerOn(target: int)
    | StageShutdown
    | CameraShutdown
    | SpectrographShutdown

  /** Which `initialize()` raises during `startup`, if any. */
  datatype InitFailure = NoFailure | CameraFails | SpectrographFails | StageFails


  /**
   * The device operations of `startup`: camera, spectrograph, then the
   * chosen delay stage, each initialised in turn; the cooler only when enabled.
   */
  function StartupOps(useMockStage: bool, coolerEnabled: bool, target: int, failure: InitFailure): (r: seq<DeviceOp>)
    ensures |r| >= 1 && r[0] == CameraInit
    ensures SpectrographInit in r <==> !failure.CameraFails?
    ensures StageInit(StageFor(useMockStage)) in r <==> failure.NoFailure? || failure.StageFails?
    ensures forall s :: StageInit(s) in r ==> s == StageFor(useMockStage)
    ensures CoolerOn(target) in r <==> failure.NoFailure? && coolerEnabled
    ensures forall i, j :: 0 <= i < j < |r| && r[j] == StageInit(StageFor(useMockStage)) ==> r[i] != CoolerOn(target)
  {
    if failure.CameraFails? then [CameraInit]
    else if failure.SpectrographFails? then [CameraInit, SpectrographInit]
    else if failure.StageFails? then [CameraInit, SpectrographInit, StageInit(StageFor(useMockStage))]
    else [CameraInit, SpectrographInit, StageInit(StageFor(useMockStage))] + (if coolerEnabled then [CoolerOn(target)] else [])
  }

  /** `shutdown`: the delay stage, then the camera, then the spectrograph, each only if its attribute exists. */
  function ShutdownOps(hasStage: bool, hasCamera: bool, hasSpectrograph: bool): (r: seq<DeviceOp>)
    ensures StageShutdown in r <==> hasStage
    ensures CameraShutdown in r <==> hasCamera
    ensures SpectrographShutdown in r <==> hasSpectrograph
    ensures hasStage ==> r[0] == StageShutdown
    ensures hasSpectrograph ==> r[|r| - 1] == SpectrographShutdown
  {
    (if hasStage then [StageShutdown] else [])
    + (if hasCamera then [CameraShutdown] else [])
    + (if hasSpectrograph then [SpectrographShutdown] else [])
  }

  /** A pump-probe procedure object and the device operations it has made. */
  class ProcedureDevices {
    var hasCamera: bool
    var hasSpectrograph: bool
    var hasStage: bool
    var ops: seq<DeviceOp>

    constructor ()
      ensures !hasCamera && !hasSpectrograph && !hasStage && ops == []
    {
      hasCamera, hasSpectrograph, hasStage, ops := false, false, false, [];
    }

    /** `startup`; each attribute is set before its `initialize()` runs, so it survives a failure. */
    method Startup(useMockStage: bool, coolerEnabled: bool, target: int, failure: InitFailure) returns (r: Result<()>)
      modifies this
      ensures ops == old(ops) + StartupOps(useMockStage, coolerEnabled, target, failure)
      ensures hasCamera
      ensures hasSpectrograph == (old(hasSpectrograph) || !failure.CameraFails?)
      ensures hasStage == (old(hasStage) || failure.NoFailure? || failure.StageFails?)
      ensures r.Ok? <==> failure.NoFailure?
      ensures r.Err? ==> r.error == RuntimeError
    {
      hasCamera := true;
      ops := ops + [CameraInit];
      if failure.CameraFails? { return Err(RuntimeError); }
      hasSpectrograph := true;
      ops := ops + [SpectrographInit];
      if failure.SpectrographFails? { return Err(RuntimeError); }
      hasStage := true;
      ops := ops + [StageInit(StageFor(useMockStage))];
      if failure.StageFails? { return Err(RuntimeError); }
      if coolerEnabled {
        ops := ops + [CoolerOn(target)];
      }
      return Ok(());
    }

    method Shutdown()
      modifies this`ops
      ensures ops == old(ops) + ShutdownOps(hasStage, hasCamera, hasSpectrograph)
    {
      if hasStage { ops := ops + [StageShutdown]; }
      if hasCamera { ops := ops + [CameraShutdown]; }
      if hasSpectrograph { ops := ops + [SpectrographShutdown]; }
    }
  }

  /** After a `startup` on a fresh procedure, `shutdown` visits exactly the devices it created. */
  lemma {:induction false} ShutdownMatchesStartup(useMockStage: bool, coolerEnabled: bool, target: int, failure: InitFailure)
    ensures var started := StartupOps(useMockStage, coolerEnabled, target, failure);
            var stopped := ShutdownOps(failure.NoFailure? || failure.StageFails?, true, !failure.CameraFails?);
            (StageShutdown in stopped <==> StageInit(StageFor(useMockStage)) in started)
            && (CameraShutdown in stopped <==> CameraInit in started)
            && (SpectrographShutdown in stopped <==> SpectrographInit in started)
  {
  }
}
