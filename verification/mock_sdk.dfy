// The simulated vendor SDKs: the spectrograph (grating turret, wavelength
// motor, calibration) and the camera (cooler and temperature drift,
// acquisition flags, read-out sizes). The SDK state record is the object's
// state; its construction defaults are the dataclass defaults, and the
// entries a test may overwrite (device count, grating table, detector size)
// are constructor parameters. Wall-clock time enters as the elapsed seconds
// since the previous temperature reading; the random image contents are not
// modelled, only how many values a read-out returns.
module MockSdk {
  import opened Wrappers
  import opened Spectra

  const DRV_SUCCESS := 20002
  const DRV_TEMPERATURE_OFF := 20034
  const DRV_TEMPERATURE_NOT_STABILIZED := 20035
  const DRV_TEMPERATURE_STABILIZED := 20036
  const DRV_TEMPERATURE_NOT_REACHED := 20037
  const DRV_TEMPERATURE_DRIFT := 20038
  const DRV_ACQUIRING := 20072

  const ATSPECTROGRAPH_SUCCESS := 0
  /** The code every failing simulated spectrograph call returns. */
  const SPECTROGRAPH_ERROR := 1

  const READ_MODE_FVB := 0
  const READ_MODE_IMAGE := 4
  const ACQUISITION_SINGLE_SCAN := 1
  const ACQUISITION_ACCUMULATE := 2

  /** One row of the simulated grating table. */
  datatype Grating = Grating(lines: real, blaze: string, wlMin: real, wlMax: real)

  /** The grating table of a fresh simulated spectrograph. */
  function DefaultGratings(): (gs: seq<Grating>)
    ensures |gs| == 2
    ensures gs[0].wlMin <= gs[0].wlMax && gs[1].wlMin <= gs[1].wlMax
  {
    [Grating(150.0, "500nm", 200.0, 1100.0), Grating(600.0, "500nm", 300.0, 800.0)]
  }

  /** The wavelength step between neighbouring pixels for a grating of `lines` lines/mm. */
  function NmPerPixel(lines: real): (d: real)
    requires lines != 0.0
    ensures lines > 0.0 ==> d > 0.0
  {
    0.1 * (150.0 / lines)
  }

  /** Half the width of the calibrated range around the centre wavelength. */
  function HalfRange(numPixels: int, lines: real): (h: real)
    requires lines != 0.0
    ensures numPixels >= 1 && lines > 0.0 ==> h > 0.0
  {
    (numPixels as real) * NmPerPixel(lines) / 2.0
  }

  /** A finer grating (more lines per mm) disperses less: the same pixels span a narrower range. */
  lemma {:induction false} FinerGratingNarrower(numPixels: int, coarse: real, fine: real)
    requires numPixels >= 1 && 0.0 < coarse < fine
    ensures HalfRange(numPixels, fine) < HalfRange(numPixels, coarse)
  {
    assert 150.0 / fine < 150.0 / coarse by {
      assert (150.0 / fine) * fine == 150.0 == (150.0 / coarse) * coarse;
    }
  }

  /** The simulated spectrograph SDK. */
  class MockATSpectrograph {
    var initialized: bool
    const numDevices: int
    const serialNumber: string
    const numGratings: int
    const gratings: seq<Grating>
    var currentGrating: int
    var currentWavelength: real
    var numPixels: int
    var pixelWidth: real

    /** Only `SetGrating` moves the turret, and only to a positive index. */
    ghost predicate Valid()
      reads this`currentGrating
    {
      currentGrating >= 1
    }

    /** A fresh SDK: closed, grating 1 at 500 nm, calibrated for 1024 pixels of 26 µm. */
    constructor (numDevices: int, numGratings: int, gratings: seq<Grating>)
      ensures Valid()
      ensures this.numDevices == numDevices && this.numGratings == numGratings && this.gratings == gratings
      ensures serialNumber == "SPC-001"
      ensures !initialized && currentGrating == 1 && currentWavelength == 500.0
      ensures numPixels == 1024 && pixelWidth == 26.0
    {
      this.numDevices, this.numGratings, this.gratings := numDevices, numGratings, gratings;
      serialNumber := "SPC-001";
      initialized, currentGrating, currentWavelength := false, 1, 500.0;
      numPixels, pixelWidth := 1024, 26.0;
    }

    method Initialize() returns (code: int)
      modifies this`initialized
      ensures initialized && code == ATSPECTROGRAPH_SUCCESS
    {
      initialized := true;
      code := ATSPECTROGRAPH_SUCCESS;
    }

    method Close() returns (code: int)
      modifies this`initialized
      ensures !initialized && code == ATSPECTROGRAPH_SUCCESS
    {
      initialized := false;
      code := ATSPECTROGRAPH_SUCCESS;
    }

    function GetNumberDevices(): (int, int)
    {
      (ATSPECTROGRAPH_SUCCESS, numDevices)
    }

    function GetSerialNumber(): (int, string)
    {
      (ATSPECTROGRAPH_SUCCESS, serialNumber)
    }

    /** The simulated turret always has gratings and a shutter, never a filter wheel. */
    function Features(): (bool, bool, bool)
    {
      (true, true, false)
    }

    function GetNumberGratings(): (int, int)
    {
      (ATSPECTROGRAPH_SUCCESS, numGratings)
    }

    /** Lines/mm and blaze of grating `g` (1-based); code 1 outside the table. */
    function GetGratingInfo(g: int): (r: (int, real, string))
      ensures r.0 == ATSPECTROGRAPH_SUCCESS <==> 1 <= g <= |gratings|
      ensures 1 <= g <= |gratings| ==> r.1 == gratings[g - 1].lines && r.2 == gratings[g - 1].blaze
      ensures !(1 <= g <= |gratings|) ==> r == (SPECTROGRAPH_ERROR, 0.0, "")
    {
      if 1 <= g <= |gratings| then (ATSPECTROGRAPH_SUCCESS, gratings[g - 1].lines, gratings[g - 1].blaze)
      else (SPECTROGRAPH_ERROR, 0.0, "")
    }

    /** The wavelength range of grating `g` (1-based); code 1 outside the table. */
    function GetWavelengthLimits(g: int): (r: (int, real, real))
      ensures r.0 == ATSPECTROGRAPH_SUCCESS <==> 1 <= g <= |gratings|
      ensures 1 <= g <= |gratings| ==> r.1 == gratings[g - 1].wlMin && r.2 == gratings[g - 1].wlMax
      ensures !(1 <= g <= |gratings|) ==> r == (SPECTROGRAPH_ERROR, 0.0, 0.0)
    {
      if 1 <= g <= |gratings| then (ATSPECTROGRAPH_SUCCESS, gratings[g - 1].wlMin, gratings[g - 1].wlMax)
      else (SPECTROGRAPH_ERROR, 0.0, 0.0)
    }

    function GetGrating(): (int, int)
      reads this`currentGrating
    {
      (ATSPECTROGRAPH_SUCCESS, currentGrating)
    }

    function GetWavelength(): (int, real)
      reads this`currentWavelength
    {
      (ATSPECTROGRAPH_SUCCESS, currentWavelength)
    }

    /** The table row of the current grating, looked up as Python indexes a list. */
    function Current(): (r: Option<Grating>)
      reads this`currentGrating
      ensures r.Some? <==> -|gratings| <= currentGrating - 1 < |gratings|
      ensures 1 <= currentGrating <= |gratings| ==> r == Some(gratings[currentGrating - 1])
      ensures currentGrating > |gratings| ==> r == None
    {
      PyIndex(gratings, currentGrating - 1)
    }

    /**
     * Selects grating `g` when it is within 1..numGratings; otherwise code 1
     * and nothing changes. The stored wavelength is not re-checked.
     */
    method SetGrating(g: int) returns (code: int)
      requires Valid()
      modifies this`currentGrating
      ensures Valid()
      ensures code == ATSPECTROGRAPH_SUCCESS <==> 1 <= g <= numGratings
      ensures 1 <= g <= numGratings ==> currentGrating == g
      ensures !(1 <= g <= numGratings) ==> code == SPECTROGRAPH_ERROR && currentGrating == old(currentGrating)
    {
      if 1 <= g <= numGratings {
        currentGrating := g;
        return ATSPECTROGRAPH_SUCCESS;
      }
      return SPECTROGRAPH_ERROR;
    }

    /**
     * Moves to `w` when it lies within the current grating's range; otherwise
     * code 1 and the wavelength stays. A current grating outside the table
     * raises IndexError.
     */
    method SetWavelength(w: real) returns (r: Result<int>)
      modifies this`currentWavelength
      ensures Current().None? ==> r == Err(IndexError) && currentWavelength == old(currentWavelength)
      ensures Current().Some? ==>
        var g := Current().value;
        (g.wlMin <= w <= g.wlMax ==> r == Ok(ATSPECTROGRAPH_SUCCESS) && currentWavelength == w) &&
        (!(g.wlMin <= w <= g.wlMax) ==> r == Ok(SPECTROGRAPH_ERROR) && currentWavelength == old(currentWavelength))
    {
      var g := Current();
      if g.None? {
        return Err(IndexError);
      }
      if g.value.wlMin <= w <= g.value.wlMax {
        currentWavelength := w;
        return Ok(ATSPECTROGRAPH_SUCCESS);
      }
      return Ok(SPECTROGRAPH_ERROR);
    }

    method SetNumberPixels(n: int) returns (code: int)
      modifies this`numPixels
      ensures numPixels == n && code == ATSPECTROGRAPH_SUCCESS
    {
      numPixels := n;
      code := ATSPECTROGRAPH_SUCCESS;
    }

    method SetPixelWidth(w: real) returns (code: int)
      modifies this`pixelWidth
      ensures pixelWidth == w && code == ATSPECTROGRAPH_SUCCESS
    {
      pixelWidth := w;
      code := ATSPECTROGRAPH_SUCCESS;
    }

    /**
     * `n` evenly spaced wavelengths centred on the current wavelength, the
     * span set by the current grating's dispersion. A grating outside the
     * table raises IndexError, zero lines/mm ZeroDivisionError and a negative
     * count ValueError (from `np.linspace`).
     */
    function GetCalibration(n: int): (r: Result<(int, seq<real>)>)
      reads this`currentGrating, this`currentWavelength
      ensures Current().None? ==> r == Err(IndexError)
      ensures Current().Some? && Current().value.lines == 0.0 ==> r == Err(ZeroDivisionError)
      ensures Current().Some? && Current().value.lines != 0.0 && n < 0 ==> r == Err(ValueError)
      ensures r.Ok? ==> r.value.0 == ATSPECTROGRAPH_SUCCESS && |r.value.1| == n
      ensures r.Ok? && n >= 1 ==> r.value.1[0] == currentWavelength - HalfRange(n, Current().value.lines)
      ensures r.Ok? && n >= 2 ==> r.value.1[n - 1] == currentWavelength + HalfRange(n, Current().value.lines)
      ensures r.Ok? && n >= 2 ==> (r.value.1[0] + r.value.1[n - 1]) / 2.0 == currentWavelength
    {
      match Current()
      case None => Err(IndexError)
      case Some(g) =>
        if g.lines == 0.0 then Err(ZeroDivisionError)
        else if n < 0 then Err(ValueError)
        else
          var h := HalfRange(n, g.lines);
          Ok((ATSPECTROGRAPH_SUCCESS, Linspace(currentWavelength - h, currentWavelength + h, n)))
    }
  }

  /**
   * On a fresh simulated spectrograph, moving to 1000 nm on grating 1 and then
   * selecting grating 2 leaves the wavelength outside grating 2's 300-800 nm:
   * the grating change never re-checks the wavelength.
   */
  method GratingChangeKeepsWavelength() returns (s: MockATSpectrograph)
    ensures s.gratings == DefaultGratings()
    ensures s.currentGrating == 2 && s.currentWavelength == 1000.0
    ensures !(s.gratings[1].wlMin <= s.currentWavelength <= s.gratings[1].wlMax)
  {
    s := new MockATSpectrograph(1, 2, DefaultGratings());
    var r := s.SetWavelength(1000.0);
    var code := s.SetGrating(2);
  }

  /**
   * One reading's temperature drift over `elapsed` seconds: with the cooler
   * on it falls at 5 °C/s down to the target, with it off it rises at 2 °C/s
   * up to 20 °C.
   */
  function TemperatureStep(t: real, target: int, coolerOn: bool, elapsed: real): (r: real)
    ensures elapsed >= 0.0 && coolerOn && t > target as real ==> target as real <= r <= t
    ensures elapsed >= 0.0 && coolerOn && t > target as real && 5.0 * elapsed >= t - target as real ==> r == target as real
    ensures coolerOn && t <= target as real ==> r == t
    ensures elapsed >= 0.0 && !coolerOn && t < 20.0 ==> t <= r <= 20.0
    ensures elapsed >= 0.0 && !coolerOn && t < 20.0 && 2.0 * elapsed >= 20.0 - t ==> r == 20.0
    ensures !coolerOn && t >= 20.0 ==> r == t
    ensures !coolerOn && elapsed >= 0.0 ==> r >= 20.0 || r >= t + 2.0 * elapsed
  {
    if coolerOn then
      if t > target as real then t - (if 5.0 * elapsed < t - target as real then 5.0 * elapsed else t - target as real)
      else t
    else
      if t < 20.0 then t + (if 2.0 * elapsed < 20.0 - t then 2.0 * elapsed else 20.0 - t)
      else t
  }

  /** The status code of a reading: off, stabilised within 1 °C of the target, or not reached. */
  function TemperatureCode(t: real, target: int, coolerOn: bool): (code: int)
    ensures code == DRV_TEMPERATURE_OFF <==> !coolerOn
    ensures code == DRV_TEMPERATURE_STABILIZED <==> coolerOn && -1.0 < t - target as real < 1.0
    ensures code == DRV_TEMPERATURE_NOT_REACHED <==> coolerOn && !(-1.0 < t - target as real < 1.0)
  {
    if !coolerOn then DRV_TEMPERATURE_OFF
    else if -1.0 < t - target as real < 1.0 then DRV_TEMPERATURE_STABILIZED
    else DRV_TEMPERATURE_NOT_REACHED
  }

  /** With the cooler on and time moving forward, readings never rise and never pass the target. */
  lemma {:induction false} CoolingSettles(t: real, target: int, elapsed: seq<real>)
    requires forall i :: 0 <= i < |elapsed| ==> elapsed[i] >= 0.0
    requires t >= target as real
    ensures target as real <= Cooled(t, target, elapsed) <= t
  {
    if elapsed != [] {
      var init := elapsed[..|elapsed| - 1];
      CoolingSettles(t, target, init);
    }
  }

  /** The temperature after a run of readings with the cooler on. */
  function Cooled(t: real, target: int, elapsed: seq<real>): real
  {
    if elapsed == [] then t
    else TemperatureStep(Cooled(t, target, elapsed[..|elapsed| - 1]), target, true, elapsed[|elapsed| - 1])
  }

  /** The number of values a read-out returns, or the error it raises. */
  function ReadoutSize(xpixels: int, ypixels: int, readMode: int, hbin: int, vbin: int): (r: Result<nat>)
    ensures readMode == READ_MODE_FVB && xpixels >= 0 ==> r == Ok(xpixels)
    ensures readMode == READ_MODE_FVB && xpixels < 0 ==> r == Err(ValueError)
    ensures readMode != READ_MODE_FVB && (hbin == 0 || vbin == 0) ==> r == Err(ZeroDivisionError)
    ensures readMode != READ_MODE_FVB && hbin > 0 && vbin > 0 && xpixels >= 0 && ypixels >= 0 ==>
      r == Ok((xpixels / hbin) * (ypixels / vbin))
  {
    if readMode == READ_MODE_FVB then
      if xpixels < 0 then Err(ValueError) else Ok(xpixels)
    else if hbin == 0 || vbin == 0 then Err(ZeroDivisionError)
    else Ok(Binned(xpixels, hbin) * Binned(ypixels, vbin))
  }

  /** `n // bin` as an array length: a negative quotient makes an empty axis. */
  function Binned(n: int, bin: int): (r: nat)
    requires bin != 0
    ensures n >= 0 && bin > 0 ==> r == n / bin
  {
    var q := PyDiv(n, bin);
    if q < 0 then 0 else q
  }

  /** Binning that divides the detector keeps every pixel: the binned count times the bin area is the detector area. */
  lemma {:induction false} BinnedImageCoversDetector(xpixels: nat, ypixels: nat, hbin: int, vbin: int)
    requires hbin > 0 && vbin > 0 && xpixels % hbin == 0 && ypixels % vbin == 0
    ensures ReadoutSize(xpixels, ypixels, READ_MODE_IMAGE, hbin, vbin).Ok?
    ensures ReadoutSize(xpixels, ypixels, READ_MODE_IMAGE, hbin, vbin).value * (hbin * vbin) == xpixels * ypixels
  {
    var ex, ey := xpixels / hbin, ypixels / vbin;
    assert ex * hbin == xpixels && ey * vbin == ypixels;
    calc {
      (ex * ey) * (hbin * vbin);
      == { MulRegroup(ex, ey, hbin, vbin); }
      (ex * hbin) * (ey * vbin);
    }
  }

  lemma {:induction false} MulRegroup(a: int, b: int, c: int, d: int)
    ensures (a * b) * (c * d) == (a * c) * (b * d)
  {
  }

  /** The simulated camera SDK. */
  class MockAtmcd {
    var initialized: bool
    const xpixels: int
    const ypixels: int
    const pixelWidth: real
    const pixelHeight: real
    const serialNumber: int
    var temperature: real
    var targetTemperature: int
    var coolerOn: bool
    var exposureTime: real
    var readMode: int
    var acquisitionMode: int
    var hbin: int
    var vbin: int
    var acquiring: bool

    /** A fresh SDK at room temperature, cooler off, FVB single scan, no binning. */
    constructor (xpixels: int, ypixels: int)
      ensures this.xpixels == xpixels && this.ypixels == ypixels
      ensures pixelWidth == 26.0 && pixelHeight == 26.0 && serialNumber == 12345
      ensures !initialized && temperature == 20.0 && targetTemperature == -60 && !coolerOn
      ensures exposureTime == 0.1 && readMode == READ_MODE_FVB && acquisitionMode == ACQUISITION_SINGLE_SCAN
      ensures hbin == 1 && vbin == 1 && !acquiring
    {
      this.xpixels, this.ypixels := xpixels, ypixels;
      pixelWidth, pixelHeight, serialNumber := 26.0, 26.0, 12345;
      initialized, temperature, targetTemperature, coolerOn := false, 20.0, -60, false;
      exposureTime, readMode, acquisitionMode := 0.1, READ_MODE_FVB, ACQUISITION_SINGLE_SCAN;
      hbin, vbin, acquiring := 1, 1, false;
    }

    method Initialize() returns (code: int)
      modifies this`initialized
      ensures initialized && code == DRV_SUCCESS
    {
      initialized := true;
      code := DRV_SUCCESS;
    }

    method ShutDown() returns (code: int)
      modifies this`initialized
      ensures !initialized && code == DRV_SUCCESS
    {
      initialized := false;
      code := DRV_SUCCESS;
    }

    function GetDetector(): (int, int, int)
    {
      (DRV_SUCCESS, xpixels, ypixels)
    }

    /**
     * A temperature reading `elapsed` seconds after the previous one: the
     * temperature drifts as `TemperatureStep` says and the code reports the
     * cooler state.
     */
    method GetTemperature(elapsed: real) returns (code: int, t: real)
      modifies this`temperature
      ensures temperature == TemperatureStep(old(temperature), targetTemperature, coolerOn, elapsed)
      ensures t == temperature && code == TemperatureCode(t, targetTemperature, coolerOn)
    {
      temperature := TemperatureStep(temperature, targetTemperature, coolerOn, elapsed);
      t := temperature;
      code := TemperatureCode(t, targetTemperature, coolerOn);
    }

    method SetTemperature(target: int) returns (code: int)
      modifies this`targetTemperature
      ensures targetTemperature == target && code == DRV_SUCCESS
    {
      targetTemperature := target;
      code := DRV_SUCCESS;
    }

    method CoolerOn() returns (code: int)
      modifies this`coolerOn
      ensures coolerOn && code == DRV_SUCCESS
    {
      coolerOn := true;
      code := DRV_SUCCESS;
    }

    method CoolerOff() returns (code: int)
      modifies this`coolerOn
      ensures !coolerOn && code == DRV_SUCCESS
    {
      coolerOn := false;
      code := DRV_SUCCESS;
    }

    method SetExposureTime(e: real) returns (code: int)
      modifies this`exposureTime
      ensures exposureTime == e && code == DRV_SUCCESS
    {
      exposureTime := e;
      code := DRV_SUCCESS;
    }

    method SetAcquisitionMode(mode: int) returns (code: int)
      modifies this`acquisitionMode
      ensures acquisitionMode == mode && code == DRV_SUCCESS
    {
      acquisitionMode := mode;
      code := DRV_SUCCESS;
    }

    method SetReadMode(mode: int) returns (code: int)
      modifies this`readMode
      ensures readMode == mode && code == DRV_SUCCESS
    {
      readMode := mode;
      code := DRV_SUCCESS;
    }

    /** Only the binning of the image window is recorded. */
    method SetImage(hbin: int, vbin: int) returns (code: int)
      modifies this`hbin, this`vbin
      ensures this.hbin == hbin && this.vbin == vbin && code == DRV_SUCCESS
    {
      this.hbin, this.vbin := hbin, vbin;
      code := DRV_SUCCESS;
    }

    method StartAcquisition() returns (code: int)
      modifies this`acquiring
      ensures acquiring && code == DRV_SUCCESS
    {
      acquiring := true;
      code := DRV_SUCCESS;
    }

    method AbortAcquisition() returns (code: int)
      modifies this`acquiring
      ensures !acquiring && code == DRV_SUCCESS
    {
      acquiring := false;
      code := DRV_SUCCESS;
    }

    /** The exposure itself is a sleep and is not modelled; afterwards the camera is idle. */
    method WaitForAcquisition() returns (code: int)
      modifies this`acquiring
      ensures !acquiring && code == DRV_SUCCESS
    {
      acquiring := false;
      code := DRV_SUCCESS;
    }

    /**
     * How many values `GetImages16` returns: the full detector width in FVB
     * mode whatever binning was requested, the binned image otherwise.
     */
    function GetImages16(): (r: Result<(int, nat)>)
      reads this`readMode, this`hbin, this`vbin
      ensures r.Ok? ==> r.value.0 == DRV_SUCCESS
      ensures r.Ok? <==> ReadoutSize(xpixels, ypixels, readMode, hbin, vbin).Ok?
      ensures r.Ok? ==> r.value.1 == ReadoutSize(xpixels, ypixels, readMode, hbin, vbin).value
      ensures readMode == READ_MODE_FVB && xpixels >= 0 ==> r == Ok((DRV_SUCCESS, xpixels))
    {
      match ReadoutSize(xpixels, ypixels, readMode, hbin, vbin)
      case Err(e) => Err(e)
      case Ok(n) => Ok((DRV_SUCCESS, n))
    }
  }
}
