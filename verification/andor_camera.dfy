// The camera instrument wrapper: a guarded state machine over the SDK
// object. Acquisition, exposure and cooler control are refused before
// `initialize`; the getters then answer 0 pixels, 20.0 °C and
// "NOT_INITIALIZED". Binning factors must divide the detector. The SDK is
// the simulated one; `initialize` is handed the object the SDK constructor
// returns. `SetFVBHBin`, which the simulated SDK does not provide, enters as
// its reply: None when the SDK has no such call. Time enters as the seconds
// since the previous temperature reading; warm-up polls are 5 s apart.
module Camera {
  import opened Wrappers
  import opened MockSdk

  datatype CameraInfo = CameraInfo(
    serialNumber: string,
    model: string,
    xpixels: int,
    ypixels: int,
    pixelWidth: real,
    pixelHeight: real,
    emGainRange: (int, int))

  /** What an FVB acquisition asked the SDK for, and how many values came back. */
  datatype FvbReadout = FvbReadout(requested: int, values: nat)

  /** The shape of an acquired image: `rows` × `cols` values. */
  datatype ImageReadout = ImageReadout(rows: nat, cols: nat)

  /** The status string of a temperature code; codes outside the five known ones read "UNKNOWN". */
  function StatusName(code: int): (s: string)
    ensures s == "STABILIZED" <==> code == DRV_TEMPERATURE_STABILIZED
    ensures s == "NOT_REACHED" <==> code == DRV_TEMPERATURE_NOT_REACHED
    ensures s == "DRIFTING" <==> code == DRV_TEMPERATURE_DRIFT
    ensures s == "NOT_STABILIZED" <==> code == DRV_TEMPERATURE_NOT_STABILIZED
    ensures s == "OFF" <==> code == DRV_TEMPERATURE_OFF
    ensures s == "UNKNOWN" <==> !(DRV_TEMPERATURE_OFF <= code <= DRV_TEMPERATURE_DRIFT)
  {
    if code == DRV_TEMPERATURE_STABILIZED then "STABILIZED"
    else if code == DRV_TEMPERATURE_NOT_REACHED then "NOT_REACHED"
    else if code == DRV_TEMPERATURE_DRIFT then "DRIFTING"
    else if code == DRV_TEMPERATURE_NOT_STABILIZED then "NOT_STABILIZED"
    else if code == DRV_TEMPERATURE_OFF then "OFF"
    else "UNKNOWN"
  }

  /** The simulated SDK only ever reports off, stabilised or not reached. */
  lemma {:induction false} SimulatedStatuses(t: real, target: int, coolerOn: bool)
    ensures StatusName(TemperatureCode(t, target, coolerOn)) in {"OFF", "STABILIZED", "NOT_REACHED"}
    ensures StatusName(TemperatureCode(t, target, coolerOn)) == "OFF" <==> !coolerOn
  {
  }

  /** The number of warm-up polls that start before `timeout` seconds have passed, polls being 5 s apart. */
  function Polls(timeout: real): (n: nat)
    ensures 5.0 * (n as real) >= timeout
    ensures n > 0 ==> 5.0 * ((n - 1) as real) < timeout
  {
    if timeout <= 0.0 then 0 else Ceil(timeout / 5.0)
  }

  class AndorCamera {
    var sdk: MockAtmcd?
    var initialized: bool
    var info: Option<CameraInfo>
    var coolerOn: bool

    /** Once initialised there is an SDK and a recorded detector matching it. */
    ghost predicate Valid()
      reads this`initialized, this`sdk, this`info
    {
      initialized ==> sdk != null && info.Some? && info.value.xpixels == sdk.xpixels && info.value.ypixels == sdk.ypixels
    }

    /** The SDK object, as a frame. */
    ghost function Sdk(): set<MockAtmcd>
      reads this`sdk
    {
      if sdk == null then {} else {sdk}
    }

    constructor ()
      ensures Valid()
      ensures sdk == null && !initialized && info == None && !coolerOn
    {
      sdk, initialized, info, coolerOn := null, false, None, false;
    }

    /** The detector width, 0 while no info is recorded. */
    function XPixels(): (n: int)
      reads this`info
      ensures info.None? ==> n == 0
      ensures info.Some? ==> n == info.value.xpixels
    {
      if info.Some? then info.value.xpixels else 0
    }

    /** The detector height, 0 while no info is recorded. */
    function YPixels(): (n: int)
      reads this`info
      ensures info.None? ==> n == 0
      ensures info.Some? ==> n == info.value.ypixels
    {
      if info.Some? then info.value.ypixels else 0
    }

    /** A temperature reading `elapsed` seconds after the previous one; 20.0 before `initialize`. */
    method Temperature(elapsed: real) returns (t: real)
      requires Valid()
      modifies Sdk()`temperature
      ensures !initialized ==> t == 20.0
      ensures initialized ==>
        sdk.temperature == TemperatureStep(old(sdk.temperature), sdk.targetTemperature, sdk.coolerOn, elapsed) &&
        t == sdk.temperature
    {
      if !initialized {
        return 20.0;
      }
      var code;
      code, t := sdk.GetTemperature(elapsed);
    }

    /** The status of a reading taken `elapsed` seconds after the previous one; "NOT_INITIALIZED" before `initialize`. */
    method TemperatureStatus(elapsed: real) returns (s: string)
      requires Valid()
      modifies Sdk()`temperature
      ensures !initialized ==> s == "NOT_INITIALIZED"
      ensures initialized ==>
        sdk.temperature == TemperatureStep(old(sdk.temperature), sdk.targetTemperature, sdk.coolerOn, elapsed) &&
        s == StatusName(TemperatureCode(sdk.temperature, sdk.targetTemperature, sdk.coolerOn))
    {
      if !initialized {
        return "NOT_INITIALIZED";
      }
      var code, t := sdk.GetTemperature(elapsed);
      s := StatusName(code);
    }

    /**
     * Connects to the SDK object `s` once; a second call changes nothing.
     * Records the detector description and selects single-scan FVB.
     */
    method Initialize(s: MockAtmcd) returns (err: Option<Error>)
      requires Valid()
      modifies this`sdk, this`initialized, this`info, s`initialized, s`acquisitionMode, s`readMode
      ensures Valid()
      ensures old(initialized) ==> err == None && sdk == old(sdk) && info == old(info)
      ensures !old(initialized) ==> err == None && sdk == s && initialized && s.initialized
      ensures !old(initialized) ==>
        info == Some(CameraInfo(IntString(s.serialNumber), "Andor Camera", s.xpixels, s.ypixels, s.pixelWidth, s.pixelHeight, (0, 1000)))
      ensures !old(initialized) ==> s.acquisitionMode == ACQUISITION_SINGLE_SCAN && s.readMode == READ_MODE_FVB
    {
      if initialized {
        return None;
      }
      sdk := s;
      var code := s.Initialize();
      if code != DRV_SUCCESS {
        return Some(RuntimeError);
      }
      initialized := true;
      info := Some(CameraInfo(IntString(s.serialNumber), "Andor Camera", s.xpixels, s.ypixels, s.pixelWidth, s.pixelHeight, (0, 1000)));
      code := s.SetAcquisitionMode(ACQUISITION_SINGLE_SCAN);
      code := s.SetReadMode(READ_MODE_FVB);
      return None;
    }

    method SetExposure(exposure: real) returns (err: Option<Error>)
      requires Valid()
      modifies Sdk()`exposureTime
      ensures !initialized ==> err == Some(RuntimeError)
      ensures initialized ==> err == None && sdk.exposureTime == exposure
    {
      if !initialized {
        return Some(RuntimeError);
      }
      var code := sdk.SetExposureTime(exposure);
      return None;
    }

    /** Sets the target and switches the cooler on. */
    method CoolerOn(target: int) returns (err: Option<Error>)
      requires Valid()
      modifies this`coolerOn, Sdk()`targetTemperature, Sdk()`coolerOn
      ensures !initialized ==> err == Some(RuntimeError) && coolerOn == old(coolerOn)
      ensures initialized ==> err == None && coolerOn && sdk.coolerOn && sdk.targetTemperature == target
    {
      if !initialized {
        return Some(RuntimeError);
      }
      var code := sdk.SetTemperature(target);
      code := sdk.CoolerOn();
      coolerOn := true;
      return None;
    }

    method CoolerOff() returns (err: Option<Error>)
      requires Valid()
      modifies this`coolerOn, Sdk()`coolerOn
      ensures !initialized ==> err == Some(RuntimeError) && coolerOn == old(coolerOn)
      ensures initialized ==> err == None && !coolerOn && !sdk.coolerOn
    {
      if !initialized {
        return Some(RuntimeError);
      }
      var code := sdk.CoolerOff();
      coolerOn := false;
      return None;
    }

    /**
     * One full-vertical-binning spectrum at horizontal binning `hbin`, which
     * must be at least 1 and divide the detector width; the SDK is asked for
     * width/hbin values. `fvbHBin` is the reply of `SetFVBHBin` (None: the SDK
     * has no such call and the attribute lookup raises); a failing reply is
     * fatal only for hbin > 1.
     */
    method AcquireFvb(hbin: int, fvbHBin: Option<int>) returns (r: Result<FvbReadout>)
      requires Valid()
      modifies Sdk()`readMode, Sdk()`acquisitionMode, Sdk()`acquiring
      ensures !initialized ==> r == Err(RuntimeError)
      ensures initialized && hbin < 1 ==> r == Err(ValueError)
      ensures initialized && hbin >= 1 && XPixels() % hbin != 0 ==> r == Err(ValueError)
      ensures initialized && hbin >= 1 && XPixels() % hbin == 0 ==>
        sdk.readMode == READ_MODE_FVB && sdk.acquisitionMode == ACQUISITION_SINGLE_SCAN &&
        (fvbHBin.None? ==> r == Err(AttributeError)) &&
        (fvbHBin.Some? && fvbHBin.value != DRV_SUCCESS && hbin > 1 ==> r == Err(RuntimeError)) &&
        (fvbHBin.Some? && (fvbHBin.value == DRV_SUCCESS || hbin == 1) && XPixels() >= 0 ==>
          r == Ok(FvbReadout(XPixels() / hbin, XPixels())) && !sdk.acquiring)
    {
      if !initialized {
        return Err(RuntimeError);
      }
      var xpixels := info.value.xpixels;
      if hbin < 1 {
        return Err(ValueError);
      }
      if xpixels % hbin != 0 {
        return Err(ValueError);
      }
      var effPixels := xpixels / hbin;
      var code := sdk.SetReadMode(READ_MODE_FVB);
      code := sdk.SetAcquisitionMode(ACQUISITION_SINGLE_SCAN);
      if fvbHBin.None? {
        return Err(AttributeError);
      }
      if hbin > 1 && fvbHBin.value != DRV_SUCCESS {
        return Err(RuntimeError);
      }
      code := sdk.StartAcquisition();
      if code != DRV_SUCCESS {
        return Err(RuntimeError);
      }
      code := sdk.WaitForAcquisition();
      if code != DRV_SUCCESS {
        // the wrapper aborts before raising; the simulated wait never fails
        return Err(RuntimeError);
      }
      var data := sdk.GetImages16();
      if data.Err? {
        return Err(data.error);
      }
      if data.value.0 != DRV_SUCCESS {
        return Err(RuntimeError);
      }
      return Ok(FvbReadout(effPixels, data.value.1));
    }

    /**
     * One image at binning `hbin` × `vbin`, both of which must divide the
     * detector (Python remainders, so a zero factor raises
     * ZeroDivisionError). The result is (height/vbin) rows of (width/hbin)
     * values; a negative binned size cannot be reshaped and raises ValueError.
     */
    method AcquireImage(hbin: int, vbin: int) returns (r: Result<ImageReadout>)
      requires Valid()
      modifies Sdk()`readMode, Sdk()`acquisitionMode, Sdk()`acquiring, Sdk()`hbin, Sdk()`vbin
      ensures !initialized ==> r == Err(RuntimeError)
      ensures initialized && hbin == 0 ==> r == Err(ZeroDivisionError)
      ensures initialized && hbin != 0 && PyMod(XPixels(), hbin) != 0 ==> r == Err(ValueError)
      ensures initialized && hbin != 0 && PyMod(XPixels(), hbin) == 0 && vbin == 0 ==> r == Err(ZeroDivisionError)
      ensures initialized && hbin != 0 && vbin != 0 && PyMod(XPixels(), hbin) == 0 && PyMod(YPixels(), vbin) != 0 ==>
        r == Err(ValueError)
      ensures r.Ok? ==> r.value.cols * hbin == XPixels() && r.value.rows * vbin == YPixels()
      ensures r.Ok? ==> sdk.readMode == READ_MODE_IMAGE && sdk.hbin == hbin && sdk.vbin == vbin && !sdk.acquiring
      ensures (initialized && hbin > 0 && vbin > 0 && XPixels() >= 0 && YPixels() >= 0 &&
               XPixels() % hbin == 0 && YPixels() % vbin == 0) ==>
        r == Ok(ImageReadout(YPixels() / vbin, XPixels() / hbin))
    {
      if !initialized {
        return Err(RuntimeError);
      }
      var xpixels, ypixels := info.value.xpixels, info.value.ypixels;
      if hbin == 0 {
        return Err(ZeroDivisionError);
      }
      if PyMod(xpixels, hbin) != 0 {
        return Err(ValueError);
      }
      if vbin == 0 {
        return Err(ZeroDivisionError);
      }
      if PyMod(ypixels, vbin) != 0 {
        return Err(ValueError);
      }
      var effX, effY := PyDiv(xpixels, hbin), PyDiv(ypixels, vbin);
      var code := sdk.SetReadMode(READ_MODE_IMAGE);
      code := sdk.SetImage(hbin, vbin);
      code := sdk.SetAcquisitionMode(ACQUISITION_SINGLE_SCAN);
      code := sdk.StartAcquisition();
      if code != DRV_SUCCESS {
        return Err(RuntimeError);
      }
      code := sdk.WaitForAcquisition();
      if code != DRV_SUCCESS {
        // the wrapper aborts before raising; the simulated wait never fails
        return Err(RuntimeError);
      }
      var data := sdk.GetImages16();
      if data.Err? {
        return Err(data.error);
      }
      if data.value.0 != DRV_SUCCESS {
        return Err(RuntimeError);
      }
      if effX < 0 || effY < 0 {
        return Err(ValueError);
      }
      return Ok(ImageReadout(effY, effX));
    }

    /** Stops a running acquisition; a no-op before `initialize`. */
    method AbortAcquisition()
      requires Valid()
      modifies Sdk()`acquiring
      ensures initialized ==> !sdk.acquiring
    {
      if !initialized {
        return;
      }
      var code := sdk.AbortAcquisition();
    }

    /**
     * Switches the cooler off (when this wrapper switched it on) and polls
     * the temperature every 5 s until a reading reaches `target` or `timeout`
     * seconds have passed; `idle` is the time since the previous reading.
     * Warming at 2 °C/s, a target up to room temperature is always reached
     * when the polls cover the distance at 10 °C per poll.
     */
    method Warmup(target: real, timeout: real, idle: real) returns (ok: bool)
      requires Valid()
      modifies this`coolerOn, Sdk()`coolerOn, Sdk()`temperature
      ensures !initialized ==> ok
      ensures initialized && old(coolerOn) ==> !coolerOn && !sdk.coolerOn
      ensures initialized && ok ==> sdk.temperature >= target
      ensures initialized && !ok ==> sdk.temperature < target || Polls(timeout) == 0
      ensures (initialized && (old(coolerOn) || !old(sdk.coolerOn)) && idle >= 0.0 && target <= 20.0 &&
               Polls(timeout) >= 1 && target - old(sdk.temperature) <= 10.0 * ((Polls(timeout) - 1) as real)) ==> ok
    {
      if !initialized {
        return true;
      }
      if coolerOn {
        var e := CoolerOff();
      }
      ghost var t0 := sdk.temperature;
      ghost var warming := !sdk.coolerOn && idle >= 0.0;
      var k := 0;
      while 5.0 * (k as real) < timeout
        invariant Valid() && initialized
        invariant k <= Polls(timeout)
        invariant old(coolerOn) ==> !coolerOn && !sdk.coolerOn
        invariant warming ==> !sdk.coolerOn
        invariant warming && k >= 1 ==> sdk.temperature >= 20.0 || sdk.temperature >= t0 + 10.0 * ((k - 1) as real)
        invariant k >= 1 ==> sdk.temperature < target
        invariant k == 0 ==> sdk.temperature == t0
      {
        var t := Temperature(if k == 0 then idle else 5.0);
        if t >= target {
          return true;
        }
        k := k + 1;
      }
      return false;
    }

    /**
     * Warms the camera first when a reading (taken `idle` seconds after the
     * previous one) is below -20 °C, then shuts the SDK down; the wrapper ends
     * uninitialised. `gap` is the time between that reading and the first
     * warm-up poll. A no-op when it is not initialised.
     */
    method Shutdown(idle: real, gap: real)
      requires Valid()
      modifies this`initialized, this`coolerOn, Sdk()`coolerOn, Sdk()`temperature, Sdk()`initialized
      ensures !initialized
      ensures old(initialized) ==> !sdk.initialized
      ensures (old(initialized) && old(coolerOn) &&
               TemperatureStep(old(sdk.temperature), sdk.targetTemperature, old(sdk.coolerOn), idle) < -20.0) ==>
        !sdk.coolerOn && !coolerOn
      ensures (old(initialized) &&
               TemperatureStep(old(sdk.temperature), sdk.targetTemperature, old(sdk.coolerOn), idle) >= -20.0) ==>
        sdk.coolerOn == old(sdk.coolerOn) && coolerOn == old(coolerOn) &&
        sdk.temperature == TemperatureStep(old(sdk.temperature), sdk.targetTemperature, old(sdk.coolerOn), idle)
    {
      if !initialized {
        return;
      }
      var t := Temperature(idle);
      if t < -20.0 {
        var ok := Warmup(-20.0, 300.0, gap);
      }
      var code := sdk.ShutDown();
      initialized := false;
    }
  }
}
