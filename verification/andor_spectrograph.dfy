// The spectrograph instrument wrapper: a guarded state machine over the SDK
// object. Every operation but the getters is refused before `initialize`;
// the getters then answer 0, 0.0 and (0.0, 0.0). The grating index is
// checked against the recorded grating count and the wavelength against the
// current grating's limits before the SDK is asked; an SDK error code
// becomes RuntimeError. The SDK is the simulated one; `initialize` is handed
// the object the SDK constructor returns. Locks, logging and the settle
// delay after a wavelength move are not modelled.
module Spectrograph {
  import opened Wrappers
  import opened MockSdk

  datatype GratingInfo = GratingInfo(index: int, linesPerMm: real, blaze: string, wavelengthMin: real, wavelengthMax: real)

  datatype SpectrographInfo = SpectrographInfo(
    serialNumber: string,
    numGratings: int,
    gratings: seq<GratingInfo>,
    hasShutter: bool,
    hasFilter: bool)

  /**
   * The grating list `initialize` records after querying gratings 1..n:
   * an entry for each grating whose info query succeeds, with limits 0
   * when the limits query fails.
   */
  function GratingList(s: MockATSpectrograph, n: int): (r: seq<GratingInfo>)
    decreases n
  {
    if n <= 0 then []
    else
      var info := s.GetGratingInfo(n);
      var limits := s.GetWavelengthLimits(n);
      if info.0 != ATSPECTROGRAPH_SUCCESS then GratingList(s, n - 1)
      else
        var lo := if limits.0 == ATSPECTROGRAPH_SUCCESS then limits.1 else 0.0;
        var hi := if limits.0 == ATSPECTROGRAPH_SUCCESS then limits.2 else 0.0;
        GratingList(s, n - 1) + [GratingInfo(n, info.1, info.2, lo, hi)]
  }

  /**
   * The recorded list is the SDK's grating table, in index order, for the
   * indices it holds: exactly the gratings whose query succeeds, each with
   * the table's own limits.
   */
  lemma {:induction false} GratingListIsTable(s: MockATSpectrograph, n: int)
    ensures |GratingList(s, n)| == (if n <= 0 then 0 else if n <= |s.gratings| then n else |s.gratings|)
    ensures forall k :: 0 <= k < |GratingList(s, n)| ==>
      GratingList(s, n)[k] == GratingInfo(k + 1, s.gratings[k].lines, s.gratings[k].blaze, s.gratings[k].wlMin, s.gratings[k].wlMax)
    decreases n
  {
    if n > 0 {
      GratingListIsTable(s, n - 1);
    }
  }

  class AndorSpectrograph {
    const deviceIndex: int
    var sdk: MockATSpectrograph?
    var initialized: bool
    var info: Option<SpectrographInfo>
    var calibrationPixels: int
    var calibrationPixelWidth: real

    ghost predicate Valid()
      reads this`initialized, this`sdk, sdk
    {
      initialized ==> sdk != null && sdk.Valid()
    }

    /** The SDK object, as a frame. */
    ghost function Sdk(): set<MockATSpectrograph>
      reads this`sdk
    {
      if sdk == null then {} else {sdk}
    }

    constructor (deviceIndex: int)
      ensures Valid()
      ensures this.deviceIndex == deviceIndex && sdk == null && !initialized && info == None
      ensures calibrationPixels == 0 && calibrationPixelWidth == 0.0
    {
      this.deviceIndex := deviceIndex;
      sdk, initialized, info := null, false, None;
      calibrationPixels, calibrationPixelWidth := 0, 0.0;
    }

    /** The current grating (1-based), 0 before `initialize`. */
    function Grating(): (g: int)
      requires Valid()
      reads this`initialized, this`sdk, sdk
      ensures !initialized ==> g == 0
      ensures initialized ==> g == sdk.currentGrating && g >= 1
    {
      if initialized then sdk.GetGrating().1 else 0
    }

    /** The current centre wavelength, 0.0 before `initialize`. */
    function Wavelength(): (w: real)
      requires Valid()
      reads this`initialized, this`sdk, sdk
      ensures !initialized ==> w == 0.0
      ensures initialized ==> w == sdk.currentWavelength
    {
      if initialized then sdk.GetWavelength().1 else 0.0
    }

    /**
     * The wavelength range of `grating` (the current one when None):
     * (0.0, 0.0) before `initialize` and whenever the SDK query fails.
     */
    function GetWavelengthLimits(grating: Option<int>): (r: (real, real))
      requires Valid()
      reads this`initialized, this`sdk, sdk
      ensures !initialized ==> r == (0.0, 0.0)
      ensures initialized ==> var g := GetOr(grating, sdk.currentGrating);
        (1 <= g <= |sdk.gratings| ==> r == (sdk.gratings[g - 1].wlMin, sdk.gratings[g - 1].wlMax)) &&
        (!(1 <= g <= |sdk.gratings|) ==> r == (0.0, 0.0))
    {
      if !initialized then (0.0, 0.0)
      else
        var g := GetOr(grating, Grating());
        var limits := sdk.GetWavelengthLimits(g);
        if limits.0 == ATSPECTROGRAPH_SUCCESS then (limits.1, limits.2) else (0.0, 0.0)
    }

    /**
     * Selects a grating. Before `initialize` it raises RuntimeError; with a
     * recorded info an index outside 1..numGratings raises ValueError, both
     * before the SDK is asked. An SDK refusal raises RuntimeError.
     */
    method SetGrating(value: int) returns (err: Option<Error>)
      requires Valid()
      modifies Sdk()`currentGrating
      ensures Valid()
      ensures !initialized ==> err == Some(RuntimeError)
      ensures initialized && info.Some? && !(1 <= value <= info.value.numGratings) ==>
        err == Some(ValueError) && sdk.currentGrating == old(sdk.currentGrating)
      ensures initialized && (info.None? || 1 <= value <= info.value.numGratings) ==>
        (err.None? <==> 1 <= value <= sdk.numGratings) &&
        (err.None? ==> sdk.currentGrating == value) &&
        (err.Some? ==> err == Some(RuntimeError) && sdk.currentGrating == old(sdk.currentGrating))
    {
      if !initialized {
        return Some(RuntimeError);
      }
      if info.Some? && (value < 1 || value > info.value.numGratings) {
        return Some(ValueError);
      }
      var code := sdk.SetGrating(value);
      if code != ATSPECTROGRAPH_SUCCESS {
        return Some(RuntimeError);
      }
      return None;
    }

    /**
     * Moves to a centre wavelength. Before `initialize` it raises
     * RuntimeError; a value outside the current grating's limits raises
     * ValueError before the SDK is asked. When the current grating has no
     * table row the limits read (0.0, 0.0), and a move to 0.0 reaches the SDK,
     * which raises IndexError.
     */
    method SetWavelength(value: real) returns (err: Option<Error>)
      requires Valid()
      modifies Sdk()`currentWavelength
      ensures Valid()
      ensures !initialized ==> err == Some(RuntimeError)
      ensures initialized ==> var (lo, hi) := GetWavelengthLimits(None);
        (!(lo <= value <= hi) ==> err == Some(ValueError) && sdk.currentWavelength == old(sdk.currentWavelength)) &&
        (lo <= value <= hi && sdk.currentGrating <= |sdk.gratings| ==> err == None && sdk.currentWavelength == value) &&
        (lo <= value <= hi && sdk.currentGrating > |sdk.gratings| ==> err == Some(IndexError))
    {
      if !initialized {
        return Some(RuntimeError);
      }
      var (lo, hi) := GetWavelengthLimits(None);
      if value < lo || value > hi {
        return Some(ValueError);
      }
      var r := sdk.SetWavelength(value);
      match r
      case Err(e) => return Some(e);
      case Ok(code) =>
        if code != ATSPECTROGRAPH_SUCCESS {
          return Some(RuntimeError);
        }
        return None;
    }

    /**
     * Connects to the SDK object `s` once; a second call changes nothing.
     * The wrapper counts as initialised as soon as the SDK opens, so the
     * device checks that follow raise RuntimeError with the flag already set
     * and no info recorded.
     */
    method Initialize(s: MockATSpectrograph) returns (err: Option<Error>)
      requires Valid() && s.Valid()
      modifies this`sdk, this`initialized, this`info, s`initialized
      ensures Valid()
      ensures old(initialized) ==> err == None && sdk == old(sdk) && initialized && info == old(info)
      ensures !old(initialized) ==> sdk == s && initialized && s.initialized
      ensures !old(initialized) ==> (err == Some(RuntimeError) <==> s.numDevices == 0 || deviceIndex >= s.numDevices)
      ensures !old(initialized) ==> (err.None? <==> !(s.numDevices == 0 || deviceIndex >= s.numDevices))
      ensures !old(initialized) && err.Some? ==> info == old(info)
      ensures !old(initialized) && err.None? ==>
        info == Some(SpectrographInfo(s.serialNumber, s.numGratings, GratingList(s, s.numGratings), true, false))
    {
      if initialized {
        return None;
      }
      sdk := s;
      var code := s.Initialize();
      if code != ATSPECTROGRAPH_SUCCESS {
        return Some(RuntimeError);
      }
      initialized := true;
      var (_, numDevices) := s.GetNumberDevices();
      if numDevices == 0 {
        return Some(RuntimeError);
      }
      if deviceIndex >= numDevices {
        return Some(RuntimeError);
      }
      var (_, serial) := s.GetSerialNumber();
      var (hasGrating, hasShutter, hasFilter) := s.Features();
      var gratings: seq<GratingInfo> := [];
      var numGratings := 0;
      if hasGrating {
        var (_, n) := s.GetNumberGratings();
        numGratings := n;
        var i := 1;
        while i <= numGratings
          invariant if numGratings >= 1 then 1 <= i <= numGratings + 1 else i == 1
          invariant gratings == GratingList(s, i - 1)
        {
          gratings := AppendGrating(s, gratings, i);
          i := i + 1;
        }
        assert numGratings < 1 ==> GratingList(s, numGratings) == [];
      }
      info := Some(SpectrographInfo(serial, numGratings, gratings, hasShutter, hasFilter));
      return None;
    }

    /**
     * Asks the SDK for a calibration of `numPixels` pixels of `pixelWidth`
     * µm: it raises RuntimeError before `initialize`, lets an SDK exception
     * through, and records the pixel count and width once all three SDK
     * calls succeed.  The debug log line after that reads the first and last
     * wavelength, so an empty calibration raises IndexError with the
     * settings already recorded.
     */
    method GetCalibration(numPixels: int, pixelWidth: real) returns (r: Result<seq<real>>)
      requires Valid()
      modifies Sdk()`numPixels, Sdk()`pixelWidth, this`calibrationPixels, this`calibrationPixelWidth
      ensures Valid()
      ensures !initialized ==> r == Err(RuntimeError)
      ensures initialized ==> sdk.numPixels == numPixels && sdk.pixelWidth == pixelWidth
      ensures initialized ==>
        (r.Ok? <==> sdk.GetCalibration(numPixels).Ok? && |sdk.GetCalibration(numPixels).value.1| > 0)
      ensures initialized && sdk.GetCalibration(numPixels).Err? ==> r == Err(sdk.GetCalibration(numPixels).error)
      ensures initialized && sdk.GetCalibration(numPixels).Ok? && |sdk.GetCalibration(numPixels).value.1| == 0
        ==> r == Err(IndexError)
      ensures r.Ok? ==> r.value == sdk.GetCalibration(numPixels).value.1 && |r.value| == numPixels && |r.value| > 0
      ensures initialized && sdk.GetCalibration(numPixels).Ok? ==>
        calibrationPixels == numPixels && calibrationPixelWidth == pixelWidth
      ensures !(initialized && sdk.GetCalibration(numPixels).Ok?) ==>
        calibrationPixels == old(calibrationPixels) && calibrationPixelWidth == old(calibrationPixelWidth)
    {
      if !initialized {
        return Err(RuntimeError);
      }
      var code := sdk.SetNumberPixels(numPixels);
      if code != ATSPECTROGRAPH_SUCCESS {
        return Err(RuntimeError);
      }
      code := sdk.SetPixelWidth(pixelWidth);
      if code != ATSPECTROGRAPH_SUCCESS {
        return Err(RuntimeError);
      }
      var c := sdk.GetCalibration(numPixels);
      if c.Err? {
        return Err(c.error);
      }
      if c.value.0 != ATSPECTROGRAPH_SUCCESS {
        return Err(RuntimeError);
      }
      calibrationPixels, calibrationPixelWidth := numPixels, pixelWidth;
      if |c.value.1| == 0 {
        return Err(IndexError);
      }
      return Ok(c.value.1);
    }

    /** Closes the SDK; the wrapper ends uninitialised. A no-op when it is not initialised. */
    method Shutdown()
      requires Valid()
      modifies this`initialized, Sdk()`initialized
      ensures Valid()
      ensures !initialized
      ensures old(initialized) ==> !sdk.initialized
    {
      if !initialized {
        return;
      }
      var code := sdk.Close();
      initialized := false;
    }
  }

  /** One iteration of the grating query loop: grating `i` is added when its info query succeeds. */
  function AppendGrating(s: MockATSpectrograph, gratings: seq<GratingInfo>, i: int): (r: seq<GratingInfo>)
    requires i >= 1 && gratings == GratingList(s, i - 1)
    ensures r == GratingList(s, i)
  {
    var info := s.GetGratingInfo(i);
    if info.0 != ATSPECTROGRAPH_SUCCESS then gratings
    else
      var limits := s.GetWavelengthLimits(i);
      gratings + [GratingInfo(i, info.1, info.2,
        if limits.0 == ATSPECTROGRAPH_SUCCESS then limits.1 else 0.0,
        if limits.0 == ATSPECTROGRAPH_SUCCESS then limits.2 else 0.0)]
  }

  /**
   * On the default simulated spectrograph: grating 3 is refused with
   * ValueError before the SDK is asked, grating 2 is selected, and 900 nm is
   * then refused as outside grating 2's 300-800 nm.
   */
  method SelectGratingThenWavelength() returns (e3: Option<Error>, e2: Option<Error>, ew: Option<Error>)
    ensures e3 == Some(ValueError) && e2 == None && ew == Some(ValueError)
  {
    var sdk := new MockATSpectrograph(1, 2, DefaultGratings());
    var spec := new AndorSpectrograph(0);
    var err := spec.Initialize(sdk);
    GratingListIsTable(sdk, 2);
    e3 := spec.SetGrating(3);
    e2 := spec.SetGrating(2);
    ew := spec.SetWavelength(900.0);
  }
}
