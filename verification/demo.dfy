// The stand-alone demonstration: a simulated thermostat that the hardware
// panel's timer steps once per update, and a procedure that fakes an
// accumulated spectrum. The noisy spectra a run would generate are handed
// in, as is the acquisition at which a stop request is first seen.
module Demo {
  import opened Wrappers
  import opened Spectra
  import opened Acquisition

  /** Room temperature, where warming stops. */
  const Room := 20.0

  function Max(a: real, b: real): (m: real)
    ensures m >= a && m >= b && (m == a || m == b)
  {
    if a >= b then a else b
  }

  function Min(a: real, b: real): (m: real)
    ensures m <= a && m <= b && (m == a || m == b)
  {
    if a <= b then a else b
  }

  /** One update with the cooler on: 2 °C down, but never below the target. */
  function CoolStep(t: real, target: int): (r: real)
    ensures r <= t
    ensures t > target as real ==> r >= target as real && (r == target as real || r == t - 2.0)
    ensures t <= target as real ==> r == t
  {
    if t > target as real then Max(t - 2.0, target as real) else t
  }

  /** One update with the cooler off: 1 °C up, but never above room temperature. */
  function WarmStep(t: real): (r: real)
    ensures r >= t
    ensures t < Room ==> r <= Room && (r == Room || r == t + 1.0)
    ensures t >= Room ==> r == t
  {
    if t < Room then Min(t + 1.0, Room) else t
  }

  /** The temperature after `n` updates with the cooler on. */
  function CooledAfter(t: real, target: int, n: nat): real
  {
    if n == 0 then t else CoolStep(CooledAfter(t, target, n - 1), target)
  }

  /** Above the target, k updates take exactly 2k °C off until the target is reached. */
  lemma {:induction false} CooledAfterFormula(t: real, target: int, k: nat)
    requires t > target as real
    ensures t - 2.0 * (k as real) > target as real ==> CooledAfter(t, target, k) == t - 2.0 * (k as real)
    ensures t - 2.0 * (k as real) <= target as real ==> CooledAfter(t, target, k) == target as real
  {
    if k > 0 {
      CooledAfterFormula(t, target, k - 1);
    }
  }

  /**
   * From a temperature above the target, the cooler reaches the target after
   * exactly ⌈(t − target)/2⌉ updates, and not before.
   */
  lemma {:induction false} CoolingReachesTarget(t: real, target: int)
    requires t > target as real
    ensures var n := Ceil((t - target as real) / 2.0);
      n >= 1 && CooledAfter(t, target, n) == target as real &&
      forall k: nat :: k < n ==> CooledAfter(t, target, k) > target as real
  {
    var n := Ceil((t - target as real) / 2.0);
    CooledAfterFormula(t, target, n);
    forall k: nat | k < n
      ensures CooledAfter(t, target, k) > target as real
    {
      CooledAfterFormula(t, target, k);
    }
  }

  class SimulatedHardware {
    var coolerOn: bool
    var targetTemperature: int
    var currentTemperature: real
    var temperatureStatus: string

    /** Cooler off, aiming at -70 °C, at room temperature. */
    constructor ()
      ensures !coolerOn && targetTemperature == -70 && currentTemperature == 20.0 && temperatureStatus == "OFF"
    {
      coolerOn, targetTemperature, currentTemperature, temperatureStatus := false, -70, 20.0, "OFF";
    }

    /** The cooler check box: switches the cooler and takes the target from the spin box. */
    method SetCooler(on: bool, target: int)
      modifies this`coolerOn, this`targetTemperature
      ensures coolerOn == on && targetTemperature == target
    {
      coolerOn, targetTemperature := on, target;
    }

    method SetTarget(target: int)
      modifies this`targetTemperature
      ensures targetTemperature == target
    {
      targetTemperature := target;
    }

    /**
     * One thermostat update. Cooling never raises the temperature and never
     * crosses the target; warming never lowers it and never passes room
     * temperature.
     */
    method UpdateTemperature()
      modifies this`currentTemperature, this`temperatureStatus
      ensures coolerOn ==> currentTemperature == CoolStep(old(currentTemperature), targetTemperature)
      ensures !coolerOn ==> currentTemperature == WarmStep(old(currentTemperature))
      ensures coolerOn && old(currentTemperature) > targetTemperature as real ==> temperatureStatus == "COOLING"
      ensures coolerOn && old(currentTemperature) <= targetTemperature as real ==>
        (temperatureStatus == "STABILIZED" <==> targetTemperature as real - old(currentTemperature) < 1.0) &&
        (temperatureStatus == "AT_TARGET" <==> targetTemperature as real - old(currentTemperature) >= 1.0)
      ensures !coolerOn && old(currentTemperature) < Room ==> temperatureStatus == "WARMING"
      ensures !coolerOn && old(currentTemperature) >= Room ==> temperatureStatus == "OFF"
    {
      if coolerOn {
        if currentTemperature > targetTemperature as real {
          currentTemperature := currentTemperature - 2.0;
          currentTemperature := Max(currentTemperature, targetTemperature as real);
          temperatureStatus := "COOLING";
        } else if Abs(currentTemperature - targetTemperature as real) < 1.0 {
          temperatureStatus := "STABILIZED";
        } else {
          temperatureStatus := "AT_TARGET";
        }
      } else {
        if currentTemperature < Room {
          currentTemperature := currentTemperature + 1.0;
          currentTemperature := Min(currentTemperature, Room);
          temperatureStatus := "WARMING";
        } else {
          temperatureStatus := "OFF";
        }
      }
    }
  }

  function Abs(x: real): (a: real)
    ensures a >= 0.0 && (a == x || a == -x)
  {
    if x < 0.0 then -x else x
  }

  /** `sub in s` for strings. */
  predicate Contains(s: string, sub: string)
    decreases |s|
  {
    (|sub| <= |s| && s[..|sub|] == sub) || (|s| > 0 && Contains(s[1..], sub))
  }

  /** The demo procedure's parameters. */
  datatype DemoParams = DemoParams(
    exposureTime: real,
    acquisitionMode: string,
    numAccumulations: int,
    readMode: string,
    hbin: int,
    vbin: int,
    grating: int,
    centerWavelength: real,
    noiseLevel: real)

  /** The simulated detector width. */
  const DetectorPixels := 1024

  /** The number of simulated pixels at binning `hbin`. */
  function NumPixels(hbin: int): (n: nat)
    requires 1 <= hbin <= 16
    ensures n * hbin <= DetectorPixels < (n + 1) * hbin
    ensures n >= 64
  {
    DetectorPixels / hbin
  }

  /** The vertical binning the demo works with: 1 in an FVB read mode, the parameter otherwise. */
  function EffectiveVbin(readMode: string, vbin: int): (v: int)
    ensures Contains(readMode, "FVB") ==> v == 1
    ensures !Contains(readMode, "FVB") ==> v == vbin
  {
    if Contains(readMode, "FVB") then 1 else vbin
  }

  /** A string without an 'F' does not contain "FVB". */
  lemma {:induction false} NoFNoFvb(s: string)
    requires forall i :: 0 <= i < |s| ==> s[i] != 'F'
    ensures !Contains(s, "FVB")
    decreases |s|
  {
    if |s| > 0 {
      NoFNoFvb(s[1..]);
    }
    if |s| >= 3 {
      assert s[..3][0] == s[0];
    }
  }

  lemma {:induction false} FvbChoiceForcesVbin(vbin: int)
    ensures EffectiveVbin("FVB (Spectrum)", vbin) == 1
    ensures EffectiveVbin("Image (2D)", vbin) == vbin
  {
    assert "FVB (Spectrum)"[..3] == "FVB";
    NoFNoFvb("Image (2D)");
  }

  /** How many acquisitions a run makes: the accumulations in "Accumulate" mode, one otherwise. */
  function TotalAcquisitions(p: DemoParams): (n: int)
    ensures p.acquisitionMode == "Accumulate" ==> n == p.numAccumulations
    ensures p.acquisitionMode != "Accumulate" ==> n == 1
  {
    if p.acquisitionMode == "Accumulate" then p.numAccumulations else 1
  }

  /** The simulated wavelength axis: `NumPixels` points spanning 100/grating nm around the centre. */
  function Wavelengths(p: DemoParams): (w: seq<real>)
    requires 1 <= p.hbin <= 16 && p.grating >= 1
    ensures |w| == NumPixels(p.hbin)
    ensures w[0] == p.centerWavelength - 50.0 / (p.grating as real)
    ensures w[|w| - 1] == p.centerWavelength + 50.0 / (p.grating as real)
  {
    var dispersion := 100.0 / (p.grating as real);
    Linspace(p.centerWavelength - dispersion / 2.0, p.centerWavelength + dispersion / 2.0, NumPixels(p.hbin))
  }

  /** One results row per pixel: the wavelength and the intensity clamped at zero. */
  function ResultEmits(wl: seq<real>, intensity: seq<real>): (r: seq<Emit>)
    requires |wl| == |intensity|
    ensures |r| == |wl|
    ensures forall i :: 0 <= i < |r| ==> r[i].Results? && |r[i].row| == 2 && r[i].row[0] == wl[i]
    ensures forall i :: 0 <= i < |r| ==> r[i].row[1] >= 0.0 && r[i].row[1] >= intensity[i]
    ensures forall i :: 0 <= i < |r| ==> intensity[i] >= 0.0 ==> r[i].row[1] == intensity[i]
  {
    seq(|wl|, i requires 0 <= i < |wl| => Results([wl[i], Max(0.0, intensity[i])]))
  }

  /**
   * A run of the demo procedure. `shots[k]` is the noisy spectrum of
   * acquisition k; `stopAt` is the acquisition during which a stop request
   * is first seen. A run emits one progress value per finished
   * acquisition and, if it is not stopped, one clamped row per pixel of the
   * averaged spectrum.
   */
  method Execute(p: DemoParams, shots: seq<seq<real>>, stopAt: Option<nat>) returns (emits: seq<Emit>, completed: bool)
    requires 1 <= p.hbin <= 16 && p.grating >= 1 && p.numAccumulations >= 1
    requires |shots| >= TotalAcquisitions(p)
    requires forall k :: 0 <= k < |shots| ==> |shots[k]| == NumPixels(p.hbin)
    ensures completed <==> stopAt.None? || stopAt.value >= TotalAcquisitions(p)
    ensures !completed ==> emits == Ramp(TotalAcquisitions(p))[..stopAt.value]
    ensures completed ==>
      AllBroadcastable(NumPixels(p.hbin), shots[..TotalAcquisitions(p)]) &&
      emits == Ramp(TotalAcquisitions(p)) +
               ResultEmits(Wavelengths(p), Mean(shots[..TotalAcquisitions(p)], NumPixels(p.hbin)))
  {
    var total := TotalAcquisitions(p);
    var n := NumPixels(p.hbin);
    var accumulated, stopped;
    accumulated, emits, stopped := AccumulateShots(total, n, shots, stopAt);
    if stopped {
      return emits, false;
    }
    var final := Scale(accumulated, total);
    emits := emits + ResultEmits(Wavelengths(p), final);
    completed := true;
  }

  /**
   * The acquisition loop of a demo run: before acquisition k a stop seen at
   * k ends the run; otherwise shot k is added into the running sums and the
   * progress 100·(k+1)/total is emitted.
   */
  method AccumulateShots(total: nat, n: nat, shots: seq<seq<real>>, stopAt: Option<nat>)
    returns (accumulated: seq<real>, emits: seq<Emit>, stopped: bool)
    requires |shots| >= total
    requires forall k :: 0 <= k < |shots| ==> |shots[k]| == n
    ensures stopped <==> stopAt.Some? && stopAt.value < total
    ensures stopped ==> emits == Ramp(total)[..stopAt.value]
    ensures !stopped ==>
      emits == Ramp(total) && AllBroadcastable(n, shots[..total]) && accumulated == Sums(shots[..total], n)
  {
    accumulated := Zeros(n);
    emits := [];
    var k := 0;
    assert Sums([], n) == accumulated;
    while k < total
      invariant 0 <= k <= total
      invariant stopAt.Some? ==> k <= stopAt.value
      invariant AllBroadcastable(n, shots[..k])
      invariant accumulated == Sums(shots[..k], n)
      invariant emits == Ramp(total)[..k]
    {
      if stopAt.Some? && stopAt.value == k {
        return accumulated, emits, true;
      }
      AddIntoSums(shots[..k], n, shots[k]);
      assert shots[..k] + [shots[k]] == shots[..k + 1];
      accumulated := AddInto(accumulated, shots[k]).value;
      RampStep(total, k);
      emits := emits + [Progress(Percent(k + 1, total))];
      k := k + 1;
    }
    assert shots[..k] == shots[..total];
    assert Ramp(total)[..total] == Ramp(total);
    stopped := false;
  }

  /** A run that is not stopped ends with 100 % progress and reports every pixel, none negative. */
  lemma {:induction false} CompletedRunReportsEveryPixel(p: DemoParams, shots: seq<seq<real>>)
    requires 1 <= p.hbin <= 16 && p.grating >= 1 && p.numAccumulations >= 1
    requires |shots| >= TotalAcquisitions(p)
    requires forall k :: 0 <= k < |shots| ==> |shots[k]| == NumPixels(p.hbin)
    ensures AllBroadcastable(NumPixels(p.hbin), shots[..TotalAcquisitions(p)])
    ensures var total := TotalAcquisitions(p);
      var emits := Ramp(total) + ResultEmits(Wavelengths(p), Mean(shots[..total], NumPixels(p.hbin)));
      emits[total - 1] == Progress(100.0) &&
      |emits| == total + NumPixels(p.hbin) &&
      forall i :: total <= i < |emits| ==> emits[i].Results? && emits[i].row[1] >= 0.0
  {
    RampClimbsTo100(TotalAcquisitions(p));
  }
}
