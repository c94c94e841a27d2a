// Multi-axis motion control with the simulated controller. An axis keeps its
// position in millimetres, clamped to its limits on every move, and converts
// to optical delay in picoseconds as a round trip at the speed of light
// (0.299792458 mm/ps). A simulated move completes before it returns; the
// wall-clock wait it simulates is not modelled. The simulated controller
// builds its axes from a list of configurations (one "delay" axis when none
// is given), keyed by axis name in first-insertion order with a later axis of
// the same name replacing the earlier one.
module MotionController {
  import opened Wrappers

  const SpeedOfLightMmPs: real := 0.299792458

  /** Round-trip optical delay in ps of a mirror displacement in mm. */
  function MmToPs(mm: real): (ps: real)
    ensures (mm >= 0.0) == (ps >= 0.0)
  {
    (2.0 * mm) / SpeedOfLightMmPs
  }

  /** Mirror displacement in mm for a round-trip optical delay in ps. */
  function PsToMm(ps: real): (mm: real)
    ensures (ps >= 0.0) == (mm >= 0.0)
  {
    (ps * SpeedOfLightMmPs) / 2.0
  }

  /** The two conversions are inverse to each other. */
  lemma {:induction false} ConversionRoundTrip(x: real)
    ensures MmToPs(PsToMm(x)) == x
    ensures PsToMm(MmToPs(x)) == x
  {
    calc {
      MmToPs(PsToMm(x));
      (2.0 * ((x * SpeedOfLightMmPs) / 2.0)) / SpeedOfLightMmPs;
      x;
    }
  }

  /** Both conversions preserve order. */
  lemma {:induction false} ConversionMonotone(a: real, b: real)
    requires a <= b
    ensures MmToPs(a) <= MmToPs(b)
    ensures PsToMm(a) <= PsToMm(b)
  {
    assert 2.0 * a <= 2.0 * b;
    assert a * SpeedOfLightMmPs <= b * SpeedOfLightMmPs;
  }

  /** The name an axis gets: its given name, or "axis<index>" when that is empty. */
  function AxisName(index: int, name: string): (n: string)
    ensures name != "" ==> n == name
    ensures name == "" ==> StartsWith(n, "axis") && |n| > 4
  {
    if name != "" then name else "axis" + IntString(index)
  }

  /** A simulated axis: starts enabled, at rest at 0 mm. */
  class MockAxis {
    const index: int
    const name: string
    const positionMin: real
    const positionMax: real
    const velocity: real
    const units: string
    var enabled: bool
    var position: real
    var moving: bool
    var target: real

    constructor (index: int, name: string, positionMin: real, positionMax: real, velocity: real, units: string)
      ensures this.index == index && this.name == AxisName(index, name)
      ensures this.positionMin == positionMin && this.positionMax == positionMax
      ensures this.velocity == velocity && this.units == units
      ensures enabled && position == 0.0 && !moving && target == 0.0
    {
      this.index, this.name := index, AxisName(index, name);
      this.positionMin, this.positionMax := positionMin, positionMax;
      this.velocity, this.units := velocity, units;
      enabled, position, moving, target := true, 0.0, false, 0.0;
    }

    /**
     * Moves to `value` clamped to the limits and returns when the move is
     * done. With a zero velocity the travel-time division raises
     * ZeroDivisionError after the target was recorded and the axis marked
     * moving, and the position does not change.
     */
    method SetPosition(value: real) returns (err: Option<Error>)
      modifies this`position, this`moving, this`target
      ensures target == Clamp(value, positionMin, positionMax)
      ensures velocity != 0.0 ==> err == None && position == target && !moving
      ensures velocity == 0.0 ==> err == Some(ZeroDivisionError) && position == old(position) && moving
    {
      var v := Clamp(value, positionMin, positionMax);
      target, moving := v, true;
      if velocity == 0.0 {
        return Some(ZeroDivisionError);
      }
      position, moving := v, false;
      return None;
    }

    /** The position as optical delay. */
    function PositionPs(): (ps: real)
      reads this`position
      ensures PsToMm(ps) == position
    {
      ConversionRoundTrip(position);
      MmToPs(position)
    }

    /** Moves to the position whose optical delay is `ps`. */
    method SetPositionPs(ps: real) returns (err: Option<Error>)
      modifies this`position, this`moving, this`target
      ensures target == Clamp(PsToMm(ps), positionMin, positionMax)
      ensures velocity != 0.0 ==> err == None && position == target && !moving
      ensures velocity != 0.0 && positionMin <= PsToMm(ps) <= positionMax ==> PositionPs() == ps
      ensures velocity == 0.0 ==> err == Some(ZeroDivisionError) && position == old(position) && moving
    {
      err := SetPosition(PsToMm(ps));
      ConversionRoundTrip(ps);
    }

    /** The reachable range as optical delay. */
    function DelayRangePs(): (r: (real, real))
      ensures r.0 == MmToPs(positionMin) && r.1 == MmToPs(positionMax)
      ensures positionMin <= positionMax ==> r.0 <= r.1
    {
      assert positionMin <= positionMax ==> MmToPs(positionMin) <= MmToPs(positionMax) by {
        if positionMin <= positionMax { ConversionMonotone(positionMin, positionMax); }
      }
      (MmToPs(positionMin), MmToPs(positionMax))
    }

    /** `motion_done` is the negation of `is_moving`. */
    function MotionDone(): (done: bool)
      reads this`moving
      ensures done <==> !moving
    {
      !moving
    }

    method Enable()
      modifies this`enabled
      ensures enabled
    {
      enabled := true;
    }

    method Disable()
      modifies this`enabled
      ensures !enabled
    {
      enabled := false;
    }

    /** Homing is a move to 0 mm, whatever the homing type. */
    method Home(homeType: int) returns (err: Option<Error>)
      modifies this`position, this`moving, this`target
      ensures target == Clamp(0.0, positionMin, positionMax)
      ensures velocity != 0.0 ==> err == None && position == target && !moving
      ensures velocity == 0.0 ==> err == Some(ZeroDivisionError) && position == old(position) && moving
    {
      err := SetPosition(0.0);
    }

    /** Stops: not moving, and the target becomes the current position. */
    method Stop()
      modifies this`moving, this`target
      ensures !moving && target == position
    {
      moving, target := false, position;
    }
  }

  /** One entry of the controller's axis configuration; absent keys take their defaults. */
  datatype AxisConfig = AxisConfig(
    name: Option<string>,
    index: Option<int>,
    positionMin: Option<real>,
    positionMax: Option<real>,
    velocity: Option<real>,
    units: Option<string>)

  /** The axis name a configuration produces. */
  function ConfigName(c: AxisConfig): (n: string)
    ensures c.name.Some? && c.name.value != "" ==> n == c.name.value
    ensures !(c.name.Some? && c.name.value != "") ==> n == "axis" + IntString(GetOr(c.index, 1))
  {
    var index := GetOr(c.index, 1);
    AxisName(index, GetOr(c.name, "axis" + IntString(index)))
  }

  /** The configurations actually used: a missing or empty list means one "delay" axis at index 1. */
  function EffectiveConfigs(configs: Option<seq<AxisConfig>>): (cs: seq<AxisConfig>)
    ensures |cs| >= 1
    ensures configs.Some? && configs.value != [] ==> cs == configs.value
    ensures !(configs.Some? && configs.value != []) ==> |cs| == 1 && ConfigName(cs[0]) == "delay"
  {
    if configs.Some? && configs.value != [] then configs.value
    else [AxisConfig(Some("delay"), Some(1), None, None, None, None)]
  }

  /** The axis names of `cs` in first-occurrence order, each once. */
  function NameOrder(cs: seq<AxisConfig>): (ns: seq<string>)
    ensures forall i, j :: 0 <= i < j < |ns| ==> ns[i] != ns[j]
  {
    if cs == [] then []
    else
      var prev := NameOrder(cs[..|cs| - 1]);
      var n := ConfigName(cs[|cs| - 1]);
      if n in prev then prev else prev + [n]
  }

  /** A name is in the order exactly when some configuration produces it. */
  lemma {:induction false} NameOrderMembers(cs: seq<AxisConfig>, n: string)
    ensures n in NameOrder(cs) <==> LastWith(cs, n).Some?
  {
    if cs != [] {
      NameOrderMembers(cs[..|cs| - 1], n);
    }
  }

  /** The configuration of the last axis named `n`: the one left in the dictionary. */
  function LastWith(cs: seq<AxisConfig>, n: string): (c: Option<AxisConfig>)
    ensures c.Some? ==> ConfigName(c.value) == n && c.value in cs
  {
    if cs == [] then None
    else if ConfigName(cs[|cs| - 1]) == n then Some(cs[|cs| - 1])
    else
      assert cs[..|cs| - 1] <= cs;
      LastWith(cs[..|cs| - 1], n)
  }

  /** No configuration is left for `n` exactly when none produces the name `n`. */
  lemma LastWithNone(cs: seq<AxisConfig>, n: string)
    ensures LastWith(cs, n).None? <==> forall i :: 0 <= i < |cs| ==> ConfigName(cs[i]) != n
  {
    if LastWith(cs, n).Some? {
      var j :| 0 <= j < |cs| && cs[j] == LastWith(cs, n).value;
      assert ConfigName(cs[j]) == n;
    } else {
      NoneUnnamed(cs, n);
    }
  }

  /** The inductive half of `LastWithNone`: the search only gives up when no name matches. */
  lemma {:induction false} NoneUnnamed(cs: seq<AxisConfig>, n: string)
    requires LastWith(cs, n).None?
    ensures forall i :: 0 <= i < |cs| ==> ConfigName(cs[i]) != n
  {
    if cs != [] {
      var init, last := cs[..|cs| - 1], cs[|cs| - 1];
      NoneUnnamed(init, n);
      forall i | 0 <= i < |cs|
        ensures ConfigName(cs[i]) != n
      {
        if i < |init| {
          assert ConfigName(init[i]) != n;
          assert cs[i] == init[i];
        } else {
          assert cs[i] == last;
        }
      }
    }
  }

  /** Whether `a` is the axis a configuration builds, as it is right after construction. */
  ghost predicate Built(a: MockAxis, c: AxisConfig)
  {
    a.index == GetOr(c.index, 1) && a.name == ConfigName(c) &&
    a.positionMin == GetOr(c.positionMin, 0.0) && a.positionMax == GetOr(c.positionMax, 300.0) &&
    a.velocity == GetOr(c.velocity, 1000.0) && a.units == GetOr(c.units, "mm")
  }

  /**
   * The controller's axis construction loop: one new axis per configuration,
   * stored under its name, a repeated name replacing the earlier axis but
   * keeping its place in the order.
   */
  method BuildAxes(cs: seq<AxisConfig>) returns (ns: seq<string>, m: map<string, MockAxis>)
    ensures ns == NameOrder(cs)
    ensures forall n :: n in m <==> n in ns
    ensures forall n :: n in m ==> m[n].name == n
    ensures forall n :: n in m ==> LastWith(cs, n).Some? && Built(m[n], LastWith(cs, n).value)
    ensures forall n :: n in m ==> fresh(m[n]) && m[n].enabled && m[n].position == 0.0 && !m[n].moving
  {
    m, ns := map[], [];
    var k := 0;
    while k < |cs|
      invariant k <= |cs|
      invariant ns == NameOrder(cs[..k])
      invariant forall n :: n in m <==> n in ns
      invariant forall n :: n in m ==> LastWith(cs[..k], n).Some? && Built(m[n], LastWith(cs[..k], n).value)
      invariant forall n :: n in m ==> fresh(m[n]) && m[n].enabled && m[n].position == 0.0 && !m[n].moving
    {
      var c := cs[k];
      var index := GetOr(c.index, 1);
      var a := new MockAxis(index, GetOr(c.name, "axis" + IntString(index)),
        GetOr(c.positionMin, 0.0), GetOr(c.positionMax, 300.0), GetOr(c.velocity, 1000.0), GetOr(c.units, "mm"));
      assert cs[..k + 1][..k] == cs[..k];
      if a.name !in m {
        ns := ns + [a.name];
      }
      m := m[a.name := a];
      k := k + 1;
    }
    assert cs[..k] == cs;
  }

  /** The axes named by `ns`, in that order. */
  function Lookup(ns: seq<string>, m: map<string, MockAxis>): (r: seq<MockAxis>)
    requires forall n :: n in ns ==> n in m
    ensures |r| == |ns|
    ensures forall i :: 0 <= i < |ns| ==> r[i] == m[ns[i]]
  {
    if ns == [] then [] else [m[ns[0]]] + Lookup(ns[1..], m)
  }

  class MockMotionController {
    const name: string
    const homeOnStartup: bool
    /** Axis names in dictionary order; the dictionary is filled once, at construction. */
    const order: seq<string>
    const axes: map<string, MockAxis>

    ghost predicate Valid()
    {
      (forall n :: n in axes <==> n in order) &&
      (forall n :: n in axes ==> axes[n].name == n)
    }

    ghost function Objects(): (os: set<MockAxis>)
      ensures forall n :: n in axes ==> axes[n] in os
    {
      set n | n in axes :: axes[n]
    }

    /** Builds one axis per effective configuration; homing on startup is done by `Create`. */
    constructor (configs: Option<seq<AxisConfig>>, name: string, homeOnStartup: bool)
      ensures Valid()
      ensures this.name == name && this.homeOnStartup == homeOnStartup
      ensures order == NameOrder(EffectiveConfigs(configs))
      ensures forall n :: n in axes ==> LastWith(EffectiveConfigs(configs), n).Some?
      ensures forall n :: n in axes ==> Built(axes[n], LastWith(EffectiveConfigs(configs), n).value)
      ensures forall n :: n in axes ==> fresh(axes[n]) && axes[n].enabled && axes[n].position == 0.0 && !axes[n].moving
    {
      var ns, m := BuildAxes(EffectiveConfigs(configs));
      this.name, this.homeOnStartup := name, homeOnStartup;
      order, axes := ns, m;
    }

    /** `get_axis`: the axis of that name, or None. */
    function GetAxis(n: string): (a: Option<MockAxis>)
      ensures a.Some? <==> n in axes
      ensures a.Some? ==> a.value == axes[n]
    {
      if n in axes then Some(axes[n]) else None
    }

    /** Attribute access by axis name; names starting with "_" are never axes. */
    function GetAttr(n: string): (r: Result<MockAxis>)
      ensures r.Ok? <==> !StartsWith(n, "_") && n in axes
      ensures r.Ok? ==> r.value == axes[n]
      ensures r.Err? ==> r.error == AttributeError
    {
      if StartsWith(n, "_") then Err(AttributeError)
      else if n in axes then Ok(axes[n])
      else Err(AttributeError)
    }

    /** The axes in dictionary order. */
    function Axes(): (r: seq<MockAxis>)
      requires Valid()
      ensures |r| == |order|
      ensures forall i :: 0 <= i < |order| ==> r[i] == axes[order[i]]
    {
      Lookup(order, axes)
    }

    method EnableAll()
      requires Valid()
      modifies Objects()`enabled
      ensures forall n :: n in axes ==> axes[n].enabled
    {
      var i := 0;
      while i < |order|
        invariant i <= |order|
        invariant forall j :: 0 <= j < i ==> axes[order[j]].enabled
      {
        axes[order[i]].Enable();
        i := i + 1;
      }
    }

    method DisableAll()
      requires Valid()
      modifies Objects()`enabled
      ensures forall n :: n in axes ==> !axes[n].enabled
    {
      var i := 0;
      while i < |order|
        invariant i <= |order|
        invariant forall j :: 0 <= j < i ==> !axes[order[j]].enabled
      {
        axes[order[i]].Disable();
        i := i + 1;
      }
    }

    /**
     * Homes the axes in order; the first one that raises stops the loop
     * and its error is returned. Without an error every axis rests at its
     * clamped zero.
     */
    method HomeAll() returns (err: Option<Error>)
      requires Valid()
      modifies Objects()`position, Objects()`moving, Objects()`target
      ensures err.None? ==> forall n :: n in axes ==> axes[n].position == Clamp(0.0, axes[n].positionMin, axes[n].positionMax) && !axes[n].moving
      ensures err.None? ==> forall n :: n in axes ==> axes[n].velocity != 0.0
      ensures err.Some? ==> err == Some(ZeroDivisionError) && exists n :: n in axes && axes[n].velocity == 0.0
    {
      var i := 0;
      while i < |order|
        invariant i <= |order|
        invariant forall j :: 0 <= j < i ==>
          axes[order[j]].position == Clamp(0.0, axes[order[j]].positionMin, axes[order[j]].positionMax) && !axes[order[j]].moving
        invariant forall j :: 0 <= j < i ==> axes[order[j]].velocity != 0.0
      {
        var a := axes[order[i]];
        err := a.Home(1);
        if err.Some? {
          return;
        }
        i := i + 1;
      }
      return None;
    }

    /** Shutting the simulated controller down disables every axis. */
    method Shutdown()
      requires Valid()
      modifies Objects()`enabled
      ensures forall n :: n in axes ==> !axes[n].enabled
      ensures forall x :: x in Objects() ==> !x.enabled
    {
      DisableAll();
    }
  }

  /** Some axis the configurations leave in the dictionary has velocity zero. */
  ghost predicate ZeroVelocity(cs: seq<AxisConfig>)
  {
    exists n :: LastWith(cs, n).Some? && GetOr(LastWith(cs, n).value.velocity, 1000.0) == 0.0
  }

  /**
   * Builds the simulated controller and homes every axis when asked to. The
   * construction raises exactly when homing on startup meets an axis of
   * velocity zero.
   */
  method Create(configs: Option<seq<AxisConfig>>, name: string, homeOnStartup: bool)
    returns (c: MockMotionController, err: Option<Error>)
    ensures fresh(c) && c.Valid() && c.name == name
    ensures c.order == NameOrder(EffectiveConfigs(configs))
    ensures forall n :: n in c.axes ==> fresh(c.axes[n])
    ensures err.Some? <==> homeOnStartup && ZeroVelocity(EffectiveConfigs(configs))
    ensures err.None? ==> forall n :: n in c.axes ==> c.axes[n].enabled
    ensures err.None? ==> forall n :: n in c.axes ==> !c.axes[n].moving
    ensures homeOnStartup && err.None? ==> forall n :: n in c.axes ==> c.axes[n].position == Clamp(0.0, c.axes[n].positionMin, c.axes[n].positionMax)
  {
    var cs := EffectiveConfigs(configs);
    c := new MockMotionController(configs, name, homeOnStartup);
    err := None;
    if homeOnStartup {
      err := c.HomeAll();
      if err.Some? {
        var n :| n in c.axes && c.axes[n].velocity == 0.0;
        assert LastWith(cs, n).Some? && GetOr(LastWith(cs, n).value.velocity, 1000.0) == 0.0;
      } else {
        forall n | LastWith(cs, n).Some?
          ensures GetOr(LastWith(cs, n).value.velocity, 1000.0) != 0.0
        {
          NameOrderMembers(cs, n);
        }
      }
    }
  }
}
