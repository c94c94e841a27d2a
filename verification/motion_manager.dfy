// The motion-controller manager: builds the configured controllers once,
// keeps them in a dictionary by controller name (insertion order, a repeated
// name replacing the earlier controller in place), and gives access to axes
// across controllers. Only the "mock" controller type is registered; other
// types are skipped. A controller whose construction raises is logged and
// left out. The manager is enabled unless its configuration says otherwise.
module MotionManager {
  import opened Wrappers
  import opened MotionController

  /** One controller entry of the configuration; absent keys take their defaults. */
  datatype ControllerConfig = ControllerConfig(
    name: Option<string>,
    kind: Option<string>,
    homeOnStartup: Option<bool>,
    axes: Option<seq<AxisConfig>>)

  /** The manager configuration: `enabled` and the controller list. */
  datatype ManagerConfig = ManagerConfig(enabled: Option<bool>, controllers: Option<seq<ControllerConfig>>)

  function Kind(c: ControllerConfig): (k: string)
    ensures c.kind.None? ==> k == "mock"
  {
    GetOr(c.kind, "mock")
  }

  /** The name a controller entry gets when `count` controllers are already registered. */
  function ControllerName(c: ControllerConfig, count: nat): (n: string)
    ensures c.name.Some? ==> n == c.name.value
    ensures c.name.None? ==> n == "controller_" + DecimalString(count)
  {
    GetOr(c.name, "controller_" + DecimalString(count))
  }

  /** The axis configurations handed to the controller (an absent list is an empty one). */
  function AxisConfigs(c: ControllerConfig): (cs: seq<AxisConfig>)
    ensures |cs| >= 1
  {
    EffectiveConfigs(Some(GetOr(c.axes, [])))
  }

  /** Whether an entry ends up registered: its type is known and building it does not raise. */
  ghost predicate Registers(c: ControllerConfig)
  {
    Kind(c) == "mock" && !(GetOr(c.homeOnStartup, false) && ZeroVelocity(AxisConfigs(c)))
  }

  /** The controller names after processing `cs`, in dictionary order. */
  ghost function Names(cs: seq<ControllerConfig>): (ns: seq<string>)
    ensures forall i, j :: 0 <= i < j < |ns| ==> ns[i] != ns[j]
  {
    if cs == [] then []
    else
      var prev := Names(cs[..|cs| - 1]);
      var c := cs[|cs| - 1];
      if !Registers(c) then prev
      else if ControllerName(c, |prev|) in prev then prev
      else prev + [ControllerName(c, |prev|)]
  }

  /** The entry whose controller is stored under `n` after processing `cs`: the last one given that name. */
  ghost function Source(cs: seq<ControllerConfig>, n: string): (r: Option<ControllerConfig>)
    ensures r.Some? ==> Registers(r.value) && r.value in cs
  {
    if cs == [] then None
    else
      var c := cs[|cs| - 1];
      if Registers(c) && ControllerName(c, |Names(cs[..|cs| - 1])|) == n then Some(c)
      else
        assert forall x :: x in cs[..|cs| - 1] ==> x in cs;
        Source(cs[..|cs| - 1], n)
  }

  /** A name is registered exactly when some entry was stored under it. */
  lemma {:induction false} NamesSource(cs: seq<ControllerConfig>, n: string)
    ensures n in Names(cs) <==> Source(cs, n).Some?
  {
    if cs != [] {
      NamesSource(cs[..|cs| - 1], n);
    }
  }

  /** Entries of unknown type are never registered: removing them changes nothing. */
  lemma {:induction false} UnknownSkipped(cs: seq<ControllerConfig>, c: ControllerConfig)
    requires Kind(c) != "mock"
    ensures Names(cs + [c]) == Names(cs)
  {
    assert (cs + [c])[..|cs|] == cs;
  }

  /** A name, once registered, stays registered whatever entries follow. */
  lemma {:induction false} NamesGrow(cs: seq<ControllerConfig>, more: seq<ControllerConfig>)
    ensures forall n :: n in Names(cs) ==> n in Names(cs + more)
    decreases |more|
  {
    if more == [] {
      assert cs + more == cs;
    } else {
      var init := more[..|more| - 1];
      NamesGrow(cs, init);
      assert (cs + more)[..|cs + more| - 1] == cs + init;
    }
  }

  /** The axes of the named controllers merged in order: on a shared axis name the later controller wins. */
  function UnionAxes(ns: seq<string>, cs: map<string, MockMotionController>): (m: map<string, MockAxis>)
    requires forall n :: n in ns ==> n in cs
    ensures |ns| > 0 ==> forall a :: a in cs[ns[|ns| - 1]].axes ==> a in m && m[a] == cs[ns[|ns| - 1]].axes[a]
  {
    if ns == [] then map[] else UnionAxes(ns[..|ns| - 1], cs) + cs[ns[|ns| - 1]].axes
  }

  /** The axis `a` of the first listed controller that has one. */
  function FirstAxis(ns: seq<string>, cs: map<string, MockMotionController>, a: string): (r: Option<MockAxis>)
    requires forall n :: n in ns ==> n in cs
    ensures r.None? <==> forall i :: 0 <= i < |ns| ==> a !in cs[ns[i]].axes
    ensures r.Some? ==> exists i :: (0 <= i < |ns| && a in cs[ns[i]].axes && r.value == cs[ns[i]].axes[a] &&
      (forall j :: 0 <= j < i ==> a !in cs[ns[j]].axes))
  {
    if ns == [] then None
    else if a in cs[ns[0]].axes then Some(cs[ns[0]].axes[a])
    else
      var r := FirstAxis(ns[1..], cs, a);
      assert forall i :: 1 <= i < |ns| ==> ns[1..][i - 1] == ns[i];
      r
  }

  /** `get_axis` finds an axis exactly when `all_axes` lists one under that name. */
  lemma {:induction false} FirstAxisInUnion(ns: seq<string>, cs: map<string, MockMotionController>, a: string)
    requires forall n :: n in ns ==> n in cs
    ensures FirstAxis(ns, cs, a).Some? <==> a in UnionAxes(ns, cs)
  {
    UnionHas(ns, cs, a);
  }

  /** An axis name is in the merged dictionary exactly when one of the listed controllers has it. */
  lemma {:induction false} UnionHas(ns: seq<string>, cs: map<string, MockMotionController>, a: string)
    requires forall n :: n in ns ==> n in cs
    ensures a in UnionAxes(ns, cs) <==> exists i :: 0 <= i < |ns| && a in cs[ns[i]].axes
  {
    if ns != [] {
      var init := ns[..|ns| - 1];
      UnionHas(init, cs, a);
      if a in UnionAxes(init, cs) {
        var i :| 0 <= i < |init| && a in cs[init[i]].axes;
        assert ns[i] == init[i];
      } else if a !in cs[ns[|ns| - 1]].axes {
        forall i | 0 <= i < |ns|
          ensures a !in cs[ns[i]].axes
        {
          if i < |init| {
            assert ns[i] == init[i];
          }
        }
      }
    }
  }

  /** The registry `order`/`ctrls` is the one the entries `cs` build. */
  ghost predicate Describes(order: seq<string>, ctrls: map<string, MockMotionController>, cs: seq<ControllerConfig>)
  {
    order == Names(cs) &&
    forall n :: n in ctrls ==> Source(cs, n).Some? && ctrls[n].order == NameOrder(AxisConfigs(Source(cs, n).value))
  }

  /** One more entry processed as the construction loop does keeps the registry described. */
  lemma {:induction false} DescribesStep(order0: seq<string>, ctrls0: map<string, MockMotionController>,
                      order1: seq<string>, ctrls1: map<string, MockMotionController>,
                      cs: seq<ControllerConfig>, c: ControllerConfig)
    requires Describes(order0, ctrls0, cs)
    requires !Registers(c) ==> order1 == order0 && ctrls1 == ctrls0
    requires Registers(c) ==> var name := ControllerName(c, |order0|);
      order1 == (if name in order0 then order0 else order0 + [name]) &&
      name in ctrls1 && ctrls1[name].order == NameOrder(AxisConfigs(c)) &&
      forall n :: n in ctrls1 && n != name ==> n in ctrls0 && ctrls1[n] == ctrls0[n]
    ensures Describes(order1, ctrls1, cs + [c])
  {
    var cs1 := cs + [c];
    assert cs1[..|cs|] == cs;
    assert Names(cs1) == order1;
    forall n | n in ctrls1
      ensures Source(cs1, n).Some? && ctrls1[n].order == NameOrder(AxisConfigs(Source(cs1, n).value))
    {
      if !(Registers(c) && n == ControllerName(c, |order0|)) {
        assert n in ctrls0 && ctrls1[n] == ctrls0[n];
        assert Source(cs1, n) == Source(cs, n);
      }
    }
  }

  class MotionControllerManager {
    const config: ManagerConfig
    /** Controller names in dictionary order. */
    var order: seq<string>
    var controllers: map<string, MockMotionController>
    var initialized: bool

    ghost predicate Valid()
      reads this`order, this`controllers
    {
      |controllers| == |order| &&
      (forall n :: n in controllers <==> n in order) &&
      (forall n :: n in controllers ==> controllers[n].Valid() && controllers[n].name == n)
    }

    /** Every axis of every registered controller. */
    ghost function AxisObjects(): (s: set<MockAxis>)
      reads this`controllers
    {
      set n, a | n in controllers && a in controllers[n].axes :: controllers[n].axes[a]
    }

    constructor (config: ManagerConfig)
      ensures Valid()
      ensures this.config == config && order == [] && controllers == map[] && !initialized
    {
      this.config := config;
      order, controllers, initialized := [], map[], false;
    }

    function Enabled(): (b: bool)
      ensures config.enabled.None? ==> b
    {
      GetOr(config.enabled, true)
    }

    /** The entries `initialize` processes: none when disabled. */
    function Entries(): (cs: seq<ControllerConfig>)
      ensures !Enabled() ==> cs == []
    {
      if Enabled() then GetOr(config.controllers, []) else []
    }

    /**
     * Builds every configured controller once; later calls change nothing.
     * The registry afterwards is the one `Names` and `Source` describe.
     */
    method Initialize()
      requires Valid()
      modifies this`order, this`controllers, this`initialized
      ensures Valid() && initialized
      ensures old(initialized) ==> order == old(order) && controllers == old(controllers)
      ensures !old(initialized) && old(order) == [] && old(controllers) == map[] ==> Describes(order, controllers, Entries())
    {
      if initialized {
        return;
      }
      if !Enabled() {
        initialized := true;
        return;
      }
      var cs := Entries();
      var k := 0;
      ghost var fromEmpty := order == [] && controllers == map[];
      while k < |cs|
        invariant k <= |cs|
        invariant Valid()
        invariant fromEmpty ==> Describes(order, controllers, cs[..k])
      {
        InitTurn(cs, k, fromEmpty);
        k := k + 1;
      }
      assert cs[..k] == cs;
      initialized := true;
    }

    /** One pass of the construction loop over entry `k`, keeping the registry described. */
    method InitTurn(cs: seq<ControllerConfig>, k: nat, ghost fromEmpty: bool)
      requires k < |cs| && Valid()
      requires fromEmpty ==> Describes(order, controllers, cs[..k])
      modifies this`order, this`controllers
      ensures Valid()
      ensures fromEmpty ==> Describes(order, controllers, cs[..k + 1])
    {
      assert cs[..k + 1] == cs[..k] + [cs[k]];
      ghost var order0, controllers0 := order, controllers;
      AddEntry(cs[k]);
      if fromEmpty {
        DescribesStep(order0, controllers0, order, controllers, cs[..k], cs[k]);
      }
    }

    /**
     * One iteration of the construction loop: an entry of known type is
     * built under its name (the given one, or "controller_<count>"),
     * replacing a controller of the same name; an unknown type or a
     * construction that raises leaves the registry as it was.
     */
    method AddEntry(c: ControllerConfig)
      requires Valid()
      modifies this`order, this`controllers
      ensures Valid()
      ensures !Registers(c) ==> order == old(order) && controllers == old(controllers)
      ensures Registers(c) ==> var name := ControllerName(c, |old(order)|);
        order == (if name in old(order) then old(order) else old(order) + [name]) &&
        name in controllers && controllers[name].order == NameOrder(AxisConfigs(c)) &&
        forall n :: n in controllers && n != name ==> n in old(controllers) && controllers[n] == old(controllers)[n]
    {
      var name := ControllerName(c, |controllers|);
      if Kind(c) == "mock" {
        var ctrl, err := Create(Some(GetOr(c.axes, [])), name, GetOr(c.homeOnStartup, false));
        if err.None? {
          Store(name, ctrl);
        }
      }
    }

    /** Registers `ctrl` under `name`: a new name goes to the end, a known one keeps its place. */
    method Store(name: string, ctrl: MockMotionController)
      requires Valid() && ctrl.Valid() && ctrl.name == name
      modifies this`order, this`controllers
      ensures Valid()
      ensures order == (if name in old(order) then old(order) else old(order) + [name])
      ensures controllers == old(controllers)[name := ctrl]
    {
      if name !in controllers {
        order := order + [name];
      }
      controllers := controllers[name := ctrl];
    }

    /** `all_axes`: every axis by name, a later controller winning a shared name. */
    function AllAxes(): (m: map<string, MockAxis>)
      requires Valid()
      reads this`order, this`controllers
    {
      UnionAxes(order, controllers)
    }

    /** `get_axis`: the axis of that name on the first controller that has one. */
    function GetAxis(a: string): (r: Option<MockAxis>)
      requires Valid()
      reads this`order, this`controllers
      ensures r.Some? <==> a in AllAxes()
    {
      FirstAxisInUnion(order, controllers, a);
      FirstAxis(order, controllers, a)
    }

    function GetController(n: string): (r: Option<MockMotionController>)
      reads this`controllers
      ensures r.Some? <==> n in controllers
      ensures r.Some? ==> r.value == controllers[n]
    {
      if n in controllers then Some(controllers[n]) else None
    }

    /** Homes every controller in order; the first error stops the loop and escapes. */
    method HomeAll() returns (err: Option<Error>)
      requires Valid()
      modifies AxisObjects()`position, AxisObjects()`moving, AxisObjects()`target
      ensures err.None? ==> forall n, a :: n in controllers && a in controllers[n].axes ==>
        controllers[n].axes[a].position == Clamp(0.0, controllers[n].axes[a].positionMin, controllers[n].axes[a].positionMax)
      ensures err.Some? ==> err == Some(ZeroDivisionError)
    {
      var i := 0;
      while i < |order|
        invariant i <= |order|
        invariant forall j, a :: 0 <= j < i && a in controllers[order[j]].axes ==>
          controllers[order[j]].axes[a].position ==
            Clamp(0.0, controllers[order[j]].axes[a].positionMin, controllers[order[j]].axes[a].positionMax)
      {
        err := controllers[order[i]].HomeAll();
        if err.Some? {
          return;
        }
        i := i + 1;
      }
      return None;
    }

    /** Shuts every controller down in order; the simulated controllers never raise, so all of them are reached. */
    method Shutdown()
      requires Valid()
      modifies AxisObjects()`enabled
      ensures forall n, a :: n in controllers && a in controllers[n].axes ==> !controllers[n].axes[a].enabled
    {
      var i := 0;
      ghost var off: set<MockAxis> := {};
      while i < |order|
        invariant i <= |order|
        invariant forall x :: x in off ==> !x.enabled
        invariant forall j, a :: 0 <= j < i && a in controllers[order[j]].axes ==> controllers[order[j]].axes[a] in off
      {
        ghost var objs := controllers[order[i]].Objects();
        controllers[order[i]].Shutdown();
        off := off + objs;
        i := i + 1;
      }
    }
  }
}
