// The simulated delay stage of the pump-probe set-up. Its position is held in
// millimetres, clamped to the stage limits on every move, and read or set as
// optical delay in picoseconds with the same round-trip conversion as a
// motion axis. Moves need an initialised stage; the simulated travel time is
// not modelled except where computing it raises.
module DelayStage {
  import opened Wrappers
  import opened MotionController

  /** The stage description `initialize` records. */
  datatype StageInfo = StageInfo(model: string, serialNumber: string, positionMin: real, positionMax: real, velocityMax: real)

  class MockDelayStage {
    const positionMin: real
    const positionMax: real
    const velocity: real
    var initialized: bool
    var info: Option<StageInfo>
    var position: real
    var moving: bool
    var target: real

    /** A new stage: not initialised, no info, at rest at 0 mm. */
    constructor (positionMin: real, positionMax: real, velocity: real)
      ensures this.positionMin == positionMin && this.positionMax == positionMax && this.velocity == velocity
      ensures !initialized && info == None && position == 0.0 && !moving && target == 0.0
    {
      this.positionMin, this.positionMax, this.velocity := positionMin, positionMax, velocity;
      initialized, info, position, moving, target := false, None, 0.0, false, 0.0;
    }

    /** `position_mm`: reads 0.0 until the first completed move. */
    function PositionMm(): (mm: real)
      reads this`position
      ensures mm == position
    {
      position
    }

    /**
     * Moves to `value` clamped to the limits. Before `initialize` it raises
     * RuntimeError and changes nothing. The travel time is the distance over
     * the velocity: a zero velocity raises ZeroDivisionError and a negative
     * time raises ValueError from the sleep, both after the target was
     * recorded and the stage marked moving, without moving it.
     */
    method SetPositionMm(value: real) returns (err: Option<Error>)
      modifies this`position, this`moving, this`target
      ensures !old(initialized) ==> err == Some(RuntimeError) && position == old(position) && moving == old(moving) && target == old(target)
      ensures initialized ==> target == Clamp(value, positionMin, positionMax)
      ensures initialized && velocity == 0.0 ==> err == Some(ZeroDivisionError) && moving && position == old(position)
      ensures initialized && velocity < 0.0 && target != old(position) ==> err == Some(ValueError) && moving && position == old(position)
      ensures initialized && (velocity > 0.0 || (velocity < 0.0 && target == old(position))) ==>
        err == None && position == target && !moving
    {
      if !initialized {
        return Some(RuntimeError);
      }
      var v := Clamp(value, positionMin, positionMax);
      target, moving := v, true;
      if velocity == 0.0 {
        return Some(ZeroDivisionError);
      }
      var distance := if v >= position then v - position else position - v;
      if distance / velocity < 0.0 {
        return Some(ValueError);
      }
      position, moving := v, false;
      return None;
    }

    /** `position_ps`. */
    function PositionPs(): (ps: real)
      reads this`position
      ensures PsToMm(ps) == position
    {
      ConversionRoundTrip(position);
      MmToPs(position)
    }

    /** Sets the position as optical delay; a delay whose position is within the limits is reached exactly. */
    method SetPositionPs(ps: real) returns (err: Option<Error>)
      modifies this`position, this`moving, this`target
      ensures !old(initialized) ==> err == Some(RuntimeError) && position == old(position)
      ensures initialized ==> target == Clamp(PsToMm(ps), positionMin, positionMax)
      ensures initialized && velocity > 0.0 && positionMin <= PsToMm(ps) <= positionMax ==> err == None && PositionPs() == ps
    {
      err := SetPositionMm(PsToMm(ps));
      ConversionRoundTrip(ps);
    }

    /** The range as optical delay, (0, 0) while no info was recorded. */
    function DelayRangePs(): (r: (real, real))
      reads this`info
      ensures info.None? ==> r == (0.0, 0.0)
      ensures info.Some? ==> r == (MmToPs(info.value.positionMin), MmToPs(info.value.positionMax))
      ensures info.Some? && info.value.positionMin <= info.value.positionMax ==> r.0 <= r.1
    {
      match info
      case None => (0.0, 0.0)
      case Some(i) =>
        assert i.positionMin <= i.positionMax ==> MmToPs(i.positionMin) <= MmToPs(i.positionMax) by {
          if i.positionMin <= i.positionMax { ConversionMonotone(i.positionMin, i.positionMax); }
        }
        (MmToPs(i.positionMin), MmToPs(i.positionMax))
    }

    /** Records the stage info and marks the stage initialised; a second call changes nothing. */
    method Initialize()
      modifies this`initialized, this`info
      ensures initialized
      ensures old(initialized) ==> info == old(info)
      ensures !old(initialized) ==> info == Some(StageInfo("Mock Delay Stage", "MOCK-001", positionMin, positionMax, velocity))
    {
      if initialized {
        return;
      }
      info := Some(StageInfo("Mock Delay Stage", "MOCK-001", positionMin, positionMax, velocity));
      initialized := true;
    }

    /** Homing is a move to 0 mm; it raises RuntimeError before `initialize`. */
    method Home() returns (err: Option<Error>)
      modifies this`position, this`moving, this`target
      ensures !initialized ==> err == Some(RuntimeError) && position == old(position)
      ensures initialized ==> target == Clamp(0.0, positionMin, positionMax)
      ensures initialized && velocity > 0.0 ==> err == None && position == Clamp(0.0, positionMin, positionMax) && !moving
    {
      if !initialized {
        return Some(RuntimeError);
      }
      err := SetPositionMm(0.0);
    }

    /** Stops: not moving, the target becomes the current position. */
    method Stop()
      modifies this`moving, this`target
      ensures !moving && target == position
    {
      moving, target := false, position;
    }

    function IsMoving(): (m: bool)
      reads this`moving
      ensures m == moving
    {
      moving
    }

    /** Stops and marks the stage uninitialised; a no-op when it is not initialised. The info is kept. */
    method Shutdown()
      modifies this`initialized, this`moving, this`target
      ensures !initialized
      ensures !old(initialized) ==> moving == old(moving) && target == old(target)
      ensures old(initialized) ==> !moving && target == position
    {
      if !initialized {
        return;
      }
      Stop();
      initialized := false;
    }
  }

  /** After a shutdown a move is refused again until the next `initialize`. */
  method ShutdownThenMove(s: MockDelayStage, value: real) returns (err: Option<Error>)
    modifies s
    ensures err == Some(RuntimeError)
  {
    s.Shutdown();
    err := s.SetPositionMm(value);
  }
}
