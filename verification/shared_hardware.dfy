// The shared-hardware rule of the Qt procedures: use the injected camera,
// spectrograph and motion manager when there are any, create (and then own)
// a device only when none was injected, and at cleanup shut down only what
// this procedure owns.
module SharedHardware {
  import opened Wrappers

  datatype Kind = Camera | Spectrograph

  /** A device a procedure holds: one the application injected, or one it made itself. */
  datatype Device = Injected(kind: Kind, handle: nat) | Created(kind: Kind)

  /**
   * The devices `_cleanup_hardware` shuts down, in order, given the ownership
   * flags (None when the flag attribute was never set) and the devices held.
   */
  function ToShutDown(ownsCamera: Option<bool>, camera: Option<Device>,
                      ownsSpectrograph: Option<bool>, spectrograph: Option<Device>): (r: seq<Device>)
    ensures |r| <= 2
    ensures ownsCamera != Some(true) && ownsSpectrograph != Some(true) ==> r == []
    ensures ownsCamera == Some(true) && camera.Some? ==> |r| >= 1 && r[0] == camera.value
    ensures forall d :: d in r ==>
      ((Some(d) == camera && ownsCamera == Some(true))
       || (Some(d) == spectrograph && ownsSpectrograph == Some(true)))
  {
    (if ownsCamera == Some(true) && camera.Some? then [camera.value] else [])
    + (if ownsSpectrograph == Some(true) && spectrograph.Some? then [spectrograph.value] else [])
  }

  /** A flag and the device it describes agree: owned means created here, not owned means injected. */
  predicate Owned(owns: Option<bool>, device: Option<Device>, kind: Kind)
  {
    (owns == Some(true) ==> device == Some(Created(kind)))
    && (owns == Some(false) ==> device.Some? && device.value.Injected? && device.value.kind == kind)
    && (device.Some? ==> device.value.kind == kind)
  }

  /** With consistent flags, cleanup only ever shuts down devices the procedure created. */
  lemma {:induction false} NeverShutsDownInjected(ownsCamera: Option<bool>, camera: Option<Device>,
                               ownsSpectrograph: Option<bool>, spectrograph: Option<Device>)
    requires Owned(ownsCamera, camera, Camera) && Owned(ownsSpectrograph, spectrograph, Spectrograph)
    ensures forall d :: d in ToShutDown(ownsCamera, camera, ownsSpectrograph, spectrograph) ==> d.Created?
  {
  }

  /** The hardware slots of one procedure object using the shared-hardware mixin. */
  class HardwareUser {
    // Class-level injected references.
    var sharedCamera: Option<nat>
    var sharedSpectrograph: Option<nat>
    var sharedMotionManager: Option<nat>
    // Instance attributes: None while the attribute does not exist.
    var camera: Option<Device>
    var spectrograph: Option<Device>
    var ownsCamera: Option<bool>
    var ownsSpectrograph: Option<bool>
    var motionManager: Option<Option<nat>>
    /** Every `shutdown()` this procedure has called on a device, in order. */
    var shutdowns: seq<Device>

    ghost predicate Valid()
      reads this
    {
      Owned(ownsCamera, camera, Camera) && Owned(ownsSpectrograph, spectrograph, Spectrograph)
      && (camera.Some? && camera.value.Injected? ==> sharedCamera == Some(camera.value.handle))
      && (spectrograph.Some? && spectrograph.value.Injected? ==> sharedSpectrograph == Some(spectrograph.value.handle))
      && (forall d :: d in shutdowns ==> d.Created?)
    }

    constructor (sharedCamera: Option<nat>, sharedSpectrograph: Option<nat>, sharedMotionManager: Option<nat>)
      ensures Valid()
      ensures this.sharedCamera == sharedCamera && this.sharedSpectrograph == sharedSpectrograph
      ensures this.sharedMotionManager == sharedMotionManager
      ensures camera.None? && spectrograph.None? && ownsCamera.None? && ownsSpectrograph.None?
      ensures motionManager.None? && shutdowns == []
    {
      this.sharedCamera := sharedCamera;
      this.sharedSpectrograph := sharedSpectrograph;
      this.sharedMotionManager := sharedMotionManager;
      camera, spectrograph, ownsCamera, ownsSpectrograph := None, None, None, None;
      motionManager := None;
      shutdowns := [];
    }

    /**
     * `_init_hardware`. A created device whose `initialize()` raises is
     * already held, but its ownership flag is never set.
     */
    method InitHardware(cameraInitFails: bool, spectrographInitFails: bool) returns (r: Result<()>)
      requires Valid()
      modifies this
      ensures Valid()
      ensures unchanged(this`sharedCamera) && unchanged(this`sharedSpectrograph)
      ensures unchanged(this`sharedMotionManager) && unchanged(this`shutdowns)
      ensures camera == Some(if sharedCamera.Some? then Injected(Camera, sharedCamera.value) else Created(Camera))
      ensures ownsCamera == if sharedCamera.None? && cameraInitFails then old(ownsCamera)
                            else Some(sharedCamera.None?)
      ensures r.Err? <==> (sharedCamera.None? && cameraInitFails)
                          || (sharedSpectrograph.None? && spectrographInitFails)
      ensures r.Err? ==> r.error == RuntimeError
      ensures r.Ok? ==>
        spectrograph == Some(if sharedSpectrograph.Some? then Injected(Spectrograph, sharedSpectrograph.value)
                             else Created(Spectrograph))
        && ownsSpectrograph == Some(sharedSpectrograph.None?)
        && motionManager == Some(sharedMotionManager)
    {
      if sharedCamera.Some? {
        camera, ownsCamera := Some(Injected(Camera, sharedCamera.value)), Some(false);
      } else {
        camera := Some(Created(Camera));
        if cameraInitFails { return Err(RuntimeError); }
        ownsCamera := Some(true);
      }
      if sharedSpectrograph.Some? {
        spectrograph, ownsSpectrograph := Some(Injected(Spectrograph, sharedSpectrograph.value)), Some(false);
      } else {
        spectrograph := Some(Created(Spectrograph));
        if spectrographInitFails { return Err(RuntimeError); }
        ownsSpectrograph := Some(true);
      }
      motionManager := Some(sharedMotionManager);
      return Ok(());
    }

    /** `_cleanup_hardware`: shut down the camera, then the spectrograph, each only if owned. */
    method CleanupHardware()
      requires Valid()
      modifies this`shutdowns
      ensures Valid()
      ensures shutdowns == old(shutdowns) + ToShutDown(ownsCamera, camera, ownsSpectrograph, spectrograph)
    {
      if ownsCamera == Some(true) && camera.Some? {
        shutdowns := shutdowns + [camera.value];
      }
      if ownsSpectrograph == Some(true) && spectrograph.Some? {
        shutdowns := shutdowns + [spectrograph.value];
      }
    }
  }
}
