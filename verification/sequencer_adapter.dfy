// The adapter that gives the parameter sequencer the window interface it
// expects: the current procedure class and its sequenceable parameters,
// a procedure built from the form, and a way to queue one. The hardware
// manager's spectrograph is handed in (null when there is none).
module SequencerAdapter {
  import opened Wrappers
  import opened ExperimentQueue
  import opened Spectrograph
  import opened DynamicInputs

  /** The parameters a sequence may vary, per procedure class. */
  const FvbInputs: seq<string> := ["exposure_time", "center_wavelength", "grating", "hbin", "num_accumulations"]
  const ImageInputs: seq<string> := ["exposure_time", "center_wavelength", "grating", "hbin", "vbin"]

  /** The wavelength and grating a new procedure gets when no spectrograph is connected. */
  const DefaultWavelength := 500.0
  const DefaultGrating := 1

  class Adapter {
    const inputs: DynamicInputsWidget
    const runner: ExperimentQueueRunner

    constructor (inputs: DynamicInputsWidget, runner: ExperimentQueueRunner)
      ensures this.inputs == inputs && this.runner == runner
    {
      this.inputs, this.runner := inputs, runner;
    }

    /** The spectrum procedure in FVB mode, the image procedure otherwise. */
    function ProcedureClass(): (k: ProcedureKind)
      reads inputs`readMode
      ensures k == SpectrumProcedure <==> inputs.readMode == "fvb"
      ensures k == ImageProcedure <==> inputs.readMode != "fvb"
    {
      if inputs.readMode == "fvb" then SpectrumProcedure else ImageProcedure
    }

    /** The sequenceable names: accumulations in FVB mode, vbin otherwise, after the four common ones. */
    function SequenceableInputs(): (names: seq<string>)
      reads inputs`readMode
      ensures |names| == 5
      ensures names[..4] == ["exposure_time", "center_wavelength", "grating", "hbin"]
      ensures "num_accumulations" in names <==> inputs.readMode == "fvb"
      ensures "vbin" in names <==> inputs.readMode != "fvb"
    {
      if inputs.readMode == "fvb" then FvbInputs else ImageInputs
    }

    /**
     * A procedure from the form, at the connected spectrograph's wavelength
     * and grating, or at 500 nm on grating 1 when there is no spectrograph.
     */
    function MakeProcedure(spectrograph: AndorSpectrograph?): (p: QueuedProcedure)
      requires spectrograph != null ==> spectrograph.Valid()
      reads inputs`readMode, inputs`exposureTime, inputs`hbin, inputs`numAccumulations, inputs`vbin
      reads spectrograph, if spectrograph != null && spectrograph.sdk != null then {spectrograph.sdk} else {}
      ensures p.kind == ProcedureClass()
      ensures spectrograph == null ==> p.centerWavelength == Some(DefaultWavelength) && p.grating == Some(DefaultGrating)
      ensures spectrograph != null ==>
        p.centerWavelength == Some(spectrograph.Wavelength()) && p.grating == Some(spectrograph.Grating())
      ensures p.numAccumulations.Some? <==> "num_accumulations" in SequenceableInputs()
      ensures p.vbin.Some? <==> "vbin" in SequenceableInputs()
    {
      if spectrograph != null then inputs.CreateProcedure(spectrograph.Wavelength(), spectrograph.Grating())
      else inputs.CreateProcedure(DefaultWavelength, DefaultGrating)
    }

    /**
     * Appends `procedure`, or one made from the form when None, to the
     * runner's queue: exactly one entry, and the queue is not started.
     */
    method Queue(procedure: Option<QueuedProcedure>, spectrograph: AndorSpectrograph?)
      requires runner.Valid()
      requires spectrograph != null ==> spectrograph.Valid()
      modifies runner`queue, runner`nextIndex
      ensures runner.Valid()
      ensures procedure.Some? ==> runner.queue == old(runner.queue) + [(old(runner.nextIndex), procedure.value)]
      ensures procedure.None? ==> runner.queue == old(runner.queue) + [(old(runner.nextIndex), MakeProcedure(spectrograph))]
      ensures runner.nextIndex == old(runner.nextIndex) + 1
      ensures runner.isRunning == old(runner.isRunning)
    {
      var p := if procedure.Some? then procedure.value else MakeProcedure(spectrograph);
      var idx := runner.Add(p);
    }
  }
}
