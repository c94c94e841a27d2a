// The acquisition-parameter form of the Qt application: a read-mode combo
// box and four spin boxes. The read mode decides which of the two binning /
// accumulation fields is shown, reported and copied into a procedure.
module DynamicInputs {
  import opened Wrappers
  import opened ExperimentQueue

  /** The spin-box ranges. */
  const ExposureMin := 0.001
  const ExposureMax := 600.0
  const AccumulationsMax := 1000
  const BinningMax := 16

  /** A value of the parameters dictionary. */
  datatype Value = Text(text: string) | Real(r: real) | Int(i: int)

  class DynamicInputsWidget {
    var readMode: string
    var exposureTime: real
    var numAccumulations: int
    var hbin: int
    var vbin: int
    var vbinVisible: bool
    var accumulationsVisible: bool

    /** Every spin box holds a value in its range; the combo offers "fvb" and "image" only. */
    ghost predicate Valid()
      reads this
    {
      readMode in {"fvb", "image"} &&
      ExposureMin <= exposureTime <= ExposureMax &&
      1 <= numAccumulations <= AccumulationsMax &&
      1 <= hbin <= BinningMax && 1 <= vbin <= BinningMax &&
      vbinVisible == (readMode == "image") && accumulationsVisible == (readMode != "image")
    }

    /** The form as first shown: FVB, 0.1 s, one accumulation, no binning. */
    constructor ()
      ensures Valid()
      ensures readMode == "fvb" && exposureTime == 0.1 && numAccumulations == 1 && hbin == 1 && vbin == 1
    {
      readMode, exposureTime, numAccumulations, hbin, vbin := "fvb", 0.1, 1, 1, 1;
      vbinVisible, accumulationsVisible := false, true;
    }

    /** Choosing entry `index` of the read-mode combo (0 FVB, 1 image) and updating which fields show. */
    method ChooseReadMode(index: int)
      requires index == 0 || index == 1
      requires Valid()
      modifies this`readMode, this`vbinVisible, this`accumulationsVisible
      ensures Valid()
      ensures readMode == (if index == 0 then "fvb" else "image")
      ensures vbinVisible <==> index == 1
      ensures accumulationsVisible <==> index == 0
    {
      readMode := if index == 0 then "fvb" else "image";
      var image := readMode == "image";
      vbinVisible, accumulationsVisible := image, !image;
    }

    /** Stores an exposure through its spin box, which clamps it to 0.001..600 s. */
    method SetExposureTime(value: real)
      requires Valid()
      modifies this`exposureTime
      ensures Valid()
      ensures ExposureMin <= value <= ExposureMax ==> exposureTime == value
      ensures value < ExposureMin ==> exposureTime == ExposureMin
      ensures value > ExposureMax ==> exposureTime == ExposureMax
    {
      exposureTime := Clamp(value, ExposureMin, ExposureMax);
    }

    method SetHbin(value: int)
      requires Valid()
      modifies this`hbin
      ensures Valid()
      ensures hbin == ClampInt(value, 1, BinningMax)
    {
      hbin := ClampInt(value, 1, BinningMax);
    }

    method SetVbin(value: int)
      requires Valid()
      modifies this`vbin
      ensures Valid()
      ensures vbin == ClampInt(value, 1, BinningMax)
    {
      vbin := ClampInt(value, 1, BinningMax);
    }

    /** Typing `value` into the accumulations spin box, which clamps it to 1..1000. */
    method EnterAccumulations(value: int)
      requires Valid()
      modifies this`numAccumulations
      ensures Valid()
      ensures numAccumulations == ClampInt(value, 1, AccumulationsMax)
    {
      numAccumulations := ClampInt(value, 1, AccumulationsMax);
    }

    /**
     * The current parameters: read mode, exposure and hbin always; the
     * accumulations in FVB mode and vbin otherwise, never both.
     */
    function GetParameters(): (m: map<string, Value>)
      reads this`readMode, this`exposureTime, this`hbin, this`numAccumulations, this`vbin
      ensures {"read_mode", "exposure_time", "hbin"} <= m.Keys
      ensures m["read_mode"] == Text(readMode) && m["exposure_time"] == Real(exposureTime) && m["hbin"] == Int(hbin)
      ensures "num_accumulations" in m <==> readMode == "fvb"
      ensures "vbin" in m <==> readMode != "fvb"
      ensures "num_accumulations" in m ==> m["num_accumulations"] == Int(numAccumulations)
      ensures "vbin" in m ==> m["vbin"] == Int(vbin)
      ensures |m.Keys| == 4
    {
      var common := map["read_mode" := Text(readMode), "exposure_time" := Real(exposureTime), "hbin" := Int(hbin)];
      if readMode == "fvb" then common["num_accumulations" := Int(numAccumulations)]
      else common["vbin" := Int(vbin)]
    }

    /**
     * A procedure from the current values: a spectrum procedure carrying the
     * accumulations in FVB mode, an image procedure carrying vbin otherwise;
     * both carry exposure, wavelength, grating and hbin, and their
     * delay position keeps its default of 0.
     */
    function CreateProcedure(centerWavelength: real, grating: int): (p: QueuedProcedure)
      reads this`readMode, this`exposureTime, this`hbin, this`numAccumulations, this`vbin
      ensures p.kind == SpectrumProcedure <==> readMode == "fvb"
      ensures p.kind == ImageProcedure <==> readMode != "fvb"
      ensures p.exposureTime == Some(exposureTime) && p.centerWavelength == Some(centerWavelength)
      ensures p.grating == Some(grating) && p.hbin == Some(hbin) && p.delayPosition == Some(0.0)
      ensures p.numAccumulations.Some? <==> readMode == "fvb"
      ensures p.vbin.Some? <==> readMode != "fvb"
      ensures p.numAccumulations.Some? ==> p.numAccumulations.value == numAccumulations
      ensures p.vbin.Some? ==> p.vbin.value == vbin
    {
      if readMode == "fvb" then
        QueuedProcedure(SpectrumProcedure, Some(exposureTime), Some(centerWavelength), Some(grating),
                        Some(hbin), None, Some(numAccumulations), Some(0.0))
      else
        QueuedProcedure(ImageProcedure, Some(exposureTime), Some(centerWavelength), Some(grating),
                        Some(hbin), Some(vbin), None, Some(0.0))
    }
  }

  /** The procedure carries exactly the mode-specific parameter the dictionary reports. */
  lemma {:induction false} ProcedureMatchesParameters(w: DynamicInputsWidget, wl: real, g: int)
    ensures var m := w.GetParameters(); var p := w.CreateProcedure(wl, g);
      ("num_accumulations" in m <==> p.numAccumulations.Some?) &&
      ("vbin" in m <==> p.vbin.Some?) &&
      ("num_accumulations" in m ==> m["num_accumulations"] == Int(p.numAccumulations.value)) &&
      ("vbin" in m ==> m["vbin"] == Int(p.vbin.value)) &&
      m["exposure_time"] == Real(p.exposureTime.value) && m["hbin"] == Int(p.hbin.value)
  {
  }
}
