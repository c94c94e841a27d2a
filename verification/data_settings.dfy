// The data-settings panel: where acquired spectra are saved and under
// which name. The widget's text fields, combo boxes, spin box and check box
// are the fields of one object; the filesystem is the set of paths that
// already exist, and the current time is a timestamp string handed in.
module DataSettings {
  import opened Wrappers

  /** The range of the counter spin box. */
  const CounterMin := 1
  const CounterMax := 99999

  /** A path as a directory and a file name inside it. */
  datatype FilePath = FilePath(directory: string, name: string)

  /** The value a spin box limited to 1..99999 holds after `setValue(v)`. */
  function SpinValue(v: int): (r: int)
    ensures CounterMin <= r <= CounterMax
    ensures CounterMin <= v <= CounterMax ==> r == v
    ensures v > CounterMax ==> r == CounterMax
    ensures v < CounterMin ==> r == CounterMin
  {
    ClampInt(v, CounterMin, CounterMax)
  }

  /** `<base>_<c zero-padded to three digits><ext>` in `dir`. */
  function CounterPath(dir: string, base: string, ext: string, c: nat): (p: FilePath)
    ensures p.directory == dir
    ensures |p.name| >= |base| + 4 + |ext|
    ensures p.name[..|base| + 1] == base + "_"
    ensures p.name[|p.name| - |ext|..] == ext
  {
    var name := base + "_" + Pad3(c) + ext;
    assert name[..|base| + 1] == base + "_";
    FilePath(dir, name)
  }

  /**
   * The smallest counter from `c` up to 99999 whose path does not exist,
   * or None when every one of them is taken.
   */
  function FirstFree(present: set<FilePath>, dir: string, base: string, ext: string, c: int): (r: Option<int>)
    requires CounterMin <= c <= CounterMax
    decreases CounterMax - c
    ensures r.Some? ==> c <= r.value <= CounterMax && CounterPath(dir, base, ext, r.value) !in present
    ensures r.Some? ==> forall k :: c <= k < r.value ==> CounterPath(dir, base, ext, k) in present
    ensures r.None? ==> forall k :: c <= k <= CounterMax ==> CounterPath(dir, base, ext, k) in present
  {
    if CounterPath(dir, base, ext, c) !in present then Some(c)
    else if c == CounterMax then None
    else FirstFree(present, dir, base, ext, c + 1)
  }

  /**
   * The first `steps` passes of the counter search as it is written: each
   * pass that finds the path taken stores counter+1 through the spin box,
   * which cannot go above 99999.
   */
  function SearchAsWritten(present: set<FilePath>, dir: string, base: string, ext: string, c: int, steps: nat): (r: Option<int>)
    requires CounterMin <= c <= CounterMax
    decreases steps
    ensures r.Some? ==> CounterMin <= r.value <= CounterMax && CounterPath(dir, base, ext, r.value) !in present
  {
    if steps == 0 then None
    else if CounterPath(dir, base, ext, c) !in present then Some(c)
    else SearchAsWritten(present, dir, base, ext, SpinValue(c + 1), steps - 1)
  }

  /**
   * With the last counter's file present, no number of passes of the
   * search as written ever returns: the spin box keeps the counter at 99999.
   */
  lemma {:induction false} AsWrittenNeverEnds(present: set<FilePath>, dir: string, base: string, ext: string, steps: nat)
    requires CounterPath(dir, base, ext, CounterMax) in present
    ensures SearchAsWritten(present, dir, base, ext, CounterMax, steps) == None
    decreases steps
  {
    if steps > 0 {
      assert SpinValue(CounterMax + 1) == CounterMax;
      AsWrittenNeverEnds(present, dir, base, ext, steps - 1);
    }
  }

  /** Below the clamp the search as written finds what FirstFree finds, given enough passes. */
  lemma {:induction false} AsWrittenFindsFirstFree(present: set<FilePath>, dir: string, base: string, ext: string, c: int, steps: nat)
    requires CounterMin <= c <= CounterMax
    requires FirstFree(present, dir, base, ext, c).Some?
    requires steps > FirstFree(present, dir, base, ext, c).value - c
    ensures SearchAsWritten(present, dir, base, ext, c, steps) == FirstFree(present, dir, base, ext, c)
    decreases steps
  {
    if CounterPath(dir, base, ext, c) in present {
      TakenStep(present, dir, base, ext, c, steps);
      AsWrittenFindsFirstFree(present, dir, base, ext, c + 1, steps - 1);
    }
  }

  /** A taken counter below the clamp sends both searches on to the next one. */
  lemma TakenStep(present: set<FilePath>, dir: string, base: string, ext: string, c: int, steps: nat)
    requires CounterMin <= c <= CounterMax
    requires CounterPath(dir, base, ext, c) in present
    requires FirstFree(present, dir, base, ext, c).Some?
    requires steps > FirstFree(present, dir, base, ext, c).value - c
    ensures c < CounterMax && steps > 0
    ensures FirstFree(present, dir, base, ext, c) == FirstFree(present, dir, base, ext, c + 1)
    ensures SearchAsWritten(present, dir, base, ext, c, steps) == SearchAsWritten(present, dir, base, ext, c + 1, steps - 1)
  {
  }

  class DataSettingsWidget {
    var directory: string
    var nameText: string
    var namingMode: string
    var counter: int
    var autoSave: bool
    var sampleId: string
    var operator: string
    var calibrationSource: string
    var calibrationFileText: string

    /** The spin box and the two combo boxes hold only values they offer. */
    ghost predicate Valid()
      reads this`counter, this`namingMode, this`calibrationSource
    {
      CounterMin <= counter <= CounterMax &&
      namingMode in {"counter", "timestamp"} &&
      calibrationSource in {"sdk", "file"}
    }

    /** The panel as first shown; `defaultDirectory` is the AndorData folder in the home directory. */
    constructor (defaultDirectory: string)
      ensures Valid()
      ensures directory == defaultDirectory && nameText == "spectrum" && namingMode == "counter" && counter == 1
      ensures autoSave && sampleId == "" && operator == ""
      ensures calibrationSource == "sdk" && calibrationFileText == ""
    {
      directory, nameText, namingMode, counter := defaultDirectory, "spectrum", "counter", 1;
      autoSave, sampleId, operator := true, "", "";
      calibrationSource, calibrationFileText := "sdk", "";
    }

    /** The base file name: the name field, or "spectrum" when it is empty. */
    function BaseName(): (b: string)
      reads this`nameText
      ensures |b| > 0
      ensures nameText != "" ==> b == nameText
      ensures nameText == "" ==> b == "spectrum"
    {
      if nameText != "" then nameText else "spectrum"
    }

    method SetBaseName(name: string)
      modifies this`nameText
      ensures nameText == name
    {
      nameText := name;
    }

    method SetDirectory(path: string)
      modifies this`directory
      ensures directory == path
    {
      directory := path;
    }

    /** Choosing entry `index` of the naming combo box: 0 is counter, 1 is timestamp. */
    method ChooseNamingMode(index: int)
      requires index == 0 || index == 1
      requires Valid()
      modifies this`namingMode
      ensures Valid()
      ensures namingMode == (if index == 0 then "counter" else "timestamp")
    {
      namingMode := if index == 0 then "counter" else "timestamp";
    }

    /** Stores `value` through the spin box, which clamps it to 1..99999. */
    method SetCounter(value: int)
      requires Valid()
      modifies this`counter
      ensures Valid()
      ensures counter == SpinValue(value)
      ensures CounterMin <= value <= CounterMax ==> counter == value
    {
      counter := SpinValue(value);
    }

    method SetAutoSave(enabled: bool)
      modifies this`autoSave
      ensures autoSave == enabled
    {
      autoSave := enabled;
    }

    method SetSampleId(value: string)
      modifies this`sampleId
      ensures sampleId == value
    {
      sampleId := value;
    }

    method SetOperator(value: string)
      modifies this`operator
      ensures operator == value
    {
      operator := value;
    }

    /** Selects the combo entry whose data is `source`; any other value leaves the selection alone. */
    method SetCalibrationSource(source: string)
      requires Valid()
      modifies this`calibrationSource
      ensures Valid()
      ensures source in {"sdk", "file"} ==> calibrationSource == source
      ensures source !in {"sdk", "file"} ==> calibrationSource == old(calibrationSource)
    {
      if source == "sdk" || source == "file" {
        calibrationSource := source;
      }
    }

    /** The calibration file path; None for an empty field. */
    function CalibrationFile(): (p: Option<string>)
      reads this`calibrationFileText
      ensures p.None? <==> calibrationFileText == ""
      ensures p.Some? ==> p.value == calibrationFileText && p.value != ""
    {
      if calibrationFileText != "" then Some(calibrationFileText) else None
    }

    /** Sets the calibration file path; None clears the field. */
    method SetCalibrationFile(path: Option<string>)
      modifies this`calibrationFileText
      ensures path.Some? ==> calibrationFileText == path.value
      ensures path.None? ==> calibrationFileText == ""
      ensures CalibrationFile() == (if path.Some? && path.value != "" then path else None)
    {
      calibrationFileText := if path.Some? then path.value else "";
    }

    /**
     * The path for the next saved file. In counter mode it is the first
     * counter from the current one whose path is not in `present`, and the
     * counter is left one past it; when every counter up to 99999 is taken
     * the search reports None instead of spinning at the limit. In
     * timestamp mode the name carries `timestamp` and the counter is
     * unchanged.
     */
    method GetNextFilepath(extension: string, present: set<FilePath>, timestamp: string) returns (p: Option<FilePath>)
      requires Valid()
      modifies this`counter
      ensures Valid()
      ensures namingMode == "timestamp" ==>
        p == Some(FilePath(directory, BaseName() + "_" + timestamp + extension)) && counter == old(counter)
      ensures namingMode == "counter" ==>
        var f := FirstFree(present, directory, BaseName(), extension, old(counter));
        (f.Some? ==> p == Some(CounterPath(directory, BaseName(), extension, f.value)) && counter == SpinValue(f.value + 1)) &&
        (f.None? ==> p == None && counter == CounterMax)
    {
      if namingMode != "counter" {
        return Some(FilePath(directory, BaseName() + "_" + timestamp + extension));
      }
      ghost var f := FirstFree(present, directory, BaseName(), extension, counter);
      while true
        invariant Valid() && namingMode == "counter"
        invariant old(counter) <= counter
        invariant FirstFree(present, directory, BaseName(), extension, counter) == f
        decreases CounterMax - counter
      {
        var path := CounterPath(directory, BaseName(), extension, counter);
        if path !in present {
          counter := SpinValue(counter + 1);
          return Some(path);
        }
        if counter == CounterMax {
          return None;
        }
        counter := SpinValue(counter + 1);
      }
    }

    /** The session metadata: exactly sample_id, operator and timestamp. */
    function Metadata(timestamp: string): (m: map<string, string>)
      reads this`sampleId, this`operator
      ensures m.Keys == {"sample_id", "operator", "timestamp"}
      ensures m["sample_id"] == sampleId && m["operator"] == operator && m["timestamp"] == timestamp
    {
      map["sample_id" := sampleId, "operator" := operator, "timestamp" := timestamp]
    }
  }

  /** Two successive counter-mode searches never return the same path once the first is saved. */
  lemma {:induction false} NextSearchSkipsSaved(present: set<FilePath>, dir: string, base: string, ext: string, c: int)
    requires CounterMin <= c <= CounterMax
    requires FirstFree(present, dir, base, ext, c).Some?
    ensures var k := FirstFree(present, dir, base, ext, c).value;
      var next := FirstFree(present + {CounterPath(dir, base, ext, k)}, dir, base, ext, SpinValue(k + 1));
      next.Some? ==> next.value > k
  {
    var k := FirstFree(present, dir, base, ext, c).value;
    if k == CounterMax {
      assert CounterPath(dir, base, ext, SpinValue(k + 1)) in present + {CounterPath(dir, base, ext, k)};
    }
  }
}
