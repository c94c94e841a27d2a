// The experiment queue of the Qt application: a FIFO of numbered procedures,
// the abort / abort-all / clear controls, and the runner loop that executes
// each procedure on the shared hardware and reports through signals, here an
// event log.  The background thread is the method `RunQueue`; GUI calls that
// race it are applied between two items.
module ExperimentQueue {
  import opened Wrappers
  import opened Spectra
  import opened Acquisition

  datatype ProcedureKind = SpectrumProcedure | ImageProcedure | OtherProcedure

  /** A queued procedure; an attribute it does not have is None. */
  datatype QueuedProcedure = QueuedProcedure(
    kind: ProcedureKind,
    exposureTime: Option<real>,
    centerWavelength: Option<real>,
    grating: Option<int>,
    hbin: Option<int>,
    vbin: Option<int>,
    numAccumulations: Option<int>,
    delayPosition: Option<real>)

  /** The parameters dict sent with a spectrum. */
  datatype SpectrumLabel = SpectrumLabel(
    exposureTime: real, centerWavelength: real, grating: int, delayPosition: real,
    numAccumulations: int, hbin: int)

  /** The parameters dict sent with an image. */
  datatype ImageLabel = ImageLabel(
    exposureTime: real, centerWavelength: real, grating: int, delayPosition: real,
    hbin: int, vbin: int)

  /** The runner's signals. */
  datatype QueueEvent =
    | ProcedureStarted(index: nat, procedure: QueuedProcedure)
    | ProcedureCompleted(index: nat)
    | ProcedureFailed(index: nat, error: Error)
    | QueueProgress(done: nat, total: nat)
    | QueueCompleted
    | SpectrumReady(wavelengths: seq<real>, intensities: seq<real>, spectrumLabel: SpectrumLabel)
    | ImageReady(image: Image, imageWavelengths: seq<real>, imageLabel: ImageLabel)

  // ---------------------------------------------------------------------
  // Executing one procedure

  /** The hardware calls `_execute_procedure` makes before it acquires, given that none raises. */
  function SetupCalls(p: QueuedProcedure, rig: Rig): (r: seq<Call>)
    ensures |r| >= 1
    ensures r[|r| - 1] == (if p.exposureTime.Some? then SetExposure(p.exposureTime.value)
                           else CalibrateBinned(GetOr(p.hbin, 1)))
  {
    Configure(p, rig) + (if p.exposureTime.Some? then [SetExposure(p.exposureTime.value)] else [])
  }

  /** The calls before the exposure: delay axis, grating, wavelength (each when present), calibration. */
  function Configure(p: QueuedProcedure, rig: Rig): (r: seq<Call>)
    ensures |r| >= 1 && r[|r| - 1] == CalibrateBinned(GetOr(p.hbin, 1))
    ensures MoveDelayAxis(GetOr(p.delayPosition, 0.0)) in r <==> p.delayPosition.Some? && rig.hasDelayAxis
    ensures SetGrating(GetOr(p.grating, 0)) in r <==> p.grating.Some?
    ensures SetWavelength(GetOr(p.centerWavelength, 0.0)) in r <==> p.centerWavelength.Some?
  {
    DelayPart(p, rig) + GratingPart(p) + WavelengthPart(p) + [CalibrateBinned(GetOr(p.hbin, 1))]
  }

  function DelayPart(p: QueuedProcedure, rig: Rig): seq<Call>
  {
    if p.delayPosition.Some? && rig.hasDelayAxis then [MoveDelayAxis(p.delayPosition.value)] else []
  }

  function GratingPart(p: QueuedProcedure): seq<Call>
  {
    if p.grating.Some? then [SetGrating(p.grating.value)] else []
  }

  function WavelengthPart(p: QueuedProcedure): seq<Call>
  {
    if p.centerWavelength.Some? then [SetWavelength(p.centerWavelength.value)] else []
  }

  /** No call at a position below `n` raises. */
  predicate NoFaultBelow(rig: Rig, n: nat)
  {
    rig.failAt.None? || rig.failAt.value >= n
  }

  /** A call at position `n` that does not raise extends the fault-free prefix by one. */
  lemma {:induction false} NoFaultStep(rig: Rig, n: nat)
    requires NoFaultBelow(rig, n) && !FailsAt(rig, n)
    ensures NoFaultBelow(rig, n + 1)
  {
  }

  function SpectrumLabelOf(p: QueuedProcedure): SpectrumLabel
    requires p.exposureTime.Some?
  {
    SpectrumLabel(p.exposureTime.value, GetOr(p.centerWavelength, 0.0), GetOr(p.grating, 1),
                  GetOr(p.delayPosition, 0.0), GetOr(p.numAccumulations, 1), GetOr(p.hbin, 1))
  }

  function ImageLabelOf(p: QueuedProcedure): ImageLabel
    requires p.exposureTime.Some?
  {
    ImageLabel(p.exposureTime.value, GetOr(p.centerWavelength, 0.0), GetOr(p.grating, 1),
               GetOr(p.delayPosition, 0.0), GetOr(p.hbin, 1), GetOr(p.vbin, 1))
  }

  /**
   * The configuration half of `_execute_procedure`: move the delay axis (when
   * the procedure has a delay and there is a delay axis), set grating and
   * wavelength when present, calibrate with the procedure's binning, then set
   * the exposure, which every procedure must have.
   */
  method Setup(p: QueuedProcedure, rig: Rig) returns (r: Result<()>, calls: seq<Call>)
    ensures |calls| <= |SetupCalls(p, rig)| && calls == SetupCalls(p, rig)[..|calls|]
    ensures r.Ok? <==> NoFaultBelow(rig, |SetupCalls(p, rig)|) && p.exposureTime.Some?
    ensures r.Ok? ==> calls == SetupCalls(p, rig)
    ensures r.Err? && NoFaultBelow(rig, |SetupCalls(p, rig)|) ==> r.error == AttributeError
  {
    var r0;
    r0, calls := Configuring(p, rig);
    assert SetupCalls(p, rig)[..|Configure(p, rig)|] == Configure(p, rig);
    if r0.Err? { return r0, calls; }
    if p.exposureTime.None? { return Err(AttributeError), calls; }
    calls := calls + [SetExposure(p.exposureTime.value)];
    if FailsAt(rig, |calls| - 1) { return Err(rig.fault), calls; }
    r := Ok(());
  }

  /** The calls of `Configure` up to the first that raises. */
  method Configuring(p: QueuedProcedure, rig: Rig) returns (r: Result<()>, calls: seq<Call>)
    ensures |calls| <= |Configure(p, rig)| && calls == Configure(p, rig)[..|calls|]
    ensures r.Ok? <==> NoFaultBelow(rig, |Configure(p, rig)|)
    ensures r.Ok? ==> calls == Configure(p, rig)
  {
    ghost var d, g, w := DelayPart(p, rig), GratingPart(p), WavelengthPart(p);
    Prefixes(d, g, w, CalibrateBinned(GetOr(p.hbin, 1)));
    calls := [];
    if p.delayPosition.Some? && rig.hasDelayAxis {
      calls := [MoveDelayAxis(p.delayPosition.value)];
      if FailsAt(rig, 0) { return Err(rig.fault), calls; }
      NoFaultStep(rig, 0);
    }
    assert calls == d;
    if p.grating.Some? {
      calls := calls + [SetGrating(p.grating.value)];
      if FailsAt(rig, |calls| - 1) { return Err(rig.fault), calls; }
      NoFaultStep(rig, |calls| - 1);
    }
    assert calls == d + g;
    if p.centerWavelength.Some? {
      calls := calls + [SetWavelength(p.centerWavelength.value)];
      if FailsAt(rig, |calls| - 1) { return Err(rig.fault), calls; }
      NoFaultStep(rig, |calls| - 1);
    }
    assert calls == d + g + w;
    calls := calls + [CalibrateBinned(GetOr(p.hbin, 1))];
    if FailsAt(rig, |calls| - 1) { return Err(rig.fault), calls; }
    NoFaultStep(rig, |calls| - 1);
    r := Ok(());
  }

  /** The prefixes of the four parts of `Configure`, each part possibly empty. */
  lemma {:induction false} Prefixes(d: seq<Call>, g: seq<Call>, w: seq<Call>, c: Call)
    ensures (d + g + w + [c])[..|d|] == d && (d + g + w + [c])[..|d + g|] == d + g
    ensures (d + g + w + [c])[..|d + g + w|] == d + g + w
    ensures [] + g == g && [] + g + w == g + w && d + [] == d && d + g + [] == d + g
  {
    assert (d + g + w + [c])[..|d|] == d;
    assert (d + g + w + [c])[..|d + g|] == d + g;
    assert (d + g + w + [c])[..|d + g + w|] == d + g + w;
    assert [] + g == g && [] + g + w == g + w && d + [] == d && d + g + [] == d + g;
  }

  /** Spectra are binned by the procedure's `hbin` and averaged over `num_accumulations`. */
  ghost predicate SpectrumFits(p: QueuedProcedure, rig: Rig)
  {
    var n := GetOr(p.numAccumulations, 1);
    var hbin := GetOr(p.hbin, 1);
    n > 1 ==> hbin != 0 && PyDiv(rig.xpixels, hbin) >= 0 && AllBroadcastable(PyDiv(rig.xpixels, hbin), Acquired(rig, n))
  }

  /**
   * `_execute_procedure`: configure, then acquire by procedure type.  The
   * result is the data signal it emits, or the exception that escapes.
   */
  method ExecuteProcedure(p: QueuedProcedure, rig: Rig) returns (r: Result<QueueEvent>, calls: seq<Call>)
    ensures r.Ok? ==> p.exposureTime.Some? && p.kind != OtherProcedure && NoFaultBelow(rig, |SetupCalls(p, rig)|)
    ensures |calls| <= |SetupCalls(p, rig)| ==> calls == SetupCalls(p, rig)[..|calls|]
    ensures |calls| > |SetupCalls(p, rig)| ==> calls[..|SetupCalls(p, rig)|] == SetupCalls(p, rig)
    ensures NoFaultBelow(rig, |SetupCalls(p, rig)|) && p.exposureTime.None? ==> r == Err(AttributeError)
    ensures NoFaultBelow(rig, |SetupCalls(p, rig)|) && p.exposureTime.Some? && p.kind == OtherProcedure
      ==> r == Err(TypeError)
    ensures r.Ok? && p.kind == ImageProcedure ==>
      r.value == ImageReady(rig.image(0), rig.calibration(0), ImageLabelOf(p))
      && calls == SetupCalls(p, rig) + [AcquireImage(GetOr(p.hbin, 1), GetOr(p.vbin, 1))]
    ensures r.Ok? && p.kind == SpectrumProcedure ==>
      var n := GetOr(p.numAccumulations, 1);
      var hbin := GetOr(p.hbin, 1);
      SpectrumFits(p, rig)
      && r.value == SpectrumReady(rig.calibration(0),
                                  if n > 1 then Mean(Acquired(rig, n), PyDiv(rig.xpixels, hbin)) else rig.fvb(0),
                                  SpectrumLabelOf(p))
      && calls == SetupCalls(p, rig) + Repeated(AcquireFvb(hbin), if n > 1 then n else 1)
    ensures rig.failAt.None? && p.exposureTime.Some? && p.kind == SpectrumProcedure && SpectrumFits(p, rig)
      ==> r.Ok?
    ensures rig.failAt.None? && p.exposureTime.Some? && p.kind == ImageProcedure ==> r.Ok?
  {
    var setup;
    setup, calls := Setup(p, rig);
    if setup.Err? { return Err(setup.error), calls; }
    var hbin := GetOr(p.hbin, 1);
    var calibration := rig.calibration(0);
    match p.kind {
      case SpectrumProcedure =>
        var data;
        data, calls := AcquireSpectrum(rig, GetOr(p.numAccumulations, 1), hbin, calls);
        if data.Err? { return Err(data.error), calls; }
        r := Ok(SpectrumReady(calibration, data.value, SpectrumLabelOf(p)));
      case ImageProcedure =>
        calls := calls + [AcquireImage(hbin, GetOr(p.vbin, 1))];
        if FailsAt(rig, |calls| - 1) { return Err(rig.fault), calls; }
        r := Ok(ImageReady(rig.image(0), calibration, ImageLabelOf(p)));
      case OtherProcedure =>
        r := Err(TypeError);
    }
  }

  /** `_acquire_spectrum`: n accumulated acquisitions when n > 1, else one. */
  method AcquireSpectrum(rig: Rig, n: int, hbin: int, calls0: seq<Call>) returns (r: Result<seq<real>>, calls: seq<Call>)
    requires NoFaultBelow(rig, |calls0|)
    ensures |calls0| <= |calls| && calls[..|calls0|] == calls0
    ensures calls[|calls0|..] == Repeated(AcquireFvb(hbin), |calls| - |calls0|)
    ensures r.Ok? ==> |calls| == |calls0| + (if n > 1 then n else 1) && NoFaultBelow(rig, |calls|)
    ensures r.Ok? && n <= 1 ==> r.value == rig.fvb(0)
    ensures r.Ok? && n > 1 ==>
      hbin != 0 && PyDiv(rig.xpixels, hbin) >= 0 && AllBroadcastable(PyDiv(rig.xpixels, hbin), Acquired(rig, n))
      && r.value == Mean(Acquired(rig, n), PyDiv(rig.xpixels, hbin))
    ensures rig.failAt.None?
      && (n > 1 ==> hbin != 0 && PyDiv(rig.xpixels, hbin) >= 0 && AllBroadcastable(PyDiv(rig.xpixels, hbin), Acquired(rig, n)))
      ==> r.Ok?
  {
    if n > 1 {
      if hbin == 0 { return Err(ZeroDivisionError), calls0; }
      var eff := PyDiv(rig.xpixels, hbin);
      // `np.zeros` of a negative length raises ValueError.
      if eff < 0 { return Err(ValueError), calls0; }
      r, calls := Accumulate(rig, n, eff, hbin, calls0);
    } else {
      calls := calls0 + [AcquireFvb(hbin)];
      if FailsAt(rig, |calls| - 1) { return Err(rig.fault), calls; }
      r := Ok(rig.fvb(0));
    }
  }

  /**
   * The accumulation loop of `_acquire_spectrum`: n acquisitions with the
   * procedure's binning added into `len` zeros, then divided by n.
   */
  method Accumulate(rig: Rig, n: nat, len: nat, hbin: int, calls0: seq<Call>) returns (r: Result<seq<real>>, calls: seq<Call>)
    requires n > 1 && NoFaultBelow(rig, |calls0|)
    ensures |calls0| <= |calls| <= |calls0| + n
    ensures calls == calls0 + Repeated(AcquireFvb(hbin), |calls| - |calls0|)
    ensures r.Ok? <==> |calls| == |calls0| + n && NoFaultBelow(rig, |calls|) && AllBroadcastable(len, Acquired(rig, n))
    ensures r.Ok? ==> r.value == Mean(Acquired(rig, n), len)
    ensures r.Err? && rig.failAt.None? ==> r.error == ValueError
    ensures NoFaultBelow(rig, |calls0| + n) && AllBroadcastable(len, Acquired(rig, n)) ==> r.Ok?
  {
    var acc := Zeros(len);
    calls := calls0;
    ghost var rows: seq<seq<real>> := [];
    assert acc == Sums(rows, len);
    var i := 0;
    while i < n
      invariant 0 <= i <= n
      invariant calls == calls0 + Repeated(AcquireFvb(hbin), i)
      invariant NoFaultBelow(rig, |calls|)
      invariant rows == Acquired(rig, i) && AllBroadcastable(len, rows)
      invariant acc == Sums(rows, len)
    {
      calls := calls + [AcquireFvb(hbin)];
      if FailsAt(rig, |calls| - 1) {
        return Err(rig.fault), calls;
      }
      var data := rig.fvb(i);
      var next := AddInto(acc, data);
      if next.None? {
        assert Acquired(rig, n)[i] == data;
        return Err(ValueError), calls;
      }
      AddIntoSums(rows, len, data);
      acc, rows := next.value, rows + [data];
      assert rows == Acquired(rig, i + 1);
      i := i + 1;
    }
    r := Ok(Scale(acc, n));
  }

  // ---------------------------------------------------------------------
  // What one processed item reports

  /** One popped entry and how its execution ended. */
  datatype Processed = Processed(index: nat, procedure: QueuedProcedure, result: Result<QueueEvent>)

  /**
   * The signals for the j-th processed entry: started, then the data signal
   * and completed, or failed; then the progress (j+1, total).
   */
  function Block(pr: Processed, j: nat, total: nat): seq<QueueEvent>
  {
    [ProcedureStarted(pr.index, pr.procedure)]
    + (match pr.result
       case Ok(data) => [data, ProcedureCompleted(pr.index)]
       case Err(e) => [ProcedureFailed(pr.index, e)])
    + [QueueProgress(j + 1, total)]
  }

  /** The signals of a whole sequence of processed entries. */
  function Render(ps: seq<Processed>, total: nat): seq<QueueEvent>
  {
    if ps == [] then [] else Render(ps[..|ps| - 1], total) + Block(ps[|ps| - 1], |ps| - 1, total)
  }

  function Indices(ps: seq<Processed>): (r: seq<nat>)
    ensures |r| == |ps| && forall k :: 0 <= k < |ps| ==> r[k] == ps[k].index
  {
    if ps == [] then [] else Indices(ps[..|ps| - 1]) + [ps[|ps| - 1].index]
  }

  /** The progress reports (1, total), (2, total), …, (n, total). */
  function Counted(n: nat, total: nat): (r: seq<(nat, nat)>)
    ensures |r| == n && forall j :: 0 <= j < n ==> r[j] == (j + 1, total)
  {
    if n == 0 then [] else Counted(n - 1, total) + [(n, total)]
  }

  /** What one signal contributes to each of the four filters below. */
  function StartedOf(e: QueueEvent): seq<nat>
  {
    if e.ProcedureStarted? then [e.index] else []
  }

  function FinishedOf(e: QueueEvent): seq<nat>
  {
    if e.ProcedureCompleted? || e.ProcedureFailed? then [e.index] else []
  }

  function ProgressOf(e: QueueEvent): seq<(nat, nat)>
  {
    if e.QueueProgress? then [(e.done, e.total)] else []
  }

  function CompletedOf(e: QueueEvent): nat
  {
    if e == QueueCompleted then 1 else 0
  }

  /** The indices of the `procedure_started` signals, in order. */
  function Started(events: seq<QueueEvent>): seq<nat>
  {
    if events == [] then [] else Started(events[..|events| - 1]) + StartedOf(events[|events| - 1])
  }

  /** The indices of the `procedure_completed` and `procedure_failed` signals, in order. */
  function Finished(events: seq<QueueEvent>): seq<nat>
  {
    if events == [] then [] else Finished(events[..|events| - 1]) + FinishedOf(events[|events| - 1])
  }

  /** The `queue_progress` signals, in order. */
  function ProgressReports(events: seq<QueueEvent>): seq<(nat, nat)>
  {
    if events == [] then [] else ProgressReports(events[..|events| - 1]) + ProgressOf(events[|events| - 1])
  }

  /** The number of `queue_completed` signals. */
  function CompletedSignals(events: seq<QueueEvent>): nat
  {
    if events == [] then 0 else CompletedSignals(events[..|events| - 1]) + CompletedOf(events[|events| - 1])
  }

  /** One more signal adds exactly its own contribution to each filter. */
  lemma {:induction false} Snoc(a: seq<QueueEvent>, e: QueueEvent)
    ensures Started(a + [e]) == Started(a) + StartedOf(e)
    ensures Finished(a + [e]) == Finished(a) + FinishedOf(e)
    ensures ProgressReports(a + [e]) == ProgressReports(a) + ProgressOf(e)
    ensures CompletedSignals(a + [e]) == CompletedSignals(a) + CompletedOf(e)
  {
    assert (a + [e])[..|a|] == a;
  }

  /** Dropping the last element of `a + b` drops it from `b`. */
  lemma {:induction false} DropLast(a: seq<QueueEvent>, b: seq<QueueEvent>)
    requires b != []
    ensures (a + b)[..|a + b| - 1] == a + b[..|b| - 1]
  {
    assert (a + b)[..|a + b| - 1] == a + b[..|b| - 1];
  }

  /** The four filters distribute over concatenation. */
  lemma {:induction false} FiltersSplit(a: seq<QueueEvent>, b: seq<QueueEvent>)
    ensures Started(a + b) == Started(a) + Started(b)
    ensures Finished(a + b) == Finished(a) + Finished(b)
    ensures ProgressReports(a + b) == ProgressReports(a) + ProgressReports(b)
    ensures CompletedSignals(a + b) == CompletedSignals(a) + CompletedSignals(b)
  {
    StartedSplit(a, b);
    FinishedSplit(a, b);
    ProgressSplit(a, b);
    CompletedSplit(a, b);
  }

  lemma {:induction false} StartedSplit(a: seq<QueueEvent>, b: seq<QueueEvent>)
    ensures Started(a + b) == Started(a) + Started(b)
    decreases |b|
  {
    if b == [] {
      assert a + b == a;
    } else {
      var init := b[..|b| - 1];
      StartedSplit(a, init);
      DropLast(a, b);
    }
  }

  lemma {:induction false} FinishedSplit(a: seq<QueueEvent>, b: seq<QueueEvent>)
    ensures Finished(a + b) == Finished(a) + Finished(b)
    decreases |b|
  {
    if b == [] {
      assert a + b == a;
    } else {
      var init := b[..|b| - 1];
      FinishedSplit(a, init);
      DropLast(a, b);
    }
  }

  lemma {:induction false} ProgressSplit(a: seq<QueueEvent>, b: seq<QueueEvent>)
    ensures ProgressReports(a + b) == ProgressReports(a) + ProgressReports(b)
    decreases |b|
  {
    if b == [] {
      assert a + b == a;
    } else {
      var init := b[..|b| - 1];
      ProgressSplit(a, init);
      DropLast(a, b);
    }
  }

  lemma {:induction false} CompletedSplit(a: seq<QueueEvent>, b: seq<QueueEvent>)
    ensures CompletedSignals(a + b) == CompletedSignals(a) + CompletedSignals(b)
    decreases |b|
  {
    if b == [] {
      assert a + b == a;
    } else {
      var init := b[..|b| - 1];
      CompletedSplit(a, init);
      DropLast(a, b);
    }
  }

  /** The data signal of a processed entry is never a runner signal. */
  predicate DataSignal(e: QueueEvent)
  {
    e.SpectrumReady? || e.ImageReady?
  }

  lemma {:induction false} BlockShape(pr: Processed, j: nat, total: nat)
    requires pr.result.Ok? ==> DataSignal(pr.result.value)
    ensures Started(Block(pr, j, total)) == [pr.index]
    ensures Finished(Block(pr, j, total)) == [pr.index]
    ensures ProgressReports(Block(pr, j, total)) == [(j + 1, total)]
    ensures CompletedSignals(Block(pr, j, total)) == 0
  {
    var s := ProcedureStarted(pr.index, pr.procedure);
    var p := QueueProgress(j + 1, total);
    if pr.result.Ok? {
      var d := pr.result.value;
      assert Block(pr, j, total) == [s, d, ProcedureCompleted(pr.index), p];
      assert StartedOf(d) == [] && FinishedOf(d) == [] && ProgressOf(d) == [] && CompletedOf(d) == 0;
      FourShape(s, d, ProcedureCompleted(pr.index), p);
    } else {
      assert Block(pr, j, total) == [s, ProcedureFailed(pr.index, pr.result.error), p];
      ThreeShape(s, ProcedureFailed(pr.index, pr.result.error), p);
    }
  }

  /** A single signal is counted by exactly its own filter. */
  lemma {:induction false} Single(e: QueueEvent)
    ensures Started([e]) == StartedOf(e) && Finished([e]) == FinishedOf(e)
    ensures ProgressReports([e]) == ProgressOf(e) && CompletedSignals([e]) == CompletedOf(e)
  {
    assert [e][..0] == [];
  }

  lemma {:induction false} ThreeShape(a: QueueEvent, b: QueueEvent, c: QueueEvent)
    ensures Started([a, b, c]) == StartedOf(a) + StartedOf(b) + StartedOf(c)
    ensures Finished([a, b, c]) == FinishedOf(a) + FinishedOf(b) + FinishedOf(c)
    ensures ProgressReports([a, b, c]) == ProgressOf(a) + ProgressOf(b) + ProgressOf(c)
    ensures CompletedSignals([a, b, c]) == CompletedOf(a) + CompletedOf(b) + CompletedOf(c)
  {
    Single(a);
    Snoc([a], b);
    assert [a] + [b] == [a, b];
    Snoc([a, b], c);
    assert [a, b] + [c] == [a, b, c];
  }

  lemma {:induction false} FourShape(a: QueueEvent, b: QueueEvent, c: QueueEvent, d: QueueEvent)
    ensures Started([a, b, c, d]) == StartedOf(a) + StartedOf(b) + StartedOf(c) + StartedOf(d)
    ensures Finished([a, b, c, d]) == FinishedOf(a) + FinishedOf(b) + FinishedOf(c) + FinishedOf(d)
    ensures ProgressReports([a, b, c, d]) == ProgressOf(a) + ProgressOf(b) + ProgressOf(c) + ProgressOf(d)
    ensures CompletedSignals([a, b, c, d]) == CompletedOf(a) + CompletedOf(b) + CompletedOf(c) + CompletedOf(d)
  {
    ThreeShape(a, b, c);
    Snoc([a, b, c], d);
    assert [a, b, c] + [d] == [a, b, c, d];
  }

  /**
   * Each processed entry yields exactly one started and one completed-or-failed
   * signal, in processing order, and progress (1, total), (2, total), …;
   * `queue_completed` never appears inside.
   */
  lemma {:induction false} RenderShape(ps: seq<Processed>, total: nat)
    requires forall k :: 0 <= k < |ps| && ps[k].result.Ok? ==> DataSignal(ps[k].result.value)
    ensures Started(Render(ps, total)) == Indices(ps)
    ensures Finished(Render(ps, total)) == Indices(ps)
    ensures ProgressReports(Render(ps, total)) == Counted(|ps|, total)
    ensures CompletedSignals(Render(ps, total)) == 0
  {
    if ps != [] {
      var front := ps[..|ps| - 1];
      RenderShape(front, total);
      BlockShape(ps[|ps| - 1], |ps| - 1, total);
      FiltersSplit(Render(front, total), Block(ps[|ps| - 1], |ps| - 1, total));
    }
  }

  // ---------------------------------------------------------------------
  // The runner

  /** A GUI call made while the runner thread is between two entries. */
  datatype Control = NoControl | AbortControl | AbortAllControl | ClearControl | AddControl(p: QueuedProcedure) | RunControl

  /** The indices of the queue entries are strictly increasing from head to tail. */
  predicate IncreasingQueue(queue: seq<(nat, QueuedProcedure)>)
  {
    forall i, j :: 0 <= i < j < |queue| ==> queue[i].0 < queue[j].0
  }

  predicate IncreasingIndices(ps: seq<Processed>)
  {
    forall i, j :: 0 <= i < j < |ps| ==> ps[i].index < ps[j].index
  }

  predicate IndicesBelow(ps: seq<Processed>, bound: nat)
  {
    forall i :: 0 <= i < |ps| ==> ps[i].index < bound
  }

  /** A successful entry was a spectrum or image procedure and produced its data signal. */
  predicate DataOnSuccess(ps: seq<Processed>)
  {
    forall i :: 0 <= i < |ps| && ps[i].result.Ok? ==>
      DataSignal(ps[i].result.value) && ps[i].procedure.kind != OtherProcedure
  }

  /** The entries were processed in queue order, from its head. */
  predicate FollowsQueue(ps: seq<Processed>, queue: seq<(nat, QueuedProcedure)>)
  {
    |ps| <= |queue| && forall i :: 0 <= i < |ps| ==> ps[i].index == queue[i].0 && ps[i].procedure == queue[i].1
  }

  /** Processing the head of an increasing queue keeps the processed indices increasing. */
  lemma {:induction false} AppendProcessed(ps: seq<Processed>, pr: Processed, total: nat, queue: seq<(nat, QueuedProcedure)>)
    requires queue != [] && IncreasingQueue(queue) && IndicesBelow(ps, queue[0].0)
    requires pr.index == queue[0].0 && IncreasingIndices(ps)
    ensures IncreasingIndices(ps + [pr])
    ensures queue[1..] != [] ==> IndicesBelow(ps + [pr], queue[1..][0].0)
    ensures Render(ps + [pr], total) == Render(ps, total) + Block(pr, |ps|, total)
  {
    assert (ps + [pr])[..|ps|] == ps;
    if |queue| > 1 {
      assert queue[0].0 < queue[1].0;
    }
  }

  /** An entry below a bound keeps all processed indices below it. */
  lemma {:induction false} BelowAppend(ps: seq<Processed>, pr: Processed, bound: nat)
    requires IndicesBelow(ps, bound) && pr.index < bound
    ensures IndicesBelow(ps + [pr], bound)
  {
    forall i | 0 <= i < |ps| + 1
      ensures (ps + [pr])[i].index < bound
    {
      if i < |ps| {
        assert (ps + [pr])[i] == ps[i];
      }
    }
  }

  /** Processing the next queue entry keeps the processed entries in queue order. */
  lemma {:induction false} FollowsAppend(ps: seq<Processed>, pr: Processed, q: seq<(nat, QueuedProcedure)>)
    requires FollowsQueue(ps, q) && |ps| < |q| && q[|ps|] == (pr.index, pr.procedure)
    ensures FollowsQueue(ps + [pr], q)
  {
    forall i | 0 <= i < |ps| + 1
      ensures (ps + [pr])[i].index == q[i].0 && (ps + [pr])[i].procedure == q[i].1
    {
      if i < |ps| {
        assert (ps + [pr])[i] == ps[i];
      }
    }
  }

  /** A successful entry that produced its data signal keeps `DataOnSuccess`. */
  lemma {:induction false} DataAppend(ps: seq<Processed>, pr: Processed)
    requires DataOnSuccess(ps)
    requires pr.result.Ok? ==> DataSignal(pr.result.value) && pr.procedure.kind != OtherProcedure
    ensures DataOnSuccess(ps + [pr])
  {
    forall i | 0 <= i < |ps| + 1 && (ps + [pr])[i].result.Ok?
      ensures DataSignal((ps + [pr])[i].result.value) && (ps + [pr])[i].procedure.kind != OtherProcedure
    {
      if i < |ps| {
        assert (ps + [pr])[i] == ps[i];
      }
    }
  }

  /** Popping the head of a queue with increasing indices below a bound keeps both properties. */
  lemma {:induction false} TailQueue(queue: seq<(nat, QueuedProcedure)>, bound: nat)
    requires queue != [] && IncreasingQueue(queue) && forall k :: 0 <= k < |queue| ==> queue[k].0 < bound
    ensures IncreasingQueue(queue[1..]) && forall k :: 0 <= k < |queue[1..]| ==> queue[1..][k].0 < bound
  {
    assert forall i :: 0 <= i < |queue[1..]| ==> queue[1..][i] == queue[i + 1];
  }

  /** Appending three pieces one after the other appends their concatenation. */
  lemma {:induction false} Regroup(e: seq<QueueEvent>, a: seq<QueueEvent>, b: seq<QueueEvent>, c: seq<QueueEvent>)
    ensures e + a + b + c == e + (a + b + c)
  {
  }

  /** The loop's bookkeeping over the runner's state, with `processed` the entries handled so far. */
  ghost predicate Tracks(queue: seq<(nat, QueuedProcedure)>, nextIndex: nat, abortRequested: bool,
                         events: seq<QueueEvent>, processed: seq<Processed>, events0: seq<QueueEvent>, total: nat,
                         q0: seq<(nat, QueuedProcedure)>, quiet: bool)
  {
    events == events0 + Render(processed, total)
    && IncreasingIndices(processed) && IndicesBelow(processed, nextIndex)
    && (queue != [] ==> IndicesBelow(processed, queue[0].0))
    && DataOnSuccess(processed)
    && (quiet ==> Untouched(queue, abortRequested, processed, q0))
  }

  /** No GUI call has interfered: the queue is what is left of `q0` after the processed entries. */
  ghost predicate Untouched(queue: seq<(nat, QueuedProcedure)>, abortRequested: bool,
                            processed: seq<Processed>, q0: seq<(nat, QueuedProcedure)>)
  {
    |processed| <= |q0| && queue == q0[|processed|..] && !abortRequested && FollowsQueue(processed, q0)
  }

  /** Popping the head of an untouched queue leaves it untouched. */
  lemma {:induction false} UntouchedHead(queue: seq<(nat, QueuedProcedure)>, abortRequested: bool,
                                         processed: seq<Processed>, pr: Processed, q0: seq<(nat, QueuedProcedure)>)
    requires queue != [] && Untouched(queue, abortRequested, processed, q0)
    requires pr.index == queue[0].0 && pr.procedure == queue[0].1
    ensures Untouched(queue[1..], abortRequested, processed + [pr], q0)
  {
    assert queue[1..] == q0[|processed| + 1..];
    assert q0[|processed|] == (pr.index, pr.procedure);
    FollowsAppend(processed, pr, q0);
  }

  /** Popping the head of a valid queue and emitting its block keeps the bookkeeping. */
  lemma {:induction false} TracksHead(queue: seq<(nat, QueuedProcedure)>, nextIndex: nat, abortRequested: bool,
                   events: seq<QueueEvent>, processed: seq<Processed>, pr: Processed,
                   events0: seq<QueueEvent>, total: nat, q0: seq<(nat, QueuedProcedure)>, quiet: bool)
    requires queue != [] && IncreasingQueue(queue) && forall k :: 0 <= k < |queue| ==> queue[k].0 < nextIndex
    requires Tracks(queue, nextIndex, abortRequested, events, processed, events0, total, q0, quiet)
    requires pr.index == queue[0].0 && pr.procedure == queue[0].1
    requires pr.result.Ok? ==> DataSignal(pr.result.value) && pr.procedure.kind != OtherProcedure
    ensures Tracks(queue[1..], nextIndex, abortRequested, events + Block(pr, |processed|, total),
                   processed + [pr], events0, total, q0, quiet)
  {
    AppendProcessed(processed, pr, total, queue);
    BelowAppend(processed, pr, nextIndex);
    DataAppend(processed, pr);
    assert events + Block(pr, |processed|, total) == events0 + Render(processed + [pr], total);
    if quiet {
      UntouchedHead(queue, abortRequested, processed, pr, q0);
    }
  }

  class ExperimentQueueRunner {
    var queue: seq<(nat, QueuedProcedure)>
    var nextIndex: nat
    var isRunning: bool
    var abortRequested: bool
    var abortAllRequested: bool
    /** The signals emitted so far. */
    var events: seq<QueueEvent>

    /** Indices in the queue are increasing and all were handed out already. */
    ghost predicate Valid()
      reads this
    {
      IncreasingQueue(queue) && forall k :: 0 <= k < |queue| ==> queue[k].0 < nextIndex
    }

    constructor ()
      ensures Valid()
      ensures queue == [] && nextIndex == 0 && !isRunning && !abortRequested && !abortAllRequested
      ensures events == []
    {
      queue, nextIndex := [], 0;
      isRunning, abortRequested, abortAllRequested := false, false, false;
      events := [];
    }

    function PendingCount(): (n: nat)
      reads this
      ensures n == |queue|
    {
      |queue|
    }

    /** `add`: the next index, appended at the tail. */
    method Add(p: QueuedProcedure) returns (idx: nat)
      requires Valid()
      modifies this`queue, this`nextIndex
      ensures Valid()
      ensures idx == old(nextIndex) && nextIndex == idx + 1
      ensures queue == old(queue) + [(idx, p)]
    {
      idx := nextIndex;
      nextIndex := nextIndex + 1;
      queue := queue + [(idx, p)];
    }

    /**
     * `run`: nothing while running; `queue_completed` at once for an empty
     * queue; otherwise running with both abort flags cleared (the caller then
     * runs `RunQueue`, the thread body).
     */
    method Run() returns (started: bool)
      modifies this`isRunning, this`abortRequested, this`abortAllRequested, this`events
      ensures old(isRunning) ==> !started && unchanged(this)
      ensures !old(isRunning) && old(queue) == [] ==>
        !started && events == old(events) + [QueueCompleted] && !isRunning
        && abortRequested == old(abortRequested) && abortAllRequested == old(abortAllRequested)
      ensures !old(isRunning) && old(queue) != [] ==>
        started && isRunning && !abortRequested && !abortAllRequested && events == old(events)
    {
      if isRunning { return false; }
      if queue == [] {
        events := events + [QueueCompleted];
        return false;
      }
      isRunning, abortRequested, abortAllRequested := true, false, false;
      return true;
    }

    /** `abort`: stop after the current entry; the queue stays. */
    method Abort()
      modifies this`abortRequested
      ensures abortRequested
    {
      abortRequested := true;
    }

    /** `abort_all`: both flags and an empty queue. */
    method AbortAll()
      modifies this`abortRequested, this`abortAllRequested, this`queue
      ensures abortRequested && abortAllRequested && queue == []
    {
      abortAllRequested, abortRequested := true, true;
      queue := [];
    }

    /** `clear`: an empty queue; no flag changes. */
    method Clear()
      modifies this`queue
      ensures queue == []
    {
      queue := [];
    }

    method Apply(c: Control)
      requires Valid() && isRunning
      modifies this
      ensures Valid() && isRunning
      ensures events == old(events) && nextIndex >= old(nextIndex)
      ensures |queue| <= |old(queue)| + (if c.AddControl? then 1 else 0)
      ensures c == NoControl || c == RunControl ==> queue == old(queue) && abortRequested == old(abortRequested)
      ensures old(abortRequested) ==> abortRequested
      ensures c.AddControl? || queue == old(queue) || queue == []
      ensures c.AddControl? ==> queue == old(queue) + [(old(nextIndex), c.p)] && abortRequested == old(abortRequested)
    {
      match c {
        case NoControl =>
        case AbortControl => Abort();
        case AbortAllControl => AbortAll();
        case ClearControl => Clear();
        case AddControl(p) => var _ := Add(p);
        case RunControl => var _ := Run();
      }
    }

    /**
     * `_run_queue`: with `total` the queue length at the start, pop and
     * execute entries until the queue is empty or an abort was requested;
     * the k-th entry runs on `hardware(k)` and is followed by the k-th
     * control (none past the end of `controls`).  Finally not running and
     * `queue_completed`.
     */
    method RunQueue(hardware: nat -> Rig, controls: seq<Control>) returns (ghost processed: seq<Processed>)
      requires Valid() && isRunning
      modifies this
      ensures Valid() && !isRunning
      ensures events == old(events) + Render(processed, |old(queue)|) + [QueueCompleted]
      ensures queue == [] || abortRequested
      ensures IncreasingIndices(processed) && IndicesBelow(processed, nextIndex)
      ensures DataOnSuccess(processed)
      ensures (forall c :: c in controls ==> c == NoControl) && !old(abortRequested) ==>
                |processed| == |old(queue)| && FollowsQueue(processed, old(queue))
    {
      var total := |queue|;
      ghost var quiet := (forall c :: c in controls ==> c == NoControl) && !abortRequested;
      ghost var q0 := queue;
      var events0 := events;
      processed := Drain(hardware, controls, total, events0, q0, quiet);
      isRunning := false;
      events := events + [QueueCompleted];
    }

    /** The `_run_queue` loop: process entries until the queue is empty or an abort is requested. */
    method Drain(hardware: nat -> Rig, controls: seq<Control>, total: nat, ghost events0: seq<QueueEvent>,
                 ghost q0: seq<(nat, QueuedProcedure)>, ghost quiet: bool) returns (ghost processed: seq<Processed>)
      requires Tracking([], events0, total, q0, quiet)
      requires quiet ==> forall c :: c in controls ==> c == NoControl
      modifies this
      ensures Tracking(processed, events0, total, q0, quiet)
      ensures queue == [] || abortRequested
    {
      processed := [];
      var k := 0;
      while queue != [] && !abortRequested
        invariant Tracking(processed, events0, total, q0, quiet)
        invariant |processed| == k
        decreases |queue| + (if k < |controls| then |controls| - k else 0)
      {
        var c := NoControl;
        if k < |controls| {
          assert controls[k] in controls;
          c := controls[k];
        }
        ghost var pr := Turn(hardware(k), c, k, total, processed, events0, q0, quiet);
        processed := processed + [pr];
        k := k + 1;
      }
    }

    /** What `_run_queue` keeps true between turns, given the entries processed so far. */
    ghost predicate Tracking(processed: seq<Processed>, events0: seq<QueueEvent>, total: nat,
                             q0: seq<(nat, QueuedProcedure)>, quiet: bool)
      reads this
    {
      Valid() && isRunning && Tracks(queue, nextIndex, abortRequested, events, processed, events0, total, q0, quiet)
    }

    /** One turn of the loop: process the head, then apply the control that arrived meanwhile. */
    method Turn(rig: Rig, c: Control, k: nat, total: nat, ghost processed: seq<Processed>, ghost events0: seq<QueueEvent>,
                ghost q0: seq<(nat, QueuedProcedure)>, ghost quiet: bool) returns (ghost pr: Processed)
      requires Tracking(processed, events0, total, q0, quiet) && queue != [] && k == |processed|
      requires quiet ==> c == NoControl
      modifies this
      ensures Tracking(processed + [pr], events0, total, q0, quiet)
      ensures |queue| < |old(queue)| + (if c.AddControl? then 1 else 0)
    {
      ghost var before := queue;
      pr := ProcessHead(rig, k, total);
      TracksHead(before, nextIndex, abortRequested, old(events), processed, pr, events0, total, q0, quiet);
      ApplyTracked(c, processed + [pr], events0, total, q0, quiet);
    }

    /** A control that arrives between two entries keeps the loop's bookkeeping true. */
    method ApplyTracked(c: Control, ghost processed: seq<Processed>, ghost events0: seq<QueueEvent>, total: nat,
                        ghost q0: seq<(nat, QueuedProcedure)>, ghost quiet: bool)
      requires Tracking(processed, events0, total, q0, quiet)
      requires quiet ==> c == NoControl
      modifies this
      ensures Tracking(processed, events0, total, q0, quiet)
      ensures |queue| <= |old(queue)| + (if c.AddControl? then 1 else 0)
    {
      ghost var before := queue;
      ghost var bound := nextIndex;
      Apply(c);
      assert IndicesBelow(processed, nextIndex) by {
        assert nextIndex >= bound;
      }
      if queue != [] && c.AddControl? && before == [] {
        assert queue[0].0 == bound;
      }
    }

    /**
     * One turn of the `_run_queue` loop: pop the head, report it started,
     * execute it, report completed (after its data) or failed, then the
     * progress (k+1, total).
     */
    method ProcessHead(rig: Rig, k: nat, total: nat) returns (ghost pr: Processed)
      requires Valid() && queue != []
      modifies this`queue, this`events
      ensures Valid()
      ensures queue == old(queue)[1..]
      ensures pr.index == old(queue)[0].0 && pr.procedure == old(queue)[0].1
      ensures events == old(events) + Block(pr, k, total)
      ensures pr.result.Ok? ==> DataSignal(pr.result.value) && pr.procedure.kind != OtherProcedure
    {
      ghost var before, events0 := queue, events;
      var (idx, p) := queue[0];
      TailQueue(queue, nextIndex);
      queue := queue[1..];
      events := events + [ProcedureStarted(idx, p)];
      var r, _ := ExecuteProcedure(p, rig);
      ghost var mid: seq<QueueEvent>;
      match r {
        case Ok(data) =>
          mid := [data, ProcedureCompleted(idx)];
          events := events + [data, ProcedureCompleted(idx)];
        case Err(e) =>
          mid := [ProcedureFailed(idx, e)];
          events := events + [ProcedureFailed(idx, e)];
      }
      events := events + [QueueProgress(k + 1, total)];
      pr := Processed(idx, p, r);
      Regroup(events0, [ProcedureStarted(idx, p)], mid, [QueueProgress(k + 1, total)]);
    }
  }
}
