# Andor spectrometer control, modelled in Dafny

This project models the core of an application that drives an Andor
spectrometer (a CCD camera behind a spectrograph) and an optional motorised
delay stage. It covers the instrument wrappers, the simulated SDKs and
hardware they run against, the measurement procedures (single spectrum,
image, wavelength scan, pump-probe), the Qt application's queue runner,
event bus and display bookkeeping, and the small helpers around them:
file naming, parameter forms, the sequencer adapter, the shutdown dialog
and the stand-alone demonstration.

The model follows the program's own structure, one module per source file:

- Objects whose fields change become classes (`AndorCamera`,
  `AndorSpectrograph`, `MockAtmcd`, `MockATSpectrograph`, `MockAxis`,
  `MockMotionController`, `MockDelayStage`, `MotionControllerManager`,
  `ExperimentQueueRunner`, `Bus`, `SpectrumPlotWidget`, `TraceListWidget`,
  `ResultsTableWidget`, the form and dialog widgets).
  Their methods carry `modifies` clauses and a `Valid()` invariant.
- Qt signals become an event log: a sequence the methods append to.
- Background threads become plain sequential methods.
- A Python exception becomes an `Option<Error>` or `Result<T>` value.
  `Error` names the Python exception class.
- Hardware that a procedure talks to is an abstract rig, described by
  total functions:
  - the answer of the k-th `should_stop` call;
  - the index of the hardware call that raises;
  - the k-th acquired spectrum or image;
  - the calibration at each position.

  A procedure's `execute` returns:
  - its outcome (completed, stopped, or raised with an error);
  - the progress values and result rows it emitted;
  - the hardware calls it made.
- Lengths, temperatures, wavelengths and delays are exact reals. Python's
  floor division and remainder are written out where operands can be
  negative.
- numpy's in-place `+=` is modelled with its broadcasting rule.

## Model

| member | source | states |
|---|---|---|
| ExperimentQueue.SetupCalls | src/andor_qt/core/experiment_queue.py:145-171 | the calls before acquiring end with the exposure setting, or with the calibration when the procedure has no exposure |
| ExperimentQueue.Configure | src/andor_qt/core/experiment_queue.py:145-168 | the delay axis moves iff the procedure has a delay position and a delay axis exists; the grating and wavelength are set iff the procedure has them; the calibration for its hbin (default 1) comes last |
| ExperimentQueue.Setup | src/andor_qt/core/experiment_queue.py:145-171 | the calls made are a prefix of SetupCalls; setup succeeds iff no call raises and the procedure has an exposure time, otherwise AttributeError |
| ExperimentQueue.Configuring | src/andor_qt/core/experiment_queue.py:145-168 | the calls made are a prefix of Configure, ending at the first that raises; it succeeds iff none raises |
| ExperimentQueue.ExecuteProcedure | src/andor_qt/core/experiment_queue.py:139-176 | success implies an exposure time, a spectrum or image procedure and no fault in setup; other procedure classes raise TypeError; the calls begin with SetupCalls; a spectrum result carries SpectrumLabelOf and an image result ImageLabelOf; fault-free image runs, and spectrum runs whose data fit, always succeed |
| ExperimentQueue.AcquireSpectrum | src/andor_qt/core/experiment_queue.py:178-202 | only FVB acquisitions at the procedure's hbin follow the setup calls; with n ≤ 1 one acquisition is returned; with n > 1 n acquisitions are averaged |
| ExperimentQueue.Accumulate | src/andor_qt/core/experiment_queue.py:182-189 | n acquisitions are made unless one raises; the result is the Mean of the acquisitions; a shape mismatch is ValueError; fault-free broadcastable data always succeed |
| ExperimentQueue.Indices | src/andor_qt/core/experiment_queue.py:121 | the k-th index is the index of the k-th processed entry |
| ExperimentQueue.FiltersSplit | src/andor_qt/core/experiment_queue.py:123-137 | the started, finished, progress and completed signal filters distribute over concatenation |
| ExperimentQueue.BlockShape | src/andor_qt/core/experiment_queue.py:123-133 | one processed entry emits exactly one started and one finished signal for its index, one progress (j+1, total) and no queue_completed |
| ExperimentQueue.Single | src/andor_qt/core/experiment_queue.py:123-137 | each signal kind is counted by exactly its own filter |
| ExperimentQueue.RenderShape | src/andor_qt/core/experiment_queue.py:120-133 | over a run, the started and finished indices are the processed indices in order, and progress counts 1..k out of the initial total |
| ExperimentQueue.AppendProcessed | src/andor_qt/core/experiment_queue.py:120-133 | popping the head of an increasing queue keeps the processed indices increasing and in queue order, and appends that entry's signals |
| ExperimentQueue.TracksHead | src/andor_qt/core/experiment_queue.py:120-133 | popping the head and emitting its signals keeps the loop bookkeeping |
| ExperimentQueue.ExperimentQueueRunner.constructor | src/andor_qt/core/experiment_queue.py:49-57 | empty queue, next index 0, not running, both abort flags clear |
| ExperimentQueue.ExperimentQueueRunner.PendingCount | src/andor_qt/core/experiment_queue.py:109-112 | the number of queued entries |
| ExperimentQueue.ExperimentQueueRunner.Add | src/andor_qt/core/experiment_queue.py:59-71 | returns the next index, bumps it, and appends the entry at the tail; indices stay increasing |
| ExperimentQueue.ExperimentQueueRunner.Run | src/andor_qt/core/experiment_queue.py:73-88 | nothing while running; an empty queue emits queue_completed at once; otherwise running with both abort flags cleared |
| ExperimentQueue.ExperimentQueueRunner.Abort | src/andor_qt/core/experiment_queue.py:90-92 | sets the abort flag and leaves the queue |
| ExperimentQueue.ExperimentQueueRunner.AbortAll | src/andor_qt/core/experiment_queue.py:94-98 | sets both flags and empties the queue |
| ExperimentQueue.ExperimentQueueRunner.Clear | src/andor_qt/core/experiment_queue.py:100-103 | empties the queue and leaves the flags |
| ExperimentQueue.ExperimentQueueRunner.Apply | src/andor_qt/core/experiment_queue.py:59-103 | a GUI call arriving between two entries keeps the runner valid and running, never clears an abort request, and changes the queue only by one append or by emptying it |
| ExperimentQueue.ExperimentQueueRunner.RunQueue | src/andor_qt/core/experiment_queue.py:114-137 | ends not running with queue_completed last; each processed entry emits started, then completed or failed, then progress (k, total); the loop ends with an empty queue or an abort; processed indices are increasing; every success produced its data signal; without interference every initial entry is processed in queue order |
| ExperimentQueue.ExperimentQueueRunner.Turn | src/andor_qt/core/experiment_queue.py:120-133 | one loop turn keeps the bookkeeping and shrinks the queue unless an entry was added |
| ExperimentQueue.ExperimentQueueRunner.ApplyTracked | src/andor_qt/core/experiment_queue.py:90-103 | a control between two turns keeps the bookkeeping |
| ExperimentQueue.ExperimentQueueRunner.ProcessHead | src/andor_qt/core/experiment_queue.py:121-133 | pops the head, emits its signal block, and a success carries a data signal of a spectrum or image procedure |
| Acquisition.Ramp | src/andor_pymeasure/procedures/spectrum.py:140 | one progress value per accumulation, n in all |
| Acquisition.RampClimbsTo100 | src/andor_pymeasure/procedures/spectrum.py:140 | the reported progress 100·(i+1)/n rises strictly, stays in (0, 100] and ends at exactly 100 |
| Acquisition.PercentGrows | src/andor_pymeasure/procedures/wavelength_scan.py:168 | the scan progress 100·(i+1)/n grows with i, is positive after the first step and is 100 at the last |
| Acquisition.Tagged | src/andor_pymeasure/procedures/pump_probe.py:201-210 | one result row per (wavelength, intensity) pair of the zip |
| Acquisition.TaggedRows | src/andor_pymeasure/procedures/wavelength_scan.py:157-166 | the per-pixel rows of one position are exactly as many as the zipped pairs and carry no progress |
| Acquisition.ImageRow | src/andor_pymeasure/procedures/wavelength_scan.py:327-337 | one result row per image column of row y |
| Acquisition.ImagePointsCount | src/andor_pymeasure/procedures/wavelength_scan.py:326-337 | the nested row and column loops emit rows·cols result rows and no progress |
| Acquisition.ImageRowRows | src/andor_pymeasure/procedures/pump_probe.py:400-410 | one image row yields cols result rows and no progress |
| Acquisition.FiltersDistribute | src/andor_pymeasure/procedures/spectrum.py:140-149 | splitting the emitted stream into results and progress commutes with concatenation |
| Acquisition.AccumulateWithProgress | src/andor_pymeasure/procedures/spectrum.py:132-142 | every call is an FVB acquisition at the given binning; the progress emitted is a prefix of the ramp; a stop returns only when should_stop answered true; completion means n acquisitions, no stop, and the mean of the acquired spectra; when nothing stops or raises and the shapes broadcast, the loop always completes; a shape mismatch raises ValueError |
| Acquisition.EmitImage | src/andor_pymeasure/procedures/wavelength_scan.py:326-337 | the loop finishes iff the image is empty or every column has a wavelength, in which case it emits rows·cols rows in row-major order and no progress |
| PmSpectrum.StartupOps | src/andor_pymeasure/procedures/spectrum.py:78-98 | the camera is always initialized first; the spectrograph is initialized iff the camera did not raise; the cooler is switched on, to the requested target only, iff both initialized and cooling is enabled |
| PmSpectrum.ShutdownOps | src/andor_pymeasure/procedures/spectrum.py:153-161 | exactly the devices the procedure holds are shut down, camera first |
| PmSpectrum.DeviceOwner.Startup | src/andor_pymeasure/procedures/spectrum.py:78-98 | the operations made are StartupOps; the camera attribute is always set and the spectrograph attribute iff the camera initialized; startup succeeds iff no initialize raises, otherwise RuntimeError |
| PmSpectrum.DeviceOwner.Shutdown | src/andor_pymeasure/procedures/spectrum.py:153-161 | appends ShutdownOps for the devices held |
| PmSpectrum.ShutdownMatchesStartup | src/andor_pymeasure/procedures/spectrum.py:78-161 | after a startup, shutdown reaches a device iff startup initialized it |
| PmSpectrum.ExecuteSpectrum | src/andor_pymeasure/procedures/spectrum.py:100-149 | a completed run makes grating, wavelength, calibration for all columns, exposure, then n default-binned acquisitions (one when n ≤ 1), and emits the progress ramp followed by the averaged spectrum zipped against the calibration; without stops, faults or width mismatches it always completes; an unfinished run emits no results |
| PmSpectrum.SpectrumReport | src/andor_pymeasure/procedures/spectrum.py:132-149 | a completed spectrum run reports min(|wavelengths|, |spectrum|) result rows and max(n, 1) progress values, the last of which is 100 |
| PmSpectrum.ExecuteImage | src/andor_pymeasure/procedures/spectrum.py:242-303 | a completed run makes five calls, calibrating xpixels // hbin pixels of width pixel_width·hbin, and emits 50 then each row's pixels followed by that row's progress, rows·cols result rows in all; without stops or faults, with nonzero binning and a calibration covering the columns, it always completes |
| SharedExecute.SpectrumExecute | src/andor_qt/procedures/spectrum.py:85-139 | the first call sets the grating; a stop returns only after a should_stop answered true; a completed run has set grating, wavelength, calibration and exposure in that order and emits SpectrumProgress then the zipped result rows; an unfinished run emits no results; without stops or faults it always completes, and without faults it can raise only ValueError |
| SharedExecute.AcquireSpectrum | src/andor_qt/procedures/spectrum.py:119-134 | every acquisition uses the given binning; n ≤ 1 takes one spectrum and reports 100; n > 1 accumulates, stops only on a should_stop answer, and completes with the mean whenever nothing stops or raises and the shapes broadcast |
| SharedExecute.RampHasNoResults | src/andor_qt/procedures/spectrum.py:128 | the accumulation loop's emits are progress only |
| SharedExecute.RowsWithProgressResults | src/andor_qt/procedures/spectrum.py:250-266 | n image rows contribute n·cols result rows |
| SharedExecute.RowsWithProgressTicks | src/andor_qt/procedures/spectrum.py:266 | after row y the progress is 50 + 50·(y+1)/rows, one value per row |
| SharedExecute.ImageExecute | src/andor_qt/procedures/spectrum.py:205-267 | a completed run has set grating, wavelength, calibration for xpixels // hbin pixels and exposure, and emits 50 followed by every row's pixels and progress; a stop returns only after a should_stop answered true; without stops or faults, with nonzero binning and a calibration wide enough, it always completes |
| SharedExecute.ImageRows | src/andor_qt/procedures/spectrum.py:250-266 | the row loop completes, stops on a should_stop answer, or raises IndexError exactly when a row is wider than the calibration; when nothing stops and the calibration is wide enough it completes with RowsWithProgress |
| SharedHardware.ToShutDown | src/andor_qt/procedures/base.py:87-105 | at most the two devices; nothing when neither ownership flag is true; the owned camera first; every device returned has its ownership flag set to true |
| SharedHardware.NeverShutsDownInjected | src/andor_qt/procedures/base.py:41-105 | with flags that agree with how each device was obtained, cleanup never shuts down an injected device |
| SharedHardware.HardwareUser.constructor | src/andor_qt/procedures/base.py:35-39 | a procedure starts with the shared references and no devices or flags |
| SharedHardware.HardwareUser.InitHardware | src/andor_qt/procedures/base.py:41-85 | a shared device is used and marked not owned; otherwise one is created and marked owned once its initialize returns; a failing initialize leaves the device held without a flag and raises RuntimeError; the motion manager is the shared one or None |
| SharedHardware.HardwareUser.CleanupHardware | src/andor_qt/procedures/base.py:87-105 | the shutdowns appended are exactly ToShutDown of the flags and devices held |
| QtSpectrum.ExecuteSpectrumAsWritten | src/andor_qt/procedures/spectrum.py:100-130 | every acquisition is made at binning 1 while the accumulator has xpixels // hbin entries; with hbin ≥ 2, n > 1 and a camera returning full rows, the run raises ValueError |
| QtSpectrum.ExecuteSpectrum | src/andor_qt/procedures/spectrum.py:85-139 | the corrected run acquires at the procedure's binning; with full-width binned rows, no stops and no faults it completes with the averaged spectrum zipped against the calibration |
| QtSpectrum.BinningNarrows | src/andor_qt/procedures/spectrum.py:101 | binning by two or more leaves fewer calibrated pixels than detector columns |
| WavelengthScan.Clip | src/andor_pymeasure/procedures/wavelength_scan.py:120-122 | the clipped start is the larger of the requested start and the lower limit, the clipped end the smaller of the requested end and the upper limit |
| WavelengthScan.ClipIdempotent | src/andor_pymeasure/procedures/wavelength_scan.py:120-127 | clipping an already clipped range changes nothing, and a range that passes the start < end check lies inside the grating's limits |
| WavelengthScan.Grid | src/andor_pymeasure/procedures/wavelength_scan.py:129 | the grid has as many positions as np.arange(start, end + step, step) yields |
| WavelengthScan.GridPoints | src/andor_pymeasure/procedures/wavelength_scan.py:129 | position i of the grid is start + i·step |
| WavelengthScan.GridShape | src/andor_pymeasure/procedures/wavelength_scan.py:129 | for a positive step the grid starts at start, every position but the last lies in [start, end), and the last lies in [end, end + step) |
| WavelengthScan.GridOvershoots | src/andor_pymeasure/procedures/wavelength_scan.py:129 | from 400 to 700 by 70 the grid has six positions, the last at 750, beyond the end |
| WavelengthScan.IntendedGrid | src/andor_pymeasure/procedures/wavelength_scan.py:129 | the intended grid is the arange grid with at most its last position dropped |
| WavelengthScan.IntendedGridWithin | src/andor_pymeasure/procedures/wavelength_scan.py:129 | the intended grid starts at start, stays inside [start, end], and keeps every arange position not beyond end |
| WavelengthScan.ScanCalls | src/andor_pymeasure/procedures/wavelength_scan.py:137-155 | three instrument calls per position |
| WavelengthScan.ScanReport | src/andor_pymeasure/procedures/wavelength_scan.py:157-168 | the progress values of the first d positions are 100·1/n … 100·d/n, and the result rows are exactly the zipped pairs |
| WavelengthScan.ScanLoop | src/andor_pymeasure/procedures/wavelength_scan.py:137-168 | the positions reported in full are a prefix; the loop completes iff all are reported; each reported position was within the limits and had a calibration; a stop follows a should_stop answer of true; without faults the only errors are ValueError at a position outside the limits and IndexError at an empty calibration; with no stops, faults or bad positions it completes |
| WavelengthScan.Prepare | src/andor_pymeasure/procedures/wavelength_scan.py:110-127 | only the grating and limits calls are made before the range check; an empty clipped range returns early as completed, a should_stop answer of true as stopped, and a fault raises |
| WavelengthScan.ScanOver | src/andor_pymeasure/procedures/wavelength_scan.py:107-168 | an empty clipped range completes with no emits; otherwise the positions are the grid of the clipped range; a completed run has made grating, limits, exposure and three calls per position; a zero step raises ZeroDivisionError; without faults other errors come from a position outside the limits or an empty calibration |
| WavelengthScan.ExecuteAsWritten | src/andor_pymeasure/procedures/wavelength_scan.py:107-168 | when the upper limit clips the range and the grid passes it, a scan with no stops or faults raises ValueError after reporting every earlier position |
| WavelengthScan.OvershootStops | src/andor_pymeasure/procedures/wavelength_scan.py:137-145 | when only the last position lies outside the limits, the loop reports all the others and stops at that one |
| WavelengthScan.Execute | src/andor_pymeasure/procedures/wavelength_scan.py:107-168 | with the intended grid, a scan with no stops or faults and a calibration at every position completes, reports one progress value per position ending at 100, and one result row per zipped pair |
| WavelengthScan.ImageScanCalls | src/andor_pymeasure/procedures/wavelength_scan.py:306-324 | three instrument calls per image position |
| WavelengthScan.ImageScanTicks | src/andor_pymeasure/procedures/wavelength_scan.py:339 | an image scan over d positions reports 100·1/n … 100·d/n |
| WavelengthScan.ImageScanResults | src/andor_pymeasure/procedures/wavelength_scan.py:326-337 | when every calibration covers its image's columns, the result rows number the pixels of all images |
| WavelengthScan.ImageBlockRows | src/andor_pymeasure/procedures/wavelength_scan.py:326-337 | one image's block holds no progress and rows·cols results when the calibration covers the columns |
| WavelengthScan.ImagePosition | src/andor_pymeasure/procedures/wavelength_scan.py:307-339 | one position sets the wavelength, calibrates, acquires and emits every pixel, then progress; without faults it fails only with ValueError outside the limits, or with IndexError when the calibration is empty (the spectrograph's log line) or narrower than an image with rows; within the limits and with a non-empty calibration covering the image it succeeds |
| WavelengthScan.ImageScanLoop | src/andor_pymeasure/procedures/wavelength_scan.py:306-339 | the progress emitted matches the first done positions; the loop completes iff all positions are done; a stop follows a should_stop answer of true; without faults the errors are ValueError outside the limits and IndexError for an empty or too narrow calibration; with no stops or faults, every position within the limits and every calibration non-empty and covering its image, it completes |
| WavelengthScan.ImageScanRun | src/andor_pymeasure/procedures/wavelength_scan.py:298-339 | after the range check: zero binning raises ZeroDivisionError; a completed run has set the exposure, then made three calls per position with the binned width, and emitted every position's block; without faults the other errors are a position outside the limits, or an empty calibration or one narrower than the image; with non-zero binning, no stops or faults, every position within the limits and every calibration non-empty and covering its image, it completes |
| WavelengthScan.ImageScanOver | src/andor_pymeasure/procedures/wavelength_scan.py:273-339 | as ScanOver, for the image scan: a zero step or zero binning raises ZeroDivisionError, the clipped grid decides the positions, IndexError comes from an empty or too narrow calibration, and with no stops or faults, positions within the limits and non-empty calibrations covering the images it completes |
| WavelengthScan.ExecuteImageAsWritten | src/andor_pymeasure/procedures/wavelength_scan.py:273-339 | the image scan with an overshooting grid, no stops or faults and non-empty calibrations covering the images raises ValueError after reporting every earlier position |
| WavelengthScan.ExecuteImage | src/andor_pymeasure/procedures/wavelength_scan.py:273-339 | with the intended grid, an image scan with no stops or faults and non-empty calibrations covering the images completes, ends its progress at 100 and reports every pixel |
| PumpProbe.DelayGrid | src/andor_pymeasure/procedures/pump_probe.py:168 | the delay grid includes its end point (0 to 2 by 1 gives 0, 1, 2), a single point when start equals end, and nothing when end lies below start |
| PumpProbe.Shots | src/andor_pymeasure/procedures/pump_probe.py:190-198 | n acquisitions per delay when accumulating, else one |
| PumpProbe.Checks | src/andor_pymeasure/procedures/pump_probe.py:176-194 | two should_stop checks per delay, plus one per accumulation when n > 1 |
| PumpProbe.DelaySpectrum | src/andor_pymeasure/procedures/pump_probe.py:190-198 | a delay reports a spectrum iff n ≤ 1 or each of its acquisitions broadcasts into the accumulator; with n ≤ 1 it is the one acquisition, else it has the accumulator's length |
| PumpProbe.DelayMean | src/andor_pymeasure/procedures/pump_probe.py:190-196 | with n > 1 each reported value times n is the sum of that pixel over the delay's acquisitions |
| PumpProbe.SteadyDelaySpectrum | src/andor_pymeasure/procedures/pump_probe.py:190-196 | when every acquisition at a delay returns the same spectrum, that spectrum is reported |
| PumpProbe.DelayStep | src/andor_pymeasure/procedures/pump_probe.py:184-198 | each delay moves the stage to the delay, then makes its acquisitions at default binning |
| PumpProbe.DelayTicks | src/andor_pymeasure/procedures/pump_probe.py:212 | over d delays the progress values are 100·1/N … 100·d/N |
| PumpProbe.DelayResults | src/andor_pymeasure/procedures/pump_probe.py:201-210 | when every spectrum has len values, d delays give d·min(|wavelengths|, len) result rows |
| PumpProbe.Accumulate | src/andor_pymeasure/procedures/pump_probe.py:190-196 | the accumulation at one delay completes with DelaySpectrum when nothing stops or raises; it stops only after a should_stop answer of true; without faults it fails only with ValueError when a shape cannot broadcast |
| PumpProbe.DelayPoint | src/andor_pymeasure/procedures/pump_probe.py:176-212 | one delay checks, moves, checks, acquires and emits its block; it stops only after a should_stop answer of true; with no stops or faults and a broadcastable accumulation it succeeds |
| PumpProbe.DelayLoop | src/andor_pymeasure/procedures/pump_probe.py:176-212 | the delays done form a prefix whose emits and calls are DelayEmits and DelayCalls; the loop completes iff all are done; without faults the only error is ValueError from accumulation; with no stops or faults and broadcastable accumulations it completes |
| PumpProbe.StopBase | src/andor_pymeasure/procedures/pump_probe.py:145-194 | delay i's checks start after at least the two made before the loop |
| PumpProbe.StopBaseCounts | src/andor_pymeasure/procedures/pump_probe.py:145-194 | delay i's checks start after 2 + i·Checks(n) earlier ones |
| PumpProbe.StopBaseGrows | src/andor_pymeasure/procedures/pump_probe.py:176-194 | the checks of an earlier delay all come before those of any later one |
| PumpProbe.Setup | src/andor_pymeasure/procedures/pump_probe.py:145-173 | the part before the loop sets grating, wavelength, calibration and exposure and builds the grid; it never finishes early as completed; it stops only on one of the first two checks; without faults it raises only ZeroDivisionError for a zero step or binning, or IndexError when the calibration is empty (the spectrograph's log line reads its first element) |
| PumpProbe.Execute | src/andor_pymeasure/procedures/pump_probe.py:145-214 | a completed run made grating, wavelength, calibration for all columns, exposure and DelayCalls, and emitted DelayEmits of the reported spectra; a stop follows a should_stop answer of true; without faults the errors are IndexError, ZeroDivisionError or ValueError; with no stops or faults, a nonzero step, a calibration and broadcastable accumulations it completes |
| PumpProbe.PumpProbeReport | src/andor_pymeasure/procedures/pump_probe.py:176-212 | a completed run over d delays reports d progress values ending at 100, and with n > 1 d·min(|wavelengths|, xpixels) results |
| PumpProbe.ImageDelayCalls | src/andor_pymeasure/procedures/pump_probe.py:382-397 | two instrument calls per delay of the image variant |
| PumpProbe.ImageDelayTicks | src/andor_pymeasure/procedures/pump_probe.py:412 | the image variant reports 100·1/N … 100·d/N over d delays |
| PumpProbe.ImageDelayPoint | src/andor_pymeasure/procedures/pump_probe.py:382-412 | one image delay checks, moves, checks, acquires and emits every pixel then its progress; without faults it fails only with IndexError when the calibration is narrower than the image; with no stops it succeeds otherwise |
| PumpProbe.ImageDelayLoop | src/andor_pymeasure/procedures/pump_probe.py:382-412 | the progress emitted matches the delays done; the loop completes iff all are done; a stop follows a should_stop answer of true; without faults the only error is IndexError at an image wider than the calibration |
| PumpProbe.ExecuteImage | src/andor_pymeasure/procedures/pump_probe.py:351-414 | a completed run calibrated xpixels // hbin pixels of width pixel_width·hbin and emitted ImageDelayEmits; without faults the errors are IndexError or ZeroDivisionError; with no stops or faults, a nonzero step and binning and a non-empty calibration covering every image it completes |
| PumpProbe.StageFor | src/andor_pymeasure/procedures/pump_probe.py:125-133 | the mock stage spans 0 to 300 mm; otherwise a Newport stage is chosen |
| PumpProbe.StartupOps | src/andor_pymeasure/procedures/pump_probe.py:107-143 | the camera is initialized first, the spectrograph iff the camera did not raise, the chosen stage iff neither earlier device raised, and the cooler, after the stage, iff all three initialized and cooling is enabled |
| PumpProbe.ShutdownOps | src/andor_pymeasure/procedures/pump_probe.py:216-227 | each device is shut down iff its attribute exists, the stage first and the spectrograph last |
| PumpProbe.ProcedureDevices.Startup | src/andor_pymeasure/procedures/pump_probe.py:107-143 | appends StartupOps; each attribute exists once its initialize has been attempted; startup succeeds iff no initialize raises, otherwise RuntimeError |
| PumpProbe.ProcedureDevices.Shutdown | src/andor_pymeasure/procedures/pump_probe.py:216-227 | appends ShutdownOps for the attributes set |
| PumpProbe.ShutdownMatchesStartup | src/andor_pymeasure/procedures/pump_probe.py:107-227 | after a startup, shutdown reaches a device iff startup attempted to initialize it |
| SpectrumPlot.DefaultLabel | src/andor_qt/widgets/display/spectrum_plot.py:156-157 | a trace added without a label is called "Trace " followed by its id |
| SpectrumPlot.ColorOf | src/andor_qt/widgets/display/spectrum_plot.py:117-121 | every colour drawn is one of the ten in the cycle |
| SpectrumPlot.ColorsDistinct | src/andor_qt/widgets/display/spectrum_plot.py:45-48 | the ten colours of the cycle are pairwise different |
| SpectrumPlot.TenConsecutiveDistinct | src/andor_qt/widgets/display/spectrum_plot.py:117-121 | any ten consecutively drawn colours are pairwise different |
| SpectrumPlot.RemoveFirst | src/andor_qt/widgets/display/spectrum_plot.py:198-211 | removing an id from the order shortens it by one |
| SpectrumPlot.RemoveFirstAscending | src/andor_qt/widgets/display/spectrum_plot.py:198-211 | removing an id from ascending ids removes exactly that id and keeps the rest ascending |
| SpectrumPlot.AscendingAll | src/andor_qt/widgets/display/spectrum_plot.py:62-64 | ids in insertion order are strictly increasing, so no id appears twice |
| SpectrumPlot.AscendingAppend | src/andor_qt/widgets/display/spectrum_plot.py:151-182 | appending the next id, above all present ones, keeps the order ascending |
| SpectrumPlot.SetOfCount | src/andor_qt/widgets/display/spectrum_plot.py:62-64 | ascending ids are as many as the distinct ids they hold |
| SpectrumPlot.Evicted | src/andor_qt/widgets/display/spectrum_plot.py:149-151 | the eviction loop removes no more traces than there are, leaves fewer than twenty, and removes none when there is room |
| SpectrumPlot.RegistryBelow | src/andor_qt/widgets/display/spectrum_plot.py:62-64 | every registered id is at least 1 and below the next id |
| SpectrumPlot.RegistryCount | src/andor_qt/widgets/display/spectrum_plot.py:62-64 | the trace map holds exactly one trace per id in the order |
| SpectrumPlot.RegistryRemove | src/andor_qt/widgets/display/spectrum_plot.py:198-211 | removing a registered id from both the map and the order keeps the two in step |
| SpectrumPlot.RegistryAdd | src/andor_qt/widgets/display/spectrum_plot.py:178-179 | registering a trace under the next id at the end of the order keeps the two in step |
| SpectrumPlot.InOrder | src/andor_qt/widgets/display/spectrum_plot.py:256-262 | the traces listed in order, one per id |
| SpectrumPlot.SpectrumPlotWidget.constructor | src/andor_qt/widgets/display/spectrum_plot.py:57-69 | the widget starts with no traces, next id 1, colour index 0, no live trace and no data |
| SpectrumPlot.SpectrumPlotWidget.NextColor | src/andor_qt/widgets/display/spectrum_plot.py:117-121 | returns the colour at the current index and advances the index by one |
| SpectrumPlot.SpectrumPlotWidget.RemoveTraceInternal | src/andor_qt/widgets/display/spectrum_plot.py:198-211 | an unknown id changes nothing; a known id leaves both the map and the order, nothing else is removed, and the live id is cleared iff it was that trace |
| SpectrumPlot.SpectrumPlotWidget.EvictOne | src/andor_qt/widgets/display/spectrum_plot.py:149-151 | one turn of the eviction loop removes the oldest trace from the map and the order |
| SpectrumPlot.SpectrumPlotWidget.EvictOldest | src/andor_qt/widgets/display/spectrum_plot.py:149-151 | after the loop fewer than twenty traces remain, the oldest Evicted ones are gone and every survivor is unchanged |
| SpectrumPlot.SpectrumPlotWidget.AddTrace | src/andor_qt/widgets/display/spectrum_plot.py:132-196 | the new trace gets the next id, above every id held, the given or default label and the next colour; it goes to the end of the order after the oldest are evicted; survivors are unchanged; the cursor data become the new trace's; one trace_added signal carries its id, label and colour |
| SpectrumPlot.SpectrumPlotWidget.Register | src/andor_qt/widgets/display/spectrum_plot.py:153-196 | with room left, the trace is stored under the next id at the end of the order and signalled |
| SpectrumPlot.SpectrumPlotWidget.RemoveTrace | src/andor_qt/widgets/display/spectrum_plot.py:213-228 | an unknown id changes nothing; a known one is removed and one trace_removed signal carries its id |
| SpectrumPlot.SpectrumPlotWidget.SetTraceVisible | src/andor_qt/widgets/display/spectrum_plot.py:230-243 | only the visibility of that trace changes; an unknown id changes nothing |
| SpectrumPlot.SpectrumPlotWidget.ClearTraces | src/andor_qt/widgets/display/spectrum_plot.py:245-254 | no traces, no live trace and no data remain, and traces_cleared is signalled once |
| SpectrumPlot.SpectrumPlotWidget.GetTraces | src/andor_qt/widgets/display/spectrum_plot.py:256-262 | the traces in insertion order, with strictly increasing ids, one per registered trace |
| SpectrumPlot.SpectrumPlotWidget.Clear | src/andor_qt/widgets/display/spectrum_plot.py:289-291 | the same outcome as clear_traces |
| SpectrumPlot.SpectrumPlotWidget.SetData | src/andor_qt/widgets/display/spectrum_plot.py:264-287 | the previous live trace is removed and a new visible trace labelled "Live" under the next id, holding the given wavelengths and intensities and the next colour, becomes the live one and is appended to the display order after oldest-first eviction; the id and colour counters advance by one, every other surviving trace is unchanged, and the addition is signalled with its colour |
| SpectrumPlot.AddMany | src/andor_qt/widgets/display/spectrum_plot.py:132-196 | after n adds to a fresh widget, min(n, 20) traces remain, the next id is n + 1 and n colours have been drawn |
| TraceList.Drop | src/andor_qt/widgets/display/trace_list.py:134-145 | removing widgets from the layout keeps exactly the ones not removed, in order |
| TraceList.DropTwice | src/andor_qt/widgets/display/trace_list.py:147-150 | removing two sets of widgets one after the other is removing their union |
| TraceList.WidgetsWithout | src/andor_qt/widgets/display/trace_list.py:134-145 | the widgets of the rows without one row, plus that row's widget, are the widgets of all rows |
| TraceList.TraceListWidget.RowCount | src/andor_qt/widgets/display/trace_list.py:152-154 | the row count is zero iff no row is registered |
| TraceList.TraceListWidget.constructor | src/andor_qt/widgets/display/trace_list.py:42-47 | the list starts with no rows and an empty layout |
| TraceList.TraceListWidget.AddTrace | src/andor_qt/widgets/display/trace_list.py:81-132 | a fresh row widget, visible, is appended to the layout and registered under the id, replacing any earlier registration without removing its widget; the count grows iff the id was new |
| TraceList.TraceListWidget.RemoveTrace | src/andor_qt/widgets/display/trace_list.py:134-145 | an unknown id changes nothing; a known one leaves the registry and its widget leaves the layout; the count drops by one |
| TraceList.TraceListWidget.Clear | src/andor_qt/widgets/display/trace_list.py:147-150 | no row remains registered and exactly the registered rows' widgets leave the layout |
| TraceList.TraceListWidget.ToggleVisibility | src/andor_qt/widgets/display/trace_list.py:156-158 | emits visibility_toggled with the id and the new state |
| TraceList.TraceListWidget.RequestRemove | src/andor_qt/widgets/display/trace_list.py:160-162 | emits trace_remove_requested with the id |
| TraceList.TraceListWidget.RequestClearAll | src/andor_qt/widgets/display/trace_list.py:164-166 | emits clear_all_requested |
| TraceList.ReAddThenClear | src/andor_qt/widgets/display/trace_list.py:81-150 | adding the same id twice and clearing leaves a count of zero but the first row's widget still in the layout |
| ResultsTable.NewEntry | src/andor_qt/widgets/display/results_table.py:136-142 | a new entry is queued at progress 0 with no times and no error |
| ResultsTable.Updated | src/andor_qt/widgets/display/results_table.py:165-177 | an update keeps id, type and parameters, sets the status and any given progress, records the start time only on the first "running", sets the end time exactly for completed, failed or aborted, and replaces the error only with a non-empty message |
| ResultsTable.IndexOf | src/andor_qt/widgets/display/results_table.py:165-166 | the first entry with that id, or None iff there is none |
| ResultsTable.Pending | src/andor_qt/widgets/display/results_table.py:266-272 | keeps exactly the entries not completed, failed or aborted, in order |
| ResultsTable.PendingAppend | src/andor_qt/widgets/display/results_table.py:266-272 | the filter distributes over concatenation |
| ResultsTable.PendingIdempotent | src/andor_qt/widgets/display/results_table.py:266-272 | clearing finished entries twice is clearing them once |
| ResultsTable.PendingAscending | src/andor_qt/widgets/display/results_table.py:266-272 | the filter keeps the ids in increasing order |
| ResultsTable.AscendingAppend | src/andor_qt/widgets/display/results_table.py:133-143 | appending an entry whose id is above all present keeps the ids increasing |
| ResultsTable.AscendingUnique | src/andor_qt/widgets/display/results_table.py:133-143 | with increasing ids, earlier entries have smaller ids, so ids are unique |
| ResultsTable.ResultsTableWidget.constructor | src/andor_qt/widgets/display/results_table.py:58-65 | the table starts empty with next id 1 |
| ResultsTable.ResultsTableWidget.AddExperiment | src/andor_qt/widgets/display/results_table.py:119-146 | returns the next id, above every id present, and appends a queued entry for it |
| ResultsTable.ResultsTableWidget.UpdateStatus | src/andor_qt/widgets/display/results_table.py:148-179 | an unknown id changes nothing; otherwise only the first entry with that id is replaced by its update |
| ResultsTable.ResultsTableWidget.GetExperiment | src/andor_qt/widgets/display/results_table.py:247-259 | the entry with that id, or None iff no entry has it |
| ResultsTable.ResultsTableWidget.Clear | src/andor_qt/widgets/display/results_table.py:261-264 | no entries remain and the id counter is kept |
| ResultsTable.ResultsTableWidget.ClearCompleted | src/andor_qt/widgets/display/results_table.py:266-272 | the entries become Pending of the old ones |
| ResultsTable.ResultsTableWidget.OnSelectionChanged | src/andor_qt/widgets/display/results_table.py:104-110 | a selected row within the table emits that entry's id; otherwise nothing |
| ResultsTable.ResultsTableWidget.OnDoubleClicked | src/andor_qt/widgets/display/results_table.py:112-117 | a double-clicked row within the table emits that entry's id; otherwise nothing |
| ResultsTable.UpdatedAscending | src/andor_qt/widgets/display/results_table.py:148-179 | an update keeps the ids increasing |
| ResultsTable.LastAddedFound | src/andor_qt/widgets/display/results_table.py:133-143 | the entry just added is found at the end |
| EventBus.RemoveFirst | src/andor_qt/core/event_bus.py:110-111 | removing a present handler drops one occurrence of it and nothing else; an absent handler leaves the list alone |
| EventBus.AppendThenRemove | src/andor_qt/core/event_bus.py:83-111 | subscribing a new handler and unsubscribing it restores the list |
| EventBus.RemoveFirstKeepsLater | src/andor_qt/core/event_bus.py:110-111 | a handler subscribed twice loses its earlier registration first |
| EventBus.HandlersOf | src/andor_qt/core/event_bus.py:59 | a pattern with no row has no handlers; otherwise its handlers are those of its first row |
| EventBus.WildAdd | src/andor_qt/core/event_bus.py:94 | subscribing to a wildcard appends the handler to that pattern only, adding the pattern at the end when it is new |
| EventBus.WildRemove | src/andor_qt/core/event_bus.py:105-111 | unsubscribing from a wildcard removes one occurrence of the handler from that pattern only and keeps every pattern |
| EventBus.WildPop | src/andor_qt/core/event_bus.py:140-141 | clearing a wildcard removes exactly that pattern and leaves the others' handlers alone |
| EventBus.WildPopDistinct | src/andor_qt/core/event_bus.py:140-141 | clearing a pattern keeps the patterns distinct |
| EventBus.DistinctAppend | src/andor_qt/core/event_bus.py:94 | subscribing keeps the wildcard patterns distinct |
| EventBus.ExactCalls | src/andor_qt/core/event_bus.py:124-125 | each exact subscriber is called once, in order, without the event name |
| EventBus.NamedCalls | src/andor_qt/core/event_bus.py:130-132 | each handler of a matching pattern is called once, in order, with the event name |
| EventBus.WildCalls | src/andor_qt/core/event_bus.py:128-132 | wildcard calls all carry the published event name |
| EventBus.WildCallsComplete | src/andor_qt/core/event_bus.py:128-132 | a handler receives a wildcard call iff some matching pattern lists it |
| EventBus.Bus.Exact | src/andor_qt/core/event_bus.py:124 | an event with no exact subscribers has none |
| EventBus.Bus.constructor | src/andor_qt/core/event_bus.py:51-60 | a new bus has no subscribers and has emitted nothing |
| EventBus.Bus.Subscribe | src/andor_qt/core/event_bus.py:83-96 | a name ending in ".*" goes to the wildcard table, any other to the exact table, appended after the earlier handlers |
| EventBus.Bus.Unsubscribe | src/andor_qt/core/event_bus.py:98-111 | removes one occurrence of the handler from the table the name selects; an unknown name changes nothing |
| EventBus.Bus.Publish | src/andor_qt/core/event_bus.py:113-132 | emits the bus signal, then calls the exact subscribers in order, then the handlers of every matching wildcard pattern in table order |
| EventBus.Bus.ClearEvent | src/andor_qt/core/event_bus.py:134-143 | removes exactly the named entry from the table the name selects |
| EventBus.Bus.ClearAll | src/andor_qt/core/event_bus.py:145-148 | both tables become empty |
| EventBus.PublishReaches | src/andor_qt/core/event_bus.py:113-132 | a handler is called without the name iff it subscribed exactly, and with the name iff a matching pattern lists it |
| MotionController.MmToPs | src/andor_pymeasure/instruments/motion_controller.py:95-100 | the delay 2·mm/c has the sign of the stage position |
| MotionController.PsToMm | src/andor_pymeasure/instruments/motion_controller.py:103-105 | the position ps·c/2 has the sign of the delay |
| MotionController.ConversionRoundTrip | src/andor_pymeasure/instruments/motion_controller.py:95-105 | converting millimetres to picoseconds and back, or the other way, returns the value |
| MotionController.ConversionMonotone | src/andor_pymeasure/instruments/motion_controller.py:95-112 | both conversions keep order |
| MotionController.AxisName | src/andor_pymeasure/instruments/motion_controller.py:74 | an empty name becomes "axis" followed by the index; a given name is kept |
| MotionController.MockAxis.constructor | src/andor_pymeasure/instruments/motion_controller.py:177-195 | a mock axis keeps its index, name, limits, velocity and units, and starts enabled at 0 mm, not moving, target 0 |
| MotionController.MockAxis.SetPosition | src/andor_pymeasure/instruments/motion_controller.py:201-228 | the target is the value clamped to the limits; a nonzero velocity ends at the target, not moving; a zero velocity raises ZeroDivisionError with the axis left moving at its old position |
| MotionController.MockAxis.PositionPs | src/andor_pymeasure/instruments/motion_controller.py:94-100 | the delay reported converts back to the position |
| MotionController.MockAxis.SetPositionPs | src/andor_pymeasure/instruments/motion_controller.py:102-105 | moves to the delay converted to millimetres and clamped; a delay within the limits is then read back exactly |
| MotionController.MockAxis.DelayRangePs | src/andor_pymeasure/instruments/motion_controller.py:107-112 | the delay range is the converted limits, ordered when the limits are |
| MotionController.MockAxis.MotionDone | src/andor_pymeasure/instruments/motion_controller.py:120-123 | motion is done iff the axis is not moving |
| MotionController.MockAxis.Enable | src/andor_pymeasure/instruments/motion_controller.py:234-237 | the axis becomes enabled |
| MotionController.MockAxis.Disable | src/andor_pymeasure/instruments/motion_controller.py:239-242 | the axis becomes disabled |
| MotionController.MockAxis.Home | src/andor_pymeasure/instruments/motion_controller.py:244-248 | homing moves to 0 clamped to the limits, with the same zero-velocity failure as a move |
| MotionController.MockAxis.Stop | src/andor_pymeasure/instruments/motion_controller.py:250-255 | the axis stops and its target becomes its position |
| MotionController.ConfigName | src/andor_pymeasure/instruments/motion_controller.py:395 | a config's axis name is its name, or "axis" followed by its index (default 1) |
| MotionController.EffectiveConfigs | src/andor_pymeasure/instruments/motion_controller.py:392 | a missing or empty config list becomes the single "delay" axis; otherwise the list is used |
| MotionController.NameOrder | src/andor_pymeasure/instruments/motion_controller.py:394-405 | the axis names in first-insertion order, without duplicates |
| MotionController.NameOrderMembers | src/andor_pymeasure/instruments/motion_controller.py:394-405 | a name is in the order iff an axis is left under it |
| MotionController.LastWith | src/andor_pymeasure/instruments/motion_controller.py:405 | the configuration left under a name (a later config with the same name overwrites an earlier one) produces that name and is one of the configurations |
| MotionController.LastWithNone | src/andor_pymeasure/instruments/motion_controller.py:394-405 | nothing is left under a name exactly when no configuration produces that name |
| MotionController.BuildAxes | src/andor_pymeasure/instruments/motion_controller.py:394-405 | one fresh enabled axis at 0 mm per distinct name, built from the last config with that name |
| MotionController.Lookup | src/andor_pymeasure/instruments/motion_controller.py:288-291 | the axes listed in insertion order |
| MotionController.MockMotionController.constructor | src/andor_pymeasure/instruments/motion_controller.py:369-405 | the controller holds one axis per distinct configured name in insertion order, each built from the last config with that name |
| MotionController.MockMotionController.GetAxis | src/andor_pymeasure/instruments/motion_controller.py:294-303 | the axis with that name, or None iff there is none |
| MotionController.MockMotionController.GetAttr | src/andor_pymeasure/instruments/motion_controller.py:305-323 | attribute access returns the axis iff the name does not start with "_" and an axis has it; otherwise AttributeError |
| MotionController.MockMotionController.Axes | src/andor_pymeasure/instruments/motion_controller.py:289-291 | the axes in insertion order |
| MotionController.MockMotionController.EnableAll | src/andor_pymeasure/instruments/motion_controller.py:332-336 | every axis becomes enabled |
| MotionController.MockMotionController.DisableAll | src/andor_pymeasure/instruments/motion_controller.py:338-342 | every axis becomes disabled |
| MotionController.MockMotionController.HomeAll | src/andor_pymeasure/instruments/motion_controller.py:325-330 | on success every axis is at its clamped zero and still; a failure is ZeroDivisionError and means some axis has zero velocity |
| MotionController.MockMotionController.Shutdown | src/andor_pymeasure/instruments/motion_controller.py:412-415 | every axis becomes disabled |
| MotionController.Create | src/andor_pymeasure/instruments/motion_controller.py:369-409 | the controller is built as the constructor says; it fails iff homing on startup meets a zero-velocity axis; otherwise every axis is enabled and still, and homed when asked |
| DelayStage.MockDelayStage.constructor | src/andor_pymeasure/instruments/delay_stage.py:126-146 | a mock stage keeps its limits and velocity and starts uninitialized at 0 mm, still, without info |
| DelayStage.MockDelayStage.PositionMm | src/andor_pymeasure/instruments/delay_stage.py:148-151 | reads the current position |
| DelayStage.MockDelayStage.SetPositionMm | src/andor_pymeasure/instruments/delay_stage.py:153-177 | before initialize a move raises RuntimeError and changes nothing; afterwards the target is the value clamped to the limits; a positive velocity ends there, still; a zero velocity raises ZeroDivisionError and a negative one ValueError from the sleep, leaving the stage moving at its old position |
| DelayStage.MockDelayStage.PositionPs | src/andor_pymeasure/instruments/delay_stage.py:73-77 | the delay read converts back to the position |
| DelayStage.MockDelayStage.SetPositionPs | src/andor_pymeasure/instruments/delay_stage.py:79-82 | moves to the converted delay; a delay within the limits is read back exactly |
| DelayStage.MockDelayStage.DelayRangePs | src/andor_pymeasure/instruments/delay_stage.py:84-91 | (0, 0) without info, else the converted limits, ordered when the limits are |
| DelayStage.MockDelayStage.Initialize | src/andor_pymeasure/instruments/delay_stage.py:179-197 | the stage becomes initialized; the first call records the mock info with the stage's limits and velocity, a repeated call keeps it |
| DelayStage.MockDelayStage.Home | src/andor_pymeasure/instruments/delay_stage.py:199-206 | before initialize homing raises RuntimeError; afterwards it moves to 0 clamped to the limits |
| DelayStage.MockDelayStage.Stop | src/andor_pymeasure/instruments/delay_stage.py:208-212 | the stage stops and its target becomes its position |
| DelayStage.MockDelayStage.IsMoving | src/andor_pymeasure/instruments/delay_stage.py:214-216 | reports whether a move is in progress |
| DelayStage.MockDelayStage.Shutdown | src/andor_pymeasure/instruments/delay_stage.py:218-226 | the stage becomes uninitialized, stopped first when it was initialized |
| DelayStage.ShutdownThenMove | src/andor_pymeasure/instruments/delay_stage.py:153-226 | after shutdown a move raises RuntimeError |
| MotionManager.Kind | src/andor_qt/core/motion_manager.py:120 | an entry without a type is a mock controller |
| MotionManager.ControllerName | src/andor_qt/core/motion_manager.py:121 | an entry's name, or "controller_" followed by the number of controllers registered so far |
| MotionManager.AxisConfigs | src/andor_qt/core/motion_manager.py:130 | an entry's axes, which the controller turns into at least one axis |
| MotionManager.Names | src/andor_qt/core/motion_manager.py:119-150 | the controller names registered, in dictionary order and without duplicates |
| MotionManager.NamesSource | src/andor_qt/core/motion_manager.py:119-150 | a name is registered iff some entry that registers gives it |
| MotionManager.UnknownSkipped | src/andor_qt/core/motion_manager.py:123-127 | an entry of an unknown type registers nothing |
| MotionManager.NamesGrow | src/andor_qt/core/motion_manager.py:119-150 | later entries never unregister a name |
| MotionManager.UnionAxes | src/andor_qt/core/motion_manager.py:92-102 | all_axes holds every axis of the last controller, a later controller winning a shared axis name |
| MotionManager.FirstAxis | src/andor_qt/core/motion_manager.py:156-169 | the axis of that name on the first controller that has one, or None iff no controller has it |
| MotionManager.FirstAxisInUnion | src/andor_qt/core/motion_manager.py:92-169 | get_axis finds a name iff all_axes holds it |
| MotionManager.DescribesStep | src/andor_qt/core/motion_manager.py:119-150 | processing one more entry as the loop does keeps the registry equal to what the entries describe |
| MotionManager.MotionControllerManager.constructor | src/andor_qt/core/motion_manager.py:58-79 | a new manager keeps its config and holds no controllers, uninitialized |
| MotionManager.MotionControllerManager.Enabled | src/andor_qt/core/motion_manager.py:81-84 | enabled defaults to true |
| MotionManager.MotionControllerManager.Entries | src/andor_qt/core/motion_manager.py:110-119 | a disabled manager processes no entries |
| MotionManager.MotionControllerManager.Initialize | src/andor_qt/core/motion_manager.py:104-154 | a second call changes nothing; the first leaves the manager initialized with exactly the controllers its entries describe |
| MotionManager.MotionControllerManager.AddEntry | src/andor_qt/core/motion_manager.py:119-150 | an entry that does not register changes nothing; one that does stores a controller under its name built from its axes, appending the name once, and leaves the other controllers alone |
| MotionManager.MotionControllerManager.GetAxis | src/andor_qt/core/motion_manager.py:156-169 | an axis is found iff all_axes holds that name |
| MotionManager.MotionControllerManager.GetController | src/andor_qt/core/motion_manager.py:171-180 | the controller of that name, or None iff there is none |
| MotionManager.MotionControllerManager.HomeAll | src/andor_qt/core/motion_manager.py:182-187 | on success every axis of every controller sits at its clamped zero; the only failure is ZeroDivisionError |
| MotionManager.MotionControllerManager.Shutdown | src/andor_qt/core/motion_manager.py:189-198 | every axis of every controller ends disabled |
| MockSdk.DefaultGratings | src/andor_pymeasure/instruments/mock.py:62-65 | the simulated spectrograph has two gratings, each with an ordered wavelength range |
| MockSdk.NmPerPixel | src/andor_pymeasure/instruments/mock.py:393 | a grating with positive lines per mm has a positive dispersion |
| MockSdk.HalfRange | src/andor_pymeasure/instruments/mock.py:394 | at least one pixel on a positive grating spans a positive range |
| MockSdk.FinerGratingNarrower | src/andor_pymeasure/instruments/mock.py:393-394 | a grating with more lines per mm spans a narrower range over the same pixels |
| MockSdk.MockATSpectrograph.constructor | src/andor_pymeasure/instruments/mock.py:51-66 | a fresh spectrograph has serial SPC-001, grating 1 at 500 nm, 1024 pixels of 26 µm, and is not initialized |
| MockSdk.MockATSpectrograph.Initialize | src/andor_pymeasure/instruments/mock.py:287-290 | the spectrograph becomes initialized and reports success |
| MockSdk.MockATSpectrograph.Close | src/andor_pymeasure/instruments/mock.py:292-295 | the spectrograph becomes uninitialized and reports success |
| MockSdk.MockATSpectrograph.GetGratingInfo | src/andor_pymeasure/instruments/mock.py:329-336 | success iff the grating is in the table, returning its lines and blaze; otherwise error code 1 with empty values |
| MockSdk.MockATSpectrograph.GetWavelengthLimits | src/andor_pymeasure/instruments/mock.py:338-345 | success iff the grating is in the table, returning its range; otherwise error code 1 with zeros |
| MockSdk.MockATSpectrograph.Current | src/andor_pymeasure/instruments/mock.py:363-365 | the table row of the current grating, with Python's negative indexing, or None when the index is out of range |
| MockSdk.MockATSpectrograph.SetGrating | src/andor_pymeasure/instruments/mock.py:351-358 | success iff 1 ≤ grating ≤ the grating count, which then becomes current; otherwise error code 1 and no change |
| MockSdk.MockATSpectrograph.SetWavelength | src/andor_pymeasure/instruments/mock.py:364-373 | within the current grating's range the wavelength is set with success; outside it error code 1 and no change; a current grating outside the table raises IndexError |
| MockSdk.MockATSpectrograph.SetNumberPixels | src/andor_pymeasure/instruments/mock.py:375-378 | records the pixel count and reports success |
| MockSdk.MockATSpectrograph.SetPixelWidth | src/andor_pymeasure/instruments/mock.py:380-383 | records the pixel width and reports success |
| MockSdk.MockATSpectrograph.GetCalibration | src/andor_pymeasure/instruments/mock.py:385-401 | n evenly spaced wavelengths centred on the current wavelength, from centre − half range to centre + half range; IndexError, ZeroDivisionError or ValueError when the grating is missing, has zero lines or n is negative |
| MockSdk.GratingChangeKeepsWavelength | src/andor_pymeasure/instruments/mock.py:351-373 | moving to 1000 nm on grating 1 and then selecting grating 2 leaves a wavelength outside grating 2's range |
| MockSdk.TemperatureStep | src/andor_pymeasure/instruments/mock.py:149-157 | with the cooler on, a reading falls by 5 °C/s but never below the target; with it off, it rises by 2 °C/s but never above 20 °C; otherwise it is unchanged |
| MockSdk.TemperatureCode | src/andor_pymeasure/instruments/mock.py:159-165 | OFF iff the cooler is off; STABILIZED iff on and within 1 °C of the target; NOT_REACHED otherwise |
| MockSdk.CoolingSettles | src/andor_pymeasure/instruments/mock.py:149-153 | with the cooler on, any run of readings stays between the target and the starting temperature |
| MockSdk.ReadoutSize | src/andor_pymeasure/instruments/mock.py:230-244 | FVB returns the full detector width; an image returns (xpixels // hbin)·(ypixels // vbin) values; a zero bin raises ZeroDivisionError |
| MockSdk.Binned | src/andor_pymeasure/instruments/mock.py:240-241 | the binned axis length is n // bin for a non-negative axis |
| MockSdk.BinnedImageCoversDetector | src/andor_pymeasure/instruments/mock.py:239-242 | binning that divides the detector keeps every pixel: the values times the bin area equal the detector area |
| MockSdk.MockAtmcd.constructor | src/andor_pymeasure/instruments/mock.py:29-47 | a fresh camera has 26 µm pixels, serial 12345, 20 °C, target −60 °C, cooler off, exposure 0.1 s, FVB, single scan, binning 1 and is not initialized |
| MockSdk.MockAtmcd.Initialize | src/andor_pymeasure/instruments/mock.py:116-119 | the camera becomes initialized and reports success |
| MockSdk.MockAtmcd.ShutDown | src/andor_pymeasure/instruments/mock.py:121-124 | the camera becomes uninitialized and reports success |
| MockSdk.MockAtmcd.GetTemperature | src/andor_pymeasure/instruments/mock.py:142-165 | the temperature drifts by TemperatureStep over the elapsed time and is returned with its TemperatureCode |
| MockSdk.MockAtmcd.SetTemperature | src/andor_pymeasure/instruments/mock.py:167-170 | records the target and reports success |
| MockSdk.MockAtmcd.CoolerOn | src/andor_pymeasure/instruments/mock.py:172-175 | switches the cooler on and reports success |
| MockSdk.MockAtmcd.CoolerOff | src/andor_pymeasure/instruments/mock.py:177-180 | switches the cooler off and reports success |
| MockSdk.MockAtmcd.SetExposureTime | src/andor_pymeasure/instruments/mock.py:182-185 | records the exposure and reports success |
| MockSdk.MockAtmcd.SetAcquisitionMode | src/andor_pymeasure/instruments/mock.py:187-190 | records the acquisition mode and reports success |
| MockSdk.MockAtmcd.SetReadMode | src/andor_pymeasure/instruments/mock.py:192-195 | records the read mode and reports success |
| MockSdk.MockAtmcd.SetImage | src/andor_pymeasure/instruments/mock.py:201-207 | records the binning and reports success |
| MockSdk.MockAtmcd.StartAcquisition | src/andor_pymeasure/instruments/mock.py:213-216 | the camera is acquiring |
| MockSdk.MockAtmcd.AbortAcquisition | src/andor_pymeasure/instruments/mock.py:218-221 | the camera stops acquiring |
| MockSdk.MockAtmcd.WaitForAcquisition | src/andor_pymeasure/instruments/mock.py:223-228 | the camera stops acquiring and reports success |
| MockSdk.MockAtmcd.GetImages16 | src/andor_pymeasure/instruments/mock.py:230-244 | the read-out size is ReadoutSize of the current mode and binning; FVB returns the full width whatever binning was set |
| Spectrograph.GratingListIsTable | src/andor_pymeasure/instruments/andor_spectrograph.py:253-272 | the grating list recorded at initialize is the SDK's grating table in index order, one entry per grating the SDK knows, each with its own lines, blaze and limits |
| Spectrograph.AppendGrating | src/andor_pymeasure/instruments/andor_spectrograph.py:255-272 | one pass of the grating query loop extends the list to the first i gratings |
| Spectrograph.AndorSpectrograph.constructor | src/andor_pymeasure/instruments/andor_spectrograph.py:76-84 | a new wrapper keeps its device index and holds no SDK, no info and no calibration, uninitialized |
| Spectrograph.AndorSpectrograph.Grating | src/andor_pymeasure/instruments/andor_spectrograph.py:91-99 | 0 before initialize, otherwise the SDK's current grating |
| Spectrograph.AndorSpectrograph.Wavelength | src/andor_pymeasure/instruments/andor_spectrograph.py:135-143 | 0.0 before initialize, otherwise the SDK's current wavelength |
| Spectrograph.AndorSpectrograph.GetWavelengthLimits | src/andor_pymeasure/instruments/andor_spectrograph.py:182-205 | (0, 0) before initialize; otherwise the limits of the given grating, or of the current one when none is given, and (0, 0) when the SDK refuses |
| Spectrograph.AndorSpectrograph.SetGrating | src/andor_pymeasure/instruments/andor_spectrograph.py:101-133 | RuntimeError before initialize; ValueError for an index outside 1..numGratings, before the SDK is asked; otherwise the SDK selects it, or refuses with RuntimeError and no change |
| Spectrograph.AndorSpectrograph.SetWavelength | src/andor_pymeasure/instruments/andor_spectrograph.py:145-180 | RuntimeError before initialize; ValueError outside the current grating's limits with no change; otherwise the SDK moves to the value |
| Spectrograph.AndorSpectrograph.Initialize | src/andor_pymeasure/instruments/andor_spectrograph.py:207-292 | a second call changes nothing; the first opens the SDK and marks the wrapper initialized, raises RuntimeError iff no device exists at the index, and otherwise records the serial number, the grating count, the grating list and the accessories |
| Spectrograph.AndorSpectrograph.GetCalibration | src/andor_pymeasure/instruments/andor_spectrograph.py:294-336 | RuntimeError before initialize; otherwise the SDK gets the pixel count and width; an SDK exception is passed on and leaves the recorded settings alone; a calibration from the SDK is recorded, and is returned when it is non-empty, while an empty one raises IndexError (the log line reads its first element) |
| Spectrograph.AndorSpectrograph.Shutdown | src/andor_pymeasure/instruments/andor_spectrograph.py:337-350 | the wrapper ends uninitialized, with the SDK closed when it was open |
| Spectrograph.SelectGratingThenWavelength | src/andor_pymeasure/instruments/andor_spectrograph.py:101-180 | on the default simulated spectrograph, grating 3 is refused with ValueError, grating 2 is selected, and 900 nm is then refused with ValueError |
| Camera.StatusName | src/andor_pymeasure/instruments/andor_camera.py:96-111 | each of the five SDK temperature codes has its own status name, and every other code reads "UNKNOWN" (both directions) |
| Camera.SimulatedStatuses | src/andor_pymeasure/instruments/andor_camera.py:96-111 | on the simulated SDK the status is OFF, STABILIZED or NOT_REACHED, and OFF exactly when the cooler is off |
| Camera.Polls | src/andor_pymeasure/instruments/andor_camera.py:366-377 | the warm-up loop starts just enough 5 s polls to cover the timeout |
| Camera.AndorCamera.constructor | src/andor_pymeasure/instruments/andor_camera.py:56-69 | a new wrapper has no SDK, no info, cooler off, uninitialized |
| Camera.AndorCamera.XPixels | src/andor_pymeasure/instruments/andor_camera.py:76-84 | the recorded detector width, 0 before initialize |
| Camera.AndorCamera.YPixels | src/andor_pymeasure/instruments/andor_camera.py:76-84 | the recorded detector height, 0 before initialize |
| Camera.AndorCamera.Temperature | src/andor_pymeasure/instruments/andor_camera.py:86-94 | 20.0 before initialize; otherwise the SDK's reading after its temperature has advanced |
| Camera.AndorCamera.TemperatureStatus | src/andor_pymeasure/instruments/andor_camera.py:96-111 | "NOT_INITIALIZED" before initialize; otherwise the status name of the SDK's code for the new reading |
| Camera.AndorCamera.Initialize | src/andor_pymeasure/instruments/andor_camera.py:113-162 | a second call changes nothing; the first opens the SDK, records a detector that matches it, and selects single-scan FVB |
| Camera.AndorCamera.SetExposure | src/andor_pymeasure/instruments/andor_camera.py:164-178 | RuntimeError before initialize; otherwise the SDK's exposure time is the value given |
| Camera.AndorCamera.CoolerOn | src/andor_pymeasure/instruments/andor_camera.py:180-196 | RuntimeError and no change before initialize; otherwise the SDK's target is set and its cooler and the wrapper's flag are on |
| Camera.AndorCamera.CoolerOff | src/andor_pymeasure/instruments/andor_camera.py:198-210 | RuntimeError and no change before initialize; otherwise the SDK's cooler and the wrapper's flag are off |
| Camera.AndorCamera.AcquireFvb | src/andor_pymeasure/instruments/andor_camera.py:212-282 | RuntimeError before initialize; ValueError for hbin below 1 or not dividing the width; otherwise FVB single-scan is selected; a missing SetFVBHBin raises AttributeError, and its failure is fatal only for hbin > 1; on success width/hbin values are asked for and the acquisition has ended |
| Camera.AndorCamera.AcquireImage | src/andor_pymeasure/instruments/andor_camera.py:284-339 | RuntimeError before initialize; ZeroDivisionError for a zero factor; ValueError when a factor does not divide its side (Python remainder); on success the image is height/vbin rows of width/hbin values, read in image mode with those factors |
| Camera.AndorCamera.AbortAcquisition | src/andor_pymeasure/instruments/andor_camera.py:341-348 | no acquisition is running afterwards when the wrapper is initialized |
| Camera.AndorCamera.Warmup | src/andor_pymeasure/instruments/andor_camera.py:350-379 | true before initialize; switches the cooler off when this wrapper had it on; true only once a reading reaches the target, and always true when the polls cover the distance to a target at or below room temperature |
| Camera.AndorCamera.Shutdown | src/andor_pymeasure/instruments/andor_camera.py:381-410 | the wrapper ends uninitialized with the SDK shut down; a camera colder than -20 °C is warmed first, with its cooler switched off |
| DataSettings.SpinValue | src/andor_qt/widgets/hardware/data_settings.py:101 | the counter spin box holds values 1..99999 only: in-range values unchanged, others clamped to the nearer end |
| DataSettings.CounterPath | src/andor_qt/widgets/hardware/data_settings.py:334-346 | a counter file name is the base name, an underscore, the zero-padded counter and the extension, in the chosen directory |
| DataSettings.FirstFree | src/andor_qt/widgets/hardware/data_settings.py:334-346 | the smallest counter from the current one whose file does not exist, every counter before it being taken; None only when all up to 99999 are taken |
| DataSettings.SearchAsWritten | src/andor_qt/widgets/hardware/data_settings.py:334-346 | a bounded run of the counter search as written finds only free counters within 1..99999 |
| DataSettings.AsWrittenNeverEnds | src/andor_qt/widgets/hardware/data_settings.py:334-346 | when the file for counter 99999 exists the search as written never returns, however many passes it makes |
| DataSettings.AsWrittenFindsFirstFree | src/andor_qt/widgets/hardware/data_settings.py:334-346 | below that case, the search as written finds the first free counter |
| DataSettings.NextSearchSkipsSaved | src/andor_qt/widgets/hardware/data_settings.py:321-351 | once the returned file is saved, the next search returns a later counter |
| DataSettings.DataSettingsWidget.constructor | src/andor_qt/widgets/hardware/data_settings.py:48-167 | the panel starts in the home AndorData folder, name "spectrum", counter mode at 1, autosave on, empty sample and operator, SDK calibration |
| DataSettings.DataSettingsWidget.BaseName | src/andor_qt/widgets/hardware/data_settings.py:243-251 | the name field, or "spectrum" when it is empty; never empty |
| DataSettings.DataSettingsWidget.SetBaseName | src/andor_qt/widgets/hardware/data_settings.py:243-251 | the name field holds the new name |
| DataSettings.DataSettingsWidget.SetDirectory | src/andor_qt/widgets/hardware/data_settings.py:234-241 | the directory field holds the new path |
| DataSettings.DataSettingsWidget.ChooseNamingMode | src/andor_qt/widgets/hardware/data_settings.py:93-96 | combo entry 0 selects counter mode and entry 1 timestamp mode |
| DataSettings.DataSettingsWidget.SetCounter | src/andor_qt/widgets/hardware/data_settings.py:258-266 | the counter is the value clamped to the spin range |
| DataSettings.DataSettingsWidget.SetAutoSave | src/andor_qt/widgets/hardware/data_settings.py:268-276 | the autosave box holds the value |
| DataSettings.DataSettingsWidget.SetSampleId | src/andor_qt/widgets/hardware/data_settings.py:278-286 | the sample field holds the value |
| DataSettings.DataSettingsWidget.SetOperator | src/andor_qt/widgets/hardware/data_settings.py:288-296 | the operator field holds the value |
| DataSettings.DataSettingsWidget.SetCalibrationSource | src/andor_qt/widgets/hardware/data_settings.py:298-308 | "sdk" or "file" is selected; any other value leaves the selection as it was |
| DataSettings.DataSettingsWidget.CalibrationFile | src/andor_qt/widgets/hardware/data_settings.py:310-319 | the calibration path, None exactly when the field is empty |
| DataSettings.DataSettingsWidget.SetCalibrationFile | src/andor_qt/widgets/hardware/data_settings.py:310-319 | the field holds the path, or is cleared by None; reading it back gives the path unless it is empty |
| DataSettings.DataSettingsWidget.GetNextFilepath | src/andor_qt/widgets/hardware/data_settings.py:321-351 | timestamp mode names the file with the timestamp and keeps the counter; counter mode returns the first free counter's path and leaves the counter one past it; None when every counter is taken |
| DataSettings.DataSettingsWidget.Metadata | src/andor_qt/widgets/hardware/data_settings.py:353-363 | exactly the keys sample_id, operator and timestamp, with the panel's values and the given time |
| DynamicInputs.DynamicInputsWidget.constructor | src/andor_qt/widgets/inputs/dynamic_inputs.py:48-103 | the form starts in FVB mode at 0.1 s, one accumulation and no binning, showing accumulations and hiding vbin |
| DynamicInputs.DynamicInputsWidget.ChooseReadMode | src/andor_qt/widgets/inputs/dynamic_inputs.py:113-132 | entry 0 selects FVB and entry 1 image; vbin is shown exactly in image mode and accumulations exactly in FVB mode |
| DynamicInputs.DynamicInputsWidget.SetExposureTime | src/andor_qt/widgets/inputs/dynamic_inputs.py:149-152 | the exposure is the value clamped to 0.001..600 s |
| DynamicInputs.DynamicInputsWidget.SetHbin | src/andor_qt/widgets/inputs/dynamic_inputs.py:164-167 | hbin is the value clamped to 1..16 |
| DynamicInputs.DynamicInputsWidget.SetVbin | src/andor_qt/widgets/inputs/dynamic_inputs.py:174-177 | vbin is the value clamped to 1..16 |
| DynamicInputs.DynamicInputsWidget.EnterAccumulations | src/andor_qt/widgets/inputs/dynamic_inputs.py:79-83 | the accumulations are the value clamped to 1..1000 |
| DynamicInputs.DynamicInputsWidget.GetParameters | src/andor_qt/widgets/inputs/dynamic_inputs.py:179-196 | four keys: read mode, exposure and hbin always, plus accumulations exactly in FVB mode or vbin exactly otherwise, each with the form's value |
| DynamicInputs.DynamicInputsWidget.CreateProcedure | src/andor_qt/widgets/inputs/dynamic_inputs.py:198-229 | a spectrum procedure exactly in FVB mode, carrying the accumulations, and an image procedure otherwise, carrying vbin; both carry the exposure, wavelength, grating and hbin |
| DynamicInputs.ProcedureMatchesParameters | src/andor_qt/widgets/inputs/dynamic_inputs.py:179-229 | the procedure carries exactly the mode-specific parameter the dictionary reports, with the same values |
| SequencerAdapter.Adapter.constructor | src/andor_qt/core/sequencer_adapter.py:42-50 | the adapter keeps the form and the queue runner it is given |
| SequencerAdapter.Adapter.ProcedureClass | src/andor_qt/core/sequencer_adapter.py:52-59 | the spectrum procedure exactly in FVB mode, the image procedure otherwise |
| SequencerAdapter.Adapter.SequenceableInputs | src/andor_qt/core/sequencer_adapter.py:23-30 | five names: the four common ones, then accumulations exactly in FVB mode or vbin otherwise |
| SequencerAdapter.Adapter.MakeProcedure | src/andor_qt/core/sequencer_adapter.py:68-79 | a procedure of the current class, at the spectrograph's wavelength and grating, or at 500 nm on grating 1 without one; it carries exactly the mode-specific parameter the sequencer may vary |
| SequencerAdapter.Adapter.Queue | src/andor_qt/core/sequencer_adapter.py:81-90 | exactly one entry, the given procedure or one made from the form, is appended under the next index, and the runner is not started |
| ShutdownDialog.Progress | src/andor_qt/widgets/dialogs/shutdown_dialog.py:84-92 | the bar value lies in 0..100, is 0 at the starting temperature and 100 at the target, and is 100 for a range of 0.1 °C or less |
| ShutdownDialog.HalfWay | src/andor_qt/widgets/dialogs/shutdown_dialog.py:84-92 | warming from -60 °C towards -20 °C, the bar shows 50 at -40 °C |
| ShutdownDialog.ProgressMonotone | src/andor_qt/widgets/dialogs/shutdown_dialog.py:84-92 | in either direction, a reading that has covered more of the range never shows less progress |
| ShutdownDialog.Dialog.constructor | src/andor_qt/widgets/dialogs/shutdown_dialog.py:30-64 | a new dialog runs from 0 °C to -20 °C with an empty bar, the preparing status and force quit enabled |
| ShutdownDialog.Dialog.SetTemperatureRange | src/andor_qt/widgets/dialogs/shutdown_dialog.py:66-75 | the range is the one given |
| ShutdownDialog.Dialog.UpdateTemperature | src/andor_qt/widgets/dialogs/shutdown_dialog.py:77-94 | the reading and status are shown and the bar holds the progress of the reading, full at the target |
| ShutdownDialog.Dialog.SetStatus | src/andor_qt/widgets/dialogs/shutdown_dialog.py:96-102 | the status line holds the message |
| ShutdownDialog.Dialog.OnShutdownComplete | src/andor_qt/widgets/dialogs/shutdown_dialog.py:104-108 | the bar is full, the status reads "Shutdown complete" and force quit is disabled |
| ShutdownDialog.Dialog.ClickForceQuit | src/andor_qt/widgets/dialogs/shutdown_dialog.py:61-64 | a click requests force quit exactly while the button is enabled |
| Demo.CoolStep | examples/pymeasure_demo.py:43-47 | a cooling update never raises the temperature and never crosses the target: 2 °C down or onto the target |
| Demo.WarmStep | examples/pymeasure_demo.py:53-57 | a warming update never lowers the temperature and never passes 20 °C: 1 °C up or onto room temperature |
| Demo.CooledAfterFormula | examples/pymeasure_demo.py:41-58 | from above the target, k cooling updates take exactly 2k °C off, until the target is reached and held |
| Demo.CoolingReachesTarget | examples/pymeasure_demo.py:41-58 | from above the target the cooler reaches it after exactly the ceiling of (t − target)/2 updates, and not before |
| Demo.SimulatedHardware.constructor | examples/pymeasure_demo.py:35-39 | cooler off, aiming at -70 °C, at 20 °C, status OFF |
| Demo.SimulatedHardware.SetCooler | examples/pymeasure_demo.py:273-277 | the cooler follows the check box and the target is taken from the spin box |
| Demo.SimulatedHardware.SetTarget | examples/pymeasure_demo.py:279-283 | the target is the value given |
| Demo.SimulatedHardware.UpdateTemperature | examples/pymeasure_demo.py:41-58 | one thermostat step: cooling or warming by the step functions, with status COOLING, STABILIZED (within 1 °C), AT_TARGET, WARMING or OFF |
| Demo.NumPixels | examples/pymeasure_demo.py:155-156 | the simulated pixel count is the detector width divided by hbin, rounded down, at least 64 |
| Demo.EffectiveVbin | examples/pymeasure_demo.py:151-154 | vbin is 1 when the read mode contains "FVB" and the parameter otherwise |
| Demo.FvbChoiceForcesVbin | examples/pymeasure_demo.py:151-154 | of the two read-mode choices, the FVB one forces vbin 1 and the image one keeps it |
| Demo.TotalAcquisitions | examples/pymeasure_demo.py:185 | the accumulations in "Accumulate" mode, one acquisition otherwise |
| Demo.Wavelengths | examples/pymeasure_demo.py:158-162 | one wavelength per pixel, from 50/grating nm below the centre to 50/grating nm above it |
| Demo.ResultEmits | examples/pymeasure_demo.py:213-214 | one row per pixel, holding its wavelength and its intensity clamped at zero |
| Demo.AccumulateShots | examples/pymeasure_demo.py:185-211 | the accumulation loop stops exactly when a stop is seen before the last shot, having emitted the progress of the finished shots; otherwise it emits every progress value and holds the pixel-wise sum of all shots |
| Demo.Execute | examples/pymeasure_demo.py:148-216 | completes exactly when no stop is seen before the last acquisition; a stopped run has emitted only the progress of the finished acquisitions; a completed run emits every progress value, then the clamped mean spectrum row by row |
| Demo.CompletedRunReportsEveryPixel | examples/pymeasure_demo.py:185-216 | a completed run ends its progress at 100 % and then reports every pixel, none negative |
| Spectra.AddInto | src/andor_qt/procedures/spectrum.py:121-127 | an in-place accumulation succeeds exactly when the spectrum has the accumulator's length or length 1 (numpy broadcasting), and then adds it pixel by pixel; otherwise it is numpy's ValueError |
| Spectra.AddIntoSums | src/andor_pymeasure/procedures/spectrum.py:133-139 | each accumulation step keeps the accumulator equal to the pixel-wise sum of the spectra acquired so far |
| Spectra.MeanOfRepeats | src/andor_pymeasure/procedures/spectrum.py:133-142 | accumulating n copies of the same spectrum and dividing by n gives that spectrum back |
| Spectra.Arange | src/andor_pymeasure/procedures/wavelength_scan.py:129 | arange yields as many values as its count: the number of grid points start + i·step below the stop |
| Spectra.ArangePoints | src/andor_pymeasure/procedures/wavelength_scan.py:129 | value i of arange is start + i·step |
| Spectra.ArangeBelowStop | src/andor_pymeasure/procedures/wavelength_scan.py:129 | for a positive step, arange yields exactly the grid points below the stop value |
| Spectra.Linspace | examples/pymeasure_demo.py:162 | n evenly spaced values, the first at the start and the last at the end |

## Left out

- `NewportDelayStage` (src/andor_pymeasure/instruments/delay_stage.py:228-387) is not part of this model: it is serial-port I/O and parsing of controller replies.
- The main window, the hardware manager and the Qt-only widgets are not part of this model. They are window assembly, daemon threads, timers and file I/O.
- Threads and locks: each background body is one sequential method. Interleavings with the GUI thread are not modelled. The queue runner takes the GUI's `abort`, `abort_all`, `clear` and `add` calls as a list applied between items.
- Wall-clock time and sleeps: the seconds elapsed enter as parameters (temperature steps, warm-up polls). `datetime.now()` values are abstract strings.
- Random data: simulated spectra, images and demo noise enter as given sequences. Only their lengths and averages are modelled.
- Qt rendering: labels, colours drawn, layouts, tooltips and the `_format_parameters` text are not modelled. Neither are the `settings_changed` and `parameters_changed` signals of the two forms.
- PyMeasure's `Procedure` and `Parameter` machinery, including its min/max validation: parameters are plain fields.
- The event bus is an ordinary object, not a process-wide singleton. Handler side effects are abstract; a handler is an identifier, and `publish` records the calls made.
- Wildcard matching: `fnmatch(name, "P.*")` is modelled as "name starts with `P.`". This holds when the prefix has no glob metacharacters; `normcase` is ignored.
- The motion manager's connection parameters are not modelled. The only way the mock controller's construction raises in the model is homing on startup with an axis of zero velocity; such an entry is skipped.
- The trace list's rendering is not modelled: row widgets are serial numbers with their label, colour and checkbox state, and the layout is the sequence of those serials.
- The wavelength setter's range check inside the spectrum and pump-probe procedures is folded into the rig's generic failing call. Only the wavelength scan, where clipping makes the limits matter, models the limits explicitly.
- The startup and shutdown of the two wavelength-scan procedures (src/andor_pymeasure/procedures/wavelength_scan.py:86-105, 172-180) are the same as those of the spectrum procedure. They are modelled once, by `PmSpectrum.StartupOps` and `PmSpectrum.ShutdownOps`.
- Camera.AndorCamera.Initialize: the error path for an SDK initialization code other than success is not reachable: the simulated SDK always succeeds, so the contract states only the success path.
- Camera.AndorCamera.AcquireFvb: after a failed wait the source also aborts the acquisition. That call is not recorded, because the simulated wait always succeeds.
- Camera.AndorCamera.AcquireImage: reshaping to a negative size is reported as ValueError, without modelling numpy's reshape further.
- Camera.AndorCamera.Warmup: a poll 5 s after the previous one is the only timing modelled. The wall clock is replaced by the count of polls that fit in the timeout.
- The trivial SDK getters of the simulated SDKs (serial number, head model, detector size, number of devices) are fields read directly.
- QDoubleSpinBox rounding to its number of decimals is not modelled. Spin boxes clamp to their range exactly.
- Paths are a directory and a file name. There is no normalisation, and directory creation is not modelled. The filesystem is the set of existing paths.
- DataSettings.DataSettingsWidget.GetNextFilepath: returns None when every counter up to 99999 is taken, where the source loops forever (see Findings).
- MotionController.ConversionRoundTrip: the mm/ps conversions are exact over reals. The source's floating-point rounding is not modelled.
- Python's `hasattr` guards in the shared-hardware cleanup are modelled as fields that start unset.

## Findings

| source | as written | input that shows it | evidently intended | confidence | as-written member | corrected member |
|---|---|---|---|---|---|---|
| src/andor_qt/procedures/spectrum.py:101-127 | the accumulator has xpixels // hbin entries, but each `acquire_fvb()` call uses the default binning of 1 and returns xpixels values | hbin = 2, num_accumulations = 2 on a 1024-pixel camera: adding 1024 values to a 512-entry accumulator raises ValueError | acquire at the procedure's binning so each spectrum has xpixels // hbin values | not executed | QtSpectrum.ExecuteSpectrumAsWritten | QtSpectrum.ExecuteSpectrum |
| src/andor_qt/widgets/hardware/data_settings.py:334-346 | the search stores counter + 1 through a spin box limited to 99999 and loops until a free name is found | the file for counter 99999 exists: the counter stays at 99999 and the loop never ends | stop and report that no name is free | not executed | DataSettings.AsWrittenNeverEnds | DataSettings.DataSettingsWidget.GetNextFilepath |
| src/andor_pymeasure/procedures/wavelength_scan.py:129 | positions are `arange(start, end + step, step)`, so the last can lie beyond the end | the range 400 to 800 nm clipped to a grating limit of 700, step 70: positions 400 … 750; moving to 750 nm raises ValueError | positions from start up to the clipped end, none beyond it | not executed | WavelengthScan.ExecuteAsWritten | WavelengthScan.Execute |
