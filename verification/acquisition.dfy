// What a measurement procedure sees of the instruments while it runs, and the
// pieces of `execute` that several procedures share.  The camera,
// spectrograph, stage and the PyMeasure worker are abstract: the answers they
// give are the fields of a `Rig`, indexed by how many such calls came before.
module Acquisition {
  import opened Wrappers
  import opened Spectra

  /** A numpy image of `rows` × `cols` pixels. */
  datatype Image = Image(rows: nat, cols: nat, pixel: (nat, nat) -> real)

  /** The number of pixels of an image. */
  function Pixels(img: Image): (n: nat)
    ensures n == 0 <==> img.rows == 0 || img.cols == 0
  {
    img.rows * img.cols
  }

  /** The instrument calls a procedure makes, in order. */
  datatype Call =
    | SetGrating(grating: int)
    | SetWavelength(nm: real)
    | GetLimits
    | Calibrate(pixels: int, width: real)
    | CalibrateBinned(hbin: int)
    | SetExposure(seconds: real)
    | AcquireFvb(hbin: int)
    | AcquireImage(hbin: int, vbin: int)
    | MoveStage(ps: real)
    | MoveDelayAxis(ps: real)

  /**
   * The abstract instruments: `stop(k)` is the answer of the k-th `should_stop()`,
   * the call at position `failAt` (if any) raises `fault`, and `calibration`,
   * `fvb` and `image` give the result of the k-th call of that kind.
   */
  datatype Rig = Rig(
    stop: nat -> bool,
    failAt: Option<nat>,
    fault: Error,
    hasDelayAxis: bool,
    xpixels: int,
    ypixels: int,
    pixelWidth: real,
    limits: (real, real),
    calibration: nat -> seq<real>,
    fvb: nat -> seq<real>,
    image: nat -> Image)

  /** What `Procedure.emit` sends: a progress percentage or one row of results. */
  datatype Emit = Progress(percent: real) | Results(row: seq<real>)

  /** How `execute` ended: ran to the end, returned on `should_stop`, or raised. */
  datatype Outcome = Completed | Stopped | Raised(error: Error)

  predicate FailsAt(rig: Rig, k: nat)
  {
    rig.failAt == Some(k)
  }

  /** No call raises, `should_stop` never answers true. */
  ghost predicate Smooth(rig: Rig)
  {
    rig.failAt.None? && forall k :: !rig.stop(k)
  }

  /** Python's `100 * done / total`. */
  function Percent(done: nat, total: nat): real
    requires total > 0
  {
    100.0 * (done as real) / (total as real)
  }

  /** The progress values 100·1/n, 100·2/n, …, 100·n/n. */
  function Ramp(n: nat): (r: seq<Emit>)
    ensures |r| == n
  {
    seq(n, i requires 0 <= i < n => Progress(Percent(i + 1, n)))
  }

  /** The first `d` progress values of a run over `n` items: 100·1/n, …, 100·d/n. */
  function Percents(d: nat, n: nat): (r: seq<real>)
    requires d == 0 || n > 0
    ensures |r| == d
    ensures forall j :: 0 <= j < d ==> r[j] == Percent(j + 1, n)
  {
    if d == 0 then [] else Percents(d - 1, n) + [Percent(d, n)]
  }

  /** The first k+1 progress values are the first k, then 100·(k+1)/n. */
  lemma {:induction false} RampStep(n: nat, k: nat)
    requires k < n
    ensures Ramp(n)[..k] + [Progress(Percent(k + 1, n))] == Ramp(n)[..k + 1]
  {
  }

  lemma {:induction false} RampClimbsTo100(n: nat)
    requires n > 0
    ensures Ramp(n)[n - 1] == Progress(100.0)
    ensures forall i, j :: 0 <= i < j < n ==> Ramp(n)[i].percent < Ramp(n)[j].percent
    ensures forall i :: 0 <= i < n ==> 0.0 < Ramp(n)[i].percent <= 100.0
  {
    var r := Ramp(n);
    assert r[n - 1].percent == 100.0 * (n as real) / (n as real);
    forall i, j | 0 <= i < j < n
      ensures r[i].percent < r[j].percent
    {
      PercentGrows(i + 1, j + 1, n);
    }
    forall i | 0 <= i < n
      ensures 0.0 < r[i].percent <= 100.0
    {
      PercentGrows(i + 1, n, n);
    }
  }

  lemma {:induction false} PercentGrows(a: nat, b: nat, n: nat)
    requires n > 0 && a <= b
    ensures a < b ==> Percent(a, n) < Percent(b, n)
    ensures a > 0 ==> Percent(a, n) > 0.0
    ensures b == n ==> Percent(b, n) == 100.0
  {
    var m := 100.0 / (n as real);
    assert Percent(a, n) == (a as real) * m;
    assert Percent(b, n) == (b as real) * m;
  }

  /** `should_stop` answered false to calls `lo` up to (not including) `hi`. */
  ghost predicate NoStopIn(rig: Rig, lo: nat, hi: nat)
  {
    forall k: nat :: lo <= k < hi ==> !rig.stop(k)
  }

  /** The results of the first `n` `acquire_fvb` calls. */
  function Acquired(rig: Rig, n: nat): (r: seq<seq<real>>)
    ensures |r| == n && forall i :: 0 <= i < n ==> r[i] == rig.fvb(i)
  {
    if n == 0 then [] else Acquired(rig, n - 1) + [rig.fvb(n - 1)]
  }

  /** `k` issues of the same instrument call `c`. */
  function Repeated(c: Call, k: nat): (r: seq<Call>)
    ensures |r| == k && forall i :: 0 <= i < k ==> r[i] == c
  {
    if k == 0 then [] else Repeated(c, k - 1) + [c]
  }

  /** The result rows among the emits, in order. */
  function ResultRows(emits: seq<Emit>): (r: seq<seq<real>>)
    ensures |r| <= |emits|
  {
    RowsUpTo(emits, |emits|)
  }

  /** The result rows among the first `n` emits. */
  function RowsUpTo(emits: seq<Emit>, n: nat): (r: seq<seq<real>>)
    requires n <= |emits|
    ensures |r| <= n
  {
    if n == 0 then [] else RowsUpTo(emits, n - 1) + (match emits[n - 1] case Results(row) => [row] case Progress(_) => [])
  }

  /** The progress values among the emits, in order. */
  function Progresses(emits: seq<Emit>): (r: seq<real>)
    ensures |r| <= |emits|
  {
    TicksUpTo(emits, |emits|)
  }

  /** The progress values among the first `n` emits. */
  function TicksUpTo(emits: seq<Emit>, n: nat): (r: seq<real>)
    requires n <= |emits|
    ensures |r| <= n
  {
    if n == 0 then [] else TicksUpTo(emits, n - 1) + (match emits[n - 1] case Progress(p) => [p] case Results(_) => [])
  }

  /** Emits appended after the first `n` do not change what those `n` hold. */
  lemma {:induction false} UpToPrefix(a: seq<Emit>, b: seq<Emit>, n: nat)
    requires n <= |a|
    ensures RowsUpTo(a + b, n) == RowsUpTo(a, n)
    ensures TicksUpTo(a + b, n) == TicksUpTo(a, n)
  {
    if n > 0 {
      UpToPrefix(a, b, n - 1);
      assert (a + b)[n - 1] == a[n - 1];
    }
  }

  /** The first `|a| + k` emits of `a + b` hold those of `a`, then those of the first `k` of `b`. */
  lemma {:induction false} UpToShift(a: seq<Emit>, b: seq<Emit>, k: nat)
    requires k <= |b|
    ensures RowsUpTo(a + b, |a| + k) == RowsUpTo(a, |a|) + RowsUpTo(b, k)
    ensures TicksUpTo(a + b, |a| + k) == TicksUpTo(a, |a|) + TicksUpTo(b, k)
  {
    if k == 0 {
      UpToPrefix(a, b, |a|);
    } else {
      UpToShift(a, b, k - 1);
      assert (a + b)[|a| + k - 1] == b[k - 1];
      var rb := match b[k - 1] case Results(row) => [row] case Progress(_) => [];
      var tb := match b[k - 1] case Progress(p) => [p] case Results(_) => [];
      AppendAssoc(RowsUpTo(a, |a|), RowsUpTo(b, k - 1), rb);
      AppendAssoc(TicksUpTo(a, |a|), TicksUpTo(b, k - 1), tb);
    }
  }

  lemma {:induction false} FiltersDistribute(a: seq<Emit>, b: seq<Emit>)
    ensures ResultRows(a + b) == ResultRows(a) + ResultRows(b)
    ensures Progresses(a + b) == Progresses(a) + Progresses(b)
  {
    UpToShift(a, b, |b|);
  }

  /** The filters of a non-empty run are those of all but its last emit, then that emit's. */
  lemma {:induction false} FiltersLast(emits: seq<Emit>)
    requires emits != []
    ensures ResultRows(emits) == ResultRows(emits[..|emits| - 1])
      + (match emits[|emits| - 1] case Results(row) => [row] case Progress(_) => [])
    ensures Progresses(emits) == Progresses(emits[..|emits| - 1])
      + (match emits[|emits| - 1] case Progress(p) => [p] case Results(_) => [])
  {
    var n := |emits| - 1;
    assert emits == emits[..n] + [emits[n]];
    FiltersDistribute(emits[..n], [emits[n]]);
  }

  /** A block without progress values, then a tick: the rows are the block's, the one new progress value the tick's. */
  lemma {:induction false} BlockThenTick(before: seq<Emit>, block: seq<Emit>, p: real)
    requires Progresses(block) == []
    ensures ResultRows(before + block + [Progress(p)]) == ResultRows(before) + ResultRows(block)
    ensures ResultRows(before + (block + [Progress(p)])) == ResultRows(before) + ResultRows(block)
    ensures Progresses(before + block + [Progress(p)]) == Progresses(before) + [p]
    ensures Progresses(before + (block + [Progress(p)])) == Progresses(before) + [p]
  {
    var tick := [Progress(p)];
    FiltersDistribute(before, block);
    FiltersDistribute(before + block, tick);
    assert ResultRows(tick) == [] && Progresses(tick) == [p] by { assert tick[..0] == []; }
    AppendAssoc(before, block, tick);
  }

  /** One result row per `zip` pair, each prefixed with `tag` (a delay, a centre wavelength). */
  function Tagged(tag: seq<real>, pairs: seq<(real, real)>): (r: seq<Emit>)
    ensures |r| == |pairs|
  {
    TaggedUpTo(tag, pairs, |pairs|)
  }

  /** The result rows of the first `n` pairs. */
  function TaggedUpTo(tag: seq<real>, pairs: seq<(real, real)>, n: nat): (r: seq<Emit>)
    requires n <= |pairs|
    ensures |r| == n
  {
    if n == 0 then [] else TaggedUpTo(tag, pairs, n - 1) + [Results(tag + [pairs[n - 1].0, pairs[n - 1].1])]
  }

  lemma {:induction false} TaggedRows(tag: seq<real>, pairs: seq<(real, real)>)
    ensures Progresses(Tagged(tag, pairs)) == []
    ensures |ResultRows(Tagged(tag, pairs))| == |pairs|
  {
    TaggedUpToRows(tag, pairs, |pairs|);
  }

  lemma {:induction false} TaggedUpToRows(tag: seq<real>, pairs: seq<(real, real)>, n: nat)
    requires n <= |pairs|
    ensures Progresses(TaggedUpTo(tag, pairs, n)) == []
    ensures |ResultRows(TaggedUpTo(tag, pairs, n))| == n
  {
    if n > 0 {
      TaggedUpToRows(tag, pairs, n - 1);
      FiltersDistribute(TaggedUpTo(tag, pairs, n - 1), [Results(tag + [pairs[n - 1].0, pairs[n - 1].1])]);
    }
  }

  /** A position's block, its tagged rows and then one progress value, reports that value and one row per pair. */
  lemma {:induction false} BlockReport(tag: seq<real>, pairs: seq<(real, real)>, p: real)
    ensures Progresses(Tagged(tag, pairs) + [Progress(p)]) == [p]
    ensures |ResultRows(Tagged(tag, pairs) + [Progress(p)])| == |pairs|
  {
    var tick := [Progress(p)];
    TaggedRows(tag, pairs);
    FiltersDistribute(Tagged(tag, pairs), tick);
    assert ResultRows(tick) == [] by { assert tick[..0] == []; }
    assert Progresses(tick) == [p] by { assert tick[..0] == []; }
  }

  /** Row `y` of an image as result rows `tag + [wavelength, y, intensity]`. */
  function ImageRow(tag: seq<real>, wl: seq<real>, img: Image, y: nat): (r: seq<Emit>)
    requires img.cols <= |wl|
    ensures |r| == img.cols
  {
    RowPrefix(tag, wl, img, y, img.cols)
  }

  /** The first `n` pixels of row `y`. */
  function RowPrefix(tag: seq<real>, wl: seq<real>, img: Image, y: nat, n: nat): (r: seq<Emit>)
    requires n <= |wl|
    ensures |r| == n
  {
    if n == 0 then [] else RowPrefix(tag, wl, img, y, n - 1) + [Results(tag + [wl[n - 1], y as real, img.pixel(y, n - 1)])]
  }

  /** The first `rows` image rows flattened in row-major order. */
  function ImagePoints(tag: seq<real>, wl: seq<real>, img: Image, rows: nat): (r: seq<Emit>)
    requires img.cols <= |wl|
  {
    if rows == 0 then [] else ImagePoints(tag, wl, img, rows - 1) + ImageRow(tag, wl, img, rows - 1)
  }

  /** A whole image yields rows·cols result rows and no progress. */
  lemma {:induction false} ImagePointsCount(tag: seq<real>, wl: seq<real>, img: Image, rows: nat)
    requires img.cols <= |wl|
    ensures |ImagePoints(tag, wl, img, rows)| == rows * img.cols
    ensures |ResultRows(ImagePoints(tag, wl, img, rows))| == rows * img.cols
    ensures Progresses(ImagePoints(tag, wl, img, rows)) == []
  {
    if rows > 0 {
      var before := ImagePoints(tag, wl, img, rows - 1);
      var row := ImageRow(tag, wl, img, rows - 1);
      ImagePointsCount(tag, wl, img, rows - 1);
      ImageRowRows(tag, wl, img, rows - 1);
      FiltersDistribute(before, row);
      MulStep(rows, img.cols);
    }
  }

  lemma {:induction false} MulStep(rows: nat, cols: nat)
    requires rows > 0
    ensures (rows - 1) * cols + cols == rows * cols
  {
  }

  lemma {:induction false} ImageRowRows(tag: seq<real>, wl: seq<real>, img: Image, y: nat)
    requires img.cols <= |wl|
    ensures |ResultRows(ImageRow(tag, wl, img, y))| == img.cols
    ensures Progresses(ImageRow(tag, wl, img, y)) == []
  {
    RowPrefixFilters(tag, wl, img, y, img.cols);
  }

  lemma {:induction false} RowPrefixFilters(tag: seq<real>, wl: seq<real>, img: Image, y: nat, n: nat)
    requires n <= |wl|
    ensures |ResultRows(RowPrefix(tag, wl, img, y, n))| == n
    ensures Progresses(RowPrefix(tag, wl, img, y, n)) == []
  {
    if n > 0 {
      RowPrefixFilters(tag, wl, img, y, n - 1);
      FiltersDistribute(RowPrefix(tag, wl, img, y, n - 1), [Results(tag + [wl[n - 1], y as real, img.pixel(y, n - 1)])]);
    }
  }

  lemma {:induction false} RowFilters(row: seq<Emit>, n: nat)
    requires n <= |row| && forall i :: 0 <= i < |row| ==> row[i].Results?
    ensures |ResultRows(row[..n])| == n && Progresses(row[..n]) == []
  {
    if n > 0 {
      assert row[..n][..n - 1] == row[..n - 1];
      RowFilters(row, n - 1);
      FiltersLast(row[..n]);
    }
  }

  /**
   * The accumulation loop of the spectrum procedures: before each of `n`
   * acquisitions consult `should_stop` (the `base + i`-th call), acquire with
   * `hbin`, add into an accumulator of `len` zeros and report 100·(i+1)/n.
   */
  method AccumulateWithProgress(rig: Rig, n: nat, len: nat, hbin: int, base: nat, calls0: seq<Call>)
    returns (out: Outcome, spectrum: seq<real>, emits: seq<Emit>, calls: seq<Call>)
    requires n > 1
    ensures out.Completed? || out.Stopped? || out == Raised(rig.fault) || out == Raised(ValueError)
    ensures out.Raised? && rig.failAt.None? ==> out == Raised(ValueError)
    ensures |calls0| <= |calls|
    ensures calls == calls0 + Repeated(AcquireFvb(hbin), |calls| - |calls0|)
    ensures |emits| <= n && emits == Ramp(n)[..|emits|]
    ensures out.Stopped? ==> |emits| < n && rig.stop(base + |emits|)
    ensures out.Completed? ==>
      |emits| == n && |calls| == |calls0| + n
      && NoStopIn(rig, base, base + n)
      && AllBroadcastable(len, Acquired(rig, n))
      && spectrum == Mean(Acquired(rig, n), len)
    ensures NoStopIn(rig, base, base + n)
      && (forall k :: |calls0| <= k < |calls0| + n ==> !FailsAt(rig, k))
      && AllBroadcastable(len, Acquired(rig, n))
      ==> out.Completed?
  {
    var acc := Zeros(len);
    emits, calls := [], calls0;
    var i := 0;
    ghost var rows: seq<seq<real>> := [];
    assert acc == Sums(rows, len);
    while i < n
      invariant 0 <= i <= n && |emits| == i && emits == Ramp(n)[..i]
      invariant calls == calls0 + Repeated(AcquireFvb(hbin), i)
      invariant NoStopIn(rig, base, base + i)
      invariant rows == Acquired(rig, i) && AllBroadcastable(len, rows)
      invariant acc == Sums(rows, len)
    {
      if rig.stop(base + i) {
        return Stopped, [], emits, calls;
      }
      calls := calls + [AcquireFvb(hbin)];
      if FailsAt(rig, |calls| - 1) {
        return Raised(rig.fault), [], emits, calls;
      }
      var data := rig.fvb(i);
      var next := AddInto(acc, data);
      if next.None? {
        assert !AllBroadcastable(len, Acquired(rig, n)) by {
          assert Acquired(rig, n)[i] == data;
        }
        return Raised(ValueError), [], emits, calls;
      }
      AddIntoSums(rows, len, data);
      acc := next.value;
      rows := rows + [data];
      assert rows == Acquired(rig, i + 1);
      RampStep(n, i);
      emits := emits + [Progress(Percent(i + 1, n))];
      i := i + 1;
    }
    spectrum := Scale(acc, n);
    out := Completed;
  }

  /**
   * The nested emit loop of the scan procedures: every pixel of `img`, row by
   * row, as `tag + [wl[x], y, intensity]`.  Indexing `wl` past its end raises
   * `IndexError` after the rows already emitted.
   */
  method EmitImage(tag: seq<real>, wl: seq<real>, img: Image) returns (ok: bool, emits: seq<Emit>)
    ensures ok <==> img.rows == 0 || img.cols <= |wl|
    ensures ok ==> img.cols <= |wl| ==> emits == ImagePoints(tag, wl, img, img.rows)
    ensures ok ==> |emits| == img.rows * img.cols
    ensures Progresses(emits) == []
  {
    emits := [];
    var y := 0;
    if img.rows > 0 && |wl| < img.cols {
      // The first row gets as far as the end of the calibration.
      var x := 0;
      while x < |wl|
        invariant 0 <= x <= |wl| && |emits| == x
        invariant forall i :: 0 <= i < x ==> emits[i].Results?
      {
        emits := emits + [Results(tag + [wl[x], 0.0, img.pixel(0, x)])];
        x := x + 1;
      }
      RowFilters(emits, |emits|);
      assert emits[..|emits|] == emits;
      return false, emits;
    }
    if img.rows == 0 {
      ImagePointsCount(tag, [], Image(0, 0, img.pixel), 0);
      return true, [];
    }
    while y < img.rows
      invariant 0 <= y <= img.rows
      invariant emits == ImagePoints(tag, wl, img, y)
    {
      var x := 0;
      var row := [];
      while x < img.cols
        invariant 0 <= x <= img.cols
        invariant row == RowPrefix(tag, wl, img, y, x)
      {
        row := row + [Results(tag + [wl[x], y as real, img.pixel(y, x)])];
        x := x + 1;
      }
      emits := emits + row;
      y := y + 1;
    }
    ImagePointsCount(tag, wl, img, img.rows);
    ok := true;
  }
}
