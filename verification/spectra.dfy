// The numpy operations the procedures and the queue runner use on spectra:
// `np.zeros`, in-place `acc += data` with numpy broadcasting, `acc / n`,
// `zip`, `np.arange` and `np.linspace`, all over exact reals.
module Spectra {
  import opened Wrappers

  function Zeros(n: nat): (r: seq<real>)
    ensures |r| == n
    ensures forall j :: 0 <= j < n ==> r[j] == 0.0
  {
    seq(n, _ => 0.0)
  }

  /** `acc += x` is allowed by numpy iff `x` has the accumulator's length or length 1. */
  predicate Broadcastable(len: nat, x: seq<real>)
  {
    |x| == len || |x| == 1
  }

  /** The value `x` contributes at position `j` once broadcast to the accumulator's shape. */
  function At(x: seq<real>, j: nat): real
    requires |x| == 1 || j < |x|
  {
    if |x| == 1 then x[0] else x[j]
  }

  /** In-place `acc += x`; None stands for numpy's broadcast `ValueError`. */
  function AddInto(acc: seq<real>, x: seq<real>): (r: Option<seq<real>>)
    ensures r.Some? <==> Broadcastable(|acc|, x)
    ensures r.Some? ==> |r.value| == |acc|
    ensures r.Some? ==> forall j :: 0 <= j < |acc| ==> r.value[j] == acc[j] + At(x, j)
  {
    if Broadcastable(|acc|, x) then Some(seq(|acc|, j requires 0 <= j < |acc| => acc[j] + At(x, j)))
    else None
  }

  predicate AllBroadcastable(len: nat, rows: seq<seq<real>>)
  {
    forall k :: 0 <= k < |rows| ==> Broadcastable(len, rows[k])
  }

  /** Sum over the acquisitions of what each contributes at pixel `j`. */
  function ColumnSum(rows: seq<seq<real>>, len: nat, j: nat): real
    requires AllBroadcastable(len, rows) && j < len
  {
    if rows == [] then 0.0
    else ColumnSum(rows[..|rows| - 1], len, j) + At(rows[|rows| - 1], j)
  }

  /** The element-wise sum of the acquisitions, as `np.zeros(len)` plus each in turn. */
  function Sums(rows: seq<seq<real>>, len: nat): (r: seq<real>)
    requires AllBroadcastable(len, rows)
    ensures |r| == len
  {
    seq(len, j requires 0 <= j < len => ColumnSum(rows, len, j))
  }

  /** `acc / n`. */
  function Scale(acc: seq<real>, n: nat): (r: seq<real>)
    requires n > 0
    ensures |r| == |acc|
    ensures forall j :: 0 <= j < |acc| ==> r[j] * (n as real) == acc[j]
  {
    seq(|acc|, j requires 0 <= j < |acc| => acc[j] / (n as real))
  }

  /** The averaged spectrum: the element-wise sum divided by the number of acquisitions. */
  function Mean(rows: seq<seq<real>>, len: nat): (r: seq<real>)
    requires |rows| > 0 && AllBroadcastable(len, rows)
    ensures |r| == len
  {
    Scale(Sums(rows, len), |rows|)
  }

  /** One more accumulation step keeps the accumulator equal to the running sums. */
  lemma {:induction false} AddIntoSums(rows: seq<seq<real>>, len: nat, x: seq<real>)
    requires AllBroadcastable(len, rows) && Broadcastable(len, x)
    ensures AllBroadcastable(len, rows + [x])
    ensures AddInto(Sums(rows, len), x) == Some(Sums(rows + [x], len))
  {
    var next := rows + [x];
    assert next[..|next| - 1] == rows;
    assert AllBroadcastable(len, next);
    var r := AddInto(Sums(rows, len), x);
    assert r.Some?;
    forall j | 0 <= j < len
      ensures r.value[j] == Sums(next, len)[j]
    {
      assert next[|next| - 1] == x;
      assert ColumnSum(next, len, j) == ColumnSum(rows, len, j) + At(x, j);
    }
    assert r.value == Sums(next, len);
  }

  /** Averaging n copies of the same spectrum gives that spectrum back. */
  lemma {:induction false} MeanOfRepeats(x: seq<real>, n: nat)
    requires n > 0 && |x| > 0
    ensures AllBroadcastable(|x|, seq(n, _ => x))
    ensures Mean(seq(n, _ => x), |x|) == x
  {
    var rows := seq(n, _ => x);
    forall j | 0 <= j < |x|
      ensures ColumnSum(rows, |x|, j) == (n as real) * x[j]
    {
      RepeatSum(x, n, j);
    }
    var m := Mean(rows, |x|);
    forall j | 0 <= j < |x|
      ensures m[j] == x[j]
    {
      assert m[j] * (n as real) == (n as real) * x[j];
    }
  }

  lemma {:induction false} RepeatSum(x: seq<real>, n: nat, j: nat)
    requires j < |x|
    ensures AllBroadcastable(|x|, seq(n, _ => x))
    ensures ColumnSum(seq(n, _ => x), |x|, j) == (n as real) * x[j]
  {
    var rows := seq(n, _ => x);
    if n > 0 {
      assert rows[..n - 1] == seq(n - 1, _ => x);
      RepeatSum(x, n - 1, j);
    }
  }

  /** `zip(a, b)`: pairs up to the shorter length. */
  function Zip(a: seq<real>, b: seq<real>): (r: seq<(real, real)>)
    ensures |r| == if |a| < |b| then |a| else |b|
    ensures forall i :: 0 <= i < |r| ==> r[i] == (a[i], b[i])
  {
    var n := if |a| < |b| then |a| else |b|;
    seq(n, i requires 0 <= i < n => (a[i], b[i]))
  }

  /** The number of values `np.arange(start, stop, step)` produces. */
  function ArangeCount(start: real, stop: real, step: real): (n: nat)
    requires step != 0.0
  {
    var c := Ceil((stop - start) / step);
    if c < 0 then 0 else c
  }

  /** `np.arange(start, stop, step)`: start + i·step for i below `ArangeCount`. */
  function Arange(start: real, stop: real, step: real): (r: seq<real>)
    requires step != 0.0
    ensures |r| == ArangeCount(start, stop, step)
  {
    ArangeFrom(start, step, ArangeCount(start, stop, step))
  }

  /** The first `n` points start, start + step, start + 2·step, …. */
  function ArangeFrom(start: real, step: real, n: nat): (r: seq<real>)
    ensures |r| == n
  {
    if n == 0 then [] else ArangeFrom(start, step, n - 1) + [start + ((n - 1) as real) * step]
  }

  lemma {:induction false} ArangeFromAt(start: real, step: real, n: nat, i: nat)
    requires i < n
    ensures ArangeFrom(start, step, n)[i] == start + (i as real) * step
  {
    if i < n - 1 {
      ArangeFromAt(start, step, n - 1, i);
    }
  }

  /** Point i of `np.arange(start, stop, step)` is start + i·step. */
  lemma {:induction false} ArangePoints(start: real, stop: real, step: real)
    requires step != 0.0
    ensures forall i :: 0 <= i < |Arange(start, stop, step)| ==> Arange(start, stop, step)[i] == start + (i as real) * step
  {
    forall i | 0 <= i < |Arange(start, stop, step)|
      ensures Arange(start, stop, step)[i] == start + (i as real) * step
    {
      ArangeFromAt(start, step, ArangeCount(start, stop, step), i);
    }
  }

  /** For a positive step, arange yields exactly the grid points below `stop`. */
  lemma {:induction false} ArangeBelowStop(start: real, stop: real, step: real, i: nat)
    requires step > 0.0
    ensures i < ArangeCount(start, stop, step) <==> start + (i as real) * step < stop
  {
    var q := (stop - start) / step;
    assert stop - start == q * step;
    if i < ArangeCount(start, stop, step) {
      assert (i as real) < q;
    }
  }

  /** `np.linspace(a, b, n)`: n evenly spaced values from a to b inclusive. */
  function Linspace(a: real, b: real, n: nat): (r: seq<real>)
    ensures |r| == n
    ensures n >= 1 ==> r[0] == a
    ensures n >= 2 ==> r[n - 1] == b
    ensures n >= 2 ==> forall i :: 0 <= i < n - 1 ==> r[i + 1] - r[i] == (b - a) / ((n - 1) as real)
  {
    if n == 0 then []
    else if n == 1 then [a]
    else seq(n, i => a + (i as real) * ((b - a) / ((n - 1) as real)))
  }
}
