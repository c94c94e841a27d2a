// Shared vocabulary: optional values, Python exceptions as results, and the
// few pieces of Python arithmetic and string formatting the model relies on.
module Wrappers {

  datatype Option<T> = None | Some(value: T)

  /** `d.get(key, default)` or `getattr(obj, name, default)` on an optional entry. */
  function GetOr<T>(o: Option<T>, d: T): (v: T)
    ensures o.Some? ==> v == o.value
    ensures o.None? ==> v == d
  {
    if o.Some? then o.value else d
  }

  /** The Python exception classes the modelled code raises or lets escape. */
  datatype Error =
    | RuntimeError
    | ValueError
    | TypeError
    | AttributeError
    | IndexError
    | ZeroDivisionError

  datatype Result<T> = Ok(value: T) | Err(error: Error)

  /** `max(lo, min(v, hi))`, the clamp every axis, stage and spin box applies. */
  function Clamp(v: real, lo: real, hi: real): (r: real)
    ensures lo <= hi ==> lo <= r <= hi
    ensures lo <= v <= hi ==> r == v
    ensures lo <= hi && v < lo ==> r == lo
    ensures lo <= hi && hi < v ==> r == hi
  {
    if v < hi then (if lo < v then v else lo) else (if lo < hi then hi else lo)
  }

  /** The integer version, as a QSpinBox applies it in `setValue`. */
  function ClampInt(v: int, lo: int, hi: int): (r: int)
    requires lo <= hi
    ensures lo <= r <= hi
    ensures lo <= v <= hi ==> r == v
    ensures v < lo ==> r == lo
    ensures hi < v ==> r == hi
  {
    if v < lo then lo else if hi < v then hi else v
  }

  /** Python's `a // b`: the floor of the quotient, for either sign of `b`. */
  function PyDiv(a: int, b: int): (q: int)
    requires b != 0
    ensures b * q <= a < b * q + b || b * q + b < a <= b * q
  {
    if b > 0 then a / b else (-a) / (-b)
  }

  /** Python's `a % b`: the remainder takes the sign of `b`. */
  function PyMod(a: int, b: int): (m: int)
    requires b != 0
    ensures a == b * PyDiv(a, b) + m
    ensures b > 0 ==> 0 <= m < b
    ensures b < 0 ==> b < m <= 0
  {
    a - b * PyDiv(a, b)
  }

  /** Python's `s[i]`: negative indices count from the end; anything else raises IndexError. */
  function PyIndex<T>(s: seq<T>, i: int): (r: Option<T>)
    ensures r.None? <==> !(-|s| <= i < |s|)
    ensures 0 <= i < |s| ==> r == Some(s[i])
    ensures -|s| <= i < 0 ==> r == Some(s[|s| + i])
  {
    if 0 <= i < |s| then Some(s[i]) else if -|s| <= i < 0 then Some(s[|s| + i]) else None
  }

  /** Python's `int(x)` on a float: truncation toward zero. */
  function Trunc(x: real): (n: int)
    ensures x >= 0.0 ==> n as real <= x < n as real + 1.0
    ensures x < 0.0 ==> n as real - 1.0 < x <= n as real
  {
    if x >= 0.0 then x.Floor else -((-x).Floor)
  }

  /** The smallest integer not below `x` (Python's `math.ceil`). */
  function Ceil(x: real): (n: int)
    ensures n as real - 1.0 < x <= n as real
  {
    -((-x).Floor)
  }

  /** Python's `str(n)` for a natural number. */
  function DecimalString(n: nat): (s: string)
    ensures |s| >= 1
    ensures forall i :: 0 <= i < |s| ==> '0' <= s[i] <= '9'
  {
    if n < 10 then [Digit(n)] else DecimalString(n / 10) + [Digit(n % 10)]
  }

  /** Python's `str(n)` for any integer. */
  function IntString(n: int): (s: string)
    ensures |s| >= 1
    ensures n >= 0 ==> s == DecimalString(n)
    ensures n < 0 ==> s[0] == '-'
  {
    if n >= 0 then DecimalString(n) else "-" + DecimalString(-n)
  }

  function Digit(d: nat): (c: char)
    requires d < 10
    ensures '0' <= c <= '9'
  {
    ['0', '1', '2', '3', '4', '5', '6', '7', '8', '9'][d]
  }

  /** Python's `f"{n:03d}"`: at least three digits, zero-padded on the left. */
  function Pad3(n: nat): (s: string)
    ensures |s| >= 3
    ensures forall i :: 0 <= i < |s| ==> '0' <= s[i] <= '9'
    ensures n >= 100 ==> s == DecimalString(n)
  {
    var d := DecimalString(n);
    if |d| >= 3 then d
    else
      assert n < 100 by { DecimalGrowth(n); }
      (if |d| == 1 then "00" else "0") + d
  }

  lemma {:induction false} DecimalGrowth(n: nat)
    ensures n >= 100 ==> |DecimalString(n)| >= 3
    ensures n >= 10 ==> |DecimalString(n)| >= 2
  {
    if n >= 10 { DecimalGrowth(n / 10); }
  }

  predicate StartsWith(s: string, prefix: string)
  {
    |prefix| <= |s| && s[..|prefix|] == prefix
  }

  predicate EndsWith(s: string, suffix: string)
  {
    |suffix| <= |s| && s[|s| - |suffix|..] == suffix
  }

  /** Every sequence is a prefix of itself. */
  lemma {:induction false} PrefixRefl<T>(s: seq<T>)
    ensures s <= s
  {
  }

  /** Concatenation regroups; stated once so that callers need not redo the element-wise argument. */
  lemma {:induction false} AppendAssoc<T>(a: seq<T>, b: seq<T>, c: seq<T>)
    ensures a + b + c == a + (b + c)
  {
  }
}
