/** Python values and list semantics the modelled scripts rely on. */
module PyBase {

  datatype Option<+T> = None | Some(value: T)

  datatype Result<+T, +E> = Ok(value: T) | Err(error: E)

  /** The Python exception classes the modelled code can raise. */
  datatype Exception =
    | KeyError(key: string)        // `d[k]` or `d.pop(k)` on a missing key
    | IndexError                   // list index out of range
    | ValueError                   // unpacking the wrong number of values, bad ISO text, empty input
    | TypeError                    // unknown keyword argument, wrong argument type
    | AssertionError               // a failed module-level `assert`
    | FileNotFoundError(path: string)
    | StoreError                   // any failure raised by a database or search call

  /** The position `xs[i]` reads in a list of length `n` (negative `i` counts from the end),
      or None where Python raises IndexError. */
  function ListIndex(n: nat, i: int): (r: Option<nat>)
    ensures r.Some? <==> -(n as int) <= i < n
    ensures r.Some? ==> r.value == if i >= 0 then i else i + n
  {
    if 0 <= i < n then Some(i) else if -(n as int) <= i < 0 then Some(i + n) else None
  }

  /** A bound of a slice `xs[a:b]` clamped as Python clamps it. */
  function SliceBound(n: nat, i: int): (r: nat)
    ensures r <= n
    ensures 0 <= i <= n ==> r == i
    ensures -(n as int) <= i < 0 ==> r == n + i
    ensures i < -(n as int) ==> r == 0
    ensures i > n ==> r == n
  {
    if i < 0 then (if i + n < 0 then 0 else i + n) else if i > n then n else i
  }

  /** Python's `xs[a:b]` (step 1). */
  function Slice<T>(xs: seq<T>, a: int, b: int): seq<T>
  {
    var lo, hi := SliceBound(|xs|, a), SliceBound(|xs|, b);
    if lo < hi then xs[lo..hi] else []
  }

  /** Python's `sum` over integers. */
  function Sum(xs: seq<int>): int
  {
    if |xs| == 0 then 0 else Sum(xs[..|xs| - 1]) + xs[|xs| - 1]
  }

  lemma {:induction false} SumAppend(xs: seq<int>, ys: seq<int>)
    ensures Sum(xs + ys) == Sum(xs) + Sum(ys)
    decreases |ys|
  {
    if |ys| > 0 {
      assert (xs + ys)[..|xs + ys| - 1] == xs + ys[..|ys| - 1];
      SumAppend(xs, ys[..|ys| - 1]);
    } else {
      assert xs + ys == xs;
    }
  }
}
