/**
 * Python's subscripting of a list by an integer position or by a slice
 * `start:stop:step`, which the package index hands straight to its list.
 * Bounds follow CPython: negative positions count from the end, slice bounds
 * are clamped into range, and a step of zero raises.
 */
module Slices {
  import opened Results

  /** `s[i]`: a negative `i` counts from the end; anything outside raises IndexError. */
  function At<T>(s: seq<T>, i: int): (r: Result<T>)
    ensures r.Ok? <==> -|s| <= i < |s|
    ensures r.Err? ==> r.error == IndexError
    ensures 0 <= i < |s| ==> r == Ok(s[i])
    ensures -|s| <= i < 0 ==> r == Ok(s[|s| + i])
  {
    if 0 <= i < |s| then Ok(s[i])
    else if -|s| <= i < 0 then Ok(s[|s| + i])
    else Err(IndexError)
  }

  /** One slice bound given explicitly, clamped as CPython's PySlice_AdjustIndices does. */
  function Clamp(i: int, len: nat, step: int): (r: int)
    ensures step > 0 ==> 0 <= r <= len
    ensures step < 0 ==> -1 <= r <= len - 1
    ensures step > 0 && 0 <= i <= len ==> r == i
    ensures step < 0 && 0 <= i < len ==> r == i
    ensures i < 0 <= len + i ==> r == len + i
    ensures len + i < 0 ==> r == if step < 0 then -1 else 0
    ensures i >= len ==> r == if step < 0 then len - 1 else len
  {
    if i < 0 then
      (if i + len < 0 then (if step < 0 then -1 else 0) else i + len)
    else if i >= len then
      (if step < 0 then len - 1 else len)
    else i
  }

  /**
   * The effective (start, stop, step) of a slice over a list of `len`
   * elements: a step of zero raises ValueError; otherwise both bounds lie
   * where the walk from `start` towards `stop` stays inside the list.
   */
  function Bounds(len: nat, start: Option<int>, stop: Option<int>, step: Option<int>): (r: Result<(int, int, int)>)
    ensures r.Ok? <==> step != Some(0)
    ensures r.Err? ==> r.error == ValueError
    ensures r.Ok? ==> r.value.2 == if step.Some? then step.value else 1
    ensures r.Ok? && r.value.2 > 0 ==> 0 <= r.value.0 <= len && 0 <= r.value.1 <= len
    ensures r.Ok? && r.value.2 < 0 ==> -1 <= r.value.0 <= len - 1 && -1 <= r.value.1 <= len - 1
  {
    var st := if step.Some? then step.value else 1;
    if st == 0 then Err(ValueError)
    else
      var lo := if start.Some? then Clamp(start.value, len, st) else if st < 0 then len - 1 else 0;
      var hi := if stop.Some? then Clamp(stop.value, len, st) else if st < 0 then -1 else len;
      Ok((lo, hi, st))
  }

  /** The number of elements a slice with effective bounds selects, by CPython's formula. */
  function SliceLength(start: int, stop: int, step: int): nat
    requires step != 0
  {
    if step > 0 then (if start < stop then (stop - start - 1) / step + 1 else 0)
    else (if stop < start then (start - stop - 1) / (-step) + 1 else 0)
  }

  /** `s[start], s[start + step], ...` while short of `stop`: as many elements as CPython's formula counts. */
  function Take<T>(s: seq<T>, start: int, stop: int, step: int): (r: seq<T>)
    requires step != 0
    requires step > 0 ==> 0 <= start && stop <= |s|
    requires step < 0 ==> start < |s| && -1 <= stop
    ensures |r| == SliceLength(start, stop, step)
    decreases if step > 0 then stop - start else start - stop
  {
    if (step > 0 && start < stop) || (step < 0 && stop < start) then
      LengthStep(start, stop, step);
      [s[start]] + Take(s, start + step, stop, step)
    else []
  }

  /** `s[start:stop:step]`, each part optional: ValueError for a zero step, else CPython's number of elements. */
  function Slice<T>(s: seq<T>, start: Option<int>, stop: Option<int>, step: Option<int>): (r: Result<seq<T>>)
    ensures r.Ok? <==> step != Some(0)
    ensures r.Err? ==> r.error == ValueError
    ensures r.Ok? ==> |r.value| == SliceLength(Bounds(|s|, start, stop, step).value.0,
                                               Bounds(|s|, start, stop, step).value.1,
                                               Bounds(|s|, start, stop, step).value.2)
  {
    match Bounds(|s|, start, stop, step)
    case Err(e) => Err(e)
    case Ok((lo, hi, st)) => Ok(Take(s, lo, hi, st))
  }

  lemma MulAtLeast(a: int, c: int)
    requires a >= 1 && c > 0
    ensures a * c >= c
  {
  }

  /** Euclidean division has one quotient. */
  lemma DivUnique(x: int, c: int, q: int, r: int)
    requires c > 0 && 0 <= r < c && x == q * c + r
    ensures x / c == q
  {
    var q', r' := x / c, x % c;
    assert x == q' * c + r' && 0 <= r' < c;
    if q' < q {
      MulAtLeast(q - q', c);
    } else if q < q' {
      MulAtLeast(q' - q, c);
    }
  }

  lemma DivStep(x: int, c: int)
    requires c > 0 && x >= c
    ensures (x - c) / c == x / c - 1
  {
    var q, r := x / c, x % c;
    assert x - c == (q - 1) * c + r;
    DivUnique(x - c, c, q - 1, r);
  }

  /** The length formula counts one element, then the rest of the slice. */
  lemma LengthStep(start: int, stop: int, step: int)
    requires step != 0
    requires (step > 0 && start < stop) || (step < 0 && stop < start)
    ensures SliceLength(start, stop, step) == 1 + SliceLength(start + step, stop, step)
  {
    var x, c := if step > 0 then stop - start - 1 else start - stop - 1, if step > 0 then step else -step;
    if x >= c {
      DivStep(x, c);
    } else {
      DivUnique(x, c, 0, x);
    }
  }

  /** Element `k` of a slice is element `start + k * step` of the list. */
  lemma {:induction false} TakeAt<T>(s: seq<T>, start: int, stop: int, step: int, k: nat)
    requires step != 0
    requires step > 0 ==> 0 <= start && stop <= |s|
    requires step < 0 ==> start < |s| && -1 <= stop
    requires k < |Take(s, start, stop, step)|
    ensures 0 <= start + k * step < |s|
    ensures Take(s, start, stop, step)[k] == s[start + k * step]
    decreases k
  {
    if k > 0 {
      TakeAt(s, start + step, stop, step, k - 1);
      assert start + step + (k - 1) * step == start + k * step;
    }
  }

  /** A slice with unit step between two positions in range is the contiguous subsequence. */
  lemma {:induction false} TakeContiguous<T>(s: seq<T>, lo: int, hi: int)
    requires 0 <= lo <= hi <= |s|
    ensures Take(s, lo, hi, 1) == s[lo..hi]
    decreases hi - lo
  {
    if lo < hi {
      TakeContiguous(s, lo + 1, hi);
    }
  }

  /** `s[lo:hi]` with `0 <= lo <= hi <= len(s)` is `s[lo..hi]`. */
  lemma SliceContiguous<T>(s: seq<T>, lo: int, hi: int)
    requires 0 <= lo <= hi <= |s|
    ensures Slice(s, Some(lo), Some(hi), None) == Ok(s[lo..hi])
  {
    TakeContiguous(s, lo, hi);
  }

  /** `s[::-1]` is `s` reversed. */
  lemma SliceReversed<T>(s: seq<T>)
    ensures Slice(s, None, None, Some(-1)).Ok?
    ensures |Slice(s, None, None, Some(-1)).value| == |s|
    ensures forall k :: 0 <= k < |s| ==> Slice(s, None, None, Some(-1)).value[k] == s[|s| - 1 - k]
  {
    var r := Take(s, |s| - 1, -1, -1);
    forall k | 0 <= k < |s|
      ensures r[k] == s[|s| - 1 - k]
    {
      TakeAt(s, |s| - 1, -1, -1, k);
    }
  }

  /** Every slice, whatever its bounds, has CPython's length and picks `start + k * step`. */
  lemma SliceElements<T>(s: seq<T>, start: Option<int>, stop: Option<int>, step: Option<int>)
    requires Bounds(|s|, start, stop, step).Ok?
    ensures var (lo, hi, st) := Bounds(|s|, start, stop, step).value;
      Slice(s, start, stop, step).Ok? &&
      |Slice(s, start, stop, step).value| == SliceLength(lo, hi, st) &&
      forall k :: 0 <= k < SliceLength(lo, hi, st) ==>
        0 <= lo + k * st < |s| && Slice(s, start, stop, step).value[k] == s[lo + k * st]
  {
    var (lo, hi, st) := Bounds(|s|, start, stop, step).value;
    forall k | 0 <= k < SliceLength(lo, hi, st)
      ensures 0 <= lo + k * st < |s| && Take(s, lo, hi, st)[k] == s[lo + k * st]
    {
      TakeAt(s, lo, hi, st, k);
    }
  }
}
