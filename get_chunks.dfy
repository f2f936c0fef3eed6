/**
 * The offsets at which the chunked test-case pages are fetched
 * (`calc_offsets` in _hp/tools/crawler/get_chunks.py): Python's
 * `range(0, count, limit)` listed out.
 */
module GetChunks {
  import opened Common

  /** `list(range(start, stop, step))` for a non-zero step. */
  function Range(start: int, stop: int, step: int): (r: seq<int>)
    requires step != 0
    ensures |r| == 0 <==> (if step > 0 then start >= stop else start <= stop)
    decreases if step > 0 then stop - start else start - stop
  {
    if step > 0 && start < stop then [start] + Range(start + step, stop, step)
    else if step < 0 && start > stop then [start] + Range(start + step, stop, step)
    else []
  }

  /** `calc_offsets(count, limit)`; a zero step makes `range` raise ValueError. */
  function CalcOffsets(count: int, limit: int): (r: Result<seq<int>>)
    ensures r.Err? <==> limit == 0
  {
    if limit == 0 then Err("ValueError: range() arg 3 must not be zero") else Ok(Range(0, count, limit))
  }

  /** The i-th element of a range is `start + i*step`, and the elements stop before `stop`. */
  lemma {:induction false} RangeElements(start: int, stop: int, step: int)
    requires step != 0
    ensures forall i :: 0 <= i < |Range(start, stop, step)| ==> Range(start, stop, step)[i] == start + i * step
    ensures forall i :: 0 <= i < |Range(start, stop, step)| ==>
      if step > 0 then Range(start, stop, step)[i] < stop else Range(start, stop, step)[i] > stop
    decreases if step > 0 then stop - start else start - stop
  {
    var r := Range(start, stop, step);
    if |r| > 0 {
      RangeElements(start + step, stop, step);
      var rest := Range(start + step, stop, step);
      assert r == [start] + rest;
      forall i | 0 < i < |r| ensures r[i] == start + i * step {
        assert r[i] == rest[i - 1] == start + step + (i - 1) * step;
      }
    }
  }

  /** A positive-step range has ⌈(stop − start)/step⌉ elements, stated without division. */
  lemma {:induction false} RangeLength(start: int, stop: int, step: int)
    requires step > 0 && start < stop
    ensures (|Range(start, stop, step)| - 1) * step < stop - start <= |Range(start, stop, step)| * step
    decreases stop - start
  {
    var m := |Range(start + step, stop, step)|;
    assert |Range(start, stop, step)| == m + 1;
    if start + step < stop {
      RangeLength(start + step, stop, step);
      Distrib(m - 1, step);
      Distrib(m, step);
    }
  }

  lemma Distrib(x: int, k: int)
    ensures (x + 1) * k == x * k + k
  {
  }

  lemma MulMono(x: int, y: int, k: int)
    requires x <= y && k > 0
    ensures x * k <= y * k
  {
  }

  lemma DivMod(a: int, d: int)
    requires d > 0
    ensures a == d * (a / d) + a % d && 0 <= a % d < d
  {
  }

  /** The quotient is the one q whose block [q·d, q·d + d) holds a. */
  lemma QuotientUnique(q: int, a: int, d: int)
    requires d > 0 && q * d <= a < q * d + d
    ensures a / d == q
  {
    DivMod(a, d);
    var p := a / d;
    if p < q {
      MulMono(p + 1, q, d);
      Distrib(p, d);
    } else if p > q {
      MulMono(q + 1, p, d);
      Distrib(q, d);
    }
  }

  /** For a positive limit the offsets are 0, limit, 2·limit, …, all below count. */
  lemma CalcOffsetsMultiples(count: int, limit: int)
    requires limit > 0
    ensures var r := CalcOffsets(count, limit).value;
      (forall i :: 0 <= i < |r| ==> r[i] == i * limit && r[i] < count)
      && (forall i :: 0 <= i < |r| - 1 ==> r[i + 1] - r[i] == limit)
  {
    RangeElements(0, count, limit);
    var r := CalcOffsets(count, limit).value;
    forall i | 0 <= i < |r| - 1 ensures r[i + 1] - r[i] == limit {
      Distrib(i, limit);
    }
  }

  /** There are no offsets when count ≤ 0. */
  lemma CalcOffsetsEmpty(count: int, limit: int)
    requires limit > 0
    ensures CalcOffsets(count, limit) == Ok([]) <==> count <= 0
  {
  }

  /** For a positive limit and count there are ⌈count/limit⌉ offsets. */
  lemma CalcOffsetsLength(count: int, limit: int)
    requires limit > 0 && count > 0
    ensures |CalcOffsets(count, limit).value| == (count + limit - 1) / limit
  {
    var n := |CalcOffsets(count, limit).value|;
    RangeLength(0, count, limit);
    Distrib(n - 1, limit);
    QuotientUnique(n, count + limit - 1, limit);
  }

  /** Every multiple of limit that is still below count has its place among the offsets. */
  lemma IndexBelowLength(i: int, count: int, limit: int)
    requires limit > 0 && i >= 0 && i * limit < count
    ensures i < |Range(0, count, limit)|
  {
    MulMono(0, i, limit);
    RangeLength(0, count, limit);
    var n := |Range(0, count, limit)|;
    if i >= n {
      MulMono(n, i, limit);
    }
  }

  /** A non-negative multiple of d has a non-negative quotient. */
  lemma QuotientNonNegative(a: int, d: int)
    requires d > 0 && a >= 0
    ensures a / d >= 0
  {
    DivMod(a, d);
  }

  /** Every offset is a non-negative multiple of limit below count. */
  lemma OffsetIsMultiple(count: int, limit: int, x: int)
    requires limit > 0 && x in Range(0, count, limit)
    ensures 0 <= x < count && x % limit == 0
  {
    var r := Range(0, count, limit);
    RangeElements(0, count, limit);
    var i :| 0 <= i < |r| && r[i] == x;
    MulMono(0, i, limit);
    QuotientUnique(i, x, limit);
    DivMod(x, limit);
  }

  /** Every non-negative multiple of limit below count is an offset. */
  lemma MultipleIsOffset(count: int, limit: int, x: int)
    requires limit > 0 && 0 <= x < count && x % limit == 0
    ensures x in Range(0, count, limit)
  {
    var r := Range(0, count, limit);
    DivMod(x, limit);
    QuotientNonNegative(x, limit);
    var i := x / limit;
    IndexBelowLength(i, count, limit);
    RangeElements(0, count, limit);
    assert r[i] == x;
  }

  /** A number is an offset exactly when it is a non-negative multiple of limit below count. */
  lemma CalcOffsetsMembers(count: int, limit: int, x: int)
    requires limit > 0
    ensures x in CalcOffsets(count, limit).value <==> 0 <= x < count && x % limit == 0
  {
    if x in Range(0, count, limit) {
      OffsetIsMultiple(count, limit, x);
    }
    if 0 <= x < count && x % limit == 0 {
      MultipleIsOffset(count, limit, x);
    }
  }

  /**
   * The windows [o, o + limit) of the offsets cover every index 0..count-1, and no index
   * lies in two windows.
   */
  lemma CalcOffsetsWindows(count: int, limit: int, n: int)
    requires limit > 0 && 0 <= n < count
    ensures var r := CalcOffsets(count, limit).value;
      (exists i :: 0 <= i < |r| && r[i] <= n < r[i] + limit)
      && (forall i, j :: 0 <= i < |r| && 0 <= j < |r| && r[i] <= n < r[i] + limit && r[j] <= n < r[j] + limit ==> i == j)
  {
    var r := CalcOffsets(count, limit).value;
    RangeElements(0, count, limit);
    var i := WindowIndex(count, limit, n);
    assert r[i] <= n < r[i] + limit;
    forall a, b | 0 <= a < |r| && 0 <= b < |r| && r[a] <= n < r[a] + limit && r[b] <= n < r[b] + limit
      ensures a == b
    {
      QuotientUnique(a, n, limit);
      QuotientUnique(b, n, limit);
    }
  }

  /** The window that holds n starts at the offset with index n / limit. */
  lemma WindowIndex(count: int, limit: int, n: int) returns (i: int)
    requires limit > 0 && 0 <= n < count
    ensures 0 <= i < |Range(0, count, limit)| && i * limit <= n < i * limit + limit
  {
    DivMod(n, limit);
    QuotientNonNegative(n, limit);
    i := n / limit;
    IndexBelowLength(i, count, limit);
  }

  /** With a negative limit the offsets run downwards: 0, limit, 2·limit, … while above count. */
  lemma CalcOffsetsNegative(count: int, limit: int)
    requires limit < 0
    ensures var r := CalcOffsets(count, limit).value;
      (|r| == 0 <==> count >= 0)
      && forall i :: 0 <= i < |r| ==> r[i] == i * limit && r[i] > count
  {
    RangeElements(0, count, limit);
  }
}
