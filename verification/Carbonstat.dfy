/** The three averaging strategies of carbonstat: the full mean and two strided samples of it. */
module Carbonstat {
  import opened Wrappers
  import opened Rounding

  const MEDIUM_STEP := 2
  const LOW_STEP := 4

  /** The elements that `range(i, len(data), step)` visits, added up. */
  function StridedSum(data: seq<int>, i: nat, step: nat): int
    requires step > 0
    decreases |data| - i
  {
    if i >= |data| then 0 else data[i] + StridedSum(data, i + step, step)
  }

  /** How many elements `range(i, len(data), step)` visits. */
  function StridedCount(data: seq<int>, i: nat, step: nat): nat
    requires step > 0
    decreases |data| - i
  {
    if i >= |data| then 0 else 1 + StridedCount(data, i + step, step)
  }

  /** The total of a list, added up from the back. */
  function Total(data: seq<int>): int {
    if data == [] then 0 else Total(data[..|data| - 1]) + data[|data| - 1]
  }

  lemma {:induction false} SumWithoutLast(data: seq<int>, i: nat)
    requires i < |data|
    ensures StridedSum(data, i, 1) == StridedSum(data[..|data| - 1], i, 1) + data[|data| - 1]
    decreases |data| - i
  {
    if i < |data| - 1 {
      SumWithoutLast(data, i + 1);
    } else {
      assert StridedSum(data[..|data| - 1], i, 1) == 0;
      assert StridedSum(data, i + 1, 1) == 0;
    }
  }

  /** With step 1 the strided sum is the total of the list. */
  lemma {:induction false} FullSumIsTotal(data: seq<int>)
    ensures StridedSum(data, 0, 1) == Total(data)
    decreases |data|
  {
    if data != [] {
      SumWithoutLast(data, 0);
      FullSumIsTotal(data[..|data| - 1]);
    }
  }

  /** The elements that count, and how: replacing one changes the sum by the difference if its index is
      a multiple of the step, and not at all otherwise. */
  lemma ReplacingOne(data: seq<int>, k: nat, v: int, step: nat)
    requires k < |data| && step > 0
    ensures StridedSum(data[k := v], 0, step)
      == StridedSum(data, 0, step) + if k % step == 0 then v - data[k] else 0
  {
    ReplacingOneFrom(data, 0, k, v, step);
  }

  lemma {:induction false} ReplacingOneFrom(data: seq<int>, i: nat, k: nat, v: int, step: nat)
    requires k < |data| && step > 0
    ensures StridedSum(data[k := v], i, step)
      == StridedSum(data, i, step) + if k >= i && (k - i) % step == 0 then v - data[k] else 0
    decreases |data| - i
  {
    if i < |data| {
      ReplacingOneFrom(data, i + step, k, v, step);
      if k >= i {
        StepDown(k - i, step);
      }
    }
  }

  lemma AtLeastOnce(d: int, step: int)
    requires d >= 1 && step > 0
    ensures d * step >= step
  {
  }

  lemma Distribute(p: int, q: int, step: int)
    ensures (p - q) * step == p * step - q * step
  {
  }

  lemma SameRemainder(p: int, r: int, q: int, t: int, step: int)
    requires p * step + r == q * step + t && 0 <= r < step && 0 <= t < step
    ensures r == t
  {
    Distribute(p, q, step);
    Distribute(q, p, step);
    if p > q {
      AtLeastOnce(p - q, step);
    } else if p < q {
      AtLeastOnce(q - p, step);
    }
  }

  lemma RemainderIsUnique(x: nat, q: int, r: int, step: nat)
    requires step > 0 && x == q * step + r && 0 <= r < step
    ensures x % step == r
  {
    var p, t := x / step, x % step;
    SameRemainder(p, t, q, r, step);
  }

  lemma StepDown(d: nat, step: nat)
    requires step > 0
    ensures d >= step ==> (d - step) % step == d % step
    ensures 0 < d < step ==> d % step != 0
  {
    if d >= step {
      RemainderIsUnique(d - step, d / step - 1, d % step, step);
    } else {
      RemainderIsUnique(d, 0, d, step);
    }
  }

  /** Together with `ReplacingOne` this fixes the sum of every list. */
  lemma {:induction false} ZerosSumToZero(data: seq<int>, i: nat, step: nat)
    requires step > 0 && forall k :: 0 <= k < |data| ==> data[k] == 0
    ensures StridedSum(data, i, step) == 0
    decreases |data| - i
  {
    if i < |data| {
      ZerosSumToZero(data, i + step, step);
    }
  }

  function SampleMean(data: seq<int>, step: nat): real
    requires step > 0 && data != []
  {
    StridedSum(data, 0, step) as real / StridedCount(data, 0, step) as real
  }

  ghost predicate Within(data: seq<int>, lo: int, hi: int) {
    forall i :: 0 <= i < |data| ==> lo <= data[i] <= hi
  }

  /** The sampled mean misses the full one by at most the share `(step - 1) / step` of the spread. */
  ghost predicate ErrorBound(sampled: real, full: real, step: nat, spread: int)
    requires step > 0
  {
    -(((step - 1) * spread) as real) <= (sampled - full) * step as real <= ((step - 1) * spread) as real
  }

  // ---------------------------------------------------------------- the strategies

  method HighPowerAvg(data: seq<int>) returns (r: Option<int>)
    ensures data == [] <==> r.None?
    ensures data != [] ==> r == Some(Round(SampleMean(data, 1)))
  {
    var sum := 0;
    var size := |data|;
    for i := 0 to size
      invariant sum + StridedSum(data, i, 1) == StridedSum(data, 0, 1)
    {
      sum := sum + data[i];
    }
    CountIsCeiling(data, 0, 1);
    r := if size == 0 then None else Some(Round(sum as real / size as real));
  }

  method MediumPowerAvg(data: seq<int>) returns (r: Option<int>)
    ensures data == [] <==> r.None?
    ensures data != [] ==> r == Some(Round(SampleMean(data, MEDIUM_STEP)))
  {
    var sum, count, i := 0, 0, 0;
    while i < |data|
      invariant 0 <= i
      invariant sum + StridedSum(data, i, MEDIUM_STEP) == StridedSum(data, 0, MEDIUM_STEP)
      invariant count + StridedCount(data, i, MEDIUM_STEP) == StridedCount(data, 0, MEDIUM_STEP)
    {
      count := count + 1;
      sum := sum + data[i];
      i := i + MEDIUM_STEP;
    }
    r := if count == 0 then None else Some(Round(sum as real / count as real));
  }

  method LowPowerAvg(data: seq<int>) returns (r: Option<int>)
    ensures data == [] <==> r.None?
    ensures data != [] ==> r == Some(Round(SampleMean(data, LOW_STEP)))
  {
    var sum, count, i := 0, 0, 0;
    while i < |data|
      invariant 0 <= i
      invariant sum + StridedSum(data, i, LOW_STEP) == StridedSum(data, 0, LOW_STEP)
      invariant count + StridedCount(data, i, LOW_STEP) == StridedCount(data, 0, LOW_STEP)
    {
      count := count + 1;
      sum := sum + data[i];
      i := i + LOW_STEP;
    }
    r := if count == 0 then None else Some(Round(sum as real / count as real));
  }

  // ---------------------------------------------------------------- what the samples are worth

  /** The sample holds `ceil(n / step)` elements. */
  lemma {:induction false} CountIsCeiling(data: seq<int>, i: nat, step: nat)
    requires step > 0 && i <= |data|
    ensures var n, c := |data| - i, StridedCount(data, i, step);
      n <= c * step < n + step && (step == 1 ==> c == n)
    decreases |data| - i
  {
    if i + step <= |data| {
      CountIsCeiling(data, i + step, step);
      assert (1 + StridedCount(data, i + step, step)) * step == step + StridedCount(data, i + step, step) * step;
    }
  }

  lemma {:induction false} SumWithin(data: seq<int>, i: nat, step: nat, lo: int, hi: int)
    requires step > 0 && Within(data, lo, hi)
    ensures var c := StridedCount(data, i, step);
      c * lo <= StridedSum(data, i, step) <= c * hi
    decreases |data| - i
  {
    if i < |data| {
      SumWithin(data, i + step, step, lo, hi);
      var c := StridedCount(data, i + step, step);
      assert (1 + c) * lo == lo + c * lo && (1 + c) * hi == hi + c * hi;
    }
  }

  /** Skipping `k` elements of the full sum leaves out `k` values between the bounds. */
  lemma {:induction false} SkipWithin(data: seq<int>, i: nat, k: nat, lo: int, hi: int)
    requires Within(data, lo, hi) && i + k <= |data|
    ensures k * lo <= StridedSum(data, i, 1) - StridedSum(data, i + k, 1) <= k * hi
    decreases k
  {
    if k > 0 {
      SkipWithin(data, i + 1, k - 1, lo, hi);
      assert k * lo == lo + (k - 1) * lo && k * hi == hi + (k - 1) * hi;
    }
  }

  /** What the sample leaves out also lies between the bounds, one value per skipped element. */
  lemma {:induction false} SkippedSumWithin(data: seq<int>, i: nat, step: nat, lo: int, hi: int)
    requires step > 0 && Within(data, lo, hi) && i <= |data|
    ensures var left := |data| - i - StridedCount(data, i, step);
      && 0 <= left
      && left * lo <= StridedSum(data, i, 1) - StridedSum(data, i, step) <= left * hi
    decreases |data| - i
  {
    if i < |data| {
      if i + step <= |data| {
        SkippedSumWithin(data, i + step, step, lo, hi);
        SkipWithin(data, i + 1, step - 1, lo, hi);
        var rest := |data| - (i + step) - StridedCount(data, i + step, step);
        assert (rest + (step - 1)) * lo == rest * lo + (step - 1) * lo;
        assert (rest + (step - 1)) * hi == rest * hi + (step - 1) * hi;
      } else {
        SkipWithin(data, i + 1, |data| - i - 1, lo, hi);
      }
    }
  }

  lemma Cancel(a: real, b: real, c: real)
    requires c > 0.0 && a * c <= b * c
    ensures a <= b
  {
    assert (b - a) * c >= 0.0;
  }

  lemma QuotientWithin(s: real, c: real, lo: real, hi: real)
    requires c > 0.0 && c * lo <= s <= c * hi
    ensures lo <= s / c <= hi
  {
    var q := s / c;
    assert q * c == s;
    Cancel(lo, q, c);
    Cancel(q, hi, c);
  }

  lemma CastProduct(a: int, b: int)
    ensures (a * b) as real == a as real * b as real
  {
  }

  lemma MeanWithin(data: seq<int>, step: nat, lo: int, hi: int)
    requires step > 0 && data != [] && Within(data, lo, hi)
    ensures lo as real <= SampleMean(data, step) <= hi as real
  {
    SumWithin(data, 0, step, lo, hi);
    QuotientOfIntsWithin(StridedSum(data, 0, step), StridedCount(data, 0, step), lo, hi);
  }

  lemma QuotientOfIntsWithin(s: int, c: int, lo: int, hi: int)
    requires c > 0 && c * lo <= s <= c * hi
    ensures lo as real <= s as real / c as real <= hi as real
  {
    CastProduct(c, lo);
    CastProduct(c, hi);
    QuotientWithin(s as real, c as real, lo as real, hi as real);
  }

  /** The gap between a part's mean and the whole's is at most the share left out times the spread. */
  lemma PartMeanGap(t: real, c: real, o: real, m: real, lo: real, hi: real)
    requires c > 0.0 && m >= 0.0 && lo <= hi
    requires c * lo <= t <= c * hi && m * lo <= o <= m * hi
    ensures var gap := t / c - (t + o) / (c + m);
      -(m * (hi - lo)) <= gap * (c + m) <= m * (hi - lo)
  {
    var mean := t / c;
    QuotientWithin(t, c, lo, hi);
    var whole := (t + o) / (c + m);
    assert whole * (c + m) == t + o;
    assert mean * c == t;
    assert (mean - whole) * (c + m) == mean * m - o;
    assert m * lo <= mean * m <= m * hi;
    assert m * (hi - lo) == m * hi - m * lo;
  }

  lemma ShareLeftOut(gap: real, n: real, m: real, spread: real, step: real)
    requires n > 0.0 && spread >= 0.0 && step >= 1.0
    requires m * step <= (step - 1.0) * n
    requires -(m * spread) <= gap * n <= m * spread
    ensures -((step - 1.0) * spread) <= gap * step <= (step - 1.0) * spread
  {
    var top := (step - 1.0) * spread;
    assert m * step * spread <= (step - 1.0) * n * spread;
    assert (gap * n) * step <= (m * spread) * step;
    assert (gap * n) * step >= -(m * spread) * step;
    assert (m * spread) * step == m * step * spread;
    assert (step - 1.0) * n * spread == top * n;
    assert (gap * n) * step == (gap * step) * n;
    Cancel(gap * step, top, n);
    Cancel(-top, gap * step, n);
  }

  /** The gap between a part's mean and the whole's, times the whole's size, stays within `room`. */
  ghost predicate GapWithin(part: real, whole: real, size: int, room: int) {
    -(room as real) <= (part - whole) * size as real <= room as real
  }

  /** The same for whole numbers. */
  lemma PartMeanGapOfInts(t: int, c: int, o: int, m: int, lo: int, hi: int)
    requires c > 0 && m >= 0 && lo <= hi
    requires c * lo <= t <= c * hi && m * lo <= o <= m * hi
    ensures GapWithin(t as real / c as real, (t + o) as real / (c + m) as real, c + m, m * (hi - lo))
  {
    CastProduct(c, lo);
    CastProduct(c, hi);
    CastProduct(m, lo);
    CastProduct(m, hi);
    CastProduct(m, hi - lo);
    PartMeanGap(t as real, c as real, o as real, m as real, lo as real, hi as real);
  }

  lemma ShareLeftOutOfInts(gap: real, n: int, m: int, spread: int, step: int)
    requires n > 0 && spread >= 0 && step >= 1
    requires m * step <= (step - 1) * n
    requires -((m * spread) as real) <= gap * n as real <= (m * spread) as real
    ensures -(((step - 1) * spread) as real) <= gap * step as real <= ((step - 1) * spread) as real
  {
    CastProduct(m, step);
    CastProduct(step - 1, n);
    CastProduct(m, spread);
    CastProduct(step - 1, spread);
    ShareLeftOut(gap, n as real, m as real, spread as real, step as real);
  }

  /** Main result: a sample of every `step`-th element misses the full mean by at most the
      share `(step - 1) / step` of the spread. */
  lemma SamplingError(data: seq<int>, step: nat, lo: int, hi: int)
    requires step > 0 && data != [] && Within(data, lo, hi)
    ensures ErrorBound(SampleMean(data, step), SampleMean(data, 1), step, hi - lo)
  {
    var n, c, t := |data|, StridedCount(data, 0, step), StridedSum(data, 0, step);
    var o := StridedSum(data, 0, 1) - t;
    assert lo <= data[0] <= hi;
    CountIsCeiling(data, 0, 1);
    CountIsCeiling(data, 0, step);
    SumWithin(data, 0, step, lo, hi);
    SkippedSumWithin(data, 0, step, lo, hi);
    GapOfParts(t, c, o, n - c, lo, hi, step);
  }

  lemma GapOfParts(t: int, c: int, o: int, m: int, lo: int, hi: int, step: nat)
    requires c > 0 && m >= 0 && lo <= hi && step > 0
    requires c + m <= c * step
    requires c * lo <= t <= c * hi && m * lo <= o <= m * hi
    ensures ErrorBound(t as real / c as real, (t + o) as real / (c + m) as real, step, hi - lo)
  {
    hide ErrorBound;
    hide GapWithin;
    PartMeanGapOfInts(t, c, o, m, lo, hi);
    LeftOut(c, m, step);
    BoundOfGap(t as real / c as real, (t + o) as real / (c + m) as real, c + m, m, hi - lo, step);
  }

  lemma BoundOfGap(sampled: real, full: real, n: int, m: int, spread: int, step: nat)
    requires n > 0 && spread >= 0 && step >= 1 && m * step <= (step - 1) * n
    requires GapWithin(sampled, full, n, m * spread)
    ensures ErrorBound(sampled, full, step, spread)
  {
    ShareLeftOutOfInts(sampled - full, n, m, spread, step);
  }

  lemma LeftOut(c: int, m: int, step: int)
    requires c + m <= c * step
    ensures m * step <= (step - 1) * (c + m)
  {
  }

  /** The rounded result of a strategy lies between the smallest and the largest input. */
  lemma AvgWithin(data: seq<int>, step: nat, lo: int, hi: int)
    requires step > 0 && data != [] && Within(data, lo, hi)
    ensures lo <= Round(SampleMean(data, step)) <= hi
  {
    MeanWithin(data, step, lo, hi);
    RoundStaysBetween(SampleMean(data, step), lo, hi);
  }

  /** The error bounds of the two cheaper strategies, with the rounding of both sides included. */
  lemma StrategyErrorBounds(data: seq<int>, lo: int, hi: int)
    requires data != [] && Within(data, lo, hi)
    ensures var high := Round(SampleMean(data, 1));
      var medium := Round(SampleMean(data, MEDIUM_STEP));
      var low := Round(SampleMean(data, LOW_STEP));
      && -(hi - lo) - 2 <= 2 * (medium - high) <= (hi - lo) + 2
      && -3 * (hi - lo) - 4 <= 4 * (low - high) <= 3 * (hi - lo) + 4
  {
    SamplingError(data, MEDIUM_STEP, lo, hi);
    SamplingError(data, LOW_STEP, lo, hi);
    var high := Round(SampleMean(data, 1));
    var medium := Round(SampleMean(data, MEDIUM_STEP));
    var low := Round(SampleMean(data, LOW_STEP));
    assert -((hi - lo) as real) - 2.0 <= 2.0 * (medium as real - high as real) <= (hi - lo) as real + 2.0;
    assert -3.0 * (hi - lo) as real - 4.0 <= 4.0 * (low as real - high as real) <= 3.0 * (hi - lo) as real + 4.0;
  }
}
