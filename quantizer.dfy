/**
 * The slider's quantisation (FormSliderViewBinder.updateSeekValue): a raw
 * progress value is snapped to the grid given by `steps` or `incrementBy`
 * and then clamped into [min, max].
 *
 * The source computes on Double and rounds with Kotlin's roundToInt, which
 * rounds to the nearest integer with ties towards positive infinity. Every
 * quotient it rounds is a quotient of two integers, so the model rounds the
 * exact rational n/d, i.e. floor(n/d + 1/2).
 */
module Quantizer {
  import opened Values

  /** roundToInt applied to the exact quotient n / d, for d > 0. */
  function RoundHalfUp(n: int, d: int): (r: int)
    requires d > 0
    ensures 2 * r * d <= 2 * n + d < 2 * r * d + 2 * d
  {
    var q := (2 * n + d) / (2 * d);
    assert 2 * n + d == q * (2 * d) + (2 * n + d) % (2 * d);
    q
  }

  /** Kotlin's `%` on Double with integral operands: the truncated remainder, signed like the dividend. */
  function TruncRem(a: int, k: int): (r: int)
    requires k > 0
    ensures (a - r) % k == 0
    ensures a >= 0 ==> 0 <= r < k
    ensures a < 0 ==> -k < r <= 0
  {
    if a >= 0 then
      assert a - a % k == (a / k) * k;
      ModOfMultiple(a / k, k);
      a % k
    else
      assert a + (-a) % k == (-((-a) / k)) * k;
      ModOfMultiple(-((-a) / k), k);
      -((-a) % k)
  }

  /** The clamp at the end of updateSeekValue, tested in the source's order. */
  function Clamp(x: int, min: int, max: int): (r: int)
    ensures min <= max ==> min <= r <= max
    ensures min <= x <= max ==> r == x
  {
    if x < min then min else if x > max then max else x
  }

  /** The step index: (raw - min) / (max - min) * steps, rounded. */
  function StepIndex(raw: int, min: int, max: int, steps: int): int
    requires steps > 0 && max > min
  {
    RoundHalfUp((raw - min) * steps, max - min)
  }

  /** The distance between two stops: (max - min) / steps, rounded. */
  function StepAmount(min: int, max: int, steps: int): int
    requires steps > 0 && max > min
  {
    RoundHalfUp(max - min, steps)
  }

  /** The pre-clamp value when `steps` is set. */
  function StepSnap(raw: int, min: int, max: int, steps: int): int
    requires steps > 0 && max > min
  {
    StepIndex(raw, min, max, steps) * StepAmount(min, max, steps) + min
  }

  /** The pre-clamp value when only `incrementBy` is set, for a given offset. */
  function SnapFrom(raw: int, offset: int, k: int): int
    requires k > 0
  {
    RoundHalfUp(raw - offset, k) * k + offset
  }

  /** The pre-clamp value when only `incrementBy` is set: the offset is min truncated-rem k. */
  function IncrementSnap(raw: int, min: int, k: int): int
    requires k > 0
  {
    SnapFrom(raw, TruncRem(min, k), k)
  }

  /** What updateSeekValue accepts without dividing by zero (see README, Left out). */
  predicate WellFormed(min: int, max: int, steps: Option<int>, incrementBy: Option<int>)
  {
    && (steps.Some? ==> steps.value > 0 && max > min)
    && (steps.None? && incrementBy.Some? ==> incrementBy.value > 0)
  }

  /**
   * The value the slider commits for a raw progress value: `steps` wins over
   * `incrementBy`; with neither the raw value passes through; the result is
   * always clamped.
   */
  function Quantize(raw: int, min: int, max: int, steps: Option<int>, incrementBy: Option<int>): (r: int)
    requires WellFormed(min, max, steps, incrementBy)
    ensures min <= max ==> min <= r <= max
  {
    var snapped :=
      if steps.Some? then StepSnap(raw, min, max, steps.value)
      else if incrementBy.Some? then IncrementSnap(raw, min, incrementBy.value)
      else raw;
    Clamp(snapped, min, max)
  }

  /** With neither steps nor incrementBy the raw value is only clamped. */
  lemma PassThrough(raw: int, min: int, max: int)
    requires min <= max
    ensures Quantize(raw, min, max, None, None) == Clamp(raw, min, max)
    ensures min <= raw <= max ==> Quantize(raw, min, max, None, None) == raw
  {
  }

  /** incrementBy is ignored whenever steps is set. */
  lemma StepsTakePrecedence(raw: int, min: int, max: int, steps: int, incrementBy: Option<int>)
    requires steps > 0 && max > min
    ensures Quantize(raw, min, max, Some(steps), incrementBy) == Quantize(raw, min, max, Some(steps), None)
  {
  }

  /** For a raw value in range, the step index is one of the s + 1 stops 0..s. */
  lemma StepIndexInRange(raw: int, min: int, max: int, steps: int)
    requires steps > 0 && max > min
    requires min <= raw <= max
    ensures 0 <= StepIndex(raw, min, max, steps) <= steps
  {
    var n, d := (raw - min) * steps, max - min;
    var r := StepIndex(raw, min, max, steps);
    assert 0 <= n <= steps * d by {
      assert 0 <= raw - min <= d;
      MulMonotone(raw - min, d, steps);
    }
    assert 2 * r * d <= 2 * n + d < 2 * r * d + 2 * d;
    if r > steps {
      assert (steps + 1) * d <= r * d by { MulMonotone(steps + 1, r, d); }
      assert false;
    }
  }

  lemma MulMonotone(a: int, b: int, c: int)
    requires a <= b && c >= 0
    ensures a * c <= b * c
  {
    assert b * c - a * c == (b - a) * c;
  }

  /** The s + 1 values the slider can commit when steps = s. */
  function StepStops(min: int, max: int, steps: int): (stops: seq<int>)
    requires steps > 0 && max > min
    ensures |stops| == steps + 1
  {
    seq(steps + 1, i requires 0 <= i <= steps => Clamp(i * StepAmount(min, max, steps) + min, min, max))
  }

  /** With steps = s, every raw value in range commits one of at most s + 1 stops. */
  lemma StepOutputIsStop(raw: int, min: int, max: int, steps: int)
    requires steps > 0 && max > min
    requires min <= raw <= max
    ensures Quantize(raw, min, max, Some(steps), None) in StepStops(min, max, steps)
  {
    var i := StepIndex(raw, min, max, steps);
    StepIndexInRange(raw, min, max, steps);
    assert StepStops(min, max, steps)[i] == Quantize(raw, min, max, Some(steps), None);
  }

  /** The snapped value is a grid point: congruent to the offset modulo k. */
  lemma SnapFromOnGrid(raw: int, offset: int, k: int)
    requires k > 0
    ensures (SnapFrom(raw, offset, k) - offset) % k == 0
  {
    var r := RoundHalfUp(raw - offset, k);
    assert SnapFrom(raw, offset, k) - offset == r * k;
    ModOfMultiple(r, k);
  }

  lemma ModOfMultiple(r: int, k: int)
    requires k > 0
    ensures (r * k) % k == 0
  {
    var q := (r * k) / k;
    var m := (r * k) % k;
    assert r * k == q * k + m && 0 <= m < k;
    assert (r - q) * k == m;
    if r - q > 0 {
      MulMonotone(1, r - q, k);
    } else if r - q < 0 {
      MulMonotone(r - q, -1, k);
    }
  }

  /** The snapped value is the nearest grid point, ties going up: raw - k/2 < snap <= raw + k/2. */
  lemma SnapFromNearest(raw: int, offset: int, k: int)
    requires k > 0
    ensures raw * 2 - k < SnapFrom(raw, offset, k) * 2 <= raw * 2 + k
  {
  }

  /** With incrementBy = k the pre-clamp value is congruent to min modulo k, also for a negative min. */
  lemma IncrementSnapAlignedToMin(raw: int, min: int, k: int)
    requires k > 0
    ensures (IncrementSnap(raw, min, k) - min) % k == 0
  {
    var off := TruncRem(min, k);
    var s := SnapFrom(raw, off, k);
    SnapFromOnGrid(raw, off, k);
    NegMultiple(min - off, k);
    assert -(min - off) == off - min;
    SumOfMultiples(s - off, off - min, k);
    assert (s - off) + (off - min) == s - min;
  }

  lemma SumOfMultiples(a: int, b: int, k: int)
    requires k > 0 && a % k == 0 && b % k == 0
    ensures (a + b) % k == 0
  {
    var p, q := a / k, b / k;
    assert a == p * k && b == q * k;
    assert a + b == (p + q) * k;
    ModOfMultiple(p + q, k);
  }

  /** Two grid points with the same residue that are less than k apart are equal. */
  lemma CloseCongruentEqual(a: int, b: int, k: int)
    requires k > 0
    requires (a - b) % k == 0
    requires -k < a - b < k
    ensures a == b
  {
    var q := (a - b) / k;
    assert a - b == q * k;
    if q > 0 {
      MulMonotone(1, q, k);
    } else if q < 0 {
      MulMonotone(q, -1, k);
    }
  }

  /**
   * Snapping depends only on the residue class of the offset: using the
   * truncated remainder of the source or the Euclidean `min % k` gives the
   * same value, so a negative min needs no special treatment.
   */
  lemma SnapIndependentOfOffset(raw: int, off1: int, off2: int, k: int)
    requires k > 0
    requires (off1 - off2) % k == 0
    ensures SnapFrom(raw, off1, k) == SnapFrom(raw, off2, k)
  {
    var s1, s2 := SnapFrom(raw, off1, k), SnapFrom(raw, off2, k);
    SnapFromOnGrid(raw, off1, k);
    SnapFromOnGrid(raw, off2, k);
    SnapFromNearest(raw, off1, k);
    SnapFromNearest(raw, off2, k);
    SumOfMultiples(s1 - off1, off1 - off2, k);
    NegMultiple(s2 - off2, k);
    SumOfMultiples(s1 - off2, -(s2 - off2), k);
    assert (s1 - off2) + -(s2 - off2) == s1 - s2;
    CloseCongruentEqual(s1, s2, k);
  }

  lemma NegMultiple(a: int, k: int)
    requires k > 0 && a % k == 0
    ensures (-a) % k == 0
  {
    var p := a / k;
    assert a == p * k;
    assert -a == (-p) * k;
    ModOfMultiple(-p, k);
  }

  lemma IncrementSnapEuclidean(raw: int, min: int, k: int)
    requires k > 0
    ensures IncrementSnap(raw, min, k) == SnapFrom(raw, min % k, k)
  {
    var t := TruncRem(min, k);
    NegMultiple(min - t, k);
    assert -(min - t) == t - min;
    assert (min - min % k) % k == 0 by {
      assert min - min % k == (min / k) * k;
      ModOfMultiple(min / k, k);
    }
    SumOfMultiples(t - min, min - min % k, k);
    assert (t - min) + (min - min % k) == t - min % k;
    SnapIndependentOfOffset(raw, t, min % k, k);
  }

  /** min = 0, max = 100, steps = 4: raw 37 commits 25. */
  lemma StepsExample()
    ensures Quantize(37, 0, 100, Some(4), None) == 25
  {
  }

  /** min = 2, max = 22, incrementBy = 5: raw 13 commits 12. */
  lemma IncrementExample()
    ensures Quantize(13, 2, 22, None, Some(5)) == 12
  {
  }

  /** A negative min: min = -7, incrementBy = 5 keeps values on -7 + 5i, so raw -4 commits -2. */
  lemma NegativeMinExample()
    ensures TruncRem(-7, 5) == -2
    ensures Quantize(-4, -7, 20, None, Some(5)) == -2
  {
  }

  /**
   * The stop distance is rounded, so the stops need not reach max:
   * min = 0, max = 10, steps = 3 gives stops 0, 3, 6, 9 and raw 10 commits 9.
   */
  lemma StepsMayMissMax()
    ensures StepAmount(0, 10, 3) == 3
    ensures Quantize(10, 0, 10, Some(3), None) == 9
  {
  }

  /**
   * With steps set, quantising is not idempotent: min = 0, max = 10,
   * steps = 7 gives stop distance 1, raw 10 commits 7, and 7 fed back as a
   * progress value commits 5. So the progress the binder writes back is
   * not a fixed point of a second callback.
   */
  lemma StepsNotIdempotent()
    ensures Quantize(10, 0, 10, Some(7), None) == 7
    ensures Quantize(7, 0, 10, Some(7), None) == 5
  {
  }
}
