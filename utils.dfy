/**
 * Arithmetic helpers of src/lib/utils.ts: the inclusive day count between two
 * dates, Math.round of a quotient, the rounded percentage and clamp.
 */
module Utils {

  function Abs(x: int): (r: nat)
    ensures r == x || r == -x
  {
    if x < 0 then -x else x
  }

  function Min(a: int, b: int): (r: int)
    ensures r <= a && r <= b && (r == a || r == b)
  {
    if a < b then a else b
  }

  function Max(a: int, b: int): (r: int)
    ensures r >= a && r >= b && (r == a || r == b)
  {
    if a < b then b else a
  }

  /**
   * Inclusive number of calendar days between two dates. The source takes
   * the absolute difference, so the order of the two dates does not matter
   * and a reversed range is not an error.
   */
  function DaysBetween(start: int, end: int): (n: int)
    ensures n >= 1
    ensures start <= end ==> n == end - start + 1
    ensures end <= start ==> n == start - end + 1
  {
    Abs(end - start) + 1
  }

  lemma DaysBetweenSame(d: int)
    ensures DaysBetween(d, d) == 1
  {
  }

  lemma DaysBetweenSymmetric(a: int, b: int)
    ensures DaysBetween(a, b) == DaysBetween(b, a)
  {
  }

  /**
   * Math.round(p / q) for q > 0: the nearest integer to p / q, halves
   * rounded up. Dafny's division rounds down for a positive divisor, for
   * negative p as well.
   */
  function RoundDiv(p: int, q: int): (r: int)
    requires q > 0
    ensures 2 * q * r <= 2 * p + q < 2 * q * r + 2 * q
  {
    (2 * p + q) / (2 * q)
  }

  /** Only one integer lies in the window RoundDiv promises. */
  lemma RoundDivUnique(p: int, q: int, r: int)
    requires q > 0
    requires 2 * q * r <= 2 * p + q < 2 * q * r + 2 * q
    ensures r == RoundDiv(p, q)
  {
    var s := RoundDiv(p, q);
    if r < s {
      MulMono(2 * q, r + 1, s);
    } else if s < r {
      MulMono(2 * q, s + 1, r);
    }
  }

  lemma MulMono(k: int, a: int, b: int)
    requires k >= 0 && a <= b
    ensures k * a <= k * b
  {
    assert k * b - k * a == k * (b - a);
  }

  /** Rounding preserves order. */
  lemma RoundDivMono(p1: int, p2: int, q: int)
    requires q > 0 && p1 <= p2
    ensures RoundDiv(p1, q) <= RoundDiv(p2, q)
  {
    var r1, r2 := RoundDiv(p1, q), RoundDiv(p2, q);
    if r2 < r1 {
      MulMono(2 * q, r2 + 1, r1);
    }
  }

  /** Rounding an exact quotient gives that quotient back. */
  lemma RoundDivExact(k: int, q: int)
    requires q > 0
    ensures RoundDiv(k * q, q) == k
  {
    assert 2 * q * k <= 2 * (k * q) + q < 2 * q * k + 2 * q;
    RoundDivUnique(k * q, q, k);
  }

  /** Rounding a quotient that is at least k gives at least k. */
  lemma RoundDivAtLeast(p: int, q: int, k: int)
    requires q > 0 && p >= k * q
    ensures RoundDiv(p, q) >= k
  {
    RoundDivExact(k, q);
    RoundDivMono(k * q, p, q);
  }

  /** Rounding a quotient below k gives at most k. */
  lemma RoundDivAtMost(p: int, q: int, k: int)
    requires q > 0 && p <= k * q
    ensures RoundDiv(p, q) <= k
  {
    RoundDivExact(k, q);
    RoundDivMono(p, k * q, q);
  }

  /**
   * calculatePercentage: 0 for a zero total, otherwise
   * Math.round(value / total * 100).
   */
  function CalculatePercentage(value: int, total: int): (r: int)
    ensures total == 0 ==> r == 0
    ensures total > 0 ==> 2 * total * r <= 200 * value + total < 2 * total * r + 2 * total
    ensures total < 0 ==> -2 * total * r <= -200 * value - total < -2 * total * r - 2 * total
  {
    if total == 0 then 0
    else if total > 0 then RoundDiv(100 * value, total)
    else RoundDiv(-100 * value, -total)
  }

  /** A share of a positive total between 0 and the total is a percentage in [0, 100]. */
  lemma PercentageBounds(value: int, total: int)
    requires 0 <= value <= total && total > 0
    ensures 0 <= CalculatePercentage(value, total) <= 100
  {
    RoundDivAtLeast(100 * value, total, 0);
    RoundDivAtMost(100 * value, total, 100);
  }

  /** clamp(value, min, max) = Math.min(Math.max(value, min), max). */
  function Clamp(value: int, lo: int, hi: int): (r: int)
    ensures lo <= hi ==> lo <= r <= hi
    ensures lo <= value <= hi ==> r == value
    ensures lo > hi ==> r == hi
    ensures r <= hi
  {
    Min(Max(value, lo), hi)
  }
}
