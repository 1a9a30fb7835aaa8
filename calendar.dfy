/**
 * Calendar dates as integer day numbers. Day 0 is 1 January of year 0 in the
 * proleptic Gregorian calendar; every later day adds one. The source keeps
 * dates as "YYYY-MM-DD" strings and turns them into JavaScript Date values;
 * here a date is its day number and the year of a date is YearOf(day).
 */
module Calendar {

  /** Gregorian leap-year rule. */
  predicate IsLeapYear(y: int) {
    y % 4 == 0 && (y % 100 != 0 || y % 400 == 0)
  }

  function DaysInYear(y: int): (n: int)
    ensures n == 365 || n == 366
    ensures n == 366 <==> IsLeapYear(y)
  {
    if IsLeapYear(y) then 366 else 365
  }

  /** Number of leap years in [0, y); for y < 0, minus the number in [y, 0). */
  function LeapYearsBefore(y: int): int {
    (y + 3) / 4 - (y + 99) / 100 + (y + 399) / 400
  }

  /** Day number of 1 January of year y. */
  function JanFirst(y: int): int {
    365 * y + LeapYearsBefore(y)
  }

  /** Day number of 31 December of year y. */
  function DecLast(y: int): int {
    JanFirst(y + 1) - 1
  }

  lemma Step4(y: int)
    ensures (y + 4) / 4 - (y + 3) / 4 == if y % 4 == 0 then 1 else 0
  {
  }

  lemma Step100(y: int)
    ensures (y + 100) / 100 - (y + 99) / 100 == if y % 100 == 0 then 1 else 0
  {
  }

  lemma Step400(y: int)
    ensures (y + 400) / 400 - (y + 399) / 400 == if y % 400 == 0 then 1 else 0
  {
  }

  lemma Divides400(y: int)
    requires y % 400 == 0
    ensures y % 100 == 0
  {
    var q := y / 400;
    assert y == 100 * (4 * q);
  }

  lemma Divides100(y: int)
    requires y % 100 == 0
    ensures y % 4 == 0
  {
    var q := y / 100;
    assert y == 4 * (25 * q);
  }

  /** Going from one year to the next adds one leap year exactly when y is a leap year. */
  lemma LeapStep(y: int)
    ensures LeapYearsBefore(y + 1) == LeapYearsBefore(y) + (if IsLeapYear(y) then 1 else 0)
  {
    Step4(y);
    Step100(y);
    Step400(y);
    if y % 400 == 0 { Divides400(y); }
    if y % 100 == 0 { Divides100(y); }
  }

  /** A year runs from JanFirst(y) to DecLast(y) and has DaysInYear(y) days. */
  lemma YearLength(y: int)
    ensures DecLast(y) - JanFirst(y) + 1 == DaysInYear(y)
    ensures JanFirst(y) < DecLast(y)
  {
    LeapStep(y);
  }

  /** Years are laid out in increasing order and do not overlap. */
  lemma {:induction false} YearsAscend(a: int, b: int)
    requires a < b
    ensures DecLast(a) < JanFirst(b)
    decreases b - a
  {
    YearLength(a);
    if a + 1 < b {
      YearLength(a + 1);
      YearsAscend(a + 1, b);
    }
  }

  /** A lower bound on the year of day d, from which YearOf climbs. */
  function YearEstimate(d: int): (y: int)
    ensures JanFirst(y) <= d
  {
    if d >= 0 then
      var y := d / 366;
      assert (y + 399) / 400 <= (y + 99) / 100;
      assert (y + 3) / 4 <= y || y == 0;
      y
    else
      var y := d / 365 - 1;
      assert (y + 3) / 4 <= (y + 99) / 100;
      assert (y + 399) / 400 <= 0;
      y
  }

  function Climb(d: int, y: int): (r: int)
    requires JanFirst(y) <= d
    ensures JanFirst(r) <= d <= DecLast(r)
    decreases d - JanFirst(y)
  {
    YearLength(y);
    if d <= DecLast(y) then y else Climb(d, y + 1)
  }

  /** The calendar year that contains day d (the source's getFullYear()). */
  function YearOf(d: int): (y: int)
    ensures JanFirst(y) <= d <= DecLast(y)
  {
    Climb(d, YearEstimate(d))
  }

  /** YearOf(d) is the one year whose January 1 .. December 31 contains d. */
  lemma YearOfIs(d: int, y: int)
    ensures YearOf(d) == y <==> JanFirst(y) <= d <= DecLast(y)
  {
    var x := YearOf(d);
    if JanFirst(y) <= d <= DecLast(y) && x != y {
      if x < y { YearsAscend(x, y); } else { YearsAscend(y, x); }
    }
  }

  lemma JanFirstYear(y: int)
    ensures YearOf(JanFirst(y)) == y && YearOf(DecLast(y)) == y
  {
    YearLength(y);
    YearOfIs(JanFirst(y), y);
    YearOfIs(DecLast(y), y);
  }
}
