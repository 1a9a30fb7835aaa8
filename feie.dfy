/**
 * The Foreign Earned Income Exclusion evaluator of
 * src/lib/calculations/feie.ts: the Physical Presence Test (330 days outside
 * the US within a period of at least 365 days), the yearly maximum exclusion,
 * its pro-rating by the days of the test period that fall in the tax year,
 * the excludable and taxable amounts with their messages, and the
 * calendar-year test period suggested from a list of trips.
 */
module Feie {
  import opened Types
  import opened Utils
  import Calendar

  /** TAX_THRESHOLDS.FEIE_PHYSICAL_PRESENCE_DAYS */
  const PhysicalPresenceRequiredDays: int := 330

  /** The length of a test period, and the divisor of the pro-rating. */
  const TestPeriodDays: int := 365

  /** FEIE_MAX_EXCLUSIONS, in whole dollars. */
  const FeieMaxExclusions: map<int, int> := map[
    2024 := 126500,
    2025 := 130000,
    2023 := 120000,
    2022 := 112000,
    2021 := 108700,
    2020 := 107600
  ]

  /**
   * getFEIEMaxExclusion: the table value, or the 2024 value when the year is
   * missing (the source's `||` also falls back on a zero entry).
   */
  function GetFeieMaxExclusion(year: int): (m: int)
    ensures 2020 <= year <= 2025 ==> m == FeieMaxExclusions[year]
    ensures !(2020 <= year <= 2025) ==> m == 126500
    ensures m > 0
  {
    if year in FeieMaxExclusions && FeieMaxExclusions[year] != 0 then FeieMaxExclusions[year]
    else FeieMaxExclusions[2024]
  }

  /**
   * calculateDaysInTaxYear: the number of days of [start, end] that lie in
   * 1 January .. 31 December of taxYear, 0 when they do not meet.
   */
  function DaysInTaxYear(start: int, end: int, taxYear: int): (n: int)
    ensures n >= 0
  {
    var yearStart := Calendar.JanFirst(taxYear);
    var yearEnd := Calendar.DecLast(taxYear);
    var overlapStart := if start > yearStart then start else yearStart;
    var overlapEnd := if end < yearEnd then end else yearEnd;
    if overlapStart > overlapEnd then 0 else overlapEnd - overlapStart + 1
  }

  /** Reference count: the days d of [start, end] whose calendar year is y, one by one. */
  function CountInYear(start: int, end: int, y: int): int
    decreases end - start
  {
    if end < start then 0
    else CountInYear(start, end - 1, y) + (if Calendar.YearOf(end) == y then 1 else 0)
  }

  /** The overlap formula counts exactly the days of the period that fall in the year. */
  lemma {:induction false} DaysInTaxYearCounts(start: int, end: int, y: int)
    ensures DaysInTaxYear(start, end, y) == CountInYear(start, end, y)
    decreases end - start
  {
    if end >= start {
      DaysInTaxYearCounts(start, end - 1, y);
      Calendar.YearOfIs(end, y);
    }
  }

  /** The overlap is no longer than the period and no longer than the year. */
  lemma DaysInTaxYearBounds(start: int, end: int, y: int)
    ensures DaysInTaxYear(start, end, y) <= Max(0, end - start + 1)
    ensures DaysInTaxYear(start, end, y) <= Calendar.DaysInYear(y)
  {
    Calendar.YearLength(y);
  }

  /** A period inside year y counts fully there; one running into y + 1 splits between the two. */
  lemma DaysInTaxYearSplit(start: int, end: int, y: int)
    requires Calendar.JanFirst(y) <= start <= end <= Calendar.DecLast(y + 1)
    ensures DaysInTaxYear(start, end, y) + DaysInTaxYear(start, end, y + 1) == end - start + 1
  {
    Calendar.YearLength(y);
    Calendar.YearLength(y + 1);
  }

  /** Math.round(daysInTaxYear / 365 * maxExclusion). */
  function ProRatedExclusion(maxExclusion: int, daysInTaxYear: int): (p: int)
    ensures 2 * TestPeriodDays * p <= 2 * maxExclusion * daysInTaxYear + TestPeriodDays
                                   < 2 * TestPeriodDays * p + 2 * TestPeriodDays
  {
    RoundDiv(maxExclusion * daysInTaxYear, TestPeriodDays)
  }

  /** A full 365-day overlap gives the maximum exactly; more days never give less. */
  lemma ProRatedFullYear(maxExclusion: int, d1: int, d2: int)
    requires maxExclusion >= 0 && d1 <= d2
    ensures ProRatedExclusion(maxExclusion, TestPeriodDays) == maxExclusion
    ensures ProRatedExclusion(maxExclusion, d1) <= ProRatedExclusion(maxExclusion, d2)
    ensures d1 >= 0 ==> ProRatedExclusion(maxExclusion, d1) >= 0
  {
    RoundDivExact(maxExclusion, TestPeriodDays);
    MulMono(maxExclusion, d1, d2);
    RoundDivMono(maxExclusion * d1, maxExclusion * d2, TestPeriodDays);
    if d1 >= 0 {
      RoundDivAtLeast(maxExclusion * d1, TestPeriodDays, 0);
    }
  }

  /**
   * The pro-rated amount is not capped: the 366 days of a leap year give
   * more than the maximum (for any maximum of at least 183 dollars).
   */
  lemma ProRatedLeapYearExceedsCap(maxExclusion: int)
    requires maxExclusion >= 183
    ensures ProRatedExclusion(maxExclusion, 366) > maxExclusion
    ensures ProRatedExclusion(126500, 366) == 126847
    ensures Calendar.DaysInYear(2024) == 366
  {
  }

  datatype FeieInput = FeieInput(
    testPeriodStart: int,
    testPeriodEnd: int,
    daysOutsideUS: int,
    daysInUS: int,
    foreignEarnedIncome: int,
    taxYear: int)

  datatype ExplanationPart =
    | Qualifies(qualifyingDays: int, requiredDays: int)
    | ProRatedTo(amount: int, daysInTaxYear: int, taxYear: int)
    | CanExcludeUpTo(amount: int)
    | DoesNotQualify
    | NeedMoreDays(daysShort: int)
    | PeriodTooShort

  datatype FeieWarning =
    | IncomeExceedsMaximum(income: int, remainingTaxable: int)
    | UsDaysSpent(daysInUS: int)
    | CloseToQualifying(daysShort: int)

  datatype FeieRecommendation =
    | FileForm2555
    | KeepRecords
    | ConsiderForeignTaxCredit
    | ExtendTimeAbroad
    | EstablishBonaFideResidence
    | ConsultAboutBonaFideTest

  datatype FeieResult = FeieResult(
    qualifies: bool,
    testType: TestType,
    qualifyingDays: int,
    requiredDays: int,
    daysShort: int,
    maxExclusion: int,
    proRatedExclusion: int,
    excludableAmount: int,
    taxableAmount: int,
    explanation: seq<ExplanationPart>,
    warnings: seq<FeieWarning>,
    recommendations: seq<FeieRecommendation>)

  /** differenceInDays(end, start) + 1 */
  function TotalTestDays(input: FeieInput): int {
    input.testPeriodEnd - input.testPeriodStart + 1
  }

  /** What calculateFEIE returns for an input, value by value. */
  ghost function FeieOutcome(input: FeieInput): (r: FeieResult)
    ensures r.testType == PhysicalPresence
    ensures r.qualifyingDays == input.daysOutsideUS && r.requiredDays == PhysicalPresenceRequiredDays
  {
    var qualifies := input.daysOutsideUS >= PhysicalPresenceRequiredDays && TotalTestDays(input) >= TestPeriodDays;
    var daysShort := Max(0, PhysicalPresenceRequiredDays - input.daysOutsideUS);
    var maxExclusion := GetFeieMaxExclusion(input.taxYear);
    var daysInTaxYear := DaysInTaxYear(input.testPeriodStart, input.testPeriodEnd, input.taxYear);
    var proRated := ProRatedExclusion(maxExclusion, daysInTaxYear);
    var income := input.foreignEarnedIncome;
    var excludable := if qualifies then Min(income, proRated) else 0;
    var taxable := Max(0, income - excludable);
    FeieResult(
      qualifies, PhysicalPresence, input.daysOutsideUS, PhysicalPresenceRequiredDays, daysShort,
      maxExclusion, proRated, excludable, taxable,
      if qualifies then
        [Qualifies(input.daysOutsideUS, PhysicalPresenceRequiredDays)]
        + (if proRated < maxExclusion then [ProRatedTo(proRated, daysInTaxYear, input.taxYear)] else [])
        + [CanExcludeUpTo(excludable)]
      else
        [DoesNotQualify]
        + (if daysShort > 0 then [NeedMoreDays(daysShort)] else [])
        + (if TotalTestDays(input) < TestPeriodDays then [PeriodTooShort] else []),
      (if qualifies && income > maxExclusion then [IncomeExceedsMaximum(income, income - maxExclusion)] else [])
      + (if input.daysInUS > 35 && qualifies then [UsDaysSpent(input.daysInUS)] else [])
      + (if !qualifies && daysShort <= 30 then [CloseToQualifying(daysShort)] else []),
      if qualifies then
        [FileForm2555, KeepRecords] + (if excludable < income then [ConsiderForeignTaxCredit] else [])
      else
        [ExtendTimeAbroad, EstablishBonaFideResidence, ConsultAboutBonaFideTest])
  }

  /**
   * calculateFEIE: decides the Physical Presence Test, computes the amounts,
   * then assembles the explanation, warnings and recommendations.
   */
  method CalculateFeie(input: FeieInput) returns (result: FeieResult)
    ensures result == FeieOutcome(input)
  {
    var totalTestDays := input.testPeriodEnd - input.testPeriodStart + 1;
    var qualifyingDays := input.daysOutsideUS;
    var requiredDays := PhysicalPresenceRequiredDays;
    var daysShort := Max(0, requiredDays - qualifyingDays);
    var qualifies := qualifyingDays >= requiredDays && totalTestDays >= 365;

    var maxExclusion := GetFeieMaxExclusion(input.taxYear);
    var daysInTaxYear := DaysInTaxYear(input.testPeriodStart, input.testPeriodEnd, input.taxYear);
    var proRatedExclusion := ProRatedExclusion(maxExclusion, daysInTaxYear);
    var excludableAmount := if qualifies then Min(input.foreignEarnedIncome, proRatedExclusion) else 0;
    var taxableAmount := Max(0, input.foreignEarnedIncome - excludableAmount);

    var explanation: seq<ExplanationPart> := [];
    if qualifies {
      explanation := [Qualifies(qualifyingDays, requiredDays)];
      if proRatedExclusion < maxExclusion {
        explanation := explanation + [ProRatedTo(proRatedExclusion, daysInTaxYear, input.taxYear)];
      }
      explanation := explanation + [CanExcludeUpTo(excludableAmount)];
    } else {
      explanation := [DoesNotQualify];
      if daysShort > 0 {
        explanation := explanation + [NeedMoreDays(daysShort)];
      }
      if totalTestDays < 365 {
        explanation := explanation + [PeriodTooShort];
      }
    }

    var warnings: seq<FeieWarning> := [];
    if qualifies && input.foreignEarnedIncome > maxExclusion {
      warnings := warnings + [IncomeExceedsMaximum(input.foreignEarnedIncome, input.foreignEarnedIncome - maxExclusion)];
    }
    if input.daysInUS > 35 && qualifies {
      warnings := warnings + [UsDaysSpent(input.daysInUS)];
    }
    if !qualifies && daysShort <= 30 {
      warnings := warnings + [CloseToQualifying(daysShort)];
    }

    var recommendations: seq<FeieRecommendation> := [];
    if qualifies {
      recommendations := recommendations + [FileForm2555];
      recommendations := recommendations + [KeepRecords];
      if excludableAmount < input.foreignEarnedIncome {
        recommendations := recommendations + [ConsiderForeignTaxCredit];
      }
    } else {
      recommendations := recommendations + [ExtendTimeAbroad];
      recommendations := recommendations + [EstablishBonaFideResidence];
      recommendations := recommendations + [ConsultAboutBonaFideTest];
    }

    result := FeieResult(qualifies, PhysicalPresence, qualifyingDays, requiredDays, daysShort, maxExclusion,
                         proRatedExclusion, excludableAmount, taxableAmount, explanation, warnings, recommendations);
  }

  /**
   * The double gate: 330 days outside the US and a test period of at least
   * 365 days; a short period fails however many days were spent abroad.
   */
  lemma FeieDoubleGate(input: FeieInput)
    ensures FeieOutcome(input).qualifies <==>
      input.daysOutsideUS >= PhysicalPresenceRequiredDays && input.testPeriodEnd - input.testPeriodStart + 1 >= 365
    ensures FeieOutcome(input).daysShort == 0 <==> input.daysOutsideUS >= PhysicalPresenceRequiredDays
    ensures FeieOutcome(input).daysShort >= PhysicalPresenceRequiredDays - input.daysOutsideUS
    ensures FeieOutcome(input).daysShort == Max(0, PhysicalPresenceRequiredDays - input.daysOutsideUS)
    ensures !FeieOutcome(FeieInput(0, 299, 340, 0, 50000, 2024)).qualifies
  {
  }

  /**
   * The amounts: nothing is excluded without qualifying; otherwise the
   * lesser of income and the pro-rated maximum. For a non-negative income
   * the excluded and taxable parts add up to the income.
   */
  lemma FeieAmounts(input: FeieInput)
    ensures var r := FeieOutcome(input);
      && r.maxExclusion == GetFeieMaxExclusion(input.taxYear)
      && r.proRatedExclusion ==
           ProRatedExclusion(r.maxExclusion, DaysInTaxYear(input.testPeriodStart, input.testPeriodEnd, input.taxYear))
      && (!r.qualifies ==> r.excludableAmount == 0)
      && (r.qualifies ==> r.excludableAmount <= input.foreignEarnedIncome && r.excludableAmount <= r.proRatedExclusion
                          && (r.excludableAmount == input.foreignEarnedIncome || r.excludableAmount == r.proRatedExclusion))
      && r.taxableAmount >= 0
      && (input.foreignEarnedIncome >= 0 ==>
            0 <= r.excludableAmount && r.excludableAmount + r.taxableAmount == input.foreignEarnedIncome)
  {
    var r := FeieOutcome(input);
    var d := DaysInTaxYear(input.testPeriodStart, input.testPeriodEnd, input.taxYear);
    ProRatedFullYear(r.maxExclusion, d, d);
  }

  /** When each warning is given, and how many recommendations there are. */
  lemma FeieMessages(input: FeieInput)
    ensures var r := FeieOutcome(input);
      && ((exists w :: w in r.warnings && w.IncomeExceedsMaximum?) <==>
            r.qualifies && input.foreignEarnedIncome > r.maxExclusion)
      && (UsDaysSpent(input.daysInUS) in r.warnings <==> r.qualifies && input.daysInUS > 35)
      && (CloseToQualifying(r.daysShort) in r.warnings <==> !r.qualifies && r.daysShort <= 30)
      && (r.qualifies ==>
            |r.recommendations| == 2 + (if r.excludableAmount < input.foreignEarnedIncome then 1 else 0))
      && (!r.qualifies ==> |r.recommendations| == 3)
  {
    var r := FeieOutcome(input);
    if r.qualifies && input.foreignEarnedIncome > r.maxExclusion {
      assert r.warnings[0].IncomeExceedsMaximum?;
    }
  }

  /**
   * The near-miss warning also fires when enough days were spent abroad but
   * the period is shorter than 365 days: it then reports 0 days short.
   */
  lemma FeieNearMissWithShortPeriod()
    ensures var r := FeieOutcome(FeieInput(0, 299, 340, 0, 50000, 2024));
      !r.qualifies && r.daysShort == 0 && r.warnings == [CloseToQualifying(0)]
  {
  }

  /** One trip given to findOptimalTestPeriod; `inUS` marks time spent in the US. */
  datatype UsTrip = UsTrip(startDate: int, endDate: int, inUS: bool)

  datatype TestPeriod = TestPeriod(optimalStart: int, optimalEnd: int, daysOutsideUS: int, qualifies: bool)

  /** Total overlap of the in-US trips with the calendar year y. */
  function UsDaysInYear(trips: seq<UsTrip>, y: int): (n: int)
    ensures n >= 0
  {
    if trips == [] then 0
    else
      var last := trips[|trips| - 1];
      UsDaysInYear(trips[..|trips| - 1], y) + (if last.inUS then DaysInTaxYear(last.startDate, last.endDate, y) else 0)
  }

  /**
   * findOptimalTestPeriod: the calendar year of taxYear, with 365 minus the
   * US days of that year (never below 0) as the days outside the US.
   */
  method FindOptimalTestPeriod(trips: seq<UsTrip>, taxYear: int) returns (result: TestPeriod)
    ensures result.optimalStart == Calendar.JanFirst(taxYear) && result.optimalEnd == Calendar.DecLast(taxYear)
    ensures result.daysOutsideUS == Max(0, TestPeriodDays - UsDaysInYear(trips, taxYear))
    ensures result.qualifies <==> result.daysOutsideUS >= PhysicalPresenceRequiredDays
    ensures result.qualifies <==> UsDaysInYear(trips, taxYear) <= TestPeriodDays - PhysicalPresenceRequiredDays
    ensures 0 <= result.daysOutsideUS <= TestPeriodDays
  {
    var yearStart := Calendar.JanFirst(taxYear);
    var yearEnd := Calendar.DecLast(taxYear);
    var bestStart := yearStart;
    var bestEnd := yearEnd;

    var daysOutside := 365;
    var i := 0;
    while i < |trips|
      invariant 0 <= i <= |trips|
      invariant daysOutside == TestPeriodDays - UsDaysInYear(trips[..i], taxYear)
    {
      var trip := trips[i];
      assert trips[..i + 1][..i] == trips[..i];
      if trip.inUS {
        var overlapStart := if trip.startDate > yearStart then trip.startDate else yearStart;
        var overlapEnd := if trip.endDate < yearEnd then trip.endDate else yearEnd;
        if overlapStart <= overlapEnd {
          daysOutside := daysOutside - (overlapEnd - overlapStart + 1);
        }
      }
      i := i + 1;
    }
    assert trips[..|trips|] == trips;

    var bestDaysOutside := Max(0, daysOutside);
    result := TestPeriod(bestStart, bestEnd, bestDaysOutside, bestDaysOutside >= PhysicalPresenceRequiredDays);
  }

  /**
   * The suggested period always has 365 days outside the US as its base,
   * also in a leap year: with no US trips a leap year reports 365 of its 366
   * days.
   */
  lemma {:induction false} NoUsTripsFullBase(trips: seq<UsTrip>, y: int)
    requires forall k :: 0 <= k < |trips| ==> !trips[k].inUS
    ensures UsDaysInYear(trips, y) == 0
    ensures Max(0, TestPeriodDays - UsDaysInYear(trips, y)) == 365
    ensures Calendar.IsLeapYear(y) ==> Max(0, TestPeriodDays - UsDaysInYear(trips, y)) == Calendar.DaysInYear(y) - 1
  {
    if trips != [] {
      NoUsTripsFullBase(trips[..|trips| - 1], y);
    }
  }
}
