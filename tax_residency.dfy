/**
 * The tax-residency evaluator of src/lib/calculations/tax-residency.ts: the
 * country rule registry with its default rule, the US Substantial Presence
 * Test, the per-country classification into percentage, days remaining and
 * risk level with its warnings and recommendations, and the aggregation of
 * trips of one year into one result per country, ordered by severity.
 */
module TaxResidency {
  import opened Types
  import opened Utils
  import Calendar
  import Sorting
  import Trips

  const UsCode: string := "US"

  /** TAX_THRESHOLDS.DEFAULT_RESIDENCY_DAYS */
  const DefaultResidencyDays: int := 183

  /** The day counts of the Substantial Presence Test. */
  const SubstantialPresenceDays: int := 183
  const MinCurrentYearDays: int := 31

  /** COUNTRY_TAX_RULES, keyed by country code. */
  const CountryTaxRules: map<string, CountryTaxRule> := map[
    "US" := CountryTaxRule("US", "United States", 183, SubstantialPresence,
      "Uses Substantial Presence Test: 31 days current year + weighted average of 3 years",
      ["Current year days count fully", "1/3 of prior year days count",
       "1/6 of second prior year days count", "Total must be ≥183 days"]),
    "GB" := CountryTaxRule("GB", "United Kingdom", 183, StatutoryResidence,
      "Statutory Residence Test with automatic overseas and UK tests",
      ["183+ days = automatic UK resident", "Complex tie-breaker rules apply",
       "Consider available accommodation", "Family and work ties matter"]),
    "DE" := CountryTaxRule("DE", "Germany", 183, PhysicalPresence,
      "183-day rule with habitual abode consideration",
      ["183+ days = tax resident", "Habitual abode can trigger residency",
       "Registration (Anmeldung) creates obligations", "Double tax treaties may apply"]),
    "PT" := CountryTaxRule("PT", "Portugal", 183, PhysicalPresence,
      "183-day rule with NHR regime available",
      ["183+ days = tax resident", "NHR regime: 10-year tax benefits",
       "Habitual residence also triggers residency", "Remote workers may qualify for NHR"]),
    "TH" := CountryTaxRule("TH", "Thailand", 180, PhysicalPresence,
      "180-day rule (note: lower than most countries)",
      ["180+ days = tax resident", "Foreign income taxed if remitted",
       "New 2024 rules on foreign income", "Consider LTR visa for tax benefits"]),
    "ES" := CountryTaxRule("ES", "Spain", 183, PhysicalPresence,
      "183-day rule with economic interests consideration",
      ["183+ days = tax resident", "Main economic activities trigger residency",
       "Beckham Law for certain workers", "Wealth tax applies to residents"]),
    "NL" := CountryTaxRule("NL", "Netherlands", 183, FactsCircumstances,
      "Facts and circumstances test, no strict day count",
      ["No automatic 183-day rule", "Permanent home location matters",
       "Economic and social ties considered", "30% ruling for expats"]),
    "SG" := CountryTaxRule("SG", "Singapore", 183, PhysicalPresence,
      "183-day rule with territorial taxation",
      ["183+ days = tax resident", "Foreign income generally not taxed",
       "No capital gains tax", "Employment income taxed regardless"])
  ]

  /** DEFAULT_TAX_RULE's special rules. */
  const DefaultSpecialRules: seq<string> := [
    "183+ days typically triggers tax residency",
    "Consult local tax authority for specifics",
    "Double tax treaties may apply"]

  /** The registry holds eight countries, each under its own code, all with a positive threshold. */
  lemma RegistryFacts()
    ensures CountryTaxRules.Keys == {"US", "GB", "DE", "PT", "TH", "ES", "NL", "SG"}
    ensures forall code :: code in CountryTaxRules ==>
      CountryTaxRules[code].countryCode == code
      && CountryTaxRules[code].residencyThreshold == (if code == "TH" then 180 else 183)
      && |CountryTaxRules[code].specialRules| == 4
  {
  }

  /**
   * getCountryTaxRule: the registry entry of a known code; for any other
   * code the default 183-day physical-presence rule carrying the code and
   * name given.
   */
  function GetCountryTaxRule(countryCode: string, countryName: string): (rule: CountryTaxRule)
    ensures countryCode in CountryTaxRules ==> rule == CountryTaxRules[countryCode]
    ensures countryCode !in CountryTaxRules ==>
      rule.countryName == countryName && rule.residencyThreshold == DefaultResidencyDays
      && rule.testType == PhysicalPresence && rule.specialRules == DefaultSpecialRules
    ensures rule.countryCode == countryCode
    ensures rule.residencyThreshold == (if countryCode == "TH" then 180 else 183)
    ensures |rule.specialRules| > 0
  {
    RegistryFacts();
    if countryCode in CountryTaxRules then CountryTaxRules[countryCode]
    else CountryTaxRule(countryCode, countryName, DefaultResidencyDays, PhysicalPresence,
                        "Standard 183-day physical presence test", DefaultSpecialRules)
  }

  datatype SubstantialPresenceResult = SubstantialPresenceResult(
    totalDays: int,
    meetsThreshold: bool,
    currentYear: int,
    priorYear: int,
    secondPriorYear: int)

  /**
   * calculateUSSubstantialPresence: all current-year days, a third of the
   * prior year's and a sixth of the second prior year's, each rounded down;
   * the test is met with at least 31 current-year days and a total of at
   * least 183.
   */
  function CalculateUSSubstantialPresence(currentYearDays: int, priorYearDays: int, secondPriorYearDays: int)
    : (spt: SubstantialPresenceResult)
    ensures spt.currentYear == currentYearDays
    ensures 3 * spt.priorYear <= priorYearDays < 3 * spt.priorYear + 3
    ensures 6 * spt.secondPriorYear <= secondPriorYearDays < 6 * spt.secondPriorYear + 6
    ensures spt.totalDays == spt.currentYear + spt.priorYear + spt.secondPriorYear
    ensures spt.meetsThreshold <==> currentYearDays >= MinCurrentYearDays && spt.totalDays >= SubstantialPresenceDays
  {
    var weightedTotal := currentYearDays + priorYearDays / 3 + secondPriorYearDays / 6;
    SubstantialPresenceResult(
      weightedTotal,
      currentYearDays >= 31 && weightedTotal >= 183,
      currentYearDays,
      priorYearDays / 3,
      secondPriorYearDays / 6)
  }

  /** The 31-day gate is independent of the weighted total. */
  lemma SubstantialPresenceExamples()
    ensures CalculateUSSubstantialPresence(183, 0, 0).totalDays == 183
    ensures CalculateUSSubstantialPresence(183, 0, 0).meetsThreshold
    ensures CalculateUSSubstantialPresence(20, 300, 300).totalDays == 170
    ensures !CalculateUSSubstantialPresence(20, 300, 300).meetsThreshold
    ensures CalculateUSSubstantialPresence(20, 600, 600).totalDays == 320
    ensures !CalculateUSSubstantialPresence(20, 600, 600).meetsThreshold
  {
  }

  /** Math.min(100, Math.round(days / threshold * 100)). */
  function PercentageOfThreshold(days: int, threshold: int): (p: int)
    requires threshold > 0
    ensures p <= 100
    ensures p < 100 ==> 2 * threshold * p <= 200 * days + threshold < 2 * threshold * p + 2 * threshold
  {
    Min(100, RoundDiv(100 * days, threshold))
  }

  /**
   * The percentage is 0 to 100 for a non-negative day count, and reaches 100
   * exactly when days / threshold rounds to at least 100 percent.
   */
  lemma PercentageRange(days: int, threshold: int)
    requires threshold > 0
    ensures days >= 0 ==> PercentageOfThreshold(days, threshold) >= 0
    ensures PercentageOfThreshold(days, threshold) == 100 <==> 200 * days + threshold >= 200 * threshold
  {
    var rounded := RoundDiv(100 * days, threshold);
    if days >= 0 { RoundDivAtLeast(100 * days, threshold, 0); }
    if rounded >= 100 {
      MulMono(2 * threshold, 100, rounded);
    } else {
      MulMono(2 * threshold, rounded + 1, 100);
    }
  }

  /** A larger day count never gives a smaller percentage. */
  lemma PercentageMonotone(d1: int, d2: int, threshold: int)
    requires threshold > 0 && d1 <= d2
    ensures PercentageOfThreshold(d1, threshold) <= PercentageOfThreshold(d2, threshold)
  {
    RoundDivMono(100 * d1, 100 * d2, threshold);
  }

  /** Resident if resident; otherwise high from 90 percent, medium from 70, else low. */
  function RiskFromPercentage(isResident: bool, percentage: int): (level: RiskLevel)
    ensures level == Resident <==> isResident
    ensures !isResident ==> (level == High <==> percentage >= 90)
    ensures !isResident ==> (level == Medium <==> 70 <= percentage < 90)
    ensures !isResident ==> (level == Low <==> percentage < 70)
  {
    if isResident then Resident
    else if percentage >= 90 then High
    else if percentage >= 70 then Medium
    else Low
  }

  datatype ResidencyWarning =
    | WeightedTotal(total: int, currentYear: int, priorYear: int, secondPriorYear: int)
    | FewerThan31Days
    | ThresholdExceeded(threshold: int)
    | ConsultProfessional
    | OnlyDaysRemaining(daysRemaining: int)
    | LimitFurtherTime
    | MonitorTravel(daysRemaining: int)

  datatype ResidencyRecommendation =
    | AddPriorYearTotals
    | ReviewTreaties
    | ConsultTaxProfessional
    | GatherDocumentation
    | KeepTripsUnder(daysRemaining: int)
    | Note(rule: string)

  datatype ResidencyResult = ResidencyResult(
    countryCode: string,
    countryName: string,
    year: int,
    daysSpent: int,
    threshold: int,
    isResident: bool,
    daysRemaining: int,
    percentageOfThreshold: int,
    riskLevel: RiskLevel,
    warnings: seq<ResidencyWarning>,
    recommendations: seq<ResidencyRecommendation>,
    taxRule: CountryTaxRule)

  /** The warnings that follow the risk level. */
  function RiskWarnings(level: RiskLevel, threshold: int, daysRemaining: int): (ws: seq<ResidencyWarning>)
    ensures |ws| == match level case Resident => 2 case High => 2 case Medium => 1 case Low => 0
  {
    match level
    case Resident => [ThresholdExceeded(threshold), ConsultProfessional]
    case High => [OnlyDaysRemaining(daysRemaining), LimitFurtherTime]
    case Medium => [MonitorTravel(daysRemaining)]
    case Low => []
  }

  /** The recommendations that follow residency. */
  function ResidencyRecommendations(isResident: bool, daysRemaining: int, specialRules: seq<string>)
    : (rs: seq<ResidencyRecommendation>)
    ensures isResident ==> |rs| == 3
    ensures !isResident ==> |rs| == (if specialRules == [] then 1 else 2) && rs[0] == KeepTripsUnder(daysRemaining)
    ensures !isResident && specialRules != [] ==> rs[1] == Note(specialRules[0])
  {
    if isResident then [ReviewTreaties, ConsultTaxProfessional, GatherDocumentation]
    else [KeepTripsUnder(daysRemaining)] + (if specialRules != [] then [Note(specialRules[0])] else [])
  }

  /**
   * What calculateResidencyStatus returns, value by value: for the US every
   * derived value comes from the Substantial Presence Test, for any other
   * country from the plain day count.
   */
  ghost function ResidencyStatus(
    countryCode: string, countryName: string, daysSpent: int, year: int,
    priorYearDays: int, secondPriorYearDays: int): (r: ResidencyResult)
    ensures r.countryCode == countryCode && r.countryName == countryName && r.year == year
  {
    var isUs := countryCode == UsCode;
    var spt := CalculateUSSubstantialPresence(daysSpent, priorYearDays, secondPriorYearDays);
    var rule := GetCountryTaxRule(countryCode, countryName);
    var threshold := rule.residencyThreshold;
    var effectiveDays := if isUs then spt.totalDays else daysSpent;
    var isResident := if isUs then spt.meetsThreshold else effectiveDays >= threshold;
    var daysRemaining := Max(0, threshold - effectiveDays);
    var percentage := PercentageOfThreshold(effectiveDays, threshold);
    var level := RiskFromPercentage(isResident, percentage);
    ResidencyResult(
      countryCode, countryName, year, effectiveDays, threshold, isResident, daysRemaining, percentage, level,
      (if isUs then
         [WeightedTotal(spt.totalDays, spt.currentYear, spt.priorYear, spt.secondPriorYear)]
         + (if daysSpent < MinCurrentYearDays then [FewerThan31Days] else [])
       else [])
      + RiskWarnings(level, threshold, daysRemaining),
      (if isUs && !isResident && priorYearDays == 0 && secondPriorYearDays == 0 then [AddPriorYearTotals] else [])
      + ResidencyRecommendations(isResident, daysRemaining, rule.specialRules),
      rule)
  }

  /**
   * calculateResidencyStatus: classifies the days first by the plain
   * threshold test and, for the US, overrides every derived value with the
   * Substantial Presence Test; then pushes the warnings and recommendations.
   */
  method CalculateResidencyStatus(
    countryCode: string, countryName: string, daysSpent: int, year: int,
    priorYearDays: int, secondPriorYearDays: int)
    returns (result: ResidencyResult)
    ensures result == ResidencyStatus(countryCode, countryName, daysSpent, year, priorYearDays, secondPriorYearDays)
  {
    var rule := GetCountryTaxRule(countryCode, countryName);
    var threshold := rule.residencyThreshold;

    var effectiveDays := daysSpent;
    var percentageOfThreshold := PercentageOfThreshold(effectiveDays, threshold);
    var isResident := effectiveDays >= threshold;
    var daysRemaining := Max(0, threshold - effectiveDays);
    var riskLevel := RiskFromPercentage(isResident, percentageOfThreshold);

    var warnings: seq<ResidencyWarning> := [];
    var recommendations: seq<ResidencyRecommendation> := [];

    if countryCode == UsCode {
      var spt := CalculateUSSubstantialPresence(daysSpent, priorYearDays, secondPriorYearDays);
      effectiveDays := spt.totalDays;
      threshold := rule.residencyThreshold;
      isResident := spt.meetsThreshold;
      percentageOfThreshold := PercentageOfThreshold(effectiveDays, threshold);
      daysRemaining := Max(0, threshold - effectiveDays);
      riskLevel := RiskFromPercentage(isResident, percentageOfThreshold);

      warnings := warnings + [WeightedTotal(effectiveDays, spt.currentYear, spt.priorYear, spt.secondPriorYear)];
      if daysSpent < 31 {
        warnings := warnings + [FewerThan31Days];
      }
      if !isResident && priorYearDays == 0 && secondPriorYearDays == 0 {
        recommendations := recommendations + [AddPriorYearTotals];
      }
    }

    ghost var spt0 := CalculateUSSubstantialPresence(daysSpent, priorYearDays, secondPriorYearDays);
    ghost var usWarnings: seq<ResidencyWarning> := if countryCode == UsCode then
        [WeightedTotal(spt0.totalDays, spt0.currentYear, spt0.priorYear, spt0.secondPriorYear)]
        + (if daysSpent < MinCurrentYearDays then [FewerThan31Days] else [])
      else [];
    ghost var usRecommendations: seq<ResidencyRecommendation> :=
      if countryCode == UsCode && !isResident && priorYearDays == 0 && secondPriorYearDays == 0 then [AddPriorYearTotals] else [];
    assert warnings == usWarnings && recommendations == usRecommendations;

    if isResident {
      warnings := warnings + [ThresholdExceeded(threshold), ConsultProfessional];
    } else if riskLevel == High {
      warnings := warnings + [OnlyDaysRemaining(daysRemaining), LimitFurtherTime];
    } else if riskLevel == Medium {
      warnings := warnings + [MonitorTravel(daysRemaining)];
    }

    if isResident {
      recommendations := recommendations + [ReviewTreaties, ConsultTaxProfessional, GatherDocumentation];
    } else {
      recommendations := recommendations + [KeepTripsUnder(daysRemaining)];
      if |rule.specialRules| > 0 {
        recommendations := recommendations + [Note(rule.specialRules[0])];
      }
    }

    assert warnings == usWarnings + RiskWarnings(riskLevel, threshold, daysRemaining);
    assert recommendations == usRecommendations + ResidencyRecommendations(isResident, daysRemaining, rule.specialRules);
    result := ResidencyResult(countryCode, countryName, year, effectiveDays, threshold, isResident,
                              daysRemaining, percentageOfThreshold, riskLevel, warnings, recommendations, rule);
  }

  /**
   * The decision: for the US, residency is the Substantial Presence Test on
   * the weighted total; elsewhere, the day count reaching the country's
   * threshold. The risk level is "resident" exactly for residents, and the
   * days remaining close the gap to the threshold.
   */
  lemma ResidencyDecision(
    countryCode: string, countryName: string, daysSpent: int, year: int,
    priorYearDays: int, secondPriorYearDays: int)
    ensures var r := ResidencyStatus(countryCode, countryName, daysSpent, year, priorYearDays, secondPriorYearDays);
      && r.taxRule == GetCountryTaxRule(countryCode, countryName)
      && r.threshold == r.taxRule.residencyThreshold
      && (r.riskLevel == Resident <==> r.isResident)
      && (countryCode != UsCode ==> r.daysSpent == daysSpent && (r.isResident <==> daysSpent >= r.threshold))
      && (countryCode == UsCode ==>
            r.daysSpent == CalculateUSSubstantialPresence(daysSpent, priorYearDays, secondPriorYearDays).totalDays
            && (r.isResident <==> daysSpent >= MinCurrentYearDays && r.daysSpent >= SubstantialPresenceDays))
      && r.daysRemaining >= 0 && r.daysSpent + r.daysRemaining >= r.threshold
      && (r.daysRemaining > 0 ==> r.daysSpent + r.daysRemaining == r.threshold)
      && r.percentageOfThreshold == PercentageOfThreshold(r.daysSpent, r.threshold)
      && r.riskLevel == RiskFromPercentage(r.isResident, r.percentageOfThreshold)
  {
  }

  /**
   * For non-negative inputs the percentage lies in [0, 100], and the number
   * of warnings and recommendations follows the risk level. For the US the
   * first warning reports the weighted total and its three parts, and the
   * advice to add prior-year totals appears, first, exactly for a US
   * non-resident whose two prior years are both zero.
   */
  lemma ResidencyStatusShape(
    countryCode: string, countryName: string, daysSpent: int, year: int,
    priorYearDays: int, secondPriorYearDays: int)
    requires daysSpent >= 0 && priorYearDays >= 0 && secondPriorYearDays >= 0
    ensures var r := ResidencyStatus(countryCode, countryName, daysSpent, year, priorYearDays, secondPriorYearDays);
      && 0 <= r.percentageOfThreshold <= 100
      && |r.warnings| ==
           (if countryCode == UsCode then 1 + (if daysSpent < MinCurrentYearDays then 1 else 0) else 0)
           + (match r.riskLevel case Resident => 2 case High => 2 case Medium => 1 case Low => 0)
      && (r.isResident ==> |r.recommendations| == 3)
      && (!r.isResident ==>
           |r.recommendations| == 2 + (if countryCode == UsCode && priorYearDays == 0 && secondPriorYearDays == 0 then 1 else 0)
           && r.recommendations[|r.recommendations| - 1] == Note(r.taxRule.specialRules[0]))
      && ((FewerThan31Days in r.warnings) <==> countryCode == UsCode && daysSpent < MinCurrentYearDays)
      && (countryCode == UsCode ==>
            r.warnings[0] == WeightedTotal(daysSpent + priorYearDays / 3 + secondPriorYearDays / 6,
                                           daysSpent, priorYearDays / 3, secondPriorYearDays / 6))
      && (countryCode != UsCode ==> r.warnings == RiskWarnings(r.riskLevel, r.threshold, r.daysRemaining))
      && ((AddPriorYearTotals in r.recommendations) <==>
            countryCode == UsCode && !r.isResident && priorYearDays == 0 && secondPriorYearDays == 0)
      && (AddPriorYearTotals in r.recommendations ==> r.recommendations[0] == AddPriorYearTotals)
  {
    var r := ResidencyStatus(countryCode, countryName, daysSpent, year, priorYearDays, secondPriorYearDays);
    PercentageRange(r.daysSpent, r.threshold);
    var ws := RiskWarnings(r.riskLevel, r.threshold, r.daysRemaining);
    assert FewerThan31Days !in ws;
    var rs := ResidencyRecommendations(r.isResident, r.daysRemaining, r.taxRule.specialRules);
    assert AddPriorYearTotals !in rs;
  }

  /**
   * With fewer than 31 current-year days the US test is not met however
   * large the weighted total: at 183 or more the result is high risk with no
   * days remaining, and the warnings say why.
   */
  lemma UsGateOverridesWeightedTotal(
    countryName: string, daysSpent: int, year: int, priorYearDays: int, secondPriorYearDays: int)
    requires daysSpent < MinCurrentYearDays
    requires CalculateUSSubstantialPresence(daysSpent, priorYearDays, secondPriorYearDays).totalDays
             >= SubstantialPresenceDays
    ensures var r := ResidencyStatus(UsCode, countryName, daysSpent, year, priorYearDays, secondPriorYearDays);
      && !r.isResident && r.riskLevel == High && r.daysRemaining == 0
      && r.percentageOfThreshold == 100
      && r.warnings[1] == FewerThan31Days
  {
    var r := ResidencyStatus(UsCode, countryName, daysSpent, year, priorYearDays, secondPriorYearDays);
    assert r.threshold == 183;
    PercentageRange(r.daysSpent, r.threshold);
  }

  /**
   * More days never lower the risk level (same country, same prior years):
   * low, medium, high, resident in that order.
   */
  lemma RiskMonotone(
    countryCode: string, countryName: string, d1: int, d2: int,
    year: int, priorYearDays: int, secondPriorYearDays: int)
    requires d1 <= d2
    ensures Severity(ResidencyStatus(countryCode, countryName, d1, year, priorYearDays, secondPriorYearDays).riskLevel)
         <= Severity(ResidencyStatus(countryCode, countryName, d2, year, priorYearDays, secondPriorYearDays).riskLevel)
  {
    var r1 := ResidencyStatus(countryCode, countryName, d1, year, priorYearDays, secondPriorYearDays);
    var r2 := ResidencyStatus(countryCode, countryName, d2, year, priorYearDays, secondPriorYearDays);
    assert r1.threshold == r2.threshold;
    assert r1.daysSpent <= r2.daysSpent;
    PercentageMonotone(r1.daysSpent, r2.daysSpent, r1.threshold);
  }

  /** riskOrder: resident 0, high 1, medium 2, low 3. */
  function RiskOrder(level: RiskLevel): (n: int)
    ensures n == 3 - Severity(level)
  {
    match level
    case Resident => 0
    case High => 1
    case Medium => 2
    case Low => 3
  }

  function ResultRank(r: ResidencyResult): int { RiskOrder(r.riskLevel) }

  function ResultCode(r: ResidencyResult): string { r.countryCode }

  /** Days per country of one year, in order of first appearance (the source's Map). */
  datatype CountryDays = CountryDays(code: string, name: string, days: int)

  ghost predicate GroupedAs(entries: seq<CountryDays>, ts: seq<Trip>) {
    var codes := Trips.CodesInOrder(ts);
    && |entries| == |codes|
    && forall k :: 0 <= k < |entries| ==>
         entries[k] == CountryDays(codes[k], Trips.NameFor(ts, codes[k]), Trips.DaysFor(ts, codes[k]))
  }

  /** Position of the entry for `code`, or |entries| when there is none. */
  function IndexOfCode(entries: seq<CountryDays>, code: string): (k: nat)
    ensures k <= |entries|
    ensures k < |entries| ==> entries[k].code == code
    ensures k == |entries| ==> forall j :: 0 <= j < |entries| ==> entries[j].code != code
  {
    if entries == [] then 0
    else if entries[0].code == code then 0
    else 1 + IndexOfCode(entries[1..], code)
  }

  /**
   * The grouping step of calculateMultipleResidencies: one entry per country
   * code in order of first appearance, with the name of its first trip and
   * the sum of the days of its trips.
   */
  method GroupByCountry(inYear: seq<Trip>) returns (entries: seq<CountryDays>)
    ensures GroupedAs(entries, inYear)
  {
    entries := [];
    var i := 0;
    while i < |inYear|
      invariant 0 <= i <= |inYear|
      invariant GroupedAs(entries, inYear[..i])
    {
      var trip := inYear[i];
      var k := IndexOfCode(entries, trip.countryCode);
      ghost var before := inYear[..i];
      assert inYear[..i + 1] == before + [trip];
      if k < |entries| {
        GroupExisting(entries, before, trip, k);
        entries := entries[k := entries[k].(days := entries[k].days + trip.days)];
      } else {
        GroupNew(entries, before, trip);
        entries := entries + [CountryDays(trip.countryCode, trip.countryName, trip.days)];
      }
      i := i + 1;
    }
    assert inYear[..|inYear|] == inYear;
  }

  /** The evaluation step: calculateResidencyStatus on each entry, in order, with no prior-year days. */
  method EvaluateCountries(entries: seq<CountryDays>, year: int) returns (unsorted: seq<ResidencyResult>)
    ensures |unsorted| == |entries|
    ensures forall k :: 0 <= k < |entries| ==>
      unsorted[k] == ResidencyStatus(entries[k].code, entries[k].name, entries[k].days, year, 0, 0)
  {
    unsorted := [];
    var j := 0;
    while j < |entries|
      invariant 0 <= j <= |entries|
      invariant |unsorted| == j
      invariant forall k :: 0 <= k < j ==>
        unsorted[k] == ResidencyStatus(entries[k].code, entries[k].name, entries[k].days, year, 0, 0)
    {
      var r := CalculateResidencyStatus(entries[j].code, entries[j].name, entries[j].days, year, 0, 0);
      unsorted := unsorted + [r];
      j := j + 1;
    }
  }

  /**
   * calculateMultipleResidencies: the trips starting in `year` are summed
   * per country code; each country is evaluated with its total (and no
   * prior-year days); the results are ordered resident, high, medium, low.
   */
  method CalculateMultipleResidencies(trips: seq<Trip>, year: int) returns (results: seq<ResidencyResult>)
    ensures var inYear := Trips.StartYearTrips(trips, year);
      |results| == |Trips.CodesInOrder(inYear)|
    ensures Sorting.SortedBy(results, ResultRank)
    ensures Sorting.DistinctBy(results, ResultCode)
    ensures var inYear := Trips.StartYearTrips(trips, year);
      forall r :: r in results ==>
        r.countryCode in Trips.CodesInOrder(inYear)
        && r == ResidencyStatus(r.countryCode, Trips.NameFor(inYear, r.countryCode),
                                Trips.DaysFor(inYear, r.countryCode), year, 0, 0)
    ensures var inYear := Trips.StartYearTrips(trips, year);
      forall c :: c in Trips.CodesInOrder(inYear) ==> exists r :: r in results && r.countryCode == c
  {
    var inYear := Trips.StartYearTrips(trips, year);
    var entries := GroupByCountry(inYear);
    var unsorted := EvaluateCountries(entries, year);
    EvaluatedFacts(inYear, entries, unsorted, year);
    results := Sorting.SortBy(unsorted, ResultRank);
    Sorting.SortKeepsDistinct(unsorted, ResultRank, ResultCode);
    Sorting.SortMembers(unsorted, ResultRank);
  }

  /** One step of the grouping loop for a code already present: its total grows by the trip's days. */
  lemma GroupExisting(entries: seq<CountryDays>, ts: seq<Trip>, t: Trip, k: nat)
    requires GroupedAs(entries, ts)
    requires k < |entries| && entries[k].code == t.countryCode
    ensures GroupedAs(entries[k := entries[k].(days := entries[k].days + t.days)], ts + [t])
  {
    var codes := Trips.CodesInOrder(ts);
    var next := entries[k := entries[k].(days := entries[k].days + t.days)];
    Trips.CodesInOrderFacts(ts);
    Trips.AppendTrip(ts, t, t.countryCode);
    assert codes[k] == t.countryCode;
    assert Trips.CodesInOrder(ts + [t]) == codes;
    forall j | 0 <= j < |next|
      ensures next[j] == CountryDays(codes[j], Trips.NameFor(ts + [t], codes[j]), Trips.DaysFor(ts + [t], codes[j]))
    {
      Trips.AppendTrip(ts, t, codes[j]);
      Trips.AppendTripName(ts, t, codes[j]);
      assert Trips.TripsWith(ts, codes[j]) != [];
      assert j != k ==> codes[j] != t.countryCode;
    }
  }

  /** One step of the grouping loop for a new code: an entry is appended for it. */
  lemma GroupNew(entries: seq<CountryDays>, ts: seq<Trip>, t: Trip)
    requires GroupedAs(entries, ts)
    requires forall j :: 0 <= j < |entries| ==> entries[j].code != t.countryCode
    ensures GroupedAs(entries + [CountryDays(t.countryCode, t.countryName, t.days)], ts + [t])
  {
    var codes := Trips.CodesInOrder(ts);
    var next := entries + [CountryDays(t.countryCode, t.countryName, t.days)];
    Trips.CodesInOrderFacts(ts);
    Trips.AppendTrip(ts, t, t.countryCode);
    assert t.countryCode !in codes;
    var codes' := codes + [t.countryCode];
    assert Trips.CodesInOrder(ts + [t]) == codes';
    forall j | 0 <= j < |next|
      ensures next[j] == CountryDays(codes'[j], Trips.NameFor(ts + [t], codes'[j]), Trips.DaysFor(ts + [t], codes'[j]))
    {
      Trips.AppendTrip(ts, t, codes'[j]);
      Trips.AppendTripName(ts, t, codes'[j]);
      if j < |codes| {
        assert codes'[j] == codes[j] != t.countryCode;
        assert Trips.TripsWith(ts, codes[j]) != [];
      } else {
        assert Trips.TripsWith(ts, t.countryCode) == [];
      }
    }
  }

  /** The evaluated entries describe each country of the year once. */
  lemma EvaluatedFacts(inYear: seq<Trip>, entries: seq<CountryDays>, unsorted: seq<ResidencyResult>, year: int)
    requires GroupedAs(entries, inYear)
    requires |unsorted| == |entries|
    requires forall k :: 0 <= k < |entries| ==>
      unsorted[k] == ResidencyStatus(entries[k].code, entries[k].name, entries[k].days, year, 0, 0)
    ensures Sorting.DistinctBy(unsorted, ResultCode)
    ensures forall r :: r in unsorted ==>
      r.countryCode in Trips.CodesInOrder(inYear)
      && r == ResidencyStatus(r.countryCode, Trips.NameFor(inYear, r.countryCode),
                              Trips.DaysFor(inYear, r.countryCode), year, 0, 0)
    ensures forall c :: c in Trips.CodesInOrder(inYear) ==> exists r :: r in unsorted && r.countryCode == c
  {
    var codes := Trips.CodesInOrder(inYear);
    Trips.CodesInOrderFacts(inYear);
    forall i, j | 0 <= i < j < |unsorted| ensures ResultCode(unsorted[i]) != ResultCode(unsorted[j]) {
      assert unsorted[i].countryCode == codes[i] && unsorted[j].countryCode == codes[j];
    }
    forall r | r in unsorted
      ensures r.countryCode in codes
      ensures r == ResidencyStatus(r.countryCode, Trips.NameFor(inYear, r.countryCode),
                                   Trips.DaysFor(inYear, r.countryCode), year, 0, 0)
    {
      var k :| 0 <= k < |unsorted| && unsorted[k] == r;
      assert entries[k].code == codes[k];
    }
    forall c | c in codes ensures exists r :: r in unsorted && r.countryCode == c {
      var k :| 0 <= k < |codes| && codes[k] == c;
      assert unsorted[k] in unsorted;
    }
  }
}
