/**
 * The display helpers of src/lib/form-utils.ts: the threshold of a country,
 * a second risk classifier that works on the unrounded ratio of days to
 * threshold, the badge, label and progress-bar class of each risk level,
 * and the year options of the year drop-down.
 */
module FormUtils {
  import opened Types
  import opened Utils
  import TaxResidency

  /** Number of years the year drop-down offers when no count is given. */
  const DefaultYearsBack := 5

  /** getThresholdForCountry: Thailand 180 days, every other code the default 183. */
  function GetThresholdForCountry(countryCode: string): (n: int)
    ensures n == 180 || n == TaxResidency.DefaultResidencyDays
  {
    if countryCode == "TH" then 180 else TaxResidency.DefaultResidencyDays
  }

  /** The form threshold is the residency threshold the tax rule registry gives, for every code. */
  lemma ThresholdAgreesWithRegistry(countryCode: string, countryName: string)
    ensures GetThresholdForCountry(countryCode)
         == TaxResidency.GetCountryTaxRule(countryCode, countryName).residencyThreshold
  {
  }

  /**
   * `(days / threshold) * 100 >= p` on JavaScript numbers, without rounding
   * error: for a positive threshold it is 100 * days >= p * threshold; a
   * negative threshold flips the comparison; a zero threshold gives
   * Infinity for positive days, NaN for zero days and -Infinity for
   * negative days, and only Infinity compares as at least p.
   */
  predicate PercentAtLeast(days: int, threshold: int, p: int) {
    if threshold > 0 then 100 * days >= p * threshold
    else if threshold < 0 then 100 * days <= p * threshold
    else days > 0
  }

  /** getRiskLevel: resident from the threshold, then high from 90 percent and medium from 70 percent, unrounded. */
  function GetRiskLevel(days: int, threshold: int): (level: RiskLevel)
    ensures level == Resident <==> days >= threshold
  {
    if days >= threshold then Resident
    else if PercentAtLeast(days, threshold, 90) then High
    else if PercentAtLeast(days, threshold, 70) then Medium
    else Low
  }

  /**
   * For a positive threshold below the threshold: high exactly from 90
   * percent of it, medium from 70 percent, low under 70 percent.
   */
  lemma RiskLevelBands(days: int, threshold: int)
    requires threshold > 0 && days < threshold
    ensures GetRiskLevel(days, threshold) == High <==> 100 * days >= 90 * threshold
    ensures GetRiskLevel(days, threshold) == Medium <==> 70 * threshold <= 100 * days < 90 * threshold
    ensures GetRiskLevel(days, threshold) == Low <==> 100 * days < 70 * threshold
  {
  }

  /** More days never lower the level (for a positive threshold). */
  lemma RiskLevelMonotone(d1: int, d2: int, threshold: int)
    requires threshold > 0 && d1 <= d2
    ensures Severity(GetRiskLevel(d1, threshold)) <= Severity(GetRiskLevel(d2, threshold))
  {
    MulMono(100, d1, d2);
  }

  /**
   * A zero threshold makes every non-negative day count resident; a negative
   * one makes every day count below it high.
   */
  lemma RiskLevelDegenerateThreshold(days: int, threshold: int)
    ensures threshold == 0 ==> (GetRiskLevel(days, threshold) == Resident <==> days >= 0)
    ensures threshold == 0 && days < 0 ==> GetRiskLevel(days, threshold) == Low
    ensures threshold < 0 && days < threshold ==> GetRiskLevel(days, threshold) == High
  {
  }

  /**
   * The residency calculation rounds the percentage before classifying, so
   * for a country other than the US it never reports a lower level than
   * this classifier does with the same threshold.
   */
  lemma RoundedRiskNeverLower(countryCode: string, countryName: string, days: int, year: int)
    requires countryCode != TaxResidency.UsCode && days >= 0
    ensures Severity(GetRiskLevel(days, GetThresholdForCountry(countryCode)))
         <= Severity(TaxResidency.ResidencyStatus(countryCode, countryName, days, year, 0, 0).riskLevel)
  {
    var t := GetThresholdForCountry(countryCode);
    var r := TaxResidency.ResidencyStatus(countryCode, countryName, days, year, 0, 0);
    assert r.riskLevel == TaxResidency.RiskFromPercentage(days >= t, TaxResidency.PercentageOfThreshold(days, t));
    if days < t {
      if 100 * days >= 90 * t {
        RoundDivAtLeast(100 * days, t, 90);
      } else if 100 * days >= 70 * t {
        RoundDivAtLeast(100 * days, t, 70);
      }
    }
  }

  /**
   * The two classifiers disagree: 164 days of a 183-day threshold are
   * 89.6 percent, medium here, but round to 90 percent, high in the
   * residency calculation.
   */
  lemma RiskClassifiersDisagree(countryName: string, year: int)
    ensures GetRiskLevel(164, GetThresholdForCountry("FR")) == Medium
    ensures TaxResidency.ResidencyStatus("FR", countryName, 164, year, 0, 0).riskLevel == High
  {
    var r := TaxResidency.ResidencyStatus("FR", countryName, 164, year, 0, 0);
    assert r.threshold == 183;
    assert RoundDiv(16400, 183) == 90;
  }

  datatype BadgeVariant = Destructive | Warning | Secondary | Success

  /** getRiskBadgeVariant */
  function GetRiskBadgeVariant(level: RiskLevel): (v: BadgeVariant)
    ensures v == Destructive <==> level == Resident
    ensures v == Warning <==> level == High
    ensures v == Secondary <==> level == Medium
    ensures v == Success <==> level == Low
  {
    match level
    case Resident => Destructive
    case High => Warning
    case Medium => Secondary
    case Low => Success
  }

  /** getRiskLabel */
  function GetRiskLabel(level: RiskLevel): (s: string)
    ensures s == "Tax Resident" <==> level == Resident
    ensures s == "High Risk" <==> level == High
    ensures s == "Medium Risk" <==> level == Medium
    ensures s == "Low Risk" <==> level == Low
  {
    match level
    case Resident => "Tax Resident"
    case High => "High Risk"
    case Medium => "Medium Risk"
    case Low => "Low Risk"
  }

  /** getRiskProgressClass: the progress bar's colour class. */
  function GetRiskProgressClass(level: RiskLevel): (s: string)
    ensures s == "[&>div]:bg-destructive" <==> level == Resident
    ensures s == "[&>div]:bg-warning" <==> level == High
    ensures s == "[&>div]:bg-primary" <==> level == Medium
    ensures s == "[&>div]:bg-success" <==> level == Low
  {
    match level
    case Resident => "[&>div]:bg-destructive"
    case High => "[&>div]:bg-warning"
    case Medium => "[&>div]:bg-primary"
    case Low => "[&>div]:bg-success"
  }

  /** Each level has its own badge, label and colour: no two levels look alike. */
  lemma RiskDisplayInjective(a: RiskLevel, b: RiskLevel)
    ensures GetRiskBadgeVariant(a) == GetRiskBadgeVariant(b) ==> a == b
    ensures GetRiskLabel(a) == GetRiskLabel(b) ==> a == b
    ensures GetRiskProgressClass(a) == GetRiskProgressClass(b) ==> a == b
  {
  }

  function DigitChar(d: nat): (c: char)
    requires d < 10
    ensures '0' <= c <= '9'
  {
    (48 + d) as char
  }

  function DigitValue(c: char): (d: nat)
    requires '0' <= c <= '9'
    ensures d < 10
  {
    (c as int - 48) as nat
  }

  /** The decimal digits of n, without leading zeros. */
  function NatToString(n: nat): (s: string)
    ensures |s| > 0 && forall i :: 0 <= i < |s| ==> '0' <= s[i] <= '9'
  {
    if n < 10 then [DigitChar(n)] else NatToString(n / 10) + [DigitChar(n % 10)]
  }

  /** `String(n)` for an integer n: its decimal digits, after a minus sign when negative. */
  function IntToString(n: int): (s: string)
    ensures |s| > 0
  {
    if n < 0 then "-" + NatToString(-n) else NatToString(n)
  }

  predicate AllDigits(s: string) {
    forall i :: 0 <= i < |s| ==> '0' <= s[i] <= '9'
  }

  /** The value of a string of decimal digits. */
  function ParseNat(s: string): nat
    requires AllDigits(s)
  {
    if s == [] then 0 else 10 * ParseNat(s[..|s| - 1]) + DigitValue(s[|s| - 1])
  }

  /** Reads an optional minus sign followed by decimal digits. */
  function ParseInt(s: string): Option<int> {
    if |s| > 0 && s[0] == '-' && AllDigits(s[1..]) then
      var magnitude: int := ParseNat(s[1..]);
      Some(-magnitude)
    else if AllDigits(s) then Some(ParseNat(s))
    else None
  }

  lemma {:induction false} NatToStringRoundTrip(n: nat)
    ensures ParseNat(NatToString(n)) == n
  {
    if n >= 10 {
      var s := NatToString(n);
      assert s[..|s| - 1] == NatToString(n / 10);
      NatToStringRoundTrip(n / 10);
    }
  }

  /** Reading back the decimal form of an integer gives that integer. */
  lemma IntToStringRoundTrip(n: int)
    ensures ParseInt(IntToString(n)) == Some(n)
  {
    var s := IntToString(n);
    if n < 0 {
      var digits := NatToString(-n);
      assert s == "-" + digits;
      assert s[0] == '-' && s[1..] == digits;
      assert AllDigits(digits);
      NatToStringRoundTrip(-n);
      var magnitude: int := ParseNat(digits);
      assert ParseInt(s) == Some(-magnitude);
    } else {
      assert s == NatToString(n);
      assert AllDigits(s);
      assert s[0] != '-';
      NatToStringRoundTrip(n);
      assert ParseInt(s) == Some(ParseNat(s));
    }
  }

  /** Different integers have different decimal forms. */
  lemma IntToStringInjective(a: int, b: int)
    requires IntToString(a) == IntToString(b)
    ensures a == b
  {
    IntToStringRoundTrip(a);
    IntToStringRoundTrip(b);
  }

  /**
   * getYearOptions: `yearsBack` options (none when it is not positive), the
   * i-th with value and text the decimal form of currentYear - i.
   * `currentYear` stands for CURRENT_YEAR, which the source reads from the clock.
   */
  function GetYearOptions(yearsBack: int, currentYear: int): (r: seq<SelectOption>)
    ensures |r| == Max(0, yearsBack)
    ensures forall i :: 0 <= i < |r| ==> r[i].value == r[i].text
  {
    seq(Max(0, yearsBack), i => SelectOption(IntToString(currentYear - i), IntToString(currentYear - i)))
  }

  /** The options read back as currentYear, currentYear - 1, ...: strictly descending, so all different. */
  lemma YearOptionsDescending(yearsBack: int, currentYear: int)
    ensures var r := GetYearOptions(yearsBack, currentYear);
      && (forall i :: 0 <= i < |r| ==> ParseInt(r[i].value) == Some(currentYear - i))
      && (forall i, j :: 0 <= i < j < |r| ==>
            ParseInt(r[i].value).value > ParseInt(r[j].value).value && r[i].value != r[j].value)
  {
    var r := GetYearOptions(yearsBack, currentYear);
    forall i | 0 <= i < |r| ensures ParseInt(r[i].value) == Some(currentYear - i) {
      IntToStringRoundTrip(currentYear - i);
    }
  }

  /** With no argument the drop-down offers the current year and the four before it. */
  lemma DefaultYearOptions(currentYear: int)
    ensures var r := GetYearOptions(DefaultYearsBack, currentYear);
      |r| == 5 && r[0].value == IntToString(currentYear) && r[4].value == IntToString(currentYear - 4)
  {
  }
}
