/**
 * The records shared by the calculators and the day tracker
 * (src/types/index.ts), with dates as day numbers (see Calendar).
 */
module Types {

  datatype Option<T> = None | Some(value: T)

  datatype Purpose = Work | Leisure | Transit

  /** One stay in a country. `days` is derived from the two dates. */
  datatype Trip = Trip(
    id: nat,
    countryCode: string,
    countryName: string,
    startDate: int,
    endDate: int,
    days: int,
    purpose: Purpose,
    notes: Option<string>)

  /** Per-country aggregate of trips, recomputed on every query. */
  datatype CountrySummary = CountrySummary(
    countryCode: string,
    countryName: string,
    totalDays: int,
    trips: seq<Trip>,
    firstVisit: int,
    lastVisit: int)

  datatype TestType = PhysicalPresence | SubstantialPresence | StatutoryResidence | FactsCircumstances

  datatype CountryTaxRule = CountryTaxRule(
    countryCode: string,
    countryName: string,
    residencyThreshold: int,
    testType: TestType,
    description: string,
    specialRules: seq<string>)

  datatype RiskLevel = Low | Medium | High | Resident

  /** Severity on the scale low < medium < high < resident. */
  function Severity(level: RiskLevel): (n: nat)
    ensures n <= 3
    ensures level == Resident <==> n == 3
  {
    match level
    case Low => 0
    case Medium => 1
    case High => 2
    case Resident => 3
  }

  /** An entry of a drop-down list (`text` is the source's `label`, a reserved word here). */
  datatype SelectOption = SelectOption(value: string, text: string)
}
