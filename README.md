# NomadTaxPlanner calculation core in Dafny

This project models the calculation core of NomadTaxPlanner, a planner for
people who live in several countries and need to watch tax-residency
thresholds. The model covers five parts:

- **Residency evaluator** (`src/lib/calculations/tax-residency.ts`):
  - the registry of country tax rules and its 183-day default;
  - the per-country residency status, with the US Substantial Presence Test
    (current days plus a third of the prior year's days plus a sixth of the
    second prior year's days, and at least 31 current-year days);
  - the percentage of the threshold, the risk level, and the warnings and
    recommendations;
  - the multi-country evaluation of one year's trips.
- **FEIE evaluator** (`src/lib/calculations/feie.ts`):
  - the Foreign Earned Income Exclusion under the Physical Presence Test,
    which needs 330 days abroad within a period of at least 365 days;
  - the yearly maximum exclusion, pro-rated by the days of the test period
    that fall in the tax year;
  - the excludable and taxable amounts;
  - the calendar-year test period suggested from a list of trips.
- **Trip ledger** (`src/store/day-tracker-store.ts`):
  - a store whose trip list every action replaces (add, update, remove,
    clear), kept in start-date order;
  - per-country summaries sorted by total days;
  - the total for one country;
  - the trips of a year.
- **Date and number helpers** (`src/lib/utils.ts`): the inclusive day count,
  the rounded percentage and clamp.
- **Display helpers** (`src/lib/form-utils.ts`):
  - the threshold of a country;
  - a second, unrounded risk classifier;
  - the badge, label and colour class of each risk level;
  - the options of the year drop-down.

A calendar date is an integer day number. Day 0 is 1 January of year 0 in the
proleptic Gregorian calendar (module `Calendar`). `YearOf` plays the part of
`getFullYear`.

`Math.round(p / q)` is `RoundDiv`, the exact nearest integer with halves
rounded up. JavaScript's stable `Array.prototype.sort` with a numeric
comparator is `Sorting.SortBy`, an insertion sort on an integer key.

Code that changes variables step by step is written as methods (with loops
where the source loops):
- `calculateResidencyStatus`, `calculateMultipleResidencies`, `calculateFEIE`
  and `findOptimalTestPeriod`;
- the grouping loop of `getCountrySummaries`;
- the store's actions, as methods of the class `DayTracker.DayTrackerStore`.

Each such method is proved equal to a specification function. The
properties are then proved about that function.

The source gives warnings, recommendations and explanation lines as English
sentences. Here they are datatype values that carry the numbers the
sentences print.

Some behaviours of the code that the model keeps:

- **Trips in a year.** Both `getCountrySummaries(year)` and
  `getTripsForYear(year)` choose the trips whose START date is in the year,
  and count every day of each trip there
  (src/store/day-tracker-store.ts:81-86, 130-136). Trips are not clipped at
  31 December, and a trip that starts the year before is not included.
  `DayTracker.CrossYearTrip` proves what follows: a trip from 20 December to
  10 January counts all 22 days in the first year and none in the second.
- **Reversed dates.** `calculateDaysBetween` takes the absolute difference,
  so a reversed range counts like the ordered one and is not an error
  (src/lib/utils.ts:19).
- **First and last visit.** `firstVisit` and `lastVisit` of a summary are
  the unclipped bounds of the country's trips.

## Model

| member | source | states |
|---|---|---|
| Calendar.YearOfIs | src/store/day-tracker-store.ts:83 | the year of a date is the one year whose 1 January .. 31 December contains it |
| Calendar.YearOf | src/store/day-tracker-store.ts:83 | `getFullYear()` of a day number: a year whose 1 January .. 31 December contains the day |
| Calendar.YearLength | src/lib/calculations/feie.ts:150-151 | a year runs from 1 January to 31 December and has 365 days, or 366 in a leap year |
| Calendar.JanFirstYear | src/lib/calculations/feie.ts:150-151 | 1 January and 31 December of a year belong to that year |
| Utils.DaysBetween | src/lib/utils.ts:14-21 | the inclusive count of days is at least 1: end - start + 1 for ordered dates, start - end + 1 for reversed ones |
| Utils.DaysBetweenSame | src/lib/utils.ts:14-21 | a one-day range counts 1 |
| Utils.DaysBetweenSymmetric | src/lib/utils.ts:19 | swapping the dates does not change the count |
| Utils.RoundDiv | src/lib/calculations/tax-residency.ts:147 | Math.round(p / q): r is within half of p / q, halves rounded up |
| Utils.RoundDivUnique | src/lib/calculations/tax-residency.ts:147 | only one integer satisfies that window, so the rounding is determined |
| Utils.RoundDivMono | src/lib/calculations/tax-residency.ts:147 | rounding preserves order |
| Utils.RoundDivExact | src/lib/calculations/feie.ts:52 | an exact multiple rounds to its quotient |
| Utils.CalculatePercentage | src/lib/utils.ts:54-57 | 0 for a zero total; otherwise the nearest integer to 100 * value / total, for either sign of total |
| Utils.PercentageBounds | src/lib/utils.ts:54-57 | a part of a positive total gives a percentage from 0 to 100 |
| Utils.Clamp | src/lib/utils.ts:62-64 | the result lies in [lo, hi] when lo <= hi, is the value when that is already inside, and is hi when lo > hi |
| Sorting.SortBy | src/lib/calculations/tax-residency.ts:263-264 | the sorted copy is a permutation of the input (same length, same multiset), ascending by the key |
| Sorting.SortMembers | src/store/day-tracker-store.ts:41-43 | sorting keeps exactly the elements it was given |
| Sorting.SortKeepsDistinct | src/lib/calculations/tax-residency.ts:263-264 | values that were unique across the input stay unique after sorting |
| Sorting.SortSum | src/store/day-tracker-store.ts:119-121 | sorting does not change the sum of a measure over the elements |
| Sorting.SortStable | src/store/day-tracker-store.ts:41-43 | sorting is stable: for every key, the elements with that key leave in the order they came in |
| Trips.StartYearTripsMembers | src/store/day-tracker-store.ts:81-86 | a trip is selected for a year exactly when it is in the list and starts in that year |
| Trips.StartYearTripsAppend | src/lib/calculations/tax-residency.ts:242-243 | selecting by start year distributes over concatenation, so it keeps the trips' order |
| Trips.TripsWithMembers | src/store/day-tracker-store.ts:88-117 | a country's trips are exactly the trips with its code |
| Trips.CodesInOrderFacts | src/store/day-tracker-store.ts:88-117 | the grouped codes are distinct, and a code appears exactly when some trip has it |
| Trips.EarliestStart | src/store/day-tracker-store.ts:101-103 | the first visit is no later than every trip's start and is some trip's start |
| Trips.LatestEnd | src/store/day-tracker-store.ts:104-106 | the last visit is no earlier than every trip's end and is some trip's end |
| Trips.Summaries | src/store/day-tracker-store.ts:88-119 | one summary per country code with trips |
| Trips.SummaryForFacts | src/store/day-tracker-store.ts:88-117 | a country's summary carries its code and exactly its trips, sums their days, and has first and last visit as tight bounds on them |
| Trips.SummariesIndex | src/store/day-tracker-store.ts:88-119 | the j-th summary is the summary of the j-th country code in order of first appearance |
| Trips.AppendTrip | src/store/day-tracker-store.ts:90-117 | one more trip adds its code at the end if new, joins its country's trips, and adds its days to that country only |
| Trips.AppendTripName | src/lib/calculations/tax-residency.ts:245-253 | a country's name is that of its first trip; a later trip never changes it |
| Trips.AppendToCountryTrips | src/store/day-tracker-store.ts:94-106 | one more trip of a country adds its days, moves the first visit earlier and the last visit later when it lies outside them |
| Trips.AppendTripSummary | src/store/day-tracker-store.ts:93-106 | the summary of the trip's country after the trip is the in-place update of the summary before |
| Trips.AppendOtherTripSummary | src/store/day-tracker-store.ts:90-117 | a trip leaves the summaries of other countries unchanged |
| Trips.AppendNewCountrySummary | src/store/day-tracker-store.ts:107-116 | the first trip of a country makes a summary of that one trip |
| Trips.SummariesAppendExisting | src/store/day-tracker-store.ts:93-106 | for a country already present, the summaries after one more trip are those before with that country's entry updated in place |
| Trips.SummariesAppendNew | src/store/day-tracker-store.ts:107-116 | for a new country, the summaries after one more trip are those before plus a one-trip summary at the end |
| Trips.DaysOverCodesAppendTrip | src/store/day-tracker-store.ts:90-117 | over distinct codes, one more trip adds its days once when its code is among them and not at all otherwise |
| Trips.CountryTotalsPartition | src/store/day-tracker-store.ts:88-117 | the country totals partition the days: their sum is the sum of all trips' days |
| Trips.SummariesTotalOver | src/store/day-tracker-store.ts:88-117 | the summaries of any list of codes with trips total the days of those codes |
| Trips.SummariesTotal | src/store/day-tracker-store.ts:88-119 | the totals of all summaries add up to the days of all trips |
| TaxResidency.RegistryFacts | src/lib/calculations/tax-residency.ts:5-110 | the registry has the eight codes US, GB, DE, PT, TH, ES, NL and SG, each under its own code with four special rules; Thailand's threshold is 180 days and the others' 183 |
| TaxResidency.GetCountryTaxRule | src/lib/calculations/tax-residency.ts:113-132 | a known code gives its registry entry; any other code gives the 183-day physical-presence default with the code and name given; Thailand gives 180 and every other code 183 |
| TaxResidency.CalculateUSSubstantialPresence | src/lib/calculations/tax-residency.ts:268-295 | the weighted total is all current days plus the floor of a third of the prior year's and a sixth of the year before's; it is met exactly with at least 31 current days and a total of at least 183 |
| TaxResidency.SubstantialPresenceExamples | src/lib/calculations/tax-residency.ts:281-288 | 183 current days meet the test; 20 current days fail it even when the weighted total reaches 320 |
| TaxResidency.PercentageOfThreshold | src/lib/calculations/tax-residency.ts:147 | at most 100, and below 100 the rounded value of 100 * days / threshold |
| TaxResidency.PercentageRange | src/lib/calculations/tax-residency.ts:147 | non-negative days give 0 to 100; the cap of 100 is reached exactly when days / threshold rounds to at least 100 percent |
| TaxResidency.PercentageMonotone | src/lib/calculations/tax-residency.ts:147 | more days never give a smaller percentage |
| TaxResidency.RiskFromPercentage | src/lib/calculations/tax-residency.ts:151-160 | resident exactly for residents; otherwise high from 90, medium from 70 to 89, low below 70 |
| TaxResidency.RiskWarnings | src/lib/calculations/tax-residency.ts:198-206 | resident and high give two warnings, medium one, low none |
| TaxResidency.ResidencyRecommendations | src/lib/calculations/tax-residency.ts:208-217 | residents get three recommendations; others get the days to stay under first, then the rule's first special rule |
| TaxResidency.ResidencyStatus | src/lib/calculations/tax-residency.ts:134-233 | the result carries the code, name and year asked for |
| TaxResidency.CalculateResidencyStatus | src/lib/calculations/tax-residency.ts:134-233 | the imperative calculation returns exactly the specified status |
| TaxResidency.ResidencyDecision | src/lib/calculations/tax-residency.ts:142-196 | US residency is the Substantial Presence Test on the weighted total; elsewhere it is days >= the country threshold; the risk is resident exactly for residents; days remaining close the gap to the threshold; the percentage is min(100, round(100 · days / threshold)) of the effective days, and the risk level follows it by the 90 and 70 bands |
| TaxResidency.ResidencyStatusShape | src/lib/calculations/tax-residency.ts:165-217 | for non-negative inputs: percentage 0 to 100; warning and recommendation counts follow the US branch and the risk level; the last recommendation of a non-resident is the first special rule; the 31-day warning appears exactly for the US below 31 days; for the US the first warning is the weighted total with its current, prior/3 and second-prior/6 parts; outside the US only the risk warnings appear; the advice to add prior-year totals appears, first, exactly for a US non-resident whose two prior years are zero |
| TaxResidency.UsGateOverridesWeightedTotal | src/lib/calculations/tax-residency.ts:165-196 | below 31 US days a weighted total of 183 or more is not residency: high risk, 0 days remaining, 100 percent, and the 31-day warning |
| TaxResidency.RiskMonotone | src/lib/calculations/tax-residency.ts:147-196 | more days never lower the risk level, for the US as well |
| TaxResidency.RiskOrder | src/lib/calculations/tax-residency.ts:263 | the sort rank is the reverse of severity: resident first, low last |
| TaxResidency.GroupByCountry | src/lib/calculations/tax-residency.ts:240-254 | one entry per country code in order of first appearance, with its first trip's name and the sum of its trips' days |
| TaxResidency.GroupExisting | src/lib/calculations/tax-residency.ts:246-247 | adding a trip's days to its code's entry keeps the grouping exact |
| TaxResidency.GroupNew | src/lib/calculations/tax-residency.ts:248-253 | appending an entry for a new code keeps the grouping exact |
| TaxResidency.EvaluateCountries | src/lib/calculations/tax-residency.ts:257-260 | each entry is evaluated in order with no prior-year days |
| TaxResidency.EvaluatedFacts | src/lib/calculations/tax-residency.ts:240-260 | the evaluated results have distinct codes, each is the status of its country's total for the year, and every country is covered |
| TaxResidency.CalculateMultipleResidencies | src/lib/calculations/tax-residency.ts:235-265 | one result per country with trips starting in the year: the status of that country's total with no prior-year days, codes distinct, all countries covered, resident first, low last |
| Feie.GetFeieMaxExclusion | src/lib/calculations/feie.ts:217-219 | the table value for 2020 to 2025, the 2024 value of 126500 for any other year; always positive |
| Feie.DaysInTaxYear | src/lib/calculations/feie.ts:145-162 | the overlap count is never negative |
| Feie.DaysInTaxYearCounts | src/lib/calculations/feie.ts:145-162 | the overlap formula equals a day-by-day count of the period's days whose year is the tax year |
| Feie.DaysInTaxYearBounds | src/lib/calculations/feie.ts:145-162 | the overlap is no longer than the period and no longer than the year |
| Feie.DaysInTaxYearSplit | src/lib/calculations/feie.ts:145-162 | a period within two consecutive years splits its days exactly between them |
| Feie.ProRatedExclusion | src/lib/calculations/feie.ts:52 | the nearest dollar to maxExclusion * daysInTaxYear / 365 |
| Feie.ProRatedFullYear | src/lib/calculations/feie.ts:49-52 | 365 days give exactly the maximum; more days never give less; non-negative days give a non-negative amount |
| Feie.ProRatedLeapYearExceedsCap | src/lib/calculations/feie.ts:52 | the 366 days of a leap year pro-rate above the maximum: 126847 for 2024's 126500 |
| Feie.FeieOutcome | src/lib/calculations/feie.ts:21-140 | the result is a physical-presence result with the input's days abroad and 330 required |
| Feie.CalculateFeie | src/lib/calculations/feie.ts:21-140 | the imperative calculation returns exactly the specified outcome |
| Feie.FeieDoubleGate | src/lib/calculations/feie.ts:35-43 | it qualifies exactly with 330 days abroad and a period of at least 365 days; the days short are exactly max(0, 330 − days abroad); 340 days in a 300-day period fail |
| Feie.FeieAmounts | src/lib/calculations/feie.ts:46-62 | nothing is excluded without qualifying; otherwise the lesser of income and the pro-rated maximum; taxable is never negative; for non-negative income excluded plus taxable is the income |
| Feie.FeieMessages | src/lib/calculations/feie.ts:83-124 | when each warning is given, and the recommendation counts with and without qualifying |
| Feie.FeieNearMissWithShortPeriod | src/lib/calculations/feie.ts:94-98 | with enough days abroad but a short period, the near-miss warning reports 0 days short |
| Feie.UsDaysInYear | src/lib/calculations/feie.ts:189-202 | the US days of a year are never negative |
| Feie.FindOptimalTestPeriod | src/lib/calculations/feie.ts:167-212 | the period is the calendar tax year; days outside are 365 minus the US days in it, at least 0; it qualifies exactly at 330 or more, that is with at most 35 US days |
| Feie.NoUsTripsFullBase | src/lib/calculations/feie.ts:188 | without US trips the days outside are 365, one less than a leap year's length |
| DayTracker.MakeTrip | src/store/day-tracker-store.ts:28-38 | the new trip has the fresh id, the country code and name, dates, purpose and notes of the data given, and a day count equal to the inclusive days between its dates (at least 1) |
| DayTracker.ApplyPatch | src/store/day-tracker-store.ts:49-62 | the patched trip keeps its id; each of country code, country name, start date, end date, purpose and notes is the patch's value when the patch gives one and the trip's otherwise; days are recomputed from the merged dates when the patch gives a date and kept otherwise |
| DayTracker.PatchFacts | src/store/day-tracker-store.ts:52-60 | a patch keeps days in agreement with the dates; without a date it keeps days and dates; with a date it recomputes days; applying it twice is applying it once |
| DayTracker.Patched | src/store/day-tracker-store.ts:49-62 | the trips with the id are patched and all others kept, position by position |
| DayTracker.PatchedUnknownId | src/store/day-tracker-store.ts:49-50 | an id no trip has leaves the list unchanged |
| DayTracker.WithoutId | src/store/day-tracker-store.ts:71 | removing never lengthens the list |
| DayTracker.WithoutIdMembers | src/store/day-tracker-store.ts:71 | exactly the trips with another id remain; an unknown id changes nothing |
| DayTracker.WithoutIdSorted | src/store/day-tracker-store.ts:71 | removing keeps the start-date order |
| DayTracker.WithoutIdDistinct | src/store/day-tracker-store.ts:71 | removing keeps ids distinct |
| DayTracker.RemoveKeepsInvariant | src/store/day-tracker-store.ts:69-73 | removing preserves the store invariant |
| DayTracker.IndexOfSummary | src/store/day-tracker-store.ts:91 | the found position is the first that holds the code, and no position holds it when none is found |
| DayTracker.Filtered | src/store/day-tracker-store.ts:81-86 | no year, or the falsy year 0, selects every trip; any other year selects exactly the trips that start in it, never more than there are |
| DayTracker.TotalOf | src/store/day-tracker-store.ts:126-127 | the total of the first summary with the code, 0 when no summary has it |
| DayTracker.FoldTripSummaries | src/store/day-tracker-store.ts:90-117 | folding trip by trip builds exactly the per-country summaries of the trips so far |
| DayTracker.AddToCountryMap | src/store/day-tracker-store.ts:91-116 | the loop body performs one fold step |
| DayTracker.SortedSummariesFacts | src/store/day-tracker-store.ts:88-121 | the sorted summaries have one entry per country, codes distinct, each its country's summary, and totals that sum to all the trips' days |
| DayTracker.TotalOfSorted | src/store/day-tracker-store.ts:124-128 | the total looked up for a code is the sum of its trips' days, 0 without trips |
| DayTracker.CrossYearTrip | src/store/day-tracker-store.ts:81-86 | a trip from year y into y + 1 counts all its days in y and none in y + 1 |
| DayTracker.ZeroYearMeansAll | src/store/day-tracker-store.ts:81 | a year of 0, like no year, selects all trips |
| DayTracker.DayTrackerStore.constructor | src/store/day-tracker-store.ts:26 | the store starts empty and valid |
| DayTracker.DayTrackerStore.AddTrip | src/store/day-tracker-store.ts:28-45 | the list becomes the old trips plus the new one, sorted by start date; the new id is unused; the invariant is kept |
| DayTracker.DayTrackerStore.UpdateTrip | src/store/day-tracker-store.ts:47-67 | the list becomes the patched list sorted by start date, the same trips as a multiset; the invariant is kept |
| DayTracker.DayTrackerStore.RemoveTrip | src/store/day-tracker-store.ts:69-73 | the list loses exactly the trips with the id; the invariant is kept |
| DayTracker.DayTrackerStore.ClearAllTrips | src/store/day-tracker-store.ts:75-77 | the list becomes empty |
| DayTracker.DayTrackerStore.GetCountrySummaries | src/store/day-tracker-store.ts:79-122 | one summary per country of the selected trips, each the summary of that country's trips, codes distinct, all countries covered, largest total first, totals summing to all selected days |
| DayTracker.DayTrackerStore.GetTotalDaysInCountry | src/store/day-tracker-store.ts:124-128 | the sum of the days of the selected trips of that country, 0 when there are none |
| DayTracker.DayTrackerStore.TripsForYear | src/store/day-tracker-store.ts:130-136 | exactly the trips that start in the year, no more than the store holds |
| FormUtils.GetThresholdForCountry | src/lib/form-utils.ts:45-48 | 180 or the default 183 |
| FormUtils.ThresholdAgreesWithRegistry | src/lib/form-utils.ts:45-48 | the form threshold equals the registry threshold of the same code |
| FormUtils.GetRiskLevel | src/lib/form-utils.ts:56-62 | resident exactly when days >= threshold |
| FormUtils.RiskLevelBands | src/lib/form-utils.ts:57-61 | below a positive threshold: high exactly from 90 percent unrounded, medium from 70 to under 90, low under 70 |
| FormUtils.RiskLevelMonotone | src/lib/form-utils.ts:56-62 | more days never lower the level |
| FormUtils.RiskLevelDegenerateThreshold | src/lib/form-utils.ts:57-61 | a zero threshold makes non-negative days resident and negative days low; below a negative threshold the level is high |
| FormUtils.RoundedRiskNeverLower | src/lib/form-utils.ts:57-61 | outside the US, the residency calculation's rounded level is never below this unrounded one |
| FormUtils.RiskClassifiersDisagree | src/lib/calculations/tax-residency.ts:147-160 | 164 of 183 days are medium here but high in the residency calculation |
| FormUtils.RiskDisplayInjective | src/lib/form-utils.ts:69-118 | different levels have different badges, labels and colour classes |
| FormUtils.GetRiskBadgeVariant | src/lib/form-utils.ts:69-82 | resident, high, medium and low get the destructive, warning, secondary and success badges, each badge from exactly one level |
| FormUtils.GetRiskLabel | src/lib/form-utils.ts:89-100 | resident, high, medium and low read "Tax Resident", "High Risk", "Medium Risk" and "Low Risk", each label from exactly one level |
| FormUtils.GetRiskProgressClass | src/lib/form-utils.ts:107-118 | resident, high, medium and low get the destructive, warning, primary and success bar classes, each class from exactly one level |
| FormUtils.IntToStringRoundTrip | src/lib/form-utils.ts:21-22 | reading back the decimal form of a year gives the year |
| FormUtils.IntToStringInjective | src/lib/form-utils.ts:21-22 | different years have different decimal forms |
| FormUtils.GetYearOptions | src/lib/form-utils.ts:19-24 | as many options as years asked for (none for a non-positive count), each with equal value and text |
| FormUtils.YearOptionsDescending | src/lib/form-utils.ts:19-24 | option i reads back as the current year minus i, so the years strictly descend and no two options are equal |
| FormUtils.DefaultYearOptions | src/lib/form-utils.ts:19 | by default there are five options, from the current year back to four years before it |

## Left out

- Persistence: the store's local-storage backing, its key and version, and
  rehydration (src/store/day-tracker-store.ts:138-143) are I/O.
- Ids: `generateId` draws from the clock and a random source. The model uses a
  counter `nextId`, so new ids are unique by construction. The store's
  invariant asks for distinct ids, which random ids only make very likely.
- Dates:
  - dates are day numbers, so parsing "YYYY-MM-DD" strings, time zones,
    `setHours` and invalid dates (NaN) are not modelled;
  - `new Date(y, 0, 1)` maps years 0 to 99 to 1900 to 1999; the model uses
    the year as given;
  - `format(date, "yyyy-MM-dd")` in `findOptimalTestPeriod` returns a string;
    the model returns the day number.
- Numbers:
  - numbers are unbounded integers, and floating-point rounding in
    `Math.round`, `days / threshold * 100` and income arithmetic is not
    modelled;
  - incomes and day counts are whole numbers.
- Text: warnings, recommendations and explanation lines are datatype values.
  Their English wording and `toLocaleString` number formatting are left out.
- Patches: an `updateTrip` patch field is either given (`Some`) or absent.
  These cases are not modelled:
  - a field given as explicit `undefined`, which overwrites the trip's value
    in the source;
  - an empty-string date, which is falsy in the source and does not trigger
    recomputing `days`.
- `findOptimalTestPeriod` is declared to return `null` as well, but never
  does; the model has no null case.
- Default arguments:
  - `year = new Date().getFullYear()` and `CURRENT_YEAR` read the clock, so
    the model takes them as parameters;
  - `priorYearDays` and `secondPriorYearDays` default to 0 and are explicit
    parameters.
- Not core: `getCountryOptions`, `getRiskAriaLabel` and `getCountryFlag` in
  src/lib/form-utils.ts, and `cn`, `formatDate`, `parseDate`,
  `getCurrentYear` and `generateId` in src/lib/utils.ts. They are UI and
  formatting helpers.
- Feie.FindOptimalTestPeriod: the period is always the calendar tax year,
  as in the source. No sliding window is searched.
- TaxResidency.GetCountryTaxRule: the registry lookup `COUNTRY_TAX_RULES[countryCode]`
  also finds the members every JavaScript object inherits, so a code such as
  `constructor` or `toString` yields a value that is not a tax rule and the
  threshold becomes undefined (percentages NaN). The model treats such codes
  as unknown codes and gives them the 183-day default.
- FormUtils.ThresholdAgreesWithRegistry: holds for every code in the model;
  in the source it fails for the inherited-member codes above, where the
  form gives 183 and the registry no number.
