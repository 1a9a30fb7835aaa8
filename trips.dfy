/**
 * What the day tracker (src/store/day-tracker-store.ts) and the multi-country
 * residency evaluator (src/lib/calculations/tax-residency.ts) both do with a
 * list of trips: select the trips that START in a year, and group trips by
 * country code in order of first appearance. These functions are the
 * specification the two loops of the source are proved against.
 */
module Trips {
  import opened Types
  import Calendar
  import Sorting

  function TripDays(t: Trip): int { t.days }

  function SummaryDays(s: CountrySummary): int { s.totalDays }

  function SummaryCode(s: CountrySummary): string { s.countryCode }

  /**
   * The trips whose start date falls in `year`, in their original order. A
   * trip is attributed to the year it starts in, whole: it is not clipped at
   * 31 December.
   */
  function StartYearTrips(trips: seq<Trip>, year: int): (r: seq<Trip>)
    ensures |r| <= |trips|
  {
    if trips == [] then []
    else
      var last := trips[|trips| - 1];
      StartYearTrips(trips[..|trips| - 1], year)
        + (if Calendar.YearOf(last.startDate) == year then [last] else [])
  }

  /** A trip is selected exactly when it is in the list and starts in the year. */
  lemma {:induction false} StartYearTripsMembers(trips: seq<Trip>, year: int)
    ensures forall t :: t in StartYearTrips(trips, year) <==> t in trips && Calendar.YearOf(t.startDate) == year
  {
    if trips != [] {
      var init := trips[..|trips| - 1];
      assert trips == init + [trips[|trips| - 1]];
      StartYearTripsMembers(init, year);
    }
  }

  /** Selection distributes over concatenation, so it keeps the order of the trips. */
  lemma {:induction false} StartYearTripsAppend(a: seq<Trip>, b: seq<Trip>, year: int)
    ensures StartYearTrips(a + b, year) == StartYearTrips(a, year) + StartYearTrips(b, year)
    decreases |b|
  {
    if b != [] {
      var init := b[..|b| - 1];
      assert (a + b)[..|a + b| - 1] == a + init;
      StartYearTripsAppend(a, init, year);
    } else {
      assert a + b == a;
    }
  }

  /** The trips of country c, in their order in ts. */
  function TripsWith(ts: seq<Trip>, c: string): seq<Trip> {
    if ts == [] then []
    else
      var last := ts[|ts| - 1];
      TripsWith(ts[..|ts| - 1], c) + (if last.countryCode == c then [last] else [])
  }

  lemma {:induction false} TripsWithMembers(ts: seq<Trip>, c: string)
    ensures forall t :: t in TripsWith(ts, c) <==> t in ts && t.countryCode == c
  {
    if ts != [] {
      var init := ts[..|ts| - 1];
      assert ts == init + [ts[|ts| - 1]];
      TripsWithMembers(init, c);
    }
  }

  predicate Distinct(codes: seq<string>) {
    forall i, j :: 0 <= i < j < |codes| ==> codes[i] != codes[j]
  }

  /** The distinct country codes of ts, in order of first appearance. */
  function CodesInOrder(ts: seq<Trip>): seq<string> {
    if ts == [] then []
    else
      var prev := CodesInOrder(ts[..|ts| - 1]);
      var code := ts[|ts| - 1].countryCode;
      if code in prev then prev else prev + [code]
  }

  /** The codes listed are exactly the codes that have trips, each listed once. */
  lemma {:induction false} CodesInOrderFacts(ts: seq<Trip>)
    ensures Distinct(CodesInOrder(ts))
    ensures forall c :: c in CodesInOrder(ts) <==> TripsWith(ts, c) != []
  {
    if ts != [] {
      var init := ts[..|ts| - 1];
      CodesInOrderFacts(init);
    }
  }

  /** Total of the `days` of the trips of country c. */
  function DaysFor(ts: seq<Trip>, c: string): int {
    Sorting.SumOf(TripsWith(ts, c), TripDays)
  }

  /** Earliest start date among trips. */
  function EarliestStart(trips: seq<Trip>): (d: int)
    requires trips != []
    ensures forall t :: t in trips ==> d <= t.startDate
    ensures exists t :: t in trips && t.startDate == d
  {
    if |trips| == 1 then trips[0].startDate
    else
      var init, last := trips[..|trips| - 1], trips[|trips| - 1];
      assert trips == init + [last];
      var prev := EarliestStart(init);
      if last.startDate < prev then last.startDate else prev
  }

  /** Latest end date among trips. */
  function LatestEnd(trips: seq<Trip>): (d: int)
    requires trips != []
    ensures forall t :: t in trips ==> t.endDate <= d
    ensures exists t :: t in trips && t.endDate == d
  {
    if |trips| == 1 then trips[0].endDate
    else
      var init, last := trips[..|trips| - 1], trips[|trips| - 1];
      assert trips == init + [last];
      var prev := LatestEnd(init);
      if last.endDate > prev then last.endDate else prev
  }

  /** The name carried by the first trip of country c ("" when there is none). */
  function NameFor(ts: seq<Trip>, c: string): string {
    var mine := TripsWith(ts, c);
    if mine == [] then "" else mine[0].countryName
  }

  /**
   * The summary of country c over ts: the name of its first trip, the sum
   * of the `days` of its trips, the trips themselves, the earliest start and
   * the latest end.
   */
  function SummaryFor(ts: seq<Trip>, c: string): (s: CountrySummary)
    requires TripsWith(ts, c) != []
  {
    var mine := TripsWith(ts, c);
    CountrySummary(c, NameFor(ts, c), DaysFor(ts, c), mine, EarliestStart(mine), LatestEnd(mine))
  }

  /** One summary per country code of ts, in order of first appearance. */
  function Summaries(ts: seq<Trip>): (r: seq<CountrySummary>)
    ensures |r| == |CodesInOrder(ts)|
  {
    var codes := CodesInOrder(ts);
    CodesInOrderFacts(ts);
    seq(|codes|, k requires 0 <= k < |codes| => SummaryFor(ts, codes[k]))
  }

  /** Adding one trip at the end: how the codes, the per-country trips and totals change. */
  lemma AppendTrip(ts: seq<Trip>, t: Trip, c: string)
    ensures CodesInOrder(ts + [t]) ==
      if t.countryCode in CodesInOrder(ts) then CodesInOrder(ts) else CodesInOrder(ts) + [t.countryCode]
    ensures TripsWith(ts + [t], c) == TripsWith(ts, c) + (if t.countryCode == c then [t] else [])
    ensures DaysFor(ts + [t], c) == DaysFor(ts, c) + (if t.countryCode == c then t.days else 0)
  {
    assert (ts + [t])[..|ts|] == ts;
    var mine := TripsWith(ts, c);
    if t.countryCode == c {
      assert (mine + [t])[..|mine|] == mine;
    } else {
      assert mine + [] == mine;
    }
  }

  /** The name of a country is fixed by its first trip. */
  lemma AppendTripName(ts: seq<Trip>, t: Trip, c: string)
    ensures NameFor(ts + [t], c) ==
      if TripsWith(ts, c) == [] && t.countryCode == c then t.countryName else NameFor(ts, c)
  {
    AppendTrip(ts, t, c);
    var mine := TripsWith(ts, c);
    if mine != [] {
      assert (mine + (if t.countryCode == c then [t] else []))[0] == mine[0];
    }
  }

  lemma AppendToCountryTrips(mine: seq<Trip>, t: Trip)
    requires mine != []
    ensures (mine + [t])[0] == mine[0]
    ensures EarliestStart(mine + [t]) ==
      if t.startDate < EarliestStart(mine) then t.startDate else EarliestStart(mine)
    ensures LatestEnd(mine + [t]) == if t.endDate > LatestEnd(mine) then t.endDate else LatestEnd(mine)
    ensures Sorting.SumOf(mine + [t], TripDays) == Sorting.SumOf(mine, TripDays) + t.days
  {
    assert (mine + [t])[..|mine|] == mine;
  }

  /**
   * One more trip folded into a summary: its days added, the trip appended,
   * the first and last visit widened to cover it.
   */
  function WithTrip(s: CountrySummary, t: Trip): CountrySummary {
    s.(
      totalDays := s.totalDays + t.days,
      trips := s.trips + [t],
      firstVisit := if t.startDate < s.firstVisit then t.startDate else s.firstVisit,
      lastVisit := if t.endDate > s.lastVisit then t.endDate else s.lastVisit)
  }

  /** The summary of a country after one more of its trips is added. */
  lemma AppendTripSummary(ts: seq<Trip>, t: Trip)
    requires TripsWith(ts, t.countryCode) != []
    ensures TripsWith(ts + [t], t.countryCode) != []
    ensures SummaryFor(ts + [t], t.countryCode) == WithTrip(SummaryFor(ts, t.countryCode), t)
  {
    var c := t.countryCode;
    AppendTrip(ts, t, c);
    AppendToCountryTrips(TripsWith(ts, c), t);
  }

  /** The summary of a country after a trip of another country is added. */
  lemma AppendOtherTripSummary(ts: seq<Trip>, t: Trip, c: string)
    requires TripsWith(ts, c) != [] && t.countryCode != c
    ensures TripsWith(ts + [t], c) != []
    ensures SummaryFor(ts + [t], c) == SummaryFor(ts, c)
  {
    AppendTrip(ts, t, c);
  }

  /** The summary of a country whose first trip is t. */
  lemma AppendNewCountrySummary(ts: seq<Trip>, t: Trip)
    requires TripsWith(ts, t.countryCode) == []
    ensures TripsWith(ts + [t], t.countryCode) == [t]
    ensures SummaryFor(ts + [t], t.countryCode) ==
      CountrySummary(t.countryCode, t.countryName, t.days, [t], t.startDate, t.endDate)
  {
    AppendTrip(ts, t, t.countryCode);
    assert [] + [t] == [t];
    assert Sorting.SumOf([t], TripDays) == Sorting.SumOf([], TripDays) + t.days;
  }

  /** Sum of DaysFor over a list of codes. */
  function DaysOverCodes(ts: seq<Trip>, codes: seq<string>): int {
    if codes == [] then 0
    else DaysOverCodes(ts, codes[..|codes| - 1]) + DaysFor(ts, codes[|codes| - 1])
  }

  lemma {:induction false} DaysOverCodesAppendTrip(ts: seq<Trip>, t: Trip, codes: seq<string>)
    requires Distinct(codes)
    ensures DaysOverCodes(ts + [t], codes) ==
      DaysOverCodes(ts, codes) + (if t.countryCode in codes then t.days else 0)
  {
    if codes != [] {
      var init, last := codes[..|codes| - 1], codes[|codes| - 1];
      assert codes == init + [last];
      DaysOverCodesAppendTrip(ts, t, init);
      AppendTrip(ts, t, last);
      assert last !in init;
    }
  }

  /**
   * The per-country totals add up to the days of all trips: every trip is
   * counted in exactly one country.
   */
  lemma {:induction false} CountryTotalsPartition(ts: seq<Trip>)
    ensures DaysOverCodes(ts, CodesInOrder(ts)) == Sorting.SumOf(ts, TripDays)
  {
    if ts != [] {
      var init, t := ts[..|ts| - 1], ts[|ts| - 1];
      assert ts == init + [t];
      CountryTotalsPartition(init);
      var codes, c := CodesInOrder(init), t.countryCode;
      assert Sorting.SumOf(ts, TripDays) == Sorting.SumOf(init, TripDays) + t.days;
      CodesInOrderFacts(init);
      DaysOverCodesAppendTrip(init, t, codes);
      AppendTrip(init, t, c);
      if c in codes {
        assert CodesInOrder(ts) == codes;
      } else {
        assert CodesInOrder(ts) == codes + [c];
        assert DaysFor(init, c) == 0;
        assert (codes + [c])[..|codes|] == codes;
        assert DaysOverCodes(ts, codes + [c]) == DaysOverCodes(ts, codes) + DaysFor(ts, c);
      }
    }
  }

  lemma {:induction false} SummariesTotalOver(ts: seq<Trip>, codes: seq<string>)
    requires forall c :: c in codes ==> TripsWith(ts, c) != []
    ensures Sorting.SumOf(seq(|codes|, k requires 0 <= k < |codes| => SummaryFor(ts, codes[k])), SummaryDays)
            == DaysOverCodes(ts, codes)
  {
    var all := seq(|codes|, k requires 0 <= k < |codes| => SummaryFor(ts, codes[k]));
    if codes != [] {
      var init := codes[..|codes| - 1];
      SummariesTotalOver(ts, init);
      assert all[..|all| - 1] == seq(|init|, k requires 0 <= k < |init| => SummaryFor(ts, init[k]));
    }
  }

  /** The sum of totalDays over the summaries of ts is the sum of the days of ts. */
  lemma SummariesTotal(ts: seq<Trip>)
    ensures Sorting.SumOf(Summaries(ts), SummaryDays) == Sorting.SumOf(ts, TripDays)
  {
    CountryTotalsPartition(ts);
    CodesInOrderFacts(ts);
    SummariesTotalOver(ts, CodesInOrder(ts));
  }

  /** The summary of a country lists all its trips in order, their total, the earliest start and the latest end. */
  lemma SummaryForFacts(ts: seq<Trip>, c: string)
    requires TripsWith(ts, c) != []
    ensures var s := SummaryFor(ts, c);
      && s.countryCode == c
      && s.trips == TripsWith(ts, c)
      && s.totalDays == Sorting.SumOf(s.trips, TripDays)
      && (forall t :: t in s.trips ==> s.firstVisit <= t.startDate && t.endDate <= s.lastVisit)
      && (exists t :: t in s.trips && t.startDate == s.firstVisit)
      && (exists t :: t in s.trips && t.endDate == s.lastVisit)
  {
  }

  lemma SummariesIndex(ts: seq<Trip>, j: nat)
    requires j < |CodesInOrder(ts)|
    ensures TripsWith(ts, CodesInOrder(ts)[j]) != []
    ensures Summaries(ts)[j] == SummaryFor(ts, CodesInOrder(ts)[j])
  {
    CodesInOrderFacts(ts);
  }

  lemma SummariesAppendExistingAt(ts: seq<Trip>, t: Trip, k: nat, j: nat)
    requires k < |CodesInOrder(ts)| && CodesInOrder(ts)[k] == t.countryCode
    requires j < |CodesInOrder(ts)|
    ensures CodesInOrder(ts + [t]) == CodesInOrder(ts)
    ensures Summaries(ts + [t])[j] == if j == k then WithTrip(Summaries(ts)[k], t) else Summaries(ts)[j]
  {
    var codes := CodesInOrder(ts);
    assert t.countryCode in codes;
    AppendTrip(ts, t, t.countryCode);
    SummariesIndex(ts, j);
    SummariesIndex(ts + [t], j);
    if j == k {
      AppendTripSummary(ts, t);
    } else {
      CodesInOrderFacts(ts);
      assert codes[j] != t.countryCode;
      AppendOtherTripSummary(ts, t, codes[j]);
    }
  }

  /** After one more trip of a country already summarised, only that summary changes, in place. */
  lemma SummariesAppendExisting(ts: seq<Trip>, t: Trip, k: nat)
    requires k < |CodesInOrder(ts)| && CodesInOrder(ts)[k] == t.countryCode
    ensures Summaries(ts + [t]) == Summaries(ts)[k := WithTrip(Summaries(ts)[k], t)]
  {
    var lhs := Summaries(ts + [t]);
    var rhs := Summaries(ts)[k := WithTrip(Summaries(ts)[k], t)];
    SummariesAppendExistingAt(ts, t, k, k);
    assert |lhs| == |rhs|;
    forall j | 0 <= j < |rhs| ensures lhs[j] == rhs[j] {
      SummariesAppendExistingAt(ts, t, k, j);
    }
  }

  lemma SummariesAppendNewAt(ts: seq<Trip>, t: Trip, j: nat)
    requires t.countryCode !in CodesInOrder(ts)
    requires j <= |CodesInOrder(ts)|
    ensures CodesInOrder(ts + [t]) == CodesInOrder(ts) + [t.countryCode]
    ensures Summaries(ts + [t])[j] ==
      if j < |CodesInOrder(ts)| then Summaries(ts)[j] else FirstTripSummary(t)
  {
    var codes := CodesInOrder(ts);
    AppendTrip(ts, t, t.countryCode);
    SummariesIndex(ts + [t], j);
    if j < |codes| {
      SummariesIndex(ts, j);
      assert codes[j] != t.countryCode;
      AppendOtherTripSummary(ts, t, codes[j]);
    } else {
      CodesInOrderFacts(ts);
      AppendNewCountrySummary(ts, t);
    }
  }

  /** The summary a country's first trip creates. */
  function FirstTripSummary(t: Trip): CountrySummary {
    CountrySummary(t.countryCode, t.countryName, t.days, [t], t.startDate, t.endDate)
  }

  /** The first trip of a new country appends a summary of that one trip. */
  lemma SummariesAppendNew(ts: seq<Trip>, t: Trip)
    requires t.countryCode !in CodesInOrder(ts)
    ensures Summaries(ts + [t]) == Summaries(ts) + [FirstTripSummary(t)]
  {
    var lhs := Summaries(ts + [t]);
    var rhs := Summaries(ts) + [FirstTripSummary(t)];
    SummariesAppendNewAt(ts, t, 0);
    assert |lhs| == |rhs|;
    forall j | 0 <= j < |rhs| ensures lhs[j] == rhs[j] {
      SummariesAppendNewAt(ts, t, j);
    }
  }
}
