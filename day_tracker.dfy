/**
 * The trip ledger of src/store/day-tracker-store.ts: a store whose `trips`
 * list every action replaces (add, update, remove, clear), kept in
 * start-date order, and the queries over it: per-country summaries of one
 * year (or of all trips), the total days in one country, and the trips of a
 * year. Ids come from a counter; persistence is not modelled.
 */
module DayTracker {
  import opened Types
  import opened Utils
  import Calendar
  import Sorting
  import Trips

  /** The fields a caller gives to addTrip (a trip without id and days). */
  datatype NewTrip = NewTrip(
    countryCode: string,
    countryName: string,
    startDate: int,
    endDate: int,
    purpose: Purpose,
    notes: Option<string>)

  /** The fields a caller gives to updateTrip: each one present replaces the trip's own. */
  datatype TripPatch = TripPatch(
    countryCode: Option<string>,
    countryName: Option<string>,
    startDate: Option<int>,
    endDate: Option<int>,
    purpose: Option<Purpose>,
    notes: Option<string>)

  function StartKey(t: Trip): int { t.startDate }

  function TripId(t: Trip): nat { t.id }

  /** The sort key of the summaries: larger totals first. */
  function NegTotalDays(s: CountrySummary): int { -s.totalDays }

  function Or<T>(o: Option<T>, otherwise: T): (r: T)
    ensures o.Some? ==> r == o.value
    ensures o.None? ==> r == otherwise
  {
    if o.Some? then o.value else otherwise
  }

  /** A trip's `days` agrees with its dates. */
  predicate DaysAgree(t: Trip) {
    t.days == DaysBetween(t.startDate, t.endDate)
  }

  /** The trip addTrip builds: the given fields, a fresh id and the inclusive day count. */
  function MakeTrip(id: nat, data: NewTrip): (t: Trip)
    ensures t.id == id && DaysAgree(t) && t.days >= 1
    ensures t.countryCode == data.countryCode && t.countryName == data.countryName
    ensures t.startDate == data.startDate && t.endDate == data.endDate
    ensures t.purpose == data.purpose && t.notes == data.notes
  {
    Trip(id, data.countryCode, data.countryName, data.startDate, data.endDate,
         DaysBetween(data.startDate, data.endDate), data.purpose, data.notes)
  }

  /**
   * `{ ...trip, ...patch }`, with `days` recomputed when the patch gives a
   * start or an end date and kept otherwise.
   */
  function ApplyPatch(t: Trip, p: TripPatch): (u: Trip)
    ensures u.id == t.id
    ensures u.countryCode == Or(p.countryCode, t.countryCode)
    ensures u.countryName == Or(p.countryName, t.countryName)
    ensures u.startDate == Or(p.startDate, t.startDate)
    ensures u.endDate == Or(p.endDate, t.endDate)
    ensures u.purpose == Or(p.purpose, t.purpose)
    ensures u.notes == if p.notes.Some? then p.notes else t.notes
    ensures u.days == if p.startDate.Some? || p.endDate.Some? then DaysBetween(u.startDate, u.endDate) else t.days
  {
    var merged := t.(
      countryCode := Or(p.countryCode, t.countryCode),
      countryName := Or(p.countryName, t.countryName),
      startDate := Or(p.startDate, t.startDate),
      endDate := Or(p.endDate, t.endDate),
      purpose := Or(p.purpose, t.purpose),
      notes := if p.notes.Some? then p.notes else t.notes);
    if p.startDate.Some? || p.endDate.Some? then merged.(days := DaysBetween(merged.startDate, merged.endDate))
    else merged
  }

  /**
   * A patch keeps `days` in agreement with the dates, recomputes it exactly
   * when a date is given, and applying it twice is applying it once.
   */
  lemma PatchFacts(t: Trip, p: TripPatch)
    ensures DaysAgree(t) ==> DaysAgree(ApplyPatch(t, p))
    ensures p.startDate.None? && p.endDate.None? ==>
      ApplyPatch(t, p).days == t.days && ApplyPatch(t, p).startDate == t.startDate
      && ApplyPatch(t, p).endDate == t.endDate
    ensures p.startDate.Some? || p.endDate.Some? ==> DaysAgree(ApplyPatch(t, p))
    ensures ApplyPatch(ApplyPatch(t, p), p) == ApplyPatch(t, p)
  {
  }

  /** `trips.map(...)`: the patch applied to the trips with the given id, the others kept. */
  function Patched(ts: seq<Trip>, id: nat, p: TripPatch): (r: seq<Trip>)
    ensures |r| == |ts|
    ensures forall i :: 0 <= i < |ts| ==> r[i] == (if ts[i].id == id then ApplyPatch(ts[i], p) else ts[i])
  {
    seq(|ts|, i requires 0 <= i < |ts| => if ts[i].id == id then ApplyPatch(ts[i], p) else ts[i])
  }

  /** An id no trip has leaves the list as it is. */
  lemma PatchedUnknownId(ts: seq<Trip>, id: nat, p: TripPatch)
    requires forall t :: t in ts ==> t.id != id
    ensures Patched(ts, id, p) == ts
  {
  }

  /** `trips.filter(trip => trip.id !== id)` */
  function WithoutId(ts: seq<Trip>, id: nat): (r: seq<Trip>)
    ensures |r| <= |ts|
  {
    if ts == [] then []
    else
      var last := ts[|ts| - 1];
      WithoutId(ts[..|ts| - 1], id) + (if last.id != id then [last] else [])
  }

  /** Removing keeps exactly the trips with another id, in their order; an unknown id changes nothing. */
  lemma {:induction false} WithoutIdMembers(ts: seq<Trip>, id: nat)
    ensures forall t :: t in WithoutId(ts, id) <==> t in ts && t.id != id
    ensures (forall t :: t in ts ==> t.id != id) ==> WithoutId(ts, id) == ts
  {
    if ts != [] {
      assert ts == ts[..|ts| - 1] + [ts[|ts| - 1]];
      WithoutIdMembers(ts[..|ts| - 1], id);
    }
  }

  /** In a list sorted by start date, the last trip starts no earlier than any before it, which are sorted too. */
  lemma SortedInit(ts: seq<Trip>)
    requires ts != [] && Sorting.SortedBy(ts, StartKey)
    ensures Sorting.SortedBy(ts[..|ts| - 1], StartKey)
    ensures forall u :: u in ts[..|ts| - 1] ==> u.startDate <= ts[|ts| - 1].startDate
  {
    var init := ts[..|ts| - 1];
    forall i, j | 0 <= i < j < |init| ensures StartKey(init[i]) <= StartKey(init[j]) {
      assert init[i] == ts[i] && init[j] == ts[j];
    }
    forall u | u in init ensures u.startDate <= ts[|ts| - 1].startDate {
      var n :| 0 <= n < |init| && init[n] == u;
      assert ts[n] == u;
    }
  }

  lemma AppendSorted(r: seq<Trip>, last: Trip)
    requires Sorting.SortedBy(r, StartKey)
    requires forall u :: u in r ==> u.startDate <= last.startDate
    ensures Sorting.SortedBy(r + [last], StartKey)
  {
    var res := r + [last];
    forall i, j | 0 <= i < j < |res| ensures StartKey(res[i]) <= StartKey(res[j]) {
      assert res[i] == r[i];
      if j == |r| {
        assert r[i] in r;
      } else {
        assert res[j] == r[j];
      }
    }
  }

  /** A list sorted by start date stays sorted when trips are removed. */
  lemma {:induction false} WithoutIdSorted(ts: seq<Trip>, id: nat)
    requires Sorting.SortedBy(ts, StartKey)
    ensures Sorting.SortedBy(WithoutId(ts, id), StartKey)
  {
    if ts != [] {
      var init, last := ts[..|ts| - 1], ts[|ts| - 1];
      var r := WithoutId(init, id);
      SortedInit(ts);
      WithoutIdSorted(init, id);
      if last.id != id {
        WithoutIdMembers(init, id);
        AppendSorted(r, last);
        assert WithoutId(ts, id) == r + [last];
      } else {
        assert WithoutId(ts, id) == r + [];
      }
    }
  }

  /** In a list of distinct ids, the last trip's id differs from all earlier ones, which are distinct too. */
  lemma DistinctInit(ts: seq<Trip>)
    requires ts != [] && Sorting.DistinctBy(ts, TripId)
    ensures Sorting.DistinctBy(ts[..|ts| - 1], TripId)
    ensures forall u :: u in ts[..|ts| - 1] ==> u.id != ts[|ts| - 1].id
  {
    var init := ts[..|ts| - 1];
    forall i, j | 0 <= i < j < |init| ensures TripId(init[i]) != TripId(init[j]) {
      assert init[i] == ts[i] && init[j] == ts[j];
    }
    forall u | u in init ensures u.id != ts[|ts| - 1].id {
      var n :| 0 <= n < |init| && init[n] == u;
      assert ts[n] == u;
    }
  }

  lemma AppendDistinct(r: seq<Trip>, last: Trip)
    requires Sorting.DistinctBy(r, TripId)
    requires forall u :: u in r ==> u.id != last.id
    ensures Sorting.DistinctBy(r + [last], TripId)
  {
    var res := r + [last];
    forall i, j | 0 <= i < j < |res| ensures TripId(res[i]) != TripId(res[j]) {
      assert res[i] == r[i];
      if j == |r| {
        assert r[i] in r;
      } else {
        assert res[j] == r[j];
      }
    }
  }

  /** Distinct ids stay distinct when trips are removed. */
  lemma {:induction false} WithoutIdDistinct(ts: seq<Trip>, id: nat)
    requires Sorting.DistinctBy(ts, TripId)
    ensures Sorting.DistinctBy(WithoutId(ts, id), TripId)
  {
    if ts != [] {
      var init, last := ts[..|ts| - 1], ts[|ts| - 1];
      var r := WithoutId(init, id);
      DistinctInit(ts);
      WithoutIdDistinct(init, id);
      if last.id != id {
        WithoutIdMembers(init, id);
        AppendDistinct(r, last);
        assert WithoutId(ts, id) == r + [last];
      } else {
        assert WithoutId(ts, id) == r + [];
      }
    }
  }

  /** The trips a summary query uses: those starting in `year`, or all when no (or a zero) year is given. */
  function Filtered(trips: seq<Trip>, year: Option<int>): (r: seq<Trip>)
    ensures year.None? || year.value == 0 ==> r == trips
    ensures year.Some? && year.value != 0 ==>
      |r| <= |trips| && forall t :: t in r <==> t in trips && Calendar.YearOf(t.startDate) == year.value
  {
    if year.Some? && year.value != 0 then
      Trips.StartYearTripsMembers(trips, year.value);
      Trips.StartYearTrips(trips, year.value)
    else trips
  }

  /** Position of the summary of `code`, or |ss| when there is none. */
  function IndexOfSummary(ss: seq<CountrySummary>, code: string): (k: nat)
    ensures k <= |ss|
    ensures k < |ss| ==> ss[k].countryCode == code
    ensures k == |ss| ==> forall j :: 0 <= j < |ss| ==> ss[j].countryCode != code
    ensures forall j :: 0 <= j < k ==> ss[j].countryCode != code
  {
    if ss == [] then 0
    else if ss[0].countryCode == code then 0
    else 1 + IndexOfSummary(ss[1..], code)
  }

  /** `summaries.find(s => s.countryCode === code)?.totalDays ?? 0` */
  function TotalOf(ss: seq<CountrySummary>, code: string): (r: int)
    ensures (forall j :: 0 <= j < |ss| ==> ss[j].countryCode != code) ==> r == 0
    ensures forall j :: 0 <= j < |ss| && ss[j].countryCode == code ==>
      (forall i :: 0 <= i < j ==> ss[i].countryCode != code) ==> r == ss[j].totalDays
  {
    var k := IndexOfSummary(ss, code);
    if k < |ss| then ss[k].totalDays else 0
  }

  /** The codes of Summaries(ts), in order. */
  lemma SummaryCodes(ts: seq<Trip>)
    ensures forall j :: 0 <= j < |Trips.Summaries(ts)| ==>
      Trips.Summaries(ts)[j].countryCode == Trips.CodesInOrder(ts)[j]
  {
    forall j | 0 <= j < |Trips.Summaries(ts)|
      ensures Trips.Summaries(ts)[j].countryCode == Trips.CodesInOrder(ts)[j]
    {
      Trips.SummariesIndex(ts, j);
    }
  }

  /**
   * One step of the summary fold: the trip joins its country's summary when
   * there is one, and starts a new summary at the end otherwise.
   */
  function FoldTrip(ss: seq<CountrySummary>, t: Trip): seq<CountrySummary> {
    var k := IndexOfSummary(ss, t.countryCode);
    if k < |ss| then ss[k := Trips.WithTrip(ss[k], t)] else ss + [Trips.FirstTripSummary(t)]
  }

  /** Folding trip by trip builds exactly the per-country summaries of the trips seen so far. */
  lemma FoldTripSummaries(ts: seq<Trip>, t: Trip)
    ensures FoldTrip(Trips.Summaries(ts), t) == Trips.Summaries(ts + [t])
  {
    LookupSummary(ts, t.countryCode);
    var k := IndexOfSummary(Trips.Summaries(ts), t.countryCode);
    if k < |Trips.Summaries(ts)| {
      Trips.SummariesAppendExisting(ts, t, k);
    } else {
      Trips.SummariesAppendNew(ts, t);
    }
  }

  /** Looking a code up in Summaries(ts) finds its position among the codes, or finds that it has no trips. */
  lemma LookupSummary(ts: seq<Trip>, code: string)
    ensures var k := IndexOfSummary(Trips.Summaries(ts), code);
      && (k < |Trips.Summaries(ts)| ==> k < |Trips.CodesInOrder(ts)| && Trips.CodesInOrder(ts)[k] == code)
      && (k == |Trips.Summaries(ts)| ==> code !in Trips.CodesInOrder(ts))
  {
    SummaryCodes(ts);
  }

  /**
   * The sorted summaries of ts: one per country code, each the summary of
   * that country's trips, largest total first, and together they hold all
   * the days of ts.
   */
  lemma SortedSummariesFacts(ts: seq<Trip>)
    ensures var r := Sorting.SortBy(Trips.Summaries(ts), NegTotalDays);
      && |r| == |Trips.CodesInOrder(ts)|
      && Sorting.DistinctBy(r, Trips.SummaryCode)
      && (forall s :: s in r ==>
            Trips.TripsWith(ts, s.countryCode) != [] && s == Trips.SummaryFor(ts, s.countryCode))
      && (forall c :: c in Trips.CodesInOrder(ts) ==> exists s :: s in r && s.countryCode == c)
      && Sorting.SumOf(r, Trips.SummaryDays) == Sorting.SumOf(ts, Trips.TripDays)
  {
    var all := Trips.Summaries(ts);
    var codes := Trips.CodesInOrder(ts);
    Trips.CodesInOrderFacts(ts);
    SummaryCodes(ts);
    assert Sorting.DistinctBy(all, Trips.SummaryCode) by {
      forall i, j | 0 <= i < j < |all| ensures Trips.SummaryCode(all[i]) != Trips.SummaryCode(all[j]) {
        assert all[i].countryCode == codes[i] && all[j].countryCode == codes[j];
      }
    }
    Sorting.SortKeepsDistinct(all, NegTotalDays, Trips.SummaryCode);
    Sorting.SortMembers(all, NegTotalDays);
    forall s | s in all
      ensures Trips.TripsWith(ts, s.countryCode) != [] && s == Trips.SummaryFor(ts, s.countryCode)
    {
      var k :| 0 <= k < |all| && all[k] == s;
      Trips.SummariesIndex(ts, k);
    }
    forall c | c in codes ensures exists s :: s in all && s.countryCode == c {
      var k :| 0 <= k < |codes| && codes[k] == c;
      assert all[k] in all;
    }
    Trips.SummariesTotal(ts);
    Sorting.SortSum(all, NegTotalDays, Trips.SummaryDays);
  }

  /** The total reported for a code is the sum of the days of its trips (0 without any). */
  lemma TotalOfSorted(ts: seq<Trip>, code: string)
    ensures TotalOf(Sorting.SortBy(Trips.Summaries(ts), NegTotalDays), code) == Trips.DaysFor(ts, code)
  {
    var r := Sorting.SortBy(Trips.Summaries(ts), NegTotalDays);
    SortedSummariesFacts(ts);
    Trips.CodesInOrderFacts(ts);
    var k := IndexOfSummary(r, code);
    if code in Trips.CodesInOrder(ts) {
      var s :| s in r && s.countryCode == code;
      var j :| 0 <= j < |r| && r[j] == s;
      assert k < |r|;
    }
    if k < |r| {
      assert r[k] in r;
      Trips.SummaryForFacts(ts, code);
    }
  }

  /**
   * A trip that starts in year y and ends in y + 1 counts with all its days
   * in y and not at all in y + 1.
   */
  lemma CrossYearTrip(t: Trip, y: int)
    requires Calendar.YearOf(t.startDate) == y && Calendar.YearOf(t.endDate) == y + 1
    requires y != 0 && y + 1 != 0
    ensures Trips.DaysFor(Filtered([t], Some(y)), t.countryCode) == t.days
    ensures Trips.DaysFor(Filtered([t], Some(y + 1)), t.countryCode) == 0
  {
    assert [t][..0] == [];
    assert Filtered([t], Some(y)) == [t];
    assert Filtered([t], Some(y + 1)) == [];
    assert Trips.TripsWith([t], t.countryCode) == [t];
    assert Sorting.SumOf([t], Trips.TripDays) == Sorting.SumOf([], Trips.TripDays) + t.days;
  }

  /** A year of 0 is treated as no year: every trip is used. */
  lemma ZeroYearMeansAll(trips: seq<Trip>)
    ensures Filtered(trips, Some(0)) == trips && Filtered(trips, None) == trips
  {
  }

  /**
   * The body of getCountrySummaries' loop: the trip's country summary, when
   * there is one, gets the trip's days, the trip itself, and an earlier first
   * visit or later last visit; otherwise a summary of this one trip is added.
   */
  method AddToCountryMap(countryMap: seq<CountrySummary>, trip: Trip) returns (next: seq<CountrySummary>)
    ensures next == FoldTrip(countryMap, trip)
  {
    var k := IndexOfSummary(countryMap, trip.countryCode);
    if k < |countryMap| {
      var existing := countryMap[k];
      existing := existing.(totalDays := existing.totalDays + trip.days);
      existing := existing.(trips := existing.trips + [trip]);
      if trip.startDate < existing.firstVisit {
        existing := existing.(firstVisit := trip.startDate);
      }
      if trip.endDate > existing.lastVisit {
        existing := existing.(lastVisit := trip.endDate);
      }
      next := countryMap[k := existing];
    } else {
      next := countryMap + [CountrySummary(trip.countryCode, trip.countryName, trip.days, [trip],
                                           trip.startDate, trip.endDate)];
    }
  }

  /** Trips in start-date order, each with `days` matching its dates and a unique id below `nextId`. */
  ghost predicate StoreInvariant(trips: seq<Trip>, nextId: nat) {
    && Sorting.SortedBy(trips, StartKey)
    && Sorting.DistinctBy(trips, TripId)
    && forall t :: t in trips ==> t.id < nextId && DaysAgree(t)
  }

  /** Removing trips keeps the store's invariant. */
  lemma RemoveKeepsInvariant(ts: seq<Trip>, id: nat, nextId: nat)
    requires StoreInvariant(ts, nextId)
    ensures StoreInvariant(WithoutId(ts, id), nextId)
  {
    WithoutIdMembers(ts, id);
    WithoutIdSorted(ts, id);
    WithoutIdDistinct(ts, id);
  }

  class DayTrackerStore {
    var trips: seq<Trip>
    /** The next id to hand out; every trip's id is below it. */
    var nextId: nat

    /** Trips in start-date order, each with `days` matching its dates and a unique id already handed out. */
    ghost predicate Valid()
      reads this
    {
      StoreInvariant(trips, nextId)
    }

    constructor()
      ensures Valid()
      ensures trips == [] && nextId == 0
    {
      trips := [];
      nextId := 0;
    }

    /**
     * addTrip: a new trip with a fresh id and the inclusive day count; the
     * list grows by that one trip and is sorted by start date again.
     */
    method AddTrip(data: NewTrip)
      requires Valid()
      modifies this
      ensures Valid()
      ensures nextId == old(nextId) + 1
      ensures trips == Sorting.SortBy(old(trips) + [MakeTrip(old(nextId), data)], StartKey)
      ensures |trips| == |old(trips)| + 1
      ensures multiset(trips) == multiset(old(trips)) + multiset{MakeTrip(old(nextId), data)}
      ensures forall t :: t in old(trips) ==> t.id != old(nextId)
    {
      var newTrip := MakeTrip(nextId, data);
      var grown := trips + [newTrip];
      assert Sorting.DistinctBy(grown, TripId) by {
        forall i, j | 0 <= i < j < |grown| ensures TripId(grown[i]) != TripId(grown[j]) {
          if j == |trips| {
            assert grown[i] in trips;
          } else {
            assert grown[i] == trips[i] && grown[j] == trips[j];
          }
        }
      }
      Sorting.SortKeepsDistinct(grown, StartKey, TripId);
      Sorting.SortMembers(grown, StartKey);
      trips := Sorting.SortBy(grown, StartKey);
      nextId := nextId + 1;
    }

    /**
     * updateTrip: the trips with the given id take the patch (days
     * recomputed when a date changes); the list is sorted by start date again.
     */
    method UpdateTrip(id: nat, patch: TripPatch)
      requires Valid()
      modifies this
      ensures Valid()
      ensures nextId == old(nextId)
      ensures trips == Sorting.SortBy(Patched(old(trips), id, patch), StartKey)
      ensures multiset(trips) == multiset(Patched(old(trips), id, patch))
    {
      var patched := Patched(trips, id, patch);
      assert Sorting.DistinctBy(patched, TripId) by {
        forall i, j | 0 <= i < j < |patched| ensures TripId(patched[i]) != TripId(patched[j]) {
          assert TripId(patched[i]) == TripId(trips[i]) && TripId(patched[j]) == TripId(trips[j]);
        }
      }
      forall u | u in patched ensures u.id < nextId && DaysAgree(u) {
        var i :| 0 <= i < |patched| && patched[i] == u;
        assert trips[i] in trips;
        PatchFacts(trips[i], patch);
      }
      Sorting.SortKeepsDistinct(patched, StartKey, TripId);
      Sorting.SortMembers(patched, StartKey);
      trips := Sorting.SortBy(patched, StartKey);
    }

    /** removeTrip: every trip with the id is dropped; an unknown id changes nothing. */
    method RemoveTrip(id: nat)
      requires Valid()
      modifies this
      ensures Valid()
      ensures nextId == old(nextId)
      ensures trips == WithoutId(old(trips), id)
    {
      RemoveKeepsInvariant(trips, id, nextId);
      trips := WithoutId(trips, id);
    }

    /** clearAllTrips */
    method ClearAllTrips()
      requires Valid()
      modifies this
      ensures Valid()
      ensures trips == [] && nextId == old(nextId)
    {
      trips := [];
    }

    /**
     * getCountrySummaries: folds the trips of the year (or all trips) into
     * one summary per country, updating an existing summary in place, then
     * orders the summaries by total days, largest first.
     */
    method GetCountrySummaries(year: Option<int>) returns (summaries: seq<CountrySummary>)
      ensures summaries == Sorting.SortBy(Trips.Summaries(Filtered(trips, year)), NegTotalDays)
      ensures Sorting.SortedBy(summaries, NegTotalDays)
      ensures Sorting.DistinctBy(summaries, Trips.SummaryCode)
      ensures forall s :: s in summaries ==>
        Trips.TripsWith(Filtered(trips, year), s.countryCode) != []
        && s == Trips.SummaryFor(Filtered(trips, year), s.countryCode)
      ensures forall c :: c in Trips.CodesInOrder(Filtered(trips, year)) ==>
        exists s :: s in summaries && s.countryCode == c
      ensures Sorting.SumOf(summaries, Trips.SummaryDays) == Sorting.SumOf(Filtered(trips, year), Trips.TripDays)
    {
      var filteredTrips := if year.Some? && year.value != 0 then Trips.StartYearTrips(trips, year.value) else trips;

      var countryMap: seq<CountrySummary> := [];
      var i := 0;
      while i < |filteredTrips|
        invariant 0 <= i <= |filteredTrips|
        invariant countryMap == Trips.Summaries(filteredTrips[..i])
      {
        var trip := filteredTrips[i];
        assert filteredTrips[..i + 1] == filteredTrips[..i] + [trip];
        FoldTripSummaries(filteredTrips[..i], trip);
        countryMap := AddToCountryMap(countryMap, trip);
        i := i + 1;
      }
      assert filteredTrips[..|filteredTrips|] == filteredTrips;

      summaries := Sorting.SortBy(countryMap, NegTotalDays);
      SortedSummariesFacts(filteredTrips);
    }

    /** getTotalDaysInCountry: the summary's total for the code, 0 when the code has no trips. */
    method GetTotalDaysInCountry(countryCode: string, year: Option<int>) returns (total: int)
      ensures total == Trips.DaysFor(Filtered(trips, year), countryCode)
    {
      var summaries := GetCountrySummaries(year);
      TotalOfSorted(Filtered(trips, year), countryCode);
      total := TotalOf(summaries, countryCode);
    }

    /** getTripsForYear: the trips whose start date is in `year`, in list order (year 0 included). */
    function TripsForYear(year: int): (r: seq<Trip>)
      reads this
      ensures |r| <= |trips|
      ensures forall t :: t in r <==> t in trips && Calendar.YearOf(t.startDate) == year
    {
      Trips.StartYearTripsMembers(trips, year);
      Trips.StartYearTrips(trips, year)
    }
  }
}
