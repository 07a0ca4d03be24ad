/** The forecast and allocation rules of the lost-items planner: the per-day
    forecast of a month, the split of a day's items over metro stations, the
    actions derived from a forecast, the lookup of a day by date, and the
    staff and truck sizing heuristic.

    Every `Math.random()` call is an explicit `Draw`, and the random shuffle of
    the station list is an explicit permutation, so each operation is a
    deterministic function of its draws. */
module DataService {
  import opened Seqs
  import opened JsMath
  import opened StationCatalog
  import Decimal

  /** A calendar date, as a day number counted from 1 January 1970. */
  type Date = int

  /** `getDay`: 0 is Sunday and 6 is Saturday; 1 January 1970 was a Thursday. */
  function Weekday(date: Date): (w: int)
    ensures 0 <= w < 7
  {
    (date + 4) % 7
  }

  datatype Tag = Low | Medium | High

  datatype Station = Station(name: string, items: int, staffNeeded: int, trucksNeeded: int)

  datatype Day = Day(date: Date, items: int, staffNeeded: int, trucksNeeded: int,
                     notes: string, tag: Tag, stations: seq<Station>)

  datatype Action = Action(id: string, title: string, date: Date, itemCount: int,
                           staffAssigned: int, trucksAssigned: int, completed: bool)

  datatype Resources = Resources(staff: int, trucks: int)

  /* ---------------------------------------------------------------------
     Resource needs and the severity tag
     --------------------------------------------------------------------- */

  /** `Math.max(1, Math.ceil(items / 10))`: the least positive number of staff
      whose ten-item shares cover `items`. */
  function StaffFor(items: int): (staff: int)
    ensures staff >= 1 && items <= 10 * staff
    ensures staff == 1 || 10 * (staff - 1) < items
  {
    Max(1, CeilDiv(items, 10))
  }

  /** `Math.max(1, Math.ceil(items / 25))`: the least positive number of trucks
      whose 25-item loads cover `items`. */
  function TrucksFor(items: int): (trucks: int)
    ensures trucks >= 1 && items <= 25 * trucks
    ensures trucks == 1 || 25 * (trucks - 1) < items
  {
    Max(1, CeilDiv(items, 25))
  }

  function TagFor(items: int): (tag: Tag)
    ensures tag == High <==> items > 50
    ensures tag == Medium <==> 30 < items <= 50
    ensures tag == Low <==> items <= 30
  {
    if items > 50 then High else if items > 30 then Medium else Low
  }

  /* ---------------------------------------------------------------------
     The per-day forecast
     --------------------------------------------------------------------- */

  predicate IsWeekend(weekday: int)
  {
    weekday == 0 || weekday == 6
  }

  predicate IsBusyWeekday(weekday: int)
  {
    weekday == 1 || weekday == 5
  }

  predicate IsFestival(dayOfMonth: int)
  {
    dayOfMonth == 15
  }

  const FestivalNote: string := "Festival Day - Expect high volume"
  const WeekendNote: string := "Weekend - Above average volume expected"
  const BusyWeekdayNote: string := "Busy weekday - Prepare additional staff"

  /** The note of a day: festival before weekend before busy weekday. */
  function NotesFor(weekday: int, dayOfMonth: int): (notes: string)
    ensures IsFestival(dayOfMonth) ==> notes == FestivalNote
    ensures !IsFestival(dayOfMonth) && IsWeekend(weekday) ==> notes == WeekendNote
    ensures !IsFestival(dayOfMonth) && IsBusyWeekday(weekday) ==> notes == BusyWeekdayNote
    ensures notes == "" <==> !IsFestival(dayOfMonth) && !IsWeekend(weekday) && !IsBusyWeekday(weekday)
  {
    if IsFestival(dayOfMonth) then FestivalNote
    else if IsWeekend(weekday) then WeekendNote
    else if IsBusyWeekday(weekday) then BusyWeekdayNote
    else ""
  }

  /** The four draws of a day's item count, one per possible term. */
  datatype ItemDraws = ItemDraws(base: Draw, weekend: Draw, busy: Draw, festival: Draw)

  /** `Math.floor(Math.random() * 20) + 10`. */
  function BaseItems(u: Draw): (n: int)
    ensures 10 <= n <= 29
  {
    FloorTimes(u, 20) + 10
  }

  /** `Math.floor(Math.random() * 15) + 15`. */
  function WeekendBonus(u: Draw): (n: int)
    ensures 15 <= n <= 29
  {
    FloorTimes(u, 15) + 15
  }

  /** `Math.floor(Math.random() * 10) + 5`. */
  function BusyWeekdayBonus(u: Draw): (n: int)
    ensures 5 <= n <= 14
  {
    FloorTimes(u, 10) + 5
  }

  /** `Math.floor(Math.random() * 30) + 20`. */
  function FestivalBonus(u: Draw): (n: int)
    ensures 20 <= n <= 49
  {
    FloorTimes(u, 30) + 20
  }

  /** A day's item count: the base plus each bonus that applies. A weekend day
      is never a busy weekday, so at most two bonuses add up. */
  function ForecastItems(weekday: int, dayOfMonth: int, draws: ItemDraws): (items: int)
    ensures 10 <= items <= 107
    ensures IsWeekend(weekday) ==> 25 <= items
    ensures IsBusyWeekday(weekday) ==> 15 <= items <= 92
    ensures IsFestival(dayOfMonth) ==> 30 <= items
    ensures !IsWeekend(weekday) && !IsBusyWeekday(weekday) && !IsFestival(dayOfMonth) ==>
              items <= 29 && TagFor(items) == Low
  {
    BaseItems(draws.base)
    + (if IsWeekend(weekday) then WeekendBonus(draws.weekend) else 0)
    + (if IsBusyWeekday(weekday) then BusyWeekdayBonus(draws.busy) else 0)
    + (if IsFestival(dayOfMonth) then FestivalBonus(draws.festival) else 0)
  }

  /* ---------------------------------------------------------------------
     Splitting a day's items over stations
     --------------------------------------------------------------------- */

  function StationItems(s: Station): int
  {
    s.items
  }

  function StationName(s: Station): string
  {
    s.name
  }

  /** The sort key of `(a, b) => b.items - a.items`: most items first. */
  function ItemsDescending(s: Station): int
  {
    -s.items
  }

  function MakeStation(name: string, items: int): Station
  {
    Station(name, items, StaffFor(items), TrucksFor(items))
  }

  predicate StationNeedsMatch(s: Station)
  {
    s.staffNeeded == StaffFor(s.items) && s.trucksNeeded == TrucksFor(s.items)
  }

  /** `Math.min(Math.floor(Math.random() * 20) + 10, metroStations.length)`. */
  function ActiveStationCount(u: Draw): (count: int)
    ensures 10 <= count <= 29
  {
    Min(FloorTimes(u, 20) + 10, |MetroStations|)
  }

  /** `Math.ceil(remaining / left * 1.5)`, computed exactly as the least
      integer not below 3·remaining / (2·left). */
  function ShareCap(remaining: int, left: int): (cap: int)
    requires left > 0
    ensures 2 * left * (cap - 1) < 3 * remaining <= 2 * left * cap
  {
    CeilDiv(3 * remaining, 2 * left)
  }

  /** `Math.max(1, Math.floor(Math.random() * cap))`: the share of a station
      that is not the last one, when `left` stations are still to be served. */
  function StationShare(remaining: int, left: int, u: Draw): (share: int)
    requires left > 0
    ensures share >= 1
    ensures share == 1 || share < ShareCap(remaining, left)
  {
    Max(1, FloorTimes(u, ShareCap(remaining, left)))
  }

  /** The stations in the order they are served: every station but the last
      takes a share of what remains, the last takes all that is left (which is
      zero or negative when the shares of at least one item overdraw). */
  function Allocate(remaining: int, names: seq<string>, draws: seq<Draw>): (stations: seq<Station>)
    requires |names| >= 1 && |draws| == |names| - 1
    ensures |stations| == |names|
    decreases |names|
  {
    if |names| == 1 then
      [MakeStation(names[0], remaining)]
    else
      var share := StationShare(remaining, |names|, draws[0]);
      [MakeStation(names[0], share)] + Allocate(remaining - share, names[1..], draws[1..])
  }

  /** Every name is served once, in order, with the needs its items call for. */
  lemma {:induction false} AllocateServesNames(remaining: int, names: seq<string>, draws: seq<Draw>)
    requires |names| >= 1 && |draws| == |names| - 1
    ensures forall j :: 0 <= j < |names| ==>
              Allocate(remaining, names, draws)[j].name == names[j] && StationNeedsMatch(Allocate(remaining, names, draws)[j])
    decreases |names|
  {
    if |names| > 1 {
      var share := StationShare(remaining, |names|, draws[0]);
      AllocateServesNames(remaining - share, names[1..], draws[1..]);
      AllocateStep(remaining, names, draws);
    }
  }

  /** Every station but the last gets at least one item. */
  lemma {:induction false} AllocateSharesPositive(remaining: int, names: seq<string>, draws: seq<Draw>)
    requires |names| >= 1 && |draws| == |names| - 1
    ensures forall j :: 0 <= j < |names| - 1 ==> Allocate(remaining, names, draws)[j].items >= 1
    decreases |names|
  {
    if |names| > 1 {
      var share := StationShare(remaining, |names|, draws[0]);
      AllocateSharesPositive(remaining - share, names[1..], draws[1..]);
      AllocateStep(remaining, names, draws);
    }
  }

  /** The items of the stations add up to exactly the amount to split. */
  lemma {:induction false} AllocateSum(remaining: int, names: seq<string>, draws: seq<Draw>)
    requires |names| >= 1 && |draws| == |names| - 1
    ensures SumBy(Allocate(remaining, names, draws), StationItems) == remaining
    decreases |names|
  {
    if |names| == 1 {
      SumBySingle(MakeStation(names[0], remaining), StationItems);
    } else {
      var share := StationShare(remaining, |names|, draws[0]);
      var first := MakeStation(names[0], share);
      var rest := Allocate(remaining - share, names[1..], draws[1..]);
      AllocateSum(remaining - share, names[1..], draws[1..]);
      AllocateStep(remaining, names, draws);
      SumByConcat([first], rest, StationItems);
      SumBySingle(first, StationItems);
    }
  }

  /** Every station before the last takes at least one item, so the last gets
      at most what was to split less one item per other station: with fewer
      items than stations but one, its count is negative. */
  lemma {:induction false} AllocateLastAtMost(remaining: int, names: seq<string>, draws: seq<Draw>)
    requires |names| >= 1 && |draws| == |names| - 1
    ensures Allocate(remaining, names, draws)[|names| - 1].items <= remaining - (|names| - 1)
    decreases |names|
  {
    if |names| > 1 {
      var share := StationShare(remaining, |names|, draws[0]);
      AllocateLastAtMost(remaining - share, names[1..], draws[1..]);
      AllocateStep(remaining, names, draws);
    }
  }

  /** One step of `Allocate`: the first station takes its share. */
  lemma AllocateStep(remaining: int, names: seq<string>, draws: seq<Draw>)
    requires |names| >= 2 && |draws| == |names| - 1
    ensures var share := StationShare(remaining, |names|, draws[0]);
            Allocate(remaining, names, draws)
            == [MakeStation(names[0], share)] + Allocate(remaining - share, names[1..], draws[1..])
  {
  }

  /** The loop of `generateStationData` serves the station at `index` as
      `Allocate` does. */
  lemma ServeNext(total: int, names: seq<string>, draws: seq<Draw>, index: nat, remaining: int, share: int,
                  served: seq<Station>)
    requires |draws| == |names| - 1 && index < |names| - 1
    requires share == StationShare(remaining, |names| - index, draws[index])
    requires served + Allocate(remaining, names[index..], draws[index..]) == Allocate(total, names, draws)
    ensures (served + [MakeStation(names[index], share)]) + Allocate(remaining - share, names[index + 1..], draws[index + 1..])
            == Allocate(total, names, draws)
  {
    var ns, ds := names[index..], draws[index..];
    assert |ns| == |names| - index && ns[0] == names[index] && ds[0] == draws[index];
    assert ns[1..] == names[index + 1..] && ds[1..] == draws[index + 1..];
    AllocateStep(remaining, ns, ds);
    var station := MakeStation(names[index], share);
    var rest := Allocate(remaining - share, ns[1..], ds[1..]);
    assert (served + [station]) + rest == served + ([station] + rest);
  }

  /** The loop of `generateStationData` gives the last station what remains. */
  lemma ServeLast(total: int, names: seq<string>, draws: seq<Draw>, remaining: int, served: seq<Station>)
    requires |names| >= 1 && |draws| == |names| - 1
    requires served + Allocate(remaining, names[|names| - 1..], draws[|names| - 1..]) == Allocate(total, names, draws)
    ensures served + [MakeStation(names[|names| - 1], remaining)] == Allocate(total, names, draws)
  {
    assert names[|names| - 1..] == [names[|names| - 1]];
  }

  /** A shuffle of the catalog, given by where its entries come from:
      `order[i]` is the catalog position of the i-th name after shuffling. */
  predicate IsShuffle(order: seq<int>)
  {
    && |order| == |MetroStations|
    && (forall i :: 0 <= i < |order| ==> 0 <= order[i] < |MetroStations|)
    && Distinct(order)
  }

  /** `[...metroStations].sort(() => Math.random() - 0.5)`: the catalog's
      names in shuffled order. */
  function Shuffled(order: seq<int>): (names: seq<string>)
    requires IsShuffle(order)
    ensures |names| == |MetroStations|
    ensures forall i :: 0 <= i < |names| ==> InCatalog(names[i]) && names[i] == MetroStations[order[i]]
  {
    seq(|order|, i requires 0 <= i < |order| => MetroStations[order[i]])
  }

  /** A shuffled catalog names no station twice. */
  lemma ShuffledDistinct(order: seq<int>)
    requires IsShuffle(order)
    ensures Distinct(Shuffled(order))
  {
    var names := Shuffled(order);
    forall i, j | 0 <= i < j < |names|
      ensures names[i] != names[j]
    {
      CatalogEntriesDiffer(order[i], order[j]);
    }
  }

  /** What a station list of a day with `total` items looks like. */
  predicate StationListOk(stations: seq<Station>, total: int)
  {
    && 10 <= |stations| <= 29
    && (forall j :: 0 <= j < |stations| ==> InCatalog(stations[j].name) && StationNeedsMatch(stations[j]))
    && DistinctBy(stations, StationName)
    && (forall i, j :: 0 <= i < j < |stations| ==> stations[i].items >= stations[j].items)
    && SumBy(stations, StationItems) == total
    && (forall j :: 0 <= j < |stations| - 1 ==> stations[j].items >= 1)
  }

  /** The station list for the draws: the first `ActiveStationCount` names of
      the shuffled catalog, served in that order, then sorted by items. */
  function StationSplit(totalItems: int, countDraw: Draw, order: seq<int>, shareDraws: seq<Draw>): seq<Station>
    requires IsShuffle(order)
    requires |shareDraws| == ActiveStationCount(countDraw) - 1
  {
    SortByKey(Allocate(totalItems, Shuffled(order)[..ActiveStationCount(countDraw)], shareDraws), ItemsDescending)
  }

  /** The sorted split of `total` items over the distinct stations `names`:
      each name once with the needs its items call for, most items first, the
      items adding up to `total`, and only the final station possibly empty. */
  predicate SplitOk(stations: seq<Station>, total: int, names: seq<string>)
  {
    && |stations| == |names|
    && (forall j :: 0 <= j < |stations| ==> stations[j].name in names && StationNeedsMatch(stations[j]))
    && DistinctBy(stations, StationName)
    && (forall i, j :: 0 <= i < j < |stations| ==> stations[i].items >= stations[j].items)
    && SumBy(stations, StationItems) == total
    && (forall j :: 0 <= j < |stations| - 1 ==> stations[j].items >= 1)
  }

  lemma SortedSplitOk(total: int, names: seq<string>, draws: seq<Draw>)
    requires |names| >= 1 && |draws| == |names| - 1 && Distinct(names)
    ensures SplitOk(SortByKey(Allocate(total, names, draws), ItemsDescending), total, names)
  {
    var stations := SortByKey(Allocate(total, names, draws), ItemsDescending);
    SplitServesNames(total, names, draws);
    SplitNamesDistinct(total, names, draws);
    SortedDescending(stations);
    SplitSum(total, names, draws);
    SplitSharesPositive(total, names, draws);
  }

  lemma SplitServesNames(total: int, names: seq<string>, draws: seq<Draw>)
    requires |names| >= 1 && |draws| == |names| - 1
    ensures var stations := SortByKey(Allocate(total, names, draws), ItemsDescending);
            forall j :: 0 <= j < |stations| ==> stations[j].name in names && StationNeedsMatch(stations[j])
  {
    AllocateServesNames(total, names, draws);
    PermutedStationsOk(Allocate(total, names, draws), SortByKey(Allocate(total, names, draws), ItemsDescending), names);
  }

  lemma SplitNamesDistinct(total: int, names: seq<string>, draws: seq<Draw>)
    requires |names| >= 1 && |draws| == |names| - 1 && Distinct(names)
    ensures DistinctBy(SortByKey(Allocate(total, names, draws), ItemsDescending), StationName)
  {
    var served := Allocate(total, names, draws);
    AllocateServesNames(total, names, draws);
    ServedNamesDistinct(names, served);
    PermutationDistinctBy(served, SortByKey(served, ItemsDescending), StationName);
  }

  lemma SplitSum(total: int, names: seq<string>, draws: seq<Draw>)
    requires |names| >= 1 && |draws| == |names| - 1
    ensures SumBy(SortByKey(Allocate(total, names, draws), ItemsDescending), StationItems) == total
  {
    var served := Allocate(total, names, draws);
    AllocateSum(total, names, draws);
    SumByPermutation(served, SortByKey(served, ItemsDescending), StationItems);
  }

  lemma SplitSharesPositive(total: int, names: seq<string>, draws: seq<Draw>)
    requires |names| >= 1 && |draws| == |names| - 1 && Distinct(names)
    ensures var stations := SortByKey(Allocate(total, names, draws), ItemsDescending);
            forall j :: 0 <= j < |stations| - 1 ==> stations[j].items >= 1
  {
    var served := Allocate(total, names, draws);
    var stations := SortByKey(served, ItemsDescending);
    AllocateSharesPositive(total, names, draws);
    SplitNamesDistinct(total, names, draws);
    SortedDescending(stations);
    forall j | 0 <= j < |stations| - 1
      ensures stations[j].items >= 1
    {
      LastServedIsLast(served, stations, j);
    }
  }

  lemma StationSplitOk(totalItems: int, countDraw: Draw, order: seq<int>, shareDraws: seq<Draw>)
    requires IsShuffle(order)
    requires |shareDraws| == ActiveStationCount(countDraw) - 1
    ensures StationListOk(StationSplit(totalItems, countDraw, order, shareDraws), totalItems)
  {
    var names := Shuffled(order);
    var active := names[..ActiveStationCount(countDraw)];
    var stations := StationSplit(totalItems, countDraw, order, shareDraws);
    ShuffledDistinct(order);
    SortedSplitOk(totalItems, active, shareDraws);
    forall j | 0 <= j < |stations|
      ensures InCatalog(stations[j].name)
    {
      var p :| 0 <= p < |active| && active[p] == stations[j].name;
      assert names[p] == active[p];
    }
  }

  lemma ServedNamesDistinct(names: seq<string>, served: seq<Station>)
    requires Distinct(names) && |served| <= |names|
    requires forall j :: 0 <= j < |served| ==> served[j].name == names[j]
    ensures DistinctBy(served, StationName)
  {
    forall i, j | 0 <= i < j < |served|
      ensures StationName(served[i]) != StationName(served[j])
    {
      assert served[i].name == names[i] && served[j].name == names[j];
    }
  }

  lemma SortedDescending(stations: seq<Station>)
    requires SortedByKey(stations, ItemsDescending)
    ensures forall i, j :: 0 <= i < j < |stations| ==> stations[i].items >= stations[j].items
  {
    forall i, j | 0 <= i < j < |stations|
      ensures stations[i].items >= stations[j].items
    {
      assert ItemsDescending(stations[i]) <= ItemsDescending(stations[j]);
    }
  }

  lemma PermutedStationsOk(served: seq<Station>, stations: seq<Station>, names: seq<string>)
    requires multiset(served) == multiset(stations) && |served| == |names|
    requires forall j :: 0 <= j < |served| ==> served[j].name == names[j] && StationNeedsMatch(served[j])
    ensures forall j :: 0 <= j < |stations| ==> stations[j].name in names && StationNeedsMatch(stations[j])
  {
    forall j | 0 <= j < |stations|
      ensures stations[j].name in names && StationNeedsMatch(stations[j])
    {
      assert stations[j] in multiset(served);
      var p :| 0 <= p < |served| && served[p] == stations[j];
      assert names[p] == stations[j].name;
    }
  }

  /** Only the station served last can hold fewer than one item, so after the
      sort every station but the final one holds at least one. */
  lemma LastServedIsLast(served: seq<Station>, stations: seq<Station>, j: int)
    requires multiset(served) == multiset(stations) && |served| == |stations|
    requires DistinctBy(stations, StationName)
    requires forall k :: 0 <= k < |served| - 1 ==> served[k].items >= 1
    requires forall i, k :: 0 <= i < k < |stations| ==> stations[i].items >= stations[k].items
    requires 0 <= j < |stations| - 1
    ensures stations[j].items >= 1
  {
    var last := |stations| - 1;
    assert stations[j] in multiset(served) && stations[last] in multiset(served);
    var p :| 0 <= p < |served| && served[p] == stations[j];
    var q :| 0 <= q < |served| && served[q] == stations[last];
    assert StationName(stations[j]) != StationName(stations[last]);
    assert p != q;
  }

  /** The `map` of `generateStationData`: serve the stations one by one,
      threading the count of items not yet given out. */
  method ServeStations(totalItems: int, activeStations: seq<string>, shareDraws: seq<Draw>)
    returns (mapped: seq<Station>)
    requires |activeStations| >= 1 && |shareDraws| == |activeStations| - 1
    ensures mapped == Allocate(totalItems, activeStations, shareDraws)
  {
    var remainingItems := totalItems;
    mapped := [];
    var index := 0;
    while index < |activeStations|
      invariant 0 <= index <= |activeStations|
      invariant index < |activeStations| ==>
        mapped + Allocate(remainingItems, activeStations[index..], shareDraws[index..])
        == Allocate(totalItems, activeStations, shareDraws)
      invariant index == |activeStations| ==> mapped == Allocate(totalItems, activeStations, shareDraws)
    {
      var name := activeStations[index];
      if index == |activeStations| - 1 {
        ServeLast(totalItems, activeStations, shareDraws, remainingItems, mapped);
        mapped := mapped + [MakeStation(name, remainingItems)];
      } else {
        var items := StationShare(remainingItems, |activeStations| - index, shareDraws[index]);
        ServeNext(totalItems, activeStations, shareDraws, index, remainingItems, items, mapped);
        remainingItems := remainingItems - items;
        mapped := mapped + [MakeStation(name, items)];
      }
      index := index + 1;
    }
  }

  /** `generateStationData`: take the first `ActiveStationCount` names of the
      shuffled catalog, serve them, and sort the list by items, most first. */
  method GenerateStationData(totalItems: int, countDraw: Draw, order: seq<int>, shareDraws: seq<Draw>)
    returns (stations: seq<Station>)
    requires IsShuffle(order)
    requires |shareDraws| == ActiveStationCount(countDraw) - 1
    ensures stations == StationSplit(totalItems, countDraw, order, shareDraws)
    ensures StationListOk(stations, totalItems)
  {
    var activeStationCount := ActiveStationCount(countDraw);
    var activeStations := Shuffled(order)[..activeStationCount];
    var mapped := ServeStations(totalItems, activeStations, shareDraws);
    stations := SortByKey(mapped, ItemsDescending);
    StationSplitOk(totalItems, countDraw, order, shareDraws);
  }

  /* ---------------------------------------------------------------------
     A month of forecasts
     --------------------------------------------------------------------- */

  /** The draws behind one day: its item count, how many stations are active,
      the shuffled catalog and one share draw per station but the last. */
  datatype DayDraws = DayDraws(items: ItemDraws, stationCount: Draw, order: seq<int>, shares: seq<Draw>)

  /** What `Math.random()` and the shuffle guarantee about the draws. */
  predicate StationDrawsOk(d: DayDraws)
  {
    IsShuffle(d.order) && |d.shares| == ActiveStationCount(d.stationCount) - 1
  }

  /** The forecast of the day `date`, the `dayOfMonth`-th of its month. */
  predicate IsForecast(day: Day, date: Date, dayOfMonth: int, d: DayDraws)
    requires StationDrawsOk(d)
  {
    && day.date == date
    && day.items == ForecastItems(Weekday(date), dayOfMonth, d.items)
    && day.staffNeeded == StaffFor(day.items)
    && day.trucksNeeded == TrucksFor(day.items)
    && day.tag == TagFor(day.items)
    && day.notes == NotesFor(Weekday(date), dayOfMonth)
    && day.stations == StationSplit(day.items, d.stationCount, d.order, d.shares)
  }

  /** A month of forecasts: the i-th day is the forecast of `firstDay + i`,
      the (i+1)-th day of its month. */
  predicate IsMonthForecast(month: seq<Day>, firstDay: Date, draws: seq<DayDraws>)
  {
    && |month| == |draws|
    && (forall i :: 0 <= i < |draws| ==> StationDrawsOk(draws[i]))
    && (forall i :: 0 <= i < |month| ==> IsForecast(month[i], firstDay + i, i + 1, draws[i]))
  }

  predicate DatesAscending(days: seq<Day>)
  {
    forall i, j :: 0 <= i < j < |days| ==> days[i].date < days[j].date
  }

  /** `generateMonthData`: one forecast per day of the month that starts on
      `firstDay` and has `daysInMonth` days, in date order. */
  method GenerateMonthData(firstDay: Date, daysInMonth: nat, draws: seq<DayDraws>) returns (month: seq<Day>)
    requires |draws| == daysInMonth
    requires forall i :: 0 <= i < |draws| ==> StationDrawsOk(draws[i])
    ensures |month| == daysInMonth
    ensures forall i :: 0 <= i < daysInMonth ==>
              IsForecast(month[i], firstDay + i, i + 1, draws[i]) && StationListOk(month[i].stations, month[i].items)
    ensures DatesAscending(month)
  {
    month := [];
    var i := 0;
    while i < daysInMonth
      invariant 0 <= i <= daysInMonth && |month| == i
      invariant forall k :: 0 <= k < i ==>
                  IsForecast(month[k], firstDay + k, k + 1, draws[k]) && StationListOk(month[k].stations, month[k].items)
    {
      var date := firstDay + i;
      var weekday := Weekday(date);
      var items := ForecastItems(weekday, i + 1, draws[i].items);
      var stations := GenerateStationData(items, draws[i].stationCount, draws[i].order, draws[i].shares);
      var day := Day(date, items, StaffFor(items), TrucksFor(items), NotesFor(weekday, i + 1), TagFor(items), stations);
      month := month + [day];
      i := i + 1;
    }
  }

  /* ---------------------------------------------------------------------
     Actions
     --------------------------------------------------------------------- */

  /** `days.filter(day => day.tag === 'high')`. */
  function HighDays(days: seq<Day>): (highs: seq<Day>)
    ensures |highs| <= |days|
  {
    if days == [] then []
    else if days[0].tag == High then [days[0]] + HighDays(days[1..])
    else HighDays(days[1..])
  }

  /** The high days are exactly the days tagged high. */
  lemma {:induction false} HighDaysMembers(days: seq<Day>)
    ensures forall d :: d in HighDays(days) <==> d in days && d.tag == High
  {
    if days != [] {
      HighDaysMembers(days[1..]);
      assert days == [days[0]] + days[1..];
    }
  }

  /** Filtering keeps the days in date order. */
  lemma {:induction false} HighDaysInOrder(days: seq<Day>)
    requires DatesAscending(days)
    ensures DatesAscending(HighDays(days))
  {
    if days != [] {
      HighDaysInOrder(days[1..]);
      HighDaysMembers(days[1..]);
      KeepsDateOrder(days, HighDays(days[1..]));
    }
  }

  /** `days.filter(day => day.tag === 'medium' && Math.random() > 0.5)`, with
      `coins[i]` the draw made for `days[i]`. */
  function ChosenMediumDays(days: seq<Day>, coins: seq<Draw>): (chosen: seq<Day>)
    requires |coins| == |days|
    ensures |chosen| <= |days|
  {
    if days == [] then []
    else if days[0].tag == Medium && AboveHalf(coins[0]) then [days[0]] + ChosenMediumDays(days[1..], coins[1..])
    else ChosenMediumDays(days[1..], coins[1..])
  }

  predicate Chosen(days: seq<Day>, coins: seq<Draw>, i: int)
    requires |coins| == |days| && 0 <= i < |days|
  {
    days[i].tag == Medium && AboveHalf(coins[i])
  }

  /** The chosen days are exactly the medium days whose draw exceeds one half. */
  lemma {:induction false} ChosenMediumDaysMembers(days: seq<Day>, coins: seq<Draw>)
    requires |coins| == |days|
    ensures forall d :: d in ChosenMediumDays(days, coins) <==>
              exists i :: 0 <= i < |days| && days[i] == d && Chosen(days, coins, i)
  {
    if days != [] {
      var rest := ChosenMediumDays(days[1..], coins[1..]);
      ChosenMediumDaysMembers(days[1..], coins[1..]);
      forall d | d in ChosenMediumDays(days, coins)
        ensures exists i :: 0 <= i < |days| && days[i] == d && Chosen(days, coins, i)
      {
        if !(d == days[0] && Chosen(days, coins, 0)) {
          assert d in rest;
          var i :| 0 <= i < |days[1..]| && days[1..][i] == d && Chosen(days[1..], coins[1..], i);
          assert days[i + 1] == d && Chosen(days, coins, i + 1);
        }
      }
      forall i | 0 <= i < |days| && Chosen(days, coins, i)
        ensures days[i] in ChosenMediumDays(days, coins)
      {
        if i > 0 {
          assert days[1..][i - 1] == days[i] && Chosen(days[1..], coins[1..], i - 1);
        }
      }
    }
  }

  /** Choosing keeps the days in date order. */
  lemma {:induction false} ChosenMediumDaysInOrder(days: seq<Day>, coins: seq<Draw>)
    requires |coins| == |days| && DatesAscending(days)
    ensures DatesAscending(ChosenMediumDays(days, coins))
  {
    if days != [] {
      var rest := ChosenMediumDays(days[1..], coins[1..]);
      ChosenMediumDaysInOrder(days[1..], coins[1..]);
      ChosenMediumDaysMembers(days[1..], coins[1..]);
      forall d | d in rest
        ensures d in days[1..]
      {
        var i :| 0 <= i < |days[1..]| && days[1..][i] == d && Chosen(days[1..], coins[1..], i);
      }
      KeepsDateOrder(days, rest);
    }
  }

  lemma KeepsDateOrder(days: seq<Day>, rest: seq<Day>)
    requires days != [] && DatesAscending(days) && DatesAscending(rest)
    requires forall d :: d in rest ==> d in days[1..]
    ensures DatesAscending([days[0]] + rest)
  {
    forall k | 0 <= k < |rest|
      ensures days[0].date < rest[k].date
    {
      assert rest[k] in days[1..];
      var p :| 0 <= p < |days[1..]| && days[1..][p] == rest[k];
      assert days[p + 1] == rest[k];
    }
  }

  function HighActionId(n: nat): string
  {
    "action-" + Decimal.NatToString(n)
  }

  function MediumActionId(n: nat): string
  {
    "action-medium-" + Decimal.NatToString(n)
  }

  /** An action for `day`, staffed as the day needs and not completed. */
  function ActionFor(day: Day, id: string, title: string): Action
  {
    Action(id, title, day.date, day.items, day.staffNeeded, day.trucksNeeded, false)
  }

  function HighAction(day: Day, n: nat): Action
  {
    ActionFor(day, HighActionId(n), "Empty " + Decimal.IntToString(day.items) + " stock items")
  }

  function MediumAction(day: Day, n: nat): Action
  {
    ActionFor(day, MediumActionId(n), "Process " + Decimal.IntToString(day.items) + " found items")
  }

  /** One action per high day, numbered from 1. */
  function HighActions(highs: seq<Day>): seq<Action>
  {
    seq(|highs|, j requires 0 <= j < |highs| => HighAction(highs[j], j + 1))
  }

  /** One action per chosen medium day, numbered from 1 in a series of their own. */
  function MediumActions(mediums: seq<Day>): seq<Action>
  {
    seq(|mediums|, j requires 0 <= j < |mediums| => MediumAction(mediums[j], j + 1))
  }

  /** The actions of `generateActions`: the high-day ones, then the medium-day ones. */
  function ActionList(days: seq<Day>, coins: seq<Draw>): seq<Action>
    requires |coins| == |days|
  {
    HighActions(HighDays(days)) + MediumActions(ChosenMediumDays(days, coins))
  }

  /** `generateActions`: push the high-day actions, then the medium-day ones. */
  method GenerateActions(days: seq<Day>, coins: seq<Draw>) returns (actions: seq<Action>)
    requires |coins| == |days|
    ensures actions == ActionList(days, coins)
  {
    actions := [];
    var highs := HighDays(days);
    var index := 0;
    while index < |highs|
      invariant 0 <= index <= |highs|
      invariant actions == HighActions(highs)[..index]
    {
      assert HighActions(highs)[..index + 1] == HighActions(highs)[..index] + [HighAction(highs[index], index + 1)];
      actions := actions + [HighAction(highs[index], index + 1)];
      index := index + 1;
    }
    assert actions == HighActions(highs);
    var mediums := ChosenMediumDays(days, coins);
    index := 0;
    while index < |mediums|
      invariant 0 <= index <= |mediums|
      invariant actions == HighActions(highs) + MediumActions(mediums)[..index]
    {
      ghost var done := MediumActions(mediums)[..index];
      assert MediumActions(mediums)[..index + 1] == done + [MediumAction(mediums[index], index + 1)];
      assert actions + [MediumAction(mediums[index], index + 1)]
             == HighActions(highs) + (done + [MediumAction(mediums[index], index + 1)]);
      actions := actions + [MediumAction(mediums[index], index + 1)];
      index := index + 1;
    }
    assert MediumActions(mediums)[..|mediums|] == MediumActions(mediums);
  }

  /** An action carries the date and needs of `day` and is not completed. */
  predicate CopiesDay(a: Action, day: Day)
  {
    a.date == day.date && a.itemCount == day.items && a.staffAssigned == day.staffNeeded
    && a.trucksAssigned == day.trucksNeeded && !a.completed
  }

  /** Every action copies a day that is not tagged low, and none is completed. */
  lemma ActionsCopyNonLowDays(days: seq<Day>, coins: seq<Draw>)
    requires |coins| == |days|
    ensures forall j :: 0 <= j < |ActionList(days, coins)| ==>
              exists i :: 0 <= i < |days| && days[i].tag != Low && CopiesDay(ActionList(days, coins)[j], days[i])
  {
    var actions := ActionList(days, coins);
    var highs := HighDays(days);
    var mediums := ChosenMediumDays(days, coins);
    HighDaysMembers(days);
    ChosenMediumDaysMembers(days, coins);
    forall j | 0 <= j < |actions|
      ensures exists i :: 0 <= i < |days| && days[i].tag != Low && CopiesDay(actions[j], days[i])
    {
      if j < |highs| {
        assert actions[j] == HighAction(highs[j], j + 1);
        assert highs[j] in highs;
        var i :| 0 <= i < |days| && days[i] == highs[j];
        assert CopiesDay(actions[j], days[i]);
      } else {
        var m := j - |highs|;
        assert actions[j] == MediumAction(mediums[m], m + 1);
        assert mediums[m] in mediums;
        var i :| 0 <= i < |days| && days[i] == mediums[m] && Chosen(days, coins, i);
        assert CopiesDay(actions[j], days[i]);
      }
    }
  }

  /** Every high day gets an action `action-<k>` in the high-day block that
      copies it. */
  lemma EveryHighDayHasAction(days: seq<Day>, coins: seq<Draw>, i: int)
    requires |coins| == |days| && 0 <= i < |days| && days[i].tag == High
    ensures exists j :: 0 <= j < |HighDays(days)| && ActionList(days, coins)[j].id == HighActionId(j + 1)
                        && CopiesDay(ActionList(days, coins)[j], days[i])
  {
    var highs := HighDays(days);
    HighDaysMembers(days);
    assert days[i] in highs;
    var j :| 0 <= j < |highs| && highs[j] == days[i];
    assert ActionList(days, coins)[j] == HighAction(highs[j], j + 1);
  }

  /** Every chosen medium day gets an action `action-medium-<k>`. */
  lemma EveryChosenDayHasAction(days: seq<Day>, coins: seq<Draw>, i: int)
    requires |coins| == |days| && 0 <= i < |days| && Chosen(days, coins, i)
    ensures exists j :: 0 <= j < |ChosenMediumDays(days, coins)|
                        && ActionList(days, coins)[|HighDays(days)|..][j].id == MediumActionId(j + 1)
                        && CopiesDay(ActionList(days, coins)[|HighDays(days)|..][j], days[i])
  {
    var mediums := ChosenMediumDays(days, coins);
    ChosenMediumDaysMembers(days, coins);
    assert days[i] in mediums;
    var j :| 0 <= j < |mediums| && mediums[j] == days[i];
    assert ActionList(days, coins)[|HighDays(days)|..] == MediumActions(mediums);
    assert MediumActions(mediums)[j] == MediumAction(mediums[j], j + 1);
  }

  function ActionId(a: Action): string
  {
    a.id
  }

  /** No two actions share an identifier. */
  lemma ActionIdsDistinct(days: seq<Day>, coins: seq<Draw>)
    requires |coins| == |days|
    ensures DistinctBy(ActionList(days, coins), ActionId)
  {
    var actions := ActionList(days, coins);
    var h := |HighDays(days)|;
    forall i, j | 0 <= i < j < |actions|
      ensures ActionId(actions[i]) != ActionId(actions[j])
    {
      ActionIdsDiffer(days, coins, i, j);
    }
  }

  lemma ActionIdsDiffer(days: seq<Day>, coins: seq<Draw>, i: int, j: int)
    requires |coins| == |days| && 0 <= i < j < |ActionList(days, coins)|
    ensures ActionList(days, coins)[i].id != ActionList(days, coins)[j].id
  {
    var h := |HighDays(days)|;
    if j < h {
      HighActionAt(days, coins, i);
      HighActionAt(days, coins, j);
      HighIdsDiffer(i + 1, j + 1);
    } else if h <= i {
      MediumActionAt(days, coins, i);
      MediumActionAt(days, coins, j);
      MediumIdsDiffer(i - h + 1, j - h + 1);
    } else {
      HighAndMediumActionIdsDiffer(days, coins, i, j);
    }
  }

  /** A high-day action and a medium-day action never share an identifier. */
  lemma HighAndMediumActionIdsDiffer(days: seq<Day>, coins: seq<Draw>, i: int, j: int)
    requires |coins| == |days| && 0 <= i < |HighDays(days)| <= j < |ActionList(days, coins)|
    ensures ActionList(days, coins)[i].id != ActionList(days, coins)[j].id
  {
    HighActionAt(days, coins, i);
    MediumActionAt(days, coins, j);
    HighAndMediumIdsDiffer(i + 1, j - |HighDays(days)| + 1);
  }

  /** The action at a position below the number of high days is the high
      action for the high day there, numbered from 1. */
  lemma HighActionAt(days: seq<Day>, coins: seq<Draw>, j: int)
    requires |coins| == |days| && 0 <= j < |HighDays(days)|
    ensures j < |ActionList(days, coins)|
    ensures ActionList(days, coins)[j].id == HighActionId(j + 1)
  {
    var highs := HighDays(days);
    assert ActionList(days, coins)[j] == HighActions(highs)[j];
  }

  /** Past the high days come the chosen medium days, numbered from 1 again. */
  lemma MediumActionAt(days: seq<Day>, coins: seq<Draw>, j: int)
    requires |coins| == |days| && |HighDays(days)| <= j < |ActionList(days, coins)|
    ensures ActionList(days, coins)[j].id == MediumActionId(j - |HighDays(days)| + 1)
  {
    var highs, mediums := HighDays(days), ChosenMediumDays(days, coins);
    assert ActionList(days, coins)[j] == MediumActions(mediums)[j - |highs|];
  }

  lemma HighIdsDiffer(a: nat, b: nat)
    requires a != b
    ensures HighActionId(a) != HighActionId(b)
  {
    Decimal.NatToStringInjective(a, b);
    assert HighActionId(a)[7..] == Decimal.NatToString(a);
    assert HighActionId(b)[7..] == Decimal.NatToString(b);
  }

  lemma MediumIdsDiffer(a: nat, b: nat)
    requires a != b
    ensures MediumActionId(a) != MediumActionId(b)
  {
    Decimal.NatToStringInjective(a, b);
    assert MediumActionId(a)[14..] == Decimal.NatToString(a);
    assert MediumActionId(b)[14..] == Decimal.NatToString(b);
  }

  lemma HighAndMediumIdsDiffer(a: nat, b: nat)
    ensures HighActionId(a) != MediumActionId(b)
  {
    assert HighActionId(a)[7] == Decimal.NatToString(a)[0];
    assert Decimal.IsDigit(HighActionId(a)[7]);
    assert MediumActionId(b)[7] == 'm';
  }

  predicate ActionDatesAscending(actions: seq<Action>)
  {
    forall i, j :: 0 <= i < j < |actions| ==> actions[i].date < actions[j].date
  }

  lemma HighActionsInOrder(highs: seq<Day>)
    requires DatesAscending(highs)
    ensures ActionDatesAscending(HighActions(highs))
  {
    var actions := HighActions(highs);
    forall i, j | 0 <= i < j < |actions|
      ensures actions[i].date < actions[j].date
    {
      assert actions[i].date == highs[i].date && actions[j].date == highs[j].date;
    }
  }

  lemma MediumActionsInOrder(mediums: seq<Day>)
    requires DatesAscending(mediums)
    ensures ActionDatesAscending(MediumActions(mediums))
  {
    var actions := MediumActions(mediums);
    forall i, j | 0 <= i < j < |actions|
      ensures actions[i].date < actions[j].date
    {
      assert actions[i].date == mediums[i].date && actions[j].date == mediums[j].date;
    }
  }

  /** When the days are in date order, so are the high-day actions and so are
      the medium-day actions that follow them. */
  lemma ActionsInDayOrder(days: seq<Day>, coins: seq<Draw>)
    requires |coins| == |days| && DatesAscending(days)
    ensures ActionDatesAscending(ActionList(days, coins)[..|HighDays(days)|])
    ensures ActionDatesAscending(ActionList(days, coins)[|HighDays(days)|..])
  {
    var highs := HighDays(days);
    var mediums := ChosenMediumDays(days, coins);
    HighDaysInOrder(days);
    ChosenMediumDaysInOrder(days, coins);
    HighActionsInOrder(highs);
    MediumActionsInOrder(mediums);
    assert ActionList(days, coins)[..|highs|] == HighActions(highs);
    assert ActionList(days, coins)[|highs|..] == MediumActions(mediums);
  }

  /* ---------------------------------------------------------------------
     Lookup and sizing
     --------------------------------------------------------------------- */

  /** `findDayData`: the first day on `date`, or none. */
  function FindDayData(days: seq<Day>, date: Date): (found: Option<Day>)
    ensures found.None? <==> forall j :: 0 <= j < |days| ==> days[j].date != date
    ensures found.Some? ==>
              && found.value.date == date
              && exists k :: 0 <= k < |days| && days[k] == found.value && forall j :: 0 <= j < k ==> days[j].date != date
  {
    var k := FirstIndex(days, (day: Day) => day.date == date);
    if k < |days| then Some(days[k]) else None
  }

  /** `calculateOptimalResources`: one staff member per 10 items and one truck
      per 30, above 100 items one per 12 and one per 35, and below 20 items at
      least one of each. Every count, zero and negative ones included, gets at
      least one staff member and one truck. */
  function CalculateOptimalResources(itemCount: int): (r: Resources)
    ensures r.staff >= 1 && r.trucks >= 1
    ensures itemCount > 100 ==>
              12 * (r.staff - 1) < itemCount <= 12 * r.staff && 35 * (r.trucks - 1) < itemCount <= 35 * r.trucks
    ensures 20 <= itemCount <= 100 ==>
              10 * (r.staff - 1) < itemCount <= 10 * r.staff && 30 * (r.trucks - 1) < itemCount <= 30 * r.trucks
    ensures itemCount < 20 ==> r.trucks == 1 && r.staff == (if itemCount <= 10 then 1 else 2)
  {
    var staff := CeilDiv(itemCount, 10);
    var trucks := CeilDiv(itemCount, 30);
    if itemCount > 100 then Resources(CeilDiv(itemCount, 12), CeilDiv(itemCount, 35))
    else if itemCount < 20 then Resources(Max(1, staff), Max(1, trucks))
    else Resources(staff, trucks)
  }

  /** Just above 100 items the heuristic recommends fewer staff and fewer
      trucks than at 100 items. */
  lemma OptimalResourcesDropAbove100()
    ensures CalculateOptimalResources(100) == Resources(10, 4)
    ensures CalculateOptimalResources(101) == Resources(9, 3)
  {
  }
}
