/** The two derivations of the analytics page: the average forecast per day
    of the week, and the five busiest days of the month. */
module Analytics {
  import opened Seqs
  import opened JsMath
  import opened DataService

  /** `format(date, "EEE")` for each value of `getDay`. */
  const DayNames: seq<string> := ["Sun", "Mon", "Tue", "Wed", "Thu", "Fri", "Sat"]

  /** One row of the weekly view. While the month is being tallied `items` and
      `count` are running totals; after averaging, the three needs are
      averages. */
  datatype WeekEntry = WeekEntry(dayOfWeek: int, dayName: string, items: int, staffNeeded: int,
                                 trucksNeeded: int, count: int)

  function DayOfWeek(e: WeekEntry): int
  {
    e.dayOfWeek
  }

  function EntryCount(e: WeekEntry): int
  {
    e.count
  }

  /* ---------------------------------------------------------------------
     Reference definitions: per-weekday totals of a list of days
     --------------------------------------------------------------------- */

  /** The items of the days that fall on weekday `w`. */
  function ItemsOn(days: seq<Day>, w: int): int
  {
    if days == [] then 0
    else ItemsOn(days[..|days| - 1], w) + (if Weekday(days[|days| - 1].date) == w then days[|days| - 1].items else 0)
  }

  /** The number of days that fall on weekday `w`. */
  function CountOn(days: seq<Day>, w: int): (n: nat)
    ensures n <= |days|
  {
    if days == [] then 0
    else CountOn(days[..|days| - 1], w) + (if Weekday(days[|days| - 1].date) == w then 1 else 0)
  }

  /** The position of the first day on weekday `w`, or |days| for none. */
  function FirstOn(days: seq<Day>, w: int): (k: nat)
    ensures k <= |days|
    ensures k < |days| ==> Weekday(days[k].date) == w
    ensures forall j :: 0 <= j < k ==> Weekday(days[j].date) != w
  {
    if days == [] then 0
    else
      var k := FirstOn(days[..|days| - 1], w);
      if k < |days| - 1 then k
      else if Weekday(days[|days| - 1].date) == w then |days| - 1
      else |days|
  }

  /** A weekday occurs among the days exactly when some day falls on it. */
  lemma {:induction false} CountOnPositive(days: seq<Day>, w: int)
    ensures CountOn(days, w) > 0 <==> FirstOn(days, w) < |days|
  {
    if days != [] {
      CountOnPositive(days[..|days| - 1], w);
    }
  }

  /** The tallied entry of weekday `w`: the items and the number of its days,
      with the staff and trucks of the first of them. */
  function GroupEntry(days: seq<Day>, w: int): (e: WeekEntry)
    requires 0 <= w < 7 && FirstOn(days, w) < |days|
    ensures e.dayOfWeek == w && e.count > 0
  {
    CountOnPositive(days, w);
    var first := days[FirstOn(days, w)];
    WeekEntry(w, DayNames[w], ItemsOn(days, w), first.staffNeeded, first.trucksNeeded, CountOn(days, w))
  }

  /* ---------------------------------------------------------------------
     The tally: `monthData.reduce(...)`
     --------------------------------------------------------------------- */

  /** `acc.findIndex(item => item.dayOfWeek === w)`, with |acc| for none. */
  function EntryIndex(acc: seq<WeekEntry>, w: int): (k: nat)
    ensures k <= |acc|
    ensures k < |acc| ==> acc[k].dayOfWeek == w
    ensures forall j :: 0 <= j < k ==> acc[j].dayOfWeek != w
  {
    if acc == [] then 0
    else if acc[0].dayOfWeek == w then 0
    else 1 + EntryIndex(acc[1..], w)
  }

  /** One step of the reduce: add the day to the entry of its weekday, or
      append a new entry for it. */
  function AddDay(acc: seq<WeekEntry>, day: Day): (acc': seq<WeekEntry>)
    requires forall k :: 0 <= k < |acc| ==> acc[k].count > 0
    ensures forall k :: 0 <= k < |acc'| ==> acc'[k].count > 0
    ensures |acc| <= |acc'| <= |acc| + 1
  {
    var k := EntryIndex(acc, Weekday(day.date));
    if k < |acc| then acc[k := Bump(acc[k], day)] else acc + [NewEntry(day)]
  }

  /** `existing.items += day.items; existing.count += 1`. */
  function Bump(e: WeekEntry, day: Day): WeekEntry
  {
    e.(items := e.items + day.items, count := e.count + 1)
  }

  /** The entry pushed for the first day of a weekday. */
  function NewEntry(day: Day): WeekEntry
  {
    var w := Weekday(day.date);
    WeekEntry(w, DayNames[w], day.items, day.staffNeeded, day.trucksNeeded, 1)
  }

  /** The accumulator after the reduce has seen `days`. */
  function Tally(days: seq<Day>): (acc: seq<WeekEntry>)
    ensures forall k :: 0 <= k < |acc| ==> acc[k].count > 0
    ensures |acc| <= |days|
  {
    if days == [] then [] else AddDay(Tally(days[..|days| - 1]), days[|days| - 1])
  }

  /* ---------------------------------------------------------------------
     The tally groups the days by weekday
     --------------------------------------------------------------------- */

  /** Adding one day moves the reference totals of its weekday only. */
  lemma OnStep(prefix: seq<Day>, day: Day, v: int)
    ensures ItemsOn(prefix + [day], v) == ItemsOn(prefix, v) + (if Weekday(day.date) == v then day.items else 0)
    ensures CountOn(prefix + [day], v) == CountOn(prefix, v) + (if Weekday(day.date) == v then 1 else 0)
    ensures FirstOn(prefix + [day], v) ==
              if FirstOn(prefix, v) < |prefix| then FirstOn(prefix, v)
              else if Weekday(day.date) == v then |prefix|
              else |prefix| + 1
  {
    var days := prefix + [day];
    assert days[..|days| - 1] == prefix;
  }

  lemma {:induction false} AbsentWeekday(days: seq<Day>, v: int)
    requires FirstOn(days, v) == |days|
    ensures ItemsOn(days, v) == 0 && CountOn(days, v) == 0
  {
    if days != [] {
      AbsentWeekday(days[..|days| - 1], v);
    }
  }

  /** The group of a weekday already seen grows by the day when it falls on
      that weekday, and stays as it was otherwise. */
  lemma GroupEntryStep(prefix: seq<Day>, day: Day, v: int)
    requires 0 <= v < 7 && FirstOn(prefix, v) < |prefix|
    ensures FirstOn(prefix + [day], v) == FirstOn(prefix, v)
    ensures GroupEntry(prefix + [day], v) ==
              if Weekday(day.date) == v then
                GroupEntry(prefix, v).(items := GroupEntry(prefix, v).items + day.items,
                                       count := GroupEntry(prefix, v).count + 1)
              else GroupEntry(prefix, v)
  {
    OnStep(prefix, day, v);
    assert (prefix + [day])[FirstOn(prefix, v)] == prefix[FirstOn(prefix, v)];
  }

  /** The group of a weekday first seen on `day` holds that day alone. */
  lemma GroupEntryNew(prefix: seq<Day>, day: Day)
    requires FirstOn(prefix, Weekday(day.date)) == |prefix|
    ensures FirstOn(prefix + [day], Weekday(day.date)) == |prefix|
    ensures GroupEntry(prefix + [day], Weekday(day.date)) == NewEntry(day)
  {
    OnStep(prefix, day, Weekday(day.date));
    AbsentWeekday(prefix, Weekday(day.date));
    assert (prefix + [day])[|prefix|] == day;
  }

  lemma EntryIndexAfterAdd(acc: seq<WeekEntry>, day: Day, v: int)
    requires forall k :: 0 <= k < |acc| ==> acc[k].count > 0
    ensures (EntryIndex(AddDay(acc, day), v) < |AddDay(acc, day)|)
            <==> (EntryIndex(acc, v) < |acc| || Weekday(day.date) == v)
  {
    var w := Weekday(day.date);
    var k := EntryIndex(acc, w);
    var acc' := AddDay(acc, day);
    var i := EntryIndex(acc, v);
    if i < |acc| {
      assert acc'[i].dayOfWeek == v;
    }
    if w == v && k == |acc| {
      assert acc'[|acc|].dayOfWeek == v;
    }
    if EntryIndex(acc', v) < |acc'| {
      var m := EntryIndex(acc', v);
      if m < |acc| {
        assert acc[m].dayOfWeek == acc'[m].dayOfWeek;
      }
    }
  }

  /** The tally has an entry for a weekday exactly when some day falls on it. */
  lemma {:induction false} TallyKeys(days: seq<Day>, v: int)
    ensures EntryIndex(Tally(days), v) < |Tally(days)| <==> FirstOn(days, v) < |days|
  {
    if days != [] {
      var prefix := days[..|days| - 1];
      var day := days[|days| - 1];
      assert days == prefix + [day];
      TallyKeys(prefix, v);
      EntryIndexAfterAdd(Tally(prefix), day, v);
      OnStep(prefix, day, v);
    }
  }

  lemma AddDayDistinct(acc: seq<WeekEntry>, day: Day)
    requires forall k :: 0 <= k < |acc| ==> acc[k].count > 0
    requires DistinctBy(acc, DayOfWeek)
    ensures DistinctBy(AddDay(acc, day), DayOfWeek)
  {
    var acc' := AddDay(acc, day);
    forall i, j | 0 <= i < j < |acc'|
      ensures DayOfWeek(acc'[i]) != DayOfWeek(acc'[j])
    {
      assert acc'[i].dayOfWeek == acc[i].dayOfWeek;
      if j < |acc| {
        assert acc'[j].dayOfWeek == acc[j].dayOfWeek;
      }
    }
  }

  /** No weekday has two entries in the tally. */
  lemma {:induction false} TallyDistinct(days: seq<Day>)
    ensures DistinctBy(Tally(days), DayOfWeek)
  {
    if days != [] {
      TallyDistinct(days[..|days| - 1]);
      AddDayDistinct(Tally(days[..|days| - 1]), days[|days| - 1]);
    }
  }

  /** `e` is the tallied group of its weekday among `days`. */
  predicate EntryOk(e: WeekEntry, days: seq<Day>)
  {
    0 <= e.dayOfWeek < 7 && FirstOn(days, e.dayOfWeek) < |days| && e == GroupEntry(days, e.dayOfWeek)
  }

  lemma AddDayEntry(acc: seq<WeekEntry>, prefix: seq<Day>, day: Day, j: int)
    requires forall k :: 0 <= k < |acc| ==> acc[k].count > 0
    requires DistinctBy(acc, DayOfWeek)
    requires forall k :: 0 <= k < |acc| ==> EntryOk(acc[k], prefix)
    requires EntryIndex(acc, Weekday(day.date)) < |acc| <==> FirstOn(prefix, Weekday(day.date)) < |prefix|
    requires 0 <= j < |AddDay(acc, day)|
    ensures EntryOk(AddDay(acc, day)[j], prefix + [day])
  {
    var w := Weekday(day.date);
    var k := EntryIndex(acc, w);
    var acc' := AddDay(acc, day);
    if j < |acc| {
      assert EntryOk(acc[j], prefix);
      GroupEntryStep(prefix, day, acc[j].dayOfWeek);
      if j == k {
        assert acc'[j] == Bump(acc[j], day);
      } else {
        assert acc'[j] == acc[j];
        if k < |acc| && k < j {
          assert DayOfWeek(acc[k]) != DayOfWeek(acc[j]);
        }
      }
    } else {
      GroupEntryNew(prefix, day);
    }
  }

  /** Every entry of the tally is the group of its weekday. */
  lemma {:induction false} TallyEntries(days: seq<Day>)
    ensures forall k :: 0 <= k < |Tally(days)| ==> EntryOk(Tally(days)[k], days)
  {
    if days != [] {
      var prefix := days[..|days| - 1];
      var day := days[|days| - 1];
      assert days == prefix + [day];
      TallyEntries(prefix);
      TallyDistinct(prefix);
      TallyKeys(prefix, Weekday(day.date));
      forall k | 0 <= k < |Tally(days)|
        ensures EntryOk(Tally(days)[k], days)
      {
        AddDayEntry(Tally(prefix), prefix, day, k);
      }
    }
  }

  /** The counts of the tally add up to the number of days. */
  lemma {:induction false} TallyCounts(days: seq<Day>)
    ensures SumBy(Tally(days), EntryCount) == |days|
  {
    if days != [] {
      TallyCounts(days[..|days| - 1]);
      AddDayCounts(Tally(days[..|days| - 1]), days[|days| - 1]);
    }
  }

  /** A reduce step adds one to the sum of the counts. */
  lemma AddDayCounts(acc: seq<WeekEntry>, day: Day)
    requires forall k :: 0 <= k < |acc| ==> acc[k].count > 0
    ensures SumBy(AddDay(acc, day), EntryCount) == SumBy(acc, EntryCount) + 1
  {
    var k := EntryIndex(acc, Weekday(day.date));
    if k < |acc| {
      SumByUpdate(acc, k, Bump(acc[k], day), EntryCount);
    } else {
      SumByConcat(acc, [NewEntry(day)], EntryCount);
      SumBySingle(NewEntry(day), EntryCount);
    }
  }

  /** The reduce itself: the accumulator is updated in place, an entry's items
      and count growing, or a new entry pushed. */
  method TallyByWeekday(days: seq<Day>) returns (acc: seq<WeekEntry>)
    ensures acc == Tally(days)
  {
    acc := [];
    var i := 0;
    while i < |days|
      invariant 0 <= i <= |days|
      invariant acc == Tally(days[..i])
    {
      var day := days[i];
      assert days[..i + 1][..i] == days[..i];
      ghost var before := acc;
      var dayOfWeek := Weekday(day.date);
      var existing := EntryIndex(acc, dayOfWeek);
      if existing < |acc| {
        acc := acc[existing := acc[existing].(items := acc[existing].items + day.items,
                                              count := acc[existing].count + 1)];
        assert acc == before[existing := Bump(before[existing], day)];
      } else {
        acc := acc + [WeekEntry(dayOfWeek, DayNames[dayOfWeek], day.items, day.staffNeeded, day.trucksNeeded, 1)];
        assert acc == before + [NewEntry(day)];
      }
      assert acc == AddDay(before, day);
      i := i + 1;
    }
    assert days[..|days|] == days;
  }

  /* ---------------------------------------------------------------------
     Averaging and ordering
     --------------------------------------------------------------------- */

  /** `Math.round(total / count)` of the three needs. Staff and trucks were
      never summed, so they are the first day's values divided by the count. */
  function Averaged(e: WeekEntry): (a: WeekEntry)
    requires e.count > 0
    ensures a.dayOfWeek == e.dayOfWeek && a.dayName == e.dayName && a.count == e.count
    ensures 2 * e.count * a.items - e.count <= 2 * e.items < 2 * e.count * a.items + e.count
    ensures 2 * e.count * a.staffNeeded - e.count <= 2 * e.staffNeeded < 2 * e.count * a.staffNeeded + e.count
    ensures 2 * e.count * a.trucksNeeded - e.count <= 2 * e.trucksNeeded < 2 * e.count * a.trucksNeeded + e.count
  {
    e.(items := RoundDiv(e.items, e.count),
       staffNeeded := RoundDiv(e.staffNeeded, e.count),
       trucksNeeded := RoundDiv(e.trucksNeeded, e.count))
  }

  function AveragedAll(acc: seq<WeekEntry>): (r: seq<WeekEntry>)
    requires forall k :: 0 <= k < |acc| ==> acc[k].count > 0
    ensures |r| == |acc|
    ensures forall k :: 0 <= k < |acc| ==> r[k] == Averaged(acc[k])
  {
    seq(|acc|, k requires 0 <= k < |acc| => Averaged(acc[k]))
  }

  /** `weeklyData`: tally, average, then sort by day of the week. There is at
      most one row per day of the month, in weekday order. */
  function WeeklyData(days: seq<Day>): (week: seq<WeekEntry>)
    ensures |week| <= |days|
    ensures SortedByKey(week, DayOfWeek)
  {
    SortByKey(AveragedAll(Tally(days)), DayOfWeek)
  }

  /** The weekly view is strictly ascending by day of the week, so no weekday
      appears twice. */
  lemma WeeklyDataAscending(days: seq<Day>)
    ensures forall i, j :: 0 <= i < j < |WeeklyData(days)| ==> WeeklyData(days)[i].dayOfWeek < WeeklyData(days)[j].dayOfWeek
  {
    var acc := Tally(days);
    TallyDistinct(days);
    var avg := AveragedAll(acc);
    var week := WeeklyData(days);
    assert DistinctBy(avg, DayOfWeek) by {
      forall i, j | 0 <= i < j < |avg|
        ensures DayOfWeek(avg[i]) != DayOfWeek(avg[j])
      {
        assert DayOfWeek(acc[i]) != DayOfWeek(acc[j]);
      }
    }
    PermutationDistinctBy(avg, week, DayOfWeek);
    forall i, j | 0 <= i < j < |week|
      ensures week[i].dayOfWeek < week[j].dayOfWeek
    {
      assert DayOfWeek(week[i]) <= DayOfWeek(week[j]);
      assert DayOfWeek(week[i]) != DayOfWeek(week[j]);
    }
  }

  /** Each entry of the weekly view comes from one entry of the tally. */
  lemma WeeklyEntryFromTally(days: seq<Day>, k: int) returns (m: int)
    requires 0 <= k < |WeeklyData(days)|
    ensures 0 <= m < |Tally(days)| && WeeklyData(days)[k] == Averaged(Tally(days)[m])
  {
    var avg := AveragedAll(Tally(days));
    assert WeeklyData(days)[k] in multiset(avg);
    m :| 0 <= m < |avg| && avg[m] == WeeklyData(days)[k];
  }

  /** Every entry of the weekly view is the averaged group of its weekday:
      the rounded mean of its items, and the first such day's staff and trucks
      divided by the number of days. */
  lemma WeeklyDataEntries(days: seq<Day>, k: int)
    requires 0 <= k < |WeeklyData(days)|
    ensures 0 <= WeeklyData(days)[k].dayOfWeek < 7
    ensures FirstOn(days, WeeklyData(days)[k].dayOfWeek) < |days|
    ensures WeeklyData(days)[k] == Averaged(GroupEntry(days, WeeklyData(days)[k].dayOfWeek))
  {
    var m := WeeklyEntryFromTally(days, k);
    TallyEntries(days);
    assert EntryOk(Tally(days)[m], days);
  }

  /** A weekday has an entry in the weekly view exactly when some day falls on it. */
  lemma WeeklyDataCoversWeekdays(days: seq<Day>, w: int)
    requires 0 <= w < 7
    ensures (exists k :: 0 <= k < |WeeklyData(days)| && WeeklyData(days)[k].dayOfWeek == w)
            <==> CountOn(days, w) > 0
  {
    var acc := Tally(days);
    TallyKeys(days, w);
    CountOnPositive(days, w);
    var avg := AveragedAll(acc);
    var week := WeeklyData(days);
    if CountOn(days, w) > 0 {
      var m := EntryIndex(acc, w);
      assert avg[m] in multiset(week);
      var k :| 0 <= k < |week| && week[k] == avg[m];
      assert week[k].dayOfWeek == w;
    }
    if exists k :: 0 <= k < |week| && week[k].dayOfWeek == w {
      var k :| 0 <= k < |week| && week[k].dayOfWeek == w;
      var m := WeeklyEntryFromTally(days, k);
      assert acc[m].dayOfWeek == w;
      assert EntryIndex(acc, w) <= m;
    }
  }

  /** The counts of the weekly view add up to the number of days. */
  lemma WeeklyDataCounts(days: seq<Day>)
    ensures SumBy(WeeklyData(days), EntryCount) == |days|
  {
    var acc := Tally(days);
    TallyCounts(days);
    var avg := AveragedAll(acc);
    SumByPermutation(avg, WeeklyData(days), EntryCount);
    SameCountsSameSum(acc, avg);
  }

  lemma {:induction false} SameCountsSameSum(a: seq<WeekEntry>, b: seq<WeekEntry>)
    requires |a| == |b| && forall k :: 0 <= k < |a| ==> EntryCount(a[k]) == EntryCount(b[k])
    ensures SumBy(a, EntryCount) == SumBy(b, EntryCount)
  {
    if a != [] {
      SameCountsSameSum(a[..|a| - 1], b[..|b| - 1]);
    }
  }

  /* ---------------------------------------------------------------------
     The busiest days: `[...monthData].sort(...).slice(0, 5).map(...)`
     --------------------------------------------------------------------- */

  /** A row of the top-days chart. */
  datatype TopDay = TopDay(date: Date, items: int, staffNeeded: int, trucksNeeded: int)

  const TopDayCount: int := 5

  function ItemsDescendingDay(d: Day): int
  {
    -d.items
  }

  function Summary(d: Day): TopDay
  {
    TopDay(d.date, d.items, d.staffNeeded, d.trucksNeeded)
  }

  /** A copy of the month sorted by items, most first (a stable sort). */
  function RankedByItems(days: seq<Day>): (ranked: seq<Day>)
    ensures |ranked| == |days| && multiset(ranked) == multiset(days)
    ensures forall i, j :: 0 <= i < j < |ranked| ==> ranked[i].items >= ranked[j].items
  {
    var ranked := SortByKey(days, ItemsDescendingDay);
    assert forall i, j :: 0 <= i < j < |ranked| ==> ItemsDescendingDay(ranked[i]) <= ItemsDescendingDay(ranked[j]);
    ranked
  }

  /** `topDays`: the first five of the ranking, or all of them in a shorter month. */
  function TopDays(days: seq<Day>): (top: seq<TopDay>)
    ensures |top| == Min(TopDayCount, |days|)
    ensures forall i, j :: 0 <= i < j < |top| ==> top[i].items >= top[j].items
  {
    var ranked := RankedByItems(days);
    var n := Min(TopDayCount, |days|);
    seq(n, k requires 0 <= k < n => Summary(ranked[k]))
  }

  /** The top days summarise days of the month, and no day left out has more
      items than the last one chosen. */
  lemma TopDaysAreTop(days: seq<Day>)
    ensures var ranked := RankedByItems(days);
            var n := |TopDays(days)|;
            && multiset(ranked[..n]) + multiset(ranked[n..]) == multiset(days)
            && (forall k :: 0 <= k < n ==> TopDays(days)[k] == Summary(ranked[k]))
            && (forall j :: n <= j < |ranked| ==> ranked[j].items <= TopDays(days)[n - 1].items)
  {
    var ranked := RankedByItems(days);
    var n := |TopDays(days)|;
    assert ranked == ranked[..n] + ranked[n..];
  }
}
