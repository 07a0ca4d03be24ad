/** The summaries of the dashboard page: the month's totals, the number of
    high-volume days, and the split of the actions into today's and the
    upcoming ones. Today's forecast is `DataService.FindDayData` on today's
    date. */
module Dashboard {
  import opened Seqs
  import opened JsMath
  import opened DataService

  function DayItems(d: Day): int
  {
    d.items
  }

  function DayStaff(d: Day): int
  {
    d.staffNeeded
  }

  function DayTrucks(d: Day): int
  {
    d.trucksNeeded
  }

  /** Each summand of a sum lies between `lo` and `hi`, so the sum lies
      between |s|·lo and |s|·hi. */
  lemma {:induction false} SumByBounds<T>(s: seq<T>, f: T -> int, lo: int, hi: int)
    requires forall k :: 0 <= k < |s| ==> lo <= f(s[k]) <= hi
    ensures |s| * lo <= SumBy(s, f) <= |s| * hi
  {
    if s != [] {
      SumByBounds(s[..|s| - 1], f, lo, hi);
      assert f(s[|s| - 1]) <= hi;
    }
  }

  /** A forecast month: every day's items, staff and trucks as the forecast
      rules set them. */
  predicate ForecastNeeds(days: seq<Day>)
  {
    forall k :: 0 <= k < |days| ==>
      10 <= days[k].items <= 107
      && days[k].staffNeeded == StaffFor(days[k].items)
      && days[k].trucksNeeded == TrucksFor(days[k].items)
  }

  /** The generated month has the needs of a forecast month. */
  lemma MonthHasForecastNeeds(month: seq<Day>, firstDay: Date, draws: seq<DayDraws>)
    requires IsMonthForecast(month, firstDay, draws)
    ensures ForecastNeeds(month)
  {
    forall k | 0 <= k < |month|
      ensures 10 <= month[k].items <= 107
    {
      assert IsForecast(month[k], firstDay + k, k + 1, draws[k]);
    }
  }

  /** Over a forecast month each day brings 10 to 107 items, 1 to 11 staff
      members and 1 to 5 trucks, so the sums lie between those bounds times
      the number of days. */
  lemma ForecastSums(days: seq<Day>)
    ensures ForecastNeeds(days) ==> 10 * |days| <= SumBy(days, DayItems) <= 107 * |days|
    ensures ForecastNeeds(days) ==> |days| <= SumBy(days, DayStaff) <= 11 * |days|
    ensures ForecastNeeds(days) ==> |days| <= SumBy(days, DayTrucks) <= 5 * |days|
  {
    if ForecastNeeds(days) {
      SumByBounds(days, DayItems, 10, 107);
      forall k | 0 <= k < |days|
        ensures 1 <= DayStaff(days[k]) <= 11 && 1 <= DayTrucks(days[k]) <= 5
      {
        assert StaffFor(days[k].items) <= 11 && TrucksFor(days[k].items) <= 5;
      }
      SumByBounds(days, DayStaff, 1, 11);
      SumByBounds(days, DayTrucks, 1, 5);
    }
  }

  /** `totalItems`: the reduce over the month's items. */
  function TotalItems(days: seq<Day>): (total: int)
    ensures ForecastNeeds(days) ==> 10 * |days| <= total <= 107 * |days|
  {
    ForecastSums(days);
    SumBy(days, DayItems)
  }

  /** `totalStaff`: the reduce over the month's staff needs. */
  function TotalStaff(days: seq<Day>): (total: int)
    ensures ForecastNeeds(days) ==> |days| <= total <= 11 * |days|
  {
    ForecastSums(days);
    SumBy(days, DayStaff)
  }

  /** `totalTrucks`: the reduce over the month's truck needs. */
  function TotalTrucks(days: seq<Day>): (total: int)
    ensures ForecastNeeds(days) ==> |days| <= total <= 5 * |days|
  {
    ForecastSums(days);
    SumBy(days, DayTrucks)
  }

  function HighIndicator(d: Day): int
  {
    if d.tag == High then 1 else 0
  }

  /** `highDays`: the number of days the filter keeps. */
  function HighDayCount(days: seq<Day>): (n: nat)
    ensures n <= |days|
  {
    |HighDays(days)|
  }

  /** The count of high days is the number of days tagged high, one for each. */
  lemma {:induction false} HighDayCountIsTally(days: seq<Day>)
    ensures HighDayCount(days) == SumBy(days, HighIndicator)
  {
    if days != [] {
      HighDayCountIsTally(days[1..]);
      assert days == [days[0]] + days[1..];
      SumByConcat([days[0]], days[1..], HighIndicator);
      SumBySingle(days[0], HighIndicator);
    }
  }

  /** The first `HighDayCount` actions are the high-day ones. */
  lemma HighDayCountCountsHighActions(days: seq<Day>, coins: seq<Draw>)
    requires |coins| == |days|
    ensures HighDayCount(days) <= |ActionList(days, coins)|
    ensures forall j :: 0 <= j < HighDayCount(days) ==> ActionList(days, coins)[j].id == HighActionId(j + 1)
  {
    assert ActionList(days, coins)[..HighDayCount(days)] == HighActions(HighDays(days));
  }

  /** `todayActions`: the actions dated today, in order. */
  function TodayActions(actions: seq<Action>, today: Date): (r: seq<Action>)
    ensures |r| <= |actions|
  {
    if actions == [] then []
    else if actions[0].date == today then [actions[0]] + TodayActions(actions[1..], today)
    else TodayActions(actions[1..], today)
  }

  /** `upcomingActions`: the actions not dated today and not completed, in order. */
  function UpcomingActions(actions: seq<Action>, today: Date): (r: seq<Action>)
    ensures |r| <= |actions|
  {
    if actions == [] then []
    else if actions[0].date != today && !actions[0].completed then [actions[0]] + UpcomingActions(actions[1..], today)
    else UpcomingActions(actions[1..], today)
  }

  lemma {:induction false} TodayActionsMembers(actions: seq<Action>, today: Date)
    ensures forall a :: a in TodayActions(actions, today) <==> a in actions && a.date == today
  {
    if actions != [] {
      TodayActionsMembers(actions[1..], today);
      assert actions == [actions[0]] + actions[1..];
    }
  }

  lemma {:induction false} UpcomingActionsMembers(actions: seq<Action>, today: Date)
    ensures forall a :: a in UpcomingActions(actions, today) <==> a in actions && a.date != today && !a.completed
  {
    if actions != [] {
      UpcomingActionsMembers(actions[1..], today);
      assert actions == [actions[0]] + actions[1..];
    }
  }

  /** No action is both today's and upcoming, and no upcoming action is completed. */
  lemma TodayAndUpcomingDisjoint(actions: seq<Action>, today: Date)
    ensures forall a :: a in TodayActions(actions, today) ==> a !in UpcomingActions(actions, today)
    ensures forall a :: a in UpcomingActions(actions, today) ==> !a.completed
  {
    TodayActionsMembers(actions, today);
    UpcomingActionsMembers(actions, today);
  }

  predicate NoneCompleted(actions: seq<Action>)
  {
    forall k :: 0 <= k < |actions| ==> !actions[k].completed
  }

  /** When no action is completed, the two lists together hold every action
      exactly once. */
  lemma {:induction false} TodayAndUpcomingCover(actions: seq<Action>, today: Date)
    requires NoneCompleted(actions)
    ensures |TodayActions(actions, today)| + |UpcomingActions(actions, today)| == |actions|
  {
    if actions != [] {
      TodayAndUpcomingCover(actions[1..], today);
    }
  }

  /** Generated actions are never completed, so each of them is either today's
      or upcoming. */
  lemma GeneratedActionsSplit(days: seq<Day>, coins: seq<Draw>, today: Date)
    requires |coins| == |days|
    ensures var actions := ActionList(days, coins);
            |TodayActions(actions, today)| + |UpcomingActions(actions, today)| == |actions|
    ensures forall a :: a in ActionList(days, coins) ==>
              (a in TodayActions(ActionList(days, coins), today)) != (a in UpcomingActions(ActionList(days, coins), today))
  {
    var actions := ActionList(days, coins);
    ActionsCopyNonLowDays(days, coins);
    assert NoneCompleted(actions) by {
      forall k | 0 <= k < |actions|
        ensures !actions[k].completed
      {
        var i :| 0 <= i < |days| && days[i].tag != Low && CopiesDay(actions[k], days[i]);
      }
    }
    TodayAndUpcomingCover(actions, today);
    TodayActionsMembers(actions, today);
    UpcomingActionsMembers(actions, today);
  }
}
