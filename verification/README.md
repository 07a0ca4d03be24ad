# metro-time-scribe: a Dafny model of the lost-items planner

The application forecasts lost-and-found volume on the Delhi Metro. It also
sizes the staff and trucks needed to clear that volume. This project models
its logic:

- **The month forecast.** Each day gets an item count: a random base plus
  weekend, busy-weekday and festival bonuses. The day's staff, trucks, tag
  and note follow from that count.
- **The station split.** A day's items are spread over a random subset of
  40 metro stations, and the list is then sorted by items.
- **The actions.** One action is made for every high-volume day. After
  those come actions for coin-selected medium days.
- **The lookup** of a day by date.
- **The sizing heuristic** for staff and trucks.
- **The calculator state** of the resource-planning page.
- **The analytics page's** weekday averages and top-5 days.
- **The dashboard's** totals and its split of the actions into today's and
  the upcoming ones.

Every call to `Math.random()` is an explicit `Draw`: an integer u in
[0, 2^53) that stands for u / 2^53. The random shuffle of the station list is
an explicit permutation of catalog positions. With those as parameters, every
operation is a deterministic function of its draws, and the properties hold
for all draws.

Modules:

- `Seqs` (`seqs.dfy`) holds the JavaScript array methods the code relies
  on:
  - a left-fold sum (`reduce`);
  - a stable sort by numeric key (`sort` with a subtracting comparator);
  - facts about distinct elements that survive reordering.
- `JsMath` (`js_math.dfy`) holds the integer versions of `Math.floor(random *
  n)`, `Math.ceil`, `Math.round`, `Math.max` and `Math.min`.
- `Decimal` (`decimal.dfy`) holds decimal numerals, as template literals
  print integers in action ids and titles.
- `StationCatalog` (`station_catalog.dfy`) is the `metroStations` list and
  the proof that its names are distinct.
- `DataService` (`data_service.dfy`) models `src/lib/data-service.ts`:
  - the per-day forecast;
  - `generateStationData`, as a loop threading the remaining items, proved
    equal to a recursive specification;
  - `generateActions`, as two loops pushing actions, proved equal to a list
    specification;
  - `findDayData` and `calculateOptimalResources`.
- `ResourcePlanning` (`resource_planning.dfy`) models
  `src/pages/ResourcePlanning.tsx` as a class `Calculator`. Its fields are the
  page state, and its methods are the effect and the handlers.
- `Analytics` (`analytics.dfy`) models `src/pages/Analytics.tsx`:
  - the weekday `reduce`, as a loop that updates the accumulator in place;
  - its reference definition by weekday groups;
  - the averaging and sort;
  - the top-5 selection.
- `Dashboard` (`dashboard.dfy`) models `src/pages/Dashboard.tsx`.

Dates are day numbers counted from 1 January 1970, a Thursday, so `getDay`
is `(date + 4) % 7`. A month is a first day plus a number of days, and the
i-th day (counted from 0) is the (i+1)-th of its month.

Where the code and its comments or documentation disagree, the model follows
the code:

- **Draw ranges.** The comments at `src/lib/data-service.ts:66-70` give
  ranges of "10-30", "15-30", "5-15" and "20-50". The floor-based draws
  actually give:
  - [10, 29] for the base;
  - [15, 29] for the weekend bonus;
  - [5, 14] for the busy-weekday bonus;
  - [20, 49] for the festival bonus.

  A day therefore has between 10 and 107 items.
- **Station count.** The station count is described as "between 10-30".
  It is `min(floor(random * 20) + 10, 40)`, that is 10 to 29.
- **Station totals.** The station items add up to exactly the day's total.
  Every station but the one served last gets at least one item. The last
  station takes what remains, which is 0 or negative when the one-item
  minimums overdraw: the last station gets at most the total less one item
  per other station, so a total of 0 leaves it a negative count whenever
  two or more stations are active.
- **Sizing for every count.** `calculateOptimalResources` is defined for
  every integer, including zero and negative counts, and always answers at
  least one staff member and one truck. Its truck ratio (one per 30 items,
  one per 35 above 100) differs from the per-day ratio of one truck per 25
  items.

## Model

| member | source | states |
|---|---|---|
| JsMath.FloorTimes | src/lib/data-service.ts:66-70 | `Math.floor(Math.random() * n)` lies in [0, n) for every draw when n > 0, and in [n, 0] when n <= 0 |
| JsMath.ScaledIsProduct | src/lib/data-service.ts:66 | the repeated-addition product used by `FloorTimes` equals u·n, so `FloorTimes` is floor(u·n / 2^53) |
| JsMath.CeilDiv | src/lib/data-service.ts:73-74 | `Math.ceil(a / b)` is the least r with a <= b·r |
| JsMath.RoundDiv | src/pages/Analytics.tsx:53-55 | `Math.round(a / b)` is the integer nearest a / b, with halves rounded up |
| Decimal.NatToString | src/lib/data-service.ts:144 | the numeral of n is non-empty, all digits, and starts with 0 only for 0 |
| Decimal.IntToString | src/lib/data-service.ts:145 | `${i}` starts with a minus sign exactly when i is negative |
| Decimal.NatToStringRoundTrip | src/lib/data-service.ts:144 | reading the numeral of n back gives n |
| Decimal.NatToStringInjective | src/lib/data-service.ts:144 | different numbers have different numerals |
| StationCatalog.CatalogDistinct | src/lib/data-service.ts:33-46 | `metroStations` has 40 names, no two alike |
| StationCatalog.CatalogEntriesDiffer | src/lib/data-service.ts:33-46 | entries at two different positions of the catalog differ |
| DataService.Weekday | src/lib/data-service.ts:59-61 | `getDay` of a date lies in 0..6 |
| DataService.StaffFor | src/lib/data-service.ts:73 | staff is the least positive count whose ten-item shares cover the items: at least 1 even for zero or negative items |
| DataService.TrucksFor | src/lib/data-service.ts:74 | trucks is the least positive count whose 25-item loads cover the items: at least 1 even for zero or negative items |
| DataService.TagFor | src/lib/data-service.ts:77-79 | high iff items > 50, medium iff 30 < items <= 50, low iff items <= 30 |
| DataService.NotesFor | src/lib/data-service.ts:82-85 | the festival note beats the weekend note, which beats the busy-weekday note; the note is empty iff none applies |
| DataService.BaseItems | src/lib/data-service.ts:66 | the base count lies in [10, 29] |
| DataService.WeekendBonus | src/lib/data-service.ts:68 | the weekend bonus lies in [15, 29] |
| DataService.BusyWeekdayBonus | src/lib/data-service.ts:69 | the Monday/Friday bonus lies in [5, 14] |
| DataService.FestivalBonus | src/lib/data-service.ts:70 | the festival bonus lies in [20, 49] |
| DataService.ForecastItems | src/lib/data-service.ts:59-70 | a day has 10 to 107 items; a weekend has at least 25, a busy weekday 15 to 92, the 15th at least 30; a quiet day has at most 29 and is tagged low |
| DataService.ActiveStationCount | src/lib/data-service.ts:105 | between 10 and 29 stations are active |
| DataService.ShareCap | src/lib/data-service.ts:126 | the cap is the least integer not below 1.5 times the remaining items per remaining station |
| DataService.StationShare | src/lib/data-service.ts:127 | a station that is not last gets at least 1 item, and either exactly 1 or less than the cap |
| DataService.Allocate | src/lib/data-service.ts:116-133 | the stations are served one per name |
| DataService.AllocateServesNames | src/lib/data-service.ts:116-133 | the j-th station served carries the j-th name and the staff and trucks its items call for |
| DataService.AllocateSharesPositive | src/lib/data-service.ts:125-128 | every station but the last served gets at least one item |
| DataService.AllocateLastAtMost | src/lib/data-service.ts:114-128 | the last station gets at most the total less one item per other station, hence a negative count when the total is smaller than the number of other stations |
| DataService.AllocateSum | src/lib/data-service.ts:114-128 | the items served add up to exactly the day's total; the last station absorbs the remainder |
| DataService.AllocateStep | src/lib/data-service.ts:125-128 | the first station takes its share and the rest split what remains |
| DataService.ServeNext | src/lib/data-service.ts:125-133 | one pass of the loop for a station that is not last keeps the served list a prefix of the allocation |
| DataService.ServeLast | src/lib/data-service.ts:118-122 | the last pass of the loop completes the allocation |
| DataService.Shuffled | src/lib/data-service.ts:108 | the shuffled list has 40 names, each a catalog entry |
| DataService.ShuffledDistinct | src/lib/data-service.ts:108 | the shuffled list names no station twice |
| DataService.SortedSplitOk | src/lib/data-service.ts:114-134 | the sorted split of distinct names: each name once, needs matching items, non-increasing items, sum equal to the total, only the final station possibly below 1 |
| DataService.SplitServesNames | src/lib/data-service.ts:116-134 | after the sort every station still carries an active name and matching needs |
| DataService.SplitNamesDistinct | src/lib/data-service.ts:111-134 | after the sort no two stations share a name |
| DataService.SplitSum | src/lib/data-service.ts:114-134 | sorting does not change the sum of the station items |
| DataService.SplitSharesPositive | src/lib/data-service.ts:125-134 | after sorting by items, every station but the final one holds at least one item |
| DataService.StationSplitOk | src/lib/data-service.ts:103-135 | the station list has 10 to 29 distinct catalog stations with matching needs, sorted by items, summing to the total, all but the final one at least 1 |
| DataService.ServedNamesDistinct | src/lib/data-service.ts:111-116 | serving distinct names in order gives stations with distinct names |
| DataService.SortedDescending | src/lib/data-service.ts:134 | sorting by the negated item count leaves the items non-increasing |
| DataService.PermutedStationsOk | src/lib/data-service.ts:134 | sorting keeps every station's name among the active ones and its needs |
| DataService.LastServedIsLast | src/lib/data-service.ts:127-134 | only the station served last can hold fewer than one item, so it is the final one after the sort |
| DataService.ServeStations | src/lib/data-service.ts:114-133 | the loop with the running `remainingItems` computes exactly the allocation |
| DataService.GenerateStationData | src/lib/data-service.ts:103-135 | the station list equals the split for the draws and has every property of `StationSplitOk` |
| DataService.GenerateMonthData | src/lib/data-service.ts:49-100 | one forecast per day of the month, in date order, each with the day's items, needs, tag, note and a valid station list |
| DataService.HighDays | src/lib/data-service.ts:142 | the filter keeps at most as many days as it is given |
| DataService.HighDaysMembers | src/lib/data-service.ts:142 | the kept days are exactly the days tagged high |
| DataService.HighDaysInOrder | src/lib/data-service.ts:142 | filtering keeps the days in date order |
| DataService.ChosenMediumDays | src/lib/data-service.ts:155 | the medium filter keeps at most as many days as it is given |
| DataService.ChosenMediumDaysMembers | src/lib/data-service.ts:155 | the kept days are exactly the medium days whose coin exceeds one half |
| DataService.ChosenMediumDaysInOrder | src/lib/data-service.ts:155 | the medium filter keeps the days in date order |
| DataService.KeepsDateOrder | src/lib/data-service.ts:142-155 | a day placed before an ordered selection of later days keeps the order |
| DataService.GenerateActions | src/lib/data-service.ts:138-168 | the two push loops produce the high-day actions `action-1..` followed by the chosen medium-day actions `action-medium-1..` |
| DataService.ActionsCopyNonLowDays | src/lib/data-service.ts:142-165 | every action copies the date, items, staff and trucks of a day that is not low, and none is completed |
| DataService.EveryHighDayHasAction | src/lib/data-service.ts:142-152 | every high day has an action `action-k` among the first ones, copying that day |
| DataService.EveryChosenDayHasAction | src/lib/data-service.ts:155-165 | every chosen medium day has an action `action-medium-k` after the high ones, copying that day |
| DataService.ActionIdsDistinct | src/lib/data-service.ts:142-157 | no two actions share an id |
| DataService.ActionIdsDiffer | src/lib/data-service.ts:142-157 | the ids at two different positions differ |
| DataService.HighActionAt | src/lib/data-service.ts:142-144 | the action at a position below the number of high days has id `action-<position+1>` |
| DataService.MediumActionAt | src/lib/data-service.ts:155-157 | past the high days, the action has id `action-medium-<k>` with k counted from 1 again |
| DataService.HighAndMediumActionIdsDiffer | src/lib/data-service.ts:142-157 | a high-day action and a medium-day action never share an id |
| DataService.HighIdsDiffer | src/lib/data-service.ts:144 | `action-a` and `action-b` differ for a != b |
| DataService.MediumIdsDiffer | src/lib/data-service.ts:157 | `action-medium-a` and `action-medium-b` differ for a != b |
| DataService.HighAndMediumIdsDiffer | src/lib/data-service.ts:142-157 | no `action-k` id equals an `action-medium-k` id |
| DataService.HighActionsInOrder | src/lib/data-service.ts:142-152 | the high-day actions follow the order of their days |
| DataService.MediumActionsInOrder | src/lib/data-service.ts:155-165 | the medium-day actions follow the order of their days |
| DataService.ActionsInDayOrder | src/lib/data-service.ts:138-168 | for a month in date order, the high-day actions are in date order and so are the medium-day actions after them |
| DataService.FindDayData | src/lib/data-service.ts:171-173 | none iff no day is on the date; otherwise the first day on the date; the dashboard's `todayData` (src/pages/Dashboard.tsx line 28) is this lookup on today's date |
| DataService.CalculateOptimalResources | src/lib/data-service.ts:176-193 | at least one staff member and one truck for every count; above 100 items the least counts covering 12 and 35 items each, from 20 to 100 the least covering 10 and 30, below 20 one truck and 1 or 2 staff |
| DataService.OptimalResourcesDropAbove100 | src/lib/data-service.ts:182-185 | 100 items get (10, 4) but 101 items get (9, 3): the heuristic is not monotone |
| ResourcePlanning.FindAction | src/pages/ResourcePlanning.tsx:42 | none iff no action has the id; otherwise the first action with it |
| ResourcePlanning.StaffSliderMax | src/pages/ResourcePlanning.tsx:131-132 | the staff slider's maximum is at least 10 and at least twice the current staff, and is one of the two |
| ResourcePlanning.TruckSliderMax | src/pages/ResourcePlanning.tsx:149-150 | the truck slider's maximum is at least 5 and at least twice the current trucks, and is one of the two |
| ResourcePlanning.PlanCost | src/pages/ResourcePlanning.tsx:76-80 | a plan with at least one staff member and one truck costs at least 2800; non-negative counts cost at least 0 |
| ResourcePlanning.PlanCostIncrements | src/pages/ResourcePlanning.tsx:77-79 | each extra staff member adds 800 and each extra truck adds 2000 |
| ResourcePlanning.GeneratedActionNeeds | src/pages/ResourcePlanning.tsx:36-47 | an action loaded from a forecast month has more than 30 items and the staff and trucks its items call for |
| ResourcePlanning.Calculator.constructor | src/pages/ResourcePlanning.tsx:24-30 | the calculator starts at 0 items, 0 staff, 0 trucks, with nothing loaded or selected |
| ResourcePlanning.Calculator.LoadData | src/pages/ResourcePlanning.tsx:32-53 | loads a forecast month and its actions; a present, non-empty id naming an action selects it and copies its items, staff and trucks; otherwise those stay as they were |
| ResourcePlanning.LoadMonth | src/pages/ResourcePlanning.tsx:36-39 | the loaded month is a forecast month for the draws, the actions are exactly those generated for it, and none asks for negative items, staff or trucks |
| ResourcePlanning.Calculator.SelectAction | src/pages/ResourcePlanning.tsx:41-49 | with a present, non-empty id that some action has, the first such action is selected and its numbers copied; otherwise nothing changes; the loaded month and actions are never touched |
| ResourcePlanning.Calculator.HandleItemCountChange | src/pages/ResourcePlanning.tsx:55-63 | a non-negative count is taken with the optimal staff and trucks, and the cost is then at least 2800; NaN or a negative count changes none of the three |
| ResourcePlanning.Calculator.HandleOptimizeClick | src/pages/ResourcePlanning.tsx:65-70 | staff and trucks become the optimum for the unchanged item count; a second click changes nothing |
| ResourcePlanning.Calculator.SlideStaff | src/pages/ResourcePlanning.tsx:129-136 | the slider sets the staff count only, and the counts stay non-negative |
| ResourcePlanning.Calculator.SlideTrucks | src/pages/ResourcePlanning.tsx:147-154 | the slider sets the truck count only, and the counts stay non-negative |
| ResourcePlanning.Calculator.CalculateCost | src/pages/ResourcePlanning.tsx:76-80 | with at least one staff member and one truck the cost is at least 2800; non-negative counts cost at least 0 |
| Analytics.CountOn | src/pages/Analytics.tsx:38 | a weekday's day count is at most the number of days |
| Analytics.FirstOn | src/pages/Analytics.tsx:34-47 | the position of the first day on a weekday, or the length when there is none |
| Analytics.CountOnPositive | src/pages/Analytics.tsx:34-47 | a weekday's count is positive exactly when some day falls on it |
| Analytics.GroupEntry | src/pages/Analytics.tsx:37-46 | the tallied group of a weekday is for that weekday and counts at least one day |
| Analytics.EntryIndex | src/pages/Analytics.tsx:34 | the position of the first entry for a weekday, or the length when there is none |
| Analytics.AddDay | src/pages/Analytics.tsx:36-48 | one reduce step keeps every entry's count positive and adds at most one entry |
| Analytics.Tally | src/pages/Analytics.tsx:32-50 | every entry of the accumulator counts at least one day, and there are no more entries than days |
| Analytics.OnStep | src/pages/Analytics.tsx:36-47 | adding a day moves only the item total, count and first day of its own weekday |
| Analytics.AbsentWeekday | src/pages/Analytics.tsx:36-47 | a weekday no day falls on has no items and no days |
| Analytics.GroupEntryStep | src/pages/Analytics.tsx:36-38 | a weekday already seen grows by the day's items and one day when the day falls on it, and is unchanged otherwise |
| Analytics.GroupEntryNew | src/pages/Analytics.tsx:39-47 | a weekday seen for the first time holds the day alone, with that day's staff and trucks |
| Analytics.EntryIndexAfterAdd | src/pages/Analytics.tsx:34-48 | after a step the accumulator has an entry for a weekday iff it had one or the day falls on it |
| Analytics.TallyKeys | src/pages/Analytics.tsx:32-50 | the accumulator has an entry for a weekday exactly when some day falls on it |
| Analytics.AddDayDistinct | src/pages/Analytics.tsx:34-48 | a reduce step never makes a second entry for a weekday |
| Analytics.TallyDistinct | src/pages/Analytics.tsx:32-50 | no weekday has two entries in the accumulator |
| Analytics.AddDayEntry | src/pages/Analytics.tsx:34-48 | a reduce step keeps every entry equal to the group of its weekday |
| Analytics.TallyEntries | src/pages/Analytics.tsx:32-50 | each entry holds its weekday's item sum and day count, with the staff and trucks of the first such day only |
| Analytics.TallyCounts | src/pages/Analytics.tsx:38-46 | the counts of the accumulator add up to the number of days |
| Analytics.AddDayCounts | src/pages/Analytics.tsx:38-46 | one reduce step adds exactly one to the sum of the counts |
| Analytics.TallyByWeekday | src/pages/Analytics.tsx:32-50 | the in-place reduce loop computes the tally |
| Analytics.Averaged | src/pages/Analytics.tsx:51-55 | averaging keeps the weekday, name and count; items, staff and trucks are each the nearest rounding of the stored value divided by the count, so staff and trucks, never summed, are the first day's needs divided by the count |
| Analytics.AveragedAll | src/pages/Analytics.tsx:51-55 | every entry is averaged, position by position, into a new sequence |
| Analytics.WeeklyData | src/pages/Analytics.tsx:32-56 | the reduce, map and sort give at most one row per day of the month, ordered by weekday (strictness in WeeklyDataAscending) |
| Analytics.WeeklyDataAscending | src/pages/Analytics.tsx:32-56 | the weekly view is strictly ascending by weekday, so no weekday appears twice |
| Analytics.WeeklyEntryFromTally | src/pages/Analytics.tsx:51-56 | each weekly entry is the average of one accumulator entry |
| Analytics.WeeklyDataEntries | src/pages/Analytics.tsx:32-56 | each weekly entry is the averaged group of its weekday: rounded mean items, and the first day's staff and trucks divided by the count |
| Analytics.WeeklyDataCoversWeekdays | src/pages/Analytics.tsx:32-56 | a weekday appears in the weekly view exactly when some day of the month falls on it |
| Analytics.WeeklyDataCounts | src/pages/Analytics.tsx:32-56 | the weekly counts add up to the number of days in the month |
| Analytics.SameCountsSameSum | src/pages/Analytics.tsx:51-55 | averaging does not change the sum of the counts |
| Analytics.RankedByItems | src/pages/Analytics.tsx:59-60 | the sorted copy is a permutation of the month, non-increasing by items |
| Analytics.TopDays | src/pages/Analytics.tsx:59-67 | there are min(5, n) top days, non-increasing by items |
| Analytics.TopDaysAreTop | src/pages/Analytics.tsx:59-67 | the top days summarise the first days of the ranking, chosen and left-out days together are the month, and no left-out day has more items than the last chosen |
| Dashboard.SumByBounds | src/pages/Dashboard.tsx:33-35 | a sum of terms in [lo, hi] lies between n·lo and n·hi |
| Dashboard.MonthHasForecastNeeds | src/pages/Dashboard.tsx:21-23 | every day of a generated month has 10 to 107 items and the needs they call for |
| Dashboard.ForecastSums | src/pages/Dashboard.tsx:33-35 | over a forecast month the three sums lie between 10 and 107 items, 1 and 11 staff, and 1 and 5 trucks per day |
| Dashboard.TotalItems | src/pages/Dashboard.tsx:33 | `totalItems` over a forecast month lies between 10 and 107 times the number of days (from ForecastSums) |
| Dashboard.TotalStaff | src/pages/Dashboard.tsx:34 | `totalStaff` over a forecast month lies between 1 and 11 times the number of days |
| Dashboard.TotalTrucks | src/pages/Dashboard.tsx:35 | `totalTrucks` over a forecast month lies between 1 and 5 times the number of days |
| Dashboard.HighDayCount | src/pages/Dashboard.tsx:36 | there are no more high days than days |
| Dashboard.HighDayCountIsTally | src/pages/Dashboard.tsx:36 | the high-day count is the number of days tagged high |
| Dashboard.HighDayCountCountsHighActions | src/pages/Dashboard.tsx:36 | the first high-day-count actions are exactly the `action-k` ones |
| Dashboard.TodayActions | src/pages/Dashboard.tsx:29 | today's actions are no more than all actions |
| Dashboard.UpcomingActions | src/pages/Dashboard.tsx:30 | the upcoming actions are no more than all actions |
| Dashboard.TodayActionsMembers | src/pages/Dashboard.tsx:29 | an action is today's iff it is dated today |
| Dashboard.UpcomingActionsMembers | src/pages/Dashboard.tsx:30 | an action is upcoming iff it is not dated today and not completed |
| Dashboard.TodayAndUpcomingDisjoint | src/pages/Dashboard.tsx:29-30 | no action is both today's and upcoming, and no upcoming action is completed |
| Dashboard.TodayAndUpcomingCover | src/pages/Dashboard.tsx:29-30 | when no action is completed, the two lists together have as many entries as the actions |
| Dashboard.GeneratedActionsSplit | src/pages/Dashboard.tsx:29-30 | every generated action is in exactly one of the two lists, and their lengths add up to the number of actions |

## Left out

- **Randomness.** The distribution of `Math.random()` and the quality of the
  `sort(() => Math.random() - 0.5)` shuffle are not modelled. Draws are
  parameters, and the shuffle is any permutation of the catalog. The
  properties hold for every draw.
- **Floating point.** The `* 1.5` share cap (`src/lib/data-service.ts:126`)
  is computed exactly as ceil(3·remaining / (2·stations left)). The double
  rounding of `remaining / left * 1.5` could differ from this in the last
  bit. Divisions in `Math.ceil` and `Math.round` are likewise exact. The
  products `Math.random() * n` are computed as the exact floor of u·n/2^53
  for a 53-bit draw u; the floating-point product can round up across an
  integer boundary in its last bit, which the model does not reproduce.
- **Calendar arithmetic.** date-fns (`startOfMonth`, `endOfMonth`,
  `eachDayOfInterval`, `isSameDay`, `format`) is replaced by integer day
  numbers. Time of day and time zones are not modelled, and `isSameDay` is
  equality of day numbers. Formatted dates ("MMM d") are kept as day numbers.
- **Input parsing.** `parseInt` is not modelled. The calculator receives its
  result as an optional integer, with none standing for NaN.
- **UI and asynchrony.** The `setTimeout` delays, the loading flags, React's
  batching of state updates, toasts, recharts, `toLocaleString` and the
  `timeframe` selector of the analytics page are not modelled. Neither is
  `handleSaveClick`, which only shows a toast. The page effects are modelled
  as one synchronous method.
- **Other pages.** `src/pages/Calendar.tsx`, `src/pages/Settings.tsx`,
  `src/components/AppSidebar.tsx` and `src/components/Layout.tsx` are
  presentational and are not part of this model.
- **Analytics.topDays copy.** That `topDays` sorts a copy and leaves
  `monthData` as it was holds by construction, since sequences are values.
- ResourcePlanning.Calculator.SlideStaff: the slider component keeps its
  values between its minimum and maximum, and the model takes that as a
  precondition rather than clamping.
- ResourcePlanning.Calculator.SlideTrucks: likewise, the truck slider's range
  from 1 to its maximum is a precondition rather than a clamp.
