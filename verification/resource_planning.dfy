/** The resource calculator of the planning page: the item count, staff count
    and truck count it holds, the action it preloads from the query string,
    the validation of a typed item count, the "optimize" button, the slider
    ranges and the daily cost. */
module ResourcePlanning {
  import opened Seqs
  import opened JsMath
  import opened DataService

  /** Rupees per staff member per day. */
  const StaffDayRate: int := 800
  /** Rupees per truck per day. */
  const TruckDayRate: int := 2000

  /** `actions.find(a => a.id === id)`: the first action with that id, or none. */
  function FindAction(actions: seq<Action>, id: string): (found: Option<Action>)
    ensures found.None? <==> forall j :: 0 <= j < |actions| ==> actions[j].id != id
    ensures found.Some? ==>
              && found.value.id == id
              && exists k :: 0 <= k < |actions| && actions[k] == found.value && forall j :: 0 <= j < k ==> actions[j].id != id
  {
    var k := FirstIndex(actions, (a: Action) => a.id == id);
    if k < |actions| then Some(actions[k]) else None
  }

  /** The upper end of the staff slider, `Math.max(10, staffCount * 2)`: it
      never cuts off the current value, and the range above the minimum of 1 is
      never empty. */
  function StaffSliderMax(staff: int): (m: int)
    ensures m >= 10 && m >= 2 * staff
    ensures m == 10 || m == 2 * staff
  {
    Max(10, 2 * staff)
  }

  /** The upper end of the truck slider, `Math.max(5, truckCount * 2)`. */
  function TruckSliderMax(trucks: int): (m: int)
    ensures m >= 5 && m >= 2 * trucks
    ensures m == 5 || m == 2 * trucks
  {
    Max(5, 2 * trucks)
  }

  /** The daily cost of a plan. It grows with either count, and every plan the
      sizing heuristic proposes costs at least one staff member and one truck. */
  function PlanCost(staff: int, trucks: int): (cost: int)
    ensures staff >= 1 && trucks >= 1 ==> cost >= StaffDayRate + TruckDayRate
    ensures staff >= 0 && trucks >= 0 ==> cost >= 0
  {
    StaffDayRate * staff + TruckDayRate * trucks
  }

  /** Adding a staff member or a truck adds its day rate to the cost. */
  lemma PlanCostIncrements(staff: int, trucks: int)
    ensures PlanCost(staff + 1, trucks) == PlanCost(staff, trucks) + StaffDayRate
    ensures PlanCost(staff, trucks + 1) == PlanCost(staff, trucks) + TruckDayRate
  {
  }

  /** An action made by `generateActions` from a forecast month asks for more
      than 30 items, and its staff and trucks follow the day sizing rules. */
  lemma GeneratedActionNeeds(month: seq<Day>, firstDay: Date, draws: seq<DayDraws>, coins: seq<Draw>, j: int)
    requires IsMonthForecast(month, firstDay, draws) && |coins| == |month|
    requires 0 <= j < |ActionList(month, coins)|
    ensures ActionList(month, coins)[j].itemCount > 30
    ensures ActionList(month, coins)[j].staffAssigned == StaffFor(ActionList(month, coins)[j].itemCount)
    ensures ActionList(month, coins)[j].trucksAssigned == TrucksFor(ActionList(month, coins)[j].itemCount)
  {
    ActionsCopyNonLowDays(month, coins);
    var i :| 0 <= i < |month| && month[i].tag != Low && CopiesDay(ActionList(month, coins)[j], month[i]);
    assert IsForecast(month[i], firstDay + i, i + 1, draws[i]);
  }

  /** No action asks for a negative number of items, staff or trucks. */
  predicate NeedsNonNegative(actions: seq<Action>)
  {
    forall j :: 0 <= j < |actions| ==>
      actions[j].itemCount >= 0 && actions[j].staffAssigned >= 0 && actions[j].trucksAssigned >= 0
  }

  /** What the loading effect computes before it touches the page state: a
      forecast month and the actions for it. */
  method LoadMonth(firstDay: Date, daysInMonth: nat, draws: seq<DayDraws>, coins: seq<Draw>)
    returns (data: seq<Day>, actionsList: seq<Action>)
    requires |draws| == daysInMonth && |coins| == daysInMonth
    requires forall i :: 0 <= i < |draws| ==> StationDrawsOk(draws[i])
    ensures IsMonthForecast(data, firstDay, draws)
    ensures actionsList == ActionList(data, coins)
    ensures NeedsNonNegative(actionsList)
  {
    data := GenerateMonthData(firstDay, daysInMonth, draws);
    actionsList := GenerateActions(data, coins);
    forall j | 0 <= j < |actionsList|
      ensures actionsList[j].itemCount >= 0 && actionsList[j].staffAssigned >= 0 && actionsList[j].trucksAssigned >= 0
    {
      GeneratedActionNeeds(data, firstDay, draws, coins, j);
    }
  }

  /** The page's state. `itemCount`, `staffCount` and `truckCount` are the three
      numbers the calculator edits; `monthData`, `actions` and `selectedAction`
      are what the page loads. */
  class Calculator {
    var monthData: seq<Day>
    var actions: seq<Action>
    var selectedAction: Option<Action>
    var itemCount: int
    var staffCount: int
    var truckCount: int

    /** None of the three counts is ever negative, so the current staff and
        truck counts never exceed their sliders' maximum. */
    ghost predicate Valid()
      reads this
    {
      itemCount >= 0 && staffCount >= 0 && truckCount >= 0
    }

    /** The staff and trucks are what the heuristic proposes for the item count. */
    predicate Optimized()
      reads this
    {
      Resources(staffCount, truckCount) == CalculateOptimalResources(itemCount)
    }

    /** The state before loading: all counts zero, nothing loaded or selected. */
    constructor ()
      ensures Valid()
      ensures monthData == [] && actions == [] && selectedAction == None
      ensures itemCount == 0 && staffCount == 0 && truckCount == 0
    {
      monthData := [];
      actions := [];
      selectedAction := None;
      itemCount := 0;
      staffCount := 0;
      truckCount := 0;
    }

    /** The loading effect: forecast a month, derive its actions, then select
        the action the query string names, if any. */
    method LoadData(firstDay: Date, daysInMonth: nat, draws: seq<DayDraws>, coins: seq<Draw>,
                    actionId: Option<string>)
      requires Valid()
      requires |draws| == daysInMonth && |coins| == daysInMonth
      requires forall i :: 0 <= i < |draws| ==> StationDrawsOk(draws[i])
      modifies this
      ensures Valid()
      ensures IsMonthForecast(monthData, firstDay, draws)
      ensures actions == ActionList(monthData, coins)
      ensures Selected(actionId, old(selectedAction), old(itemCount), old(staffCount), old(truckCount))
    {
      var data, actionsList := LoadMonth(firstDay, daysInMonth, draws, coins);
      monthData := data;
      actions := actionsList;
      SelectAction(actionId);
    }

    /** The state after looking up `actionId` among the loaded actions: when
        the id is present and not empty and some action has it, that action is
        selected and its item count, staff and trucks are copied; otherwise the
        selection and the three counts are the given earlier ones. */
    predicate Selected(actionId: Option<string>, selected0: Option<Action>, items0: int, staff0: int, trucks0: int)
      reads this
    {
      var found := if actionId.Some? && actionId.value != "" then FindAction(actions, actionId.value) else None;
      if found.Some? then
        && selectedAction == found
        && itemCount == found.value.itemCount
        && staffCount == found.value.staffAssigned
        && truckCount == found.value.trucksAssigned
      else
        && selectedAction == selected0
        && itemCount == items0
        && staffCount == staff0
        && truckCount == trucks0
    }

    /** The lookup part of the loading effect: `if (actionId)`, then
        `actionsList.find(...)`, then `if (action)` copy its numbers. */
    method SelectAction(actionId: Option<string>)
      requires Valid() && NeedsNonNegative(actions)
      modifies this
      ensures Valid()
      ensures monthData == old(monthData) && actions == old(actions)
      ensures Selected(actionId, old(selectedAction), old(itemCount), old(staffCount), old(truckCount))
    {
      var found := if actionId.Some? && actionId.value != "" then FindAction(actions, actionId.value) else None;
      if found.Some? {
        var action := found.value;
        assert action in actions;
        selectedAction := found;
        itemCount := action.itemCount;
        staffCount := action.staffAssigned;
        truckCount := action.trucksAssigned;
      }
    }

    /** `handleItemCountChange`: `parsed` is what `parseInt` made of the typed
        text, none for NaN. A non-negative count is taken and the staff and
        trucks are re-sized for it; anything else leaves all three counts as
        they were. */
    method HandleItemCountChange(parsed: Option<int>)
      requires Valid()
      modifies this
      ensures Valid()
      ensures parsed.Some? && parsed.value >= 0 ==>
                && itemCount == parsed.value
                && Optimized()
                && CalculateCost() >= StaffDayRate + TruckDayRate
      ensures !(parsed.Some? && parsed.value >= 0) ==>
                itemCount == old(itemCount) && staffCount == old(staffCount) && truckCount == old(truckCount)
      ensures monthData == old(monthData) && actions == old(actions) && selectedAction == old(selectedAction)
    {
      if parsed.Some? && parsed.value >= 0 {
        var count := parsed.value;
        itemCount := count;
        var optimal := CalculateOptimalResources(count);
        staffCount := optimal.staff;
        truckCount := optimal.trucks;
      }
    }

    /** `handleOptimizeClick`: re-size staff and trucks for the current item
        count, which stays as it is. Clicking again changes nothing. */
    method HandleOptimizeClick()
      requires Valid()
      modifies this
      ensures Valid() && Optimized()
      ensures itemCount == old(itemCount)
      ensures old(Optimized()) ==> staffCount == old(staffCount) && truckCount == old(truckCount)
      ensures monthData == old(monthData) && actions == old(actions) && selectedAction == old(selectedAction)
    {
      var optimal := CalculateOptimalResources(itemCount);
      staffCount := optimal.staff;
      truckCount := optimal.trucks;
    }

    /** Moving the staff slider to `value`, which the slider keeps between its
        minimum of 1 and its maximum. */
    method SlideStaff(value: int)
      requires Valid() && 1 <= value <= StaffSliderMax(staffCount)
      modifies this
      ensures Valid() && staffCount == value
      ensures itemCount == old(itemCount) && truckCount == old(truckCount)
      ensures monthData == old(monthData) && actions == old(actions) && selectedAction == old(selectedAction)
    {
      staffCount := value;
    }

    /** Moving the truck slider to `value`. */
    method SlideTrucks(value: int)
      requires Valid() && 1 <= value <= TruckSliderMax(truckCount)
      modifies this
      ensures Valid() && truckCount == value
      ensures itemCount == old(itemCount) && staffCount == old(staffCount)
      ensures monthData == old(monthData) && actions == old(actions) && selectedAction == old(selectedAction)
    {
      truckCount := value;
    }

    /** `calculateCost`: the daily cost of the current staff and trucks. */
    function CalculateCost(): (cost: int)
      reads this
      ensures staffCount >= 1 && truckCount >= 1 ==> cost >= StaffDayRate + TruckDayRate
      ensures staffCount >= 0 && truckCount >= 0 ==> cost >= 0
    {
      PlanCost(staffCount, truckCount)
    }
  }
}
