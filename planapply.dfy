/**
 * `handleApplyPlan` in App.tsx: start from a fresh empty week (clearing
 * the stored week), fill day `DAYS_OF_WEEK[i]` from plan entry `i`, and in
 * each day replace the items of the first slot whose title equals a plan
 * slot's title. The new week is then saved. The ids the source draws from
 * the clock and `Math.random` come from `ids(day, planSlot, item)`.
 */
module PlanApply {
  import opened Wrappers
  import opened Types
  import opened Constants
  import opened JsonValue
  import opened Storage

  /** Where a planned food item's id comes from: plan day index, plan slot index, item index. */
  type FreshIds = (nat, nat, nat) -> string

  /** `x || 0` for an optional number. */
  function OrZero(x: Option<real>): real {
    if x.Some? then x.value else 0.0
  }

  /** A planned item as a food item, absent numbers read as 0. */
  function PlannedMeal(item: PlanItem, id: string): Meal {
    Meal(id, item.name, item.quantity, OrZero(item.calories), OrZero(item.protein), OrZero(item.carbs), OrZero(item.fat))
  }

  /** `slotData.items.map(...)`: one fresh-id food item per planned item, in order. */
  function PlannedMeals(items: seq<PlanItem>, day: nat, slot: nat, ids: FreshIds): (r: seq<Meal>)
    ensures |r| == |items|
    ensures forall j :: 0 <= j < |items| ==> r[j] == PlannedMeal(items[j], ids(day, slot, j))
  {
    seq(|items|, j requires 0 <= j < |items| => PlannedMeal(items[j], ids(day, slot, j)))
  }

  function TitleIs(title: string): MealSlot -> bool {
    (s: MealSlot) => s.title == title
  }

  /** One plan slot applied to a day: the first slot with its title gets the planned items, if it has any. */
  function ApplySlot(slots: seq<MealSlot>, entry: PlanSlot, day: nat, index: nat, ids: FreshIds): (r: seq<MealSlot>)
    ensures |r| == |slots|
    ensures forall k :: 0 <= k < |slots| ==> r[k] == slots[k].(meals := r[k].meals)
  {
    match FirstIndex(slots, TitleIs(entry.slotTitle))
    case None => slots
    case Some(k) =>
      if entry.items.Some? then slots[k := slots[k].(meals := PlannedMeals(entry.items.value, day, index, ids))]
      else slots
  }

  /** The plan slots of one day applied in order; only item lists change. */
  function FillSlots(slots: seq<MealSlot>, entries: seq<PlanSlot>, day: nat, ids: FreshIds): (r: seq<MealSlot>)
    ensures |r| == |slots|
    ensures forall k :: 0 <= k < |slots| ==> r[k] == slots[k].(meals := r[k].meals)
  {
    if entries == [] then slots
    else ApplySlot(FillSlots(slots, entries[..|entries| - 1], day, ids), entries[|entries| - 1], day, |entries| - 1, ids)
  }

  /** Plan entry `i` applied: only indexes below 7 name a day, and only entries with `mealSlots` count. */
  function FillDay(w: WeekData, dayPlan: DayPlan, i: nat, ids: FreshIds): WeekData {
    if i < |DaysOfWeek| && DaysOfWeek[i] in w && dayPlan.mealSlots.Some? then
      var d := DaysOfWeek[i];
      w[d := w[d].(meals := FillSlots(w[d].meals, dayPlan.mealSlots.value, i, ids))]
    else w
  }

  /** The whole plan applied to `w`, entry after entry. */
  function PlanApplied(w: WeekData, plan: Plan, ids: FreshIds): (r: WeekData)
    ensures r.Keys == w.Keys
  {
    if plan == [] then w
    else FillDay(PlanApplied(w, plan[..|plan| - 1], ids), plan[|plan| - 1], |plan| - 1, ids)
  }

  /** `find(s => s.title === title)` by a forward scan. */
  method FindTitle(slots: seq<MealSlot>, title: string) returns (i: nat)
    ensures i <= |slots|
    ensures FirstIndex(slots, TitleIs(title)) == if i < |slots| then Some(i) else None
  {
    i := 0;
    while i < |slots| && slots[i].title != title
      invariant 0 <= i <= |slots|
      invariant forall k :: 0 <= k < i ==> slots[k].title != title
    {
      i := i + 1;
    }
    FirstIndexAt(slots, TitleIs(title), i);
  }

  /** The inner `forEach` of `handleApplyPlan`: one day's plan slots, in order. */
  method FillDaySlots(slots: seq<MealSlot>, entries: seq<PlanSlot>, dayIndex: nat, ids: FreshIds)
    returns (r: seq<MealSlot>)
    ensures r == FillSlots(slots, entries, dayIndex, ids)
  {
    r := slots;
    var j := 0;
    while j < |entries|
      invariant 0 <= j <= |entries|
      invariant r == FillSlots(slots, entries[..j], dayIndex, ids)
    {
      assert entries[..j + 1][..j] == entries[..j];
      var slotData := entries[j];
      var k := FindTitle(r, slotData.slotTitle);
      if k < |r| && slotData.items.Some? {
        r := r[k := r[k].(meals := PlannedMeals(slotData.items.value, dayIndex, j, ids))];
      }
      j := j + 1;
    }
    assert entries[..j] == entries;
  }

  /** The two nested `forEach` loops of `handleApplyPlan` over the fresh week. */
  method FillFromPlan(week: WeekData, plan: Plan, ids: FreshIds) returns (r: WeekData)
    ensures r == PlanApplied(week, plan, ids)
  {
    r := week;
    var dayIndex := 0;
    while dayIndex < |plan|
      invariant 0 <= dayIndex <= |plan|
      invariant r == PlanApplied(week, plan[..dayIndex], ids)
    {
      assert plan[..dayIndex + 1][..dayIndex] == plan[..dayIndex];
      var dayPlan := plan[dayIndex];
      if dayIndex < |DaysOfWeek| && DaysOfWeek[dayIndex] in r && dayPlan.mealSlots.Some? {
        var dayName := DaysOfWeek[dayIndex];
        var slots := FillDaySlots(r[dayName].meals, dayPlan.mealSlots.value, dayIndex, ids);
        r := r[dayName := r[dayName].(meals := slots)];
      }
      dayIndex := dayIndex + 1;
    }
    assert plan[..dayIndex] == plan;
  }

  /**
   * `handleApplyPlan` against the store: with no plan nothing happens;
   * otherwise the stored week is cleared, the plan is applied to a fresh
   * empty week, and the result is handed on and saved.
   */
  method ApplyPlan(store: LocalStore, generatedPlan: Option<Plan>, nonce: Nonce, ids: FreshIds,
                   resetFails: bool, saveFails: bool) returns (updated: Option<WeekData>)
    modifies store
    ensures generatedPlan.None? ==> updated.None? && store.entries == old(store.entries)
    ensures generatedPlan.Some? ==>
      updated == Some(PlanApplied(CreateEmptyWeekData(nonce), generatedPlan.value, ids)) &&
      store.entries == if !saveFails then old(store.entries)[WeekDataKey := Text(EncodeWeek(updated.value))]
                       else if !resetFails then old(store.entries) - {WeekDataKey}
                       else old(store.entries)
  {
    if generatedPlan.None? {
      return None;
    }
    var newWeekData := store.ResetWeekData(nonce, resetFails);
    newWeekData := FillFromPlan(newWeekData, generatedPlan.value, ids);
    store.SaveWeekData(newWeekData, saveFails);
    updated := Some(newWeekData);
  }

  // ----- properties -----

  /** The last plan slot with this title that has items: the one whose items the slot ends up with. */
  function LastFill(entries: seq<PlanSlot>, title: string): (r: Option<nat>)
    ensures r.Some? ==> r.value < |entries| && entries[r.value].slotTitle == title && entries[r.value].items.Some?
    ensures r.Some? ==> forall j :: r.value < j < |entries| ==> !(entries[j].slotTitle == title && entries[j].items.Some?)
    ensures r.None? ==> forall j :: 0 <= j < |entries| ==> !(entries[j].slotTitle == title && entries[j].items.Some?)
  {
    if entries == [] then None
    else
      var e := entries[|entries| - 1];
      if e.slotTitle == title && e.items.Some? then Some(|entries| - 1)
      else LastFill(entries[..|entries| - 1], title)
  }

  /**
   * With distinct slot titles, each slot's items come from the last plan
   * slot with its title that has items; a slot the plan does not fill
   * keeps its items.
   */
  lemma {:induction false} FillSlotsResult(slots: seq<MealSlot>, entries: seq<PlanSlot>, day: nat, ids: FreshIds)
    requires Distinct(SlotTitles(slots))
    ensures var r := FillSlots(slots, entries, day, ids);
      forall k :: 0 <= k < |slots| ==>
        r[k].meals == match LastFill(entries, slots[k].title)
                      case None => slots[k].meals
                      case Some(j) => PlannedMeals(entries[j].items.value, day, j, ids)
  {
    if entries != [] {
      var n := |entries|;
      var pre := entries[..n - 1];
      var e := entries[n - 1];
      FillSlotsResult(slots, pre, day, ids);
      var prev := FillSlots(slots, pre, day, ids);
      assert SlotTitles(prev) == SlotTitles(slots);
      forall k | 0 <= k < |slots|
        ensures FillSlots(slots, entries, day, ids)[k].meals == match LastFill(entries, slots[k].title)
                              case None => slots[k].meals
                              case Some(j) => PlannedMeals(entries[j].items.value, day, j, ids)
      {
        ApplySlotAt(prev, e, day, n - 1, ids, k);
      }
    }
  }

  /** With distinct titles, a plan slot fills exactly the slot with its title, and only if it has items. */
  lemma ApplySlotAt(slots: seq<MealSlot>, e: PlanSlot, day: nat, index: nat, ids: FreshIds, k: nat)
    requires Distinct(SlotTitles(slots)) && k < |slots|
    ensures ApplySlot(slots, e, day, index, ids)[k].meals ==
      if slots[k].title == e.slotTitle && e.items.Some? then PlannedMeals(e.items.value, day, index, ids)
      else slots[k].meals
  {
    match FirstIndex(slots, TitleIs(e.slotTitle))
    case None =>
    case Some(i) =>
      if i != k {
        assert SlotTitles(slots)[i] != SlotTitles(slots)[k];
      }
  }

  /** Applying the plan changes only item lists: the days, exercises and slots stay. */
  lemma {:induction false} PlanAppliedFrame(w: WeekData, plan: Plan, ids: FreshIds)
    ensures var r := PlanApplied(w, plan, ids);
      forall d :: d in w ==>
        r[d].exercises == w[d].exercises && |r[d].meals| == |w[d].meals| &&
        forall k :: 0 <= k < |w[d].meals| ==> r[d].meals[k] == w[d].meals[k].(meals := r[d].meals[k].meals)
  {
    if plan != [] {
      PlanAppliedFrame(w, plan[..|plan| - 1], ids);
    }
  }

  /** Day `DAYS_OF_WEEK[i]` is filled by plan entry `i` and by no other entry. */
  lemma {:induction false} PlanAppliedDay(w: WeekData, plan: Plan, ids: FreshIds, i: nat)
    requires i < |DaysOfWeek| && DaysOfWeek[i] in w
    ensures var d := DaysOfWeek[i];
      PlanApplied(w, plan, ids)[d].meals ==
        if i < |plan| && plan[i].mealSlots.Some? then FillSlots(w[d].meals, plan[i].mealSlots.value, i, ids)
        else w[d].meals
  {
    if plan != [] {
      var n := |plan|;
      var pre := plan[..n - 1];
      var d := DaysOfWeek[i];
      PlanAppliedDay(w, pre, ids, i);
      PlanAppliedFrame(w, pre, ids);
      var prev := PlanApplied(w, pre, ids);
      if n - 1 != i {
        DaysOfWeekDistinct();
        if n - 1 < |DaysOfWeek| {
          assert DaysOfWeek[n - 1] != d;
        }
        assert PlanApplied(w, plan, ids)[d] == prev[d];
      } else {
        assert plan[i] == plan[n - 1];
      }
    }
  }

  /** Plan entries past the seventh change nothing. */
  lemma {:induction false} PlanExtraDaysIgnored(w: WeekData, plan: Plan, ids: FreshIds)
    requires |plan| >= |DaysOfWeek|
    ensures PlanApplied(w, plan, ids) == PlanApplied(w, plan[..|DaysOfWeek|], ids)
    decreases |plan|
  {
    if |plan| > |DaysOfWeek| {
      var pre := plan[..|plan| - 1];
      PlanExtraDaysIgnored(w, pre, ids);
      assert pre[..|DaysOfWeek|] == plan[..|DaysOfWeek|];
    } else {
      assert plan[..|DaysOfWeek|] == plan;
    }
  }

  /**
   * The week `handleApplyPlan` produces: exactly the seven days, no
   * exercises, and the default slots in order, as in the empty week.
   */
  lemma ApplyPlanShape(plan: Plan, nonce: Nonce, ids: FreshIds)
    ensures var r := PlanApplied(CreateEmptyWeekData(nonce), plan, ids);
      r.Keys == DaySet() &&
      forall d :: d in r ==> r[d].exercises == [] && SlotTitles(r[d].meals) == DefaultMealSlots
  {
    var w := CreateEmptyWeekData(nonce);
    var r := PlanApplied(w, plan, ids);
    PlanAppliedFrame(w, plan, ids);
    forall d | d in r
      ensures SlotTitles(r[d].meals) == DefaultMealSlots
    {
      assert SlotTitles(r[d].meals) == SlotTitles(w[d].meals);
    }
  }

  /**
   * Slot `k` of day `DAYS_OF_WEEK[i]` after applying the plan: it keeps its
   * default id, and holds the planned items of the last entry of plan day
   * `i` with its title and items, or nothing.
   */
  lemma ApplyPlanSlot(plan: Plan, nonce: Nonce, ids: FreshIds, i: nat, k: nat)
    requires i < |DaysOfWeek| && k < |DefaultMealSlots|
    ensures var slots := PlanApplied(CreateEmptyWeekData(nonce), plan, ids)[DaysOfWeek[i]].meals;
      k < |slots| && var slot := slots[k];
      slot.id == SlotId(DaysOfWeek[i], DefaultMealSlots[k], nonce) && slot.isDefault &&
      slot.meals == if i < |plan| && plan[i].mealSlots.Some? && LastFill(plan[i].mealSlots.value, DefaultMealSlots[k]).Some?
                    then var entries := plan[i].mealSlots.value;
                         var j := LastFill(entries, DefaultMealSlots[k]).value;
                         PlannedMeals(entries[j].items.value, i, j, ids)
                    else []
  {
    var w := CreateEmptyWeekData(nonce);
    var d := DaysOfWeek[i];
    assert d in DaySet();
    PlanAppliedFrame(w, plan, ids);
    PlanAppliedDay(w, plan, ids, i);
    DefaultMealSlotsDistinct();
    assert SlotTitles(w[d].meals) == DefaultMealSlots;
    if i < |plan| && plan[i].mealSlots.Some? {
      FillSlotsResult(w[d].meals, plan[i].mealSlots.value, i, ids);
    }
  }
}
