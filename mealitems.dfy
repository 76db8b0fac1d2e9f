/**
 * The food-item handlers of App.tsx: add or edit an item of the selected
 * slot of the selected day, and delete one. Each is the pure update passed
 * to `setWeekData`; the clock-based fresh id is a parameter.
 */
module MealItems {
  import opened Wrappers
  import opened Types
  import opened Totals

  /** `{ ...m, ...mealData }`: the submitted fields over the old ones, the id kept. */
  function Merged(m: Meal, data: MealFields): Meal {
    Meal(m.id, data.name, data.quantity, data.calories, data.protein, data.carbs, data.fat)
  }

  /** `{ ...mealData, id }`. */
  function NewMeal(data: MealFields, id: string): Meal {
    Meal(id, data.name, data.quantity, data.calories, data.protein, data.carbs, data.fat)
  }

  function MealIds(ms: seq<Meal>): (r: seq<string>)
    ensures |r| == |ms| && forall k :: 0 <= k < |ms| ==> r[k] == ms[k].id
  {
    MapSeq(ms, (m: Meal) => m.id)
  }

  function SlotIds(slots: seq<MealSlot>): (r: seq<string>)
    ensures |r| == |slots| && forall k :: 0 <= k < |slots| ==> r[k] == slots[k].id
  {
    MapSeq(slots, (s: MealSlot) => s.id)
  }

  /** `!selectedSlotId` fails for a missing id and for the empty string. */
  predicate Chosen(slotId: Option<string>) {
    slotId.Some? && slotId.value != ""
  }

  /** The new item list of the selected slot: every item with the edited id merged, or the new item appended. */
  function WithItem(meals: seq<Meal>, editing: Option<string>, data: MealFields, freshId: string): (r: seq<Meal>)
    ensures editing.None? ==> r == meals + [NewMeal(data, freshId)]
    ensures editing.Some? ==>
      |r| == |meals| &&
      forall k :: 0 <= k < |meals| ==> r[k] == if meals[k].id == editing.value then Merged(meals[k], data) else meals[k]
  {
    if editing.Some? then MapSeq(meals, (m: Meal) => if m.id == editing.value then Merged(m, data) else m)
    else meals + [NewMeal(data, freshId)]
  }

  function UpdateSlot(slotId: string, editing: Option<string>, data: MealFields, freshId: string): MealSlot -> MealSlot {
    (s: MealSlot) => if s.id == slotId then s.(meals := WithItem(s.meals, editing, data, freshId)) else s
  }

  /**
   * `handleAddOrUpdateMealItem`. Without a chosen slot nothing changes;
   * otherwise every slot of the selected day carrying that id gets the new
   * or edited item, and nothing else in the week changes.
   */
  function AddOrUpdateMealItem(w: WeekData, selectedDay: string, selectedSlotId: Option<string>,
                               editing: Option<string>, data: MealFields, freshId: string): (r: WeekData)
    requires Chosen(selectedSlotId) ==> selectedDay in w
    ensures !Chosen(selectedSlotId) ==> r == w
    ensures r.Keys == w.Keys
    ensures forall d :: d in w && d != selectedDay ==> r[d] == w[d]
    ensures Chosen(selectedSlotId) ==>
      var slots, slots' := w[selectedDay].meals, r[selectedDay].meals;
      r[selectedDay].exercises == w[selectedDay].exercises &&
      |slots'| == |slots| &&
      forall k :: 0 <= k < |slots| ==>
        slots'[k] == if slots[k].id == selectedSlotId.value
                     then slots[k].(meals := WithItem(slots[k].meals, editing, data, freshId))
                     else slots[k]
  {
    if !Chosen(selectedSlotId) then w
    else
      var day := w[selectedDay];
      w[selectedDay := day.(meals := MapSeq(day.meals, UpdateSlot(selectedSlotId.value, editing, data, freshId)))]
  }

  function OtherMeal(id: string): Meal -> bool {
    (m: Meal) => m.id != id
  }

  function DropItem(slotId: string, itemId: string): MealSlot -> MealSlot {
    (s: MealSlot) => if s.id == slotId then s.(meals := Filter(s.meals, OtherMeal(itemId))) else s
  }

  /**
   * `handleConfirmDeleteMealItem`: in the selected day, every slot with id
   * `slotId` loses every item with id `itemId`; the rest stays in order.
   */
  function DeleteMealItem(w: WeekData, selectedDay: string, slotId: string, itemId: string): (r: WeekData)
    requires selectedDay in w
    ensures r.Keys == w.Keys
    ensures forall d :: d in w && d != selectedDay ==> r[d] == w[d]
    ensures
      var slots, slots' := w[selectedDay].meals, r[selectedDay].meals;
      r[selectedDay].exercises == w[selectedDay].exercises &&
      |slots'| == |slots| &&
      forall k :: 0 <= k < |slots| ==>
        slots'[k].id == slots[k].id && slots'[k].title == slots[k].title && slots'[k].isDefault == slots[k].isDefault &&
        (slots[k].id != slotId ==> slots'[k] == slots[k]) &&
        (slots[k].id == slotId ==> forall m :: m in slots'[k].meals <==> m in slots[k].meals && m.id != itemId) &&
        (slots[k].id == slotId ==> slots'[k].meals == Filter(slots[k].meals, OtherMeal(itemId)))
  {
    var day := w[selectedDay];
    var slots' := MapSeq(day.meals, DropItem(slotId, itemId));
    forall k | 0 <= k < |day.meals| && day.meals[k].id == slotId
      ensures forall m :: m in slots'[k].meals <==> m in day.meals[k].meals && m.id != itemId
    {
      FilterMembers(day.meals[k].meals, OtherMeal(itemId));
    }
    w[selectedDay := day.(meals := slots')]
  }

  // ----- properties -----

  /** Deleting a just-added item by its fresh id, from the slot it went to, gives back the week. */
  lemma AddThenDelete(w: WeekData, day: string, slotId: string, data: MealFields, freshId: string)
    requires day in w && slotId != ""
    requires forall k :: 0 <= k < |w[day].meals| && w[day].meals[k].id == slotId ==>
               freshId !in MealIds(w[day].meals[k].meals)
    ensures DeleteMealItem(AddOrUpdateMealItem(w, day, Some(slotId), None, data, freshId), day, slotId, freshId) == w
  {
    var slots := w[day].meals;
    var r := DeleteMealItem(AddOrUpdateMealItem(w, day, Some(slotId), None, data, freshId), day, slotId, freshId);
    var slots' := r[day].meals;
    forall k | 0 <= k < |slots|
      ensures slots'[k] == slots[k]
    {
      if slots[k].id == slotId {
        var ms := slots[k].meals;
        assert forall j :: 0 <= j < |ms| ==> MealIds(ms)[j] == ms[j].id;
        FilterDropsAppended(ms, NewMeal(data, freshId), OtherMeal(freshId));
      }
    }
    assert slots' == slots;
    assert r[day] == w[day];
  }

  /** Deleting twice is deleting once. */
  lemma DeleteIdempotent(w: WeekData, day: string, slotId: string, itemId: string)
    requires day in w
    ensures DeleteMealItem(DeleteMealItem(w, day, slotId, itemId), day, slotId, itemId)
            == DeleteMealItem(w, day, slotId, itemId)
  {
    var once := DeleteMealItem(w, day, slotId, itemId);
    var twice := DeleteMealItem(once, day, slotId, itemId);
    forall k | 0 <= k < |w[day].meals|
      ensures twice[day].meals[k] == once[day].meals[k]
    {
      FilterIdempotent(w[day].meals[k].meals, OtherMeal(itemId));
    }
    assert twice[day].meals == once[day].meals;
  }

  /** Deleting an item id that the slots with `slotId` do not hold changes nothing. */
  lemma DeleteUnknownIsNoOp(w: WeekData, day: string, slotId: string, itemId: string)
    requires day in w
    requires forall k :: 0 <= k < |w[day].meals| && w[day].meals[k].id == slotId ==>
               itemId !in MealIds(w[day].meals[k].meals)
    ensures DeleteMealItem(w, day, slotId, itemId) == w
  {
    var slots := w[day].meals;
    var r := DeleteMealItem(w, day, slotId, itemId);
    forall k | 0 <= k < |slots|
      ensures r[day].meals[k] == slots[k]
    {
      if slots[k].id == slotId {
        var ms := slots[k].meals;
        assert forall j :: 0 <= j < |ms| ==> MealIds(ms)[j] == ms[j].id;
        FilterKeepsAll(ms, OtherMeal(itemId));
      }
    }
    assert r[day].meals == slots;
    assert r[day] == w[day];
  }

  /** Editing an item id that the chosen slots do not hold changes nothing. */
  lemma EditUnknownIsNoOp(w: WeekData, day: string, slotId: string, id: string, data: MealFields, freshId: string)
    requires day in w
    requires forall k :: 0 <= k < |w[day].meals| && w[day].meals[k].id == slotId ==>
               id !in MealIds(w[day].meals[k].meals)
    ensures AddOrUpdateMealItem(w, day, Some(slotId), Some(id), data, freshId) == w
  {
    if slotId != "" {
      var slots := w[day].meals;
      var r := AddOrUpdateMealItem(w, day, Some(slotId), Some(id), data, freshId);
      forall k | 0 <= k < |slots|
        ensures r[day].meals[k] == slots[k]
      {
        if slots[k].id == slotId {
          var ms := slots[k].meals;
          assert forall j :: 0 <= j < |ms| ==> MealIds(ms)[j] == ms[j].id;
          assert WithItem(ms, Some(id), data, freshId) == ms;
        }
      }
      assert r[day].meals == slots;
      assert r[day] == w[day];
    }
  }

  /**
   * When the slot ids of the day are distinct and the chosen one is among
   * them, adding an item raises the day's total by exactly that item's facts.
   */
  lemma {:induction false} AddRaisesDayTotal(slots: seq<MealSlot>, slotId: string, data: MealFields, freshId: string)
    requires Distinct(SlotIds(slots)) && slotId in SlotIds(slots)
    ensures SumSlots(MapSeq(slots, UpdateSlot(slotId, None, data, freshId)))
            == Add(SumSlots(slots), Facts(NewMeal(data, freshId)))
  {
    var f := UpdateSlot(slotId, None, data, freshId);
    var n := |slots|;
    var pre := slots[..n - 1];
    assert MapSeq(slots, f)[..n - 1] == MapSeq(pre, f);
    var last := slots[n - 1];
    var item := NewMeal(data, freshId);
    if last.id == slotId {
      forall k | 0 <= k < |pre|
        ensures pre[k].id != slotId
      {
        assert SlotIds(slots)[k] == pre[k].id;
        assert SlotIds(slots)[n - 1] == slotId;
      }
      assert MapSeq(pre, f) == pre;
      SumMealsAppend(last.meals, [item]);
      assert [item][..0] == [];
      AddAssoc(SumSlots(pre), SumMeals(last.meals), Facts(item));
    } else {
      var i :| 0 <= i < n && SlotIds(slots)[i] == slotId;
      assert i < n - 1;
      assert SlotIds(pre) == SlotIds(slots)[..n - 1];
      assert SlotIds(pre)[i] == slotId;
      AddRaisesDayTotal(pre, slotId, data, freshId);
      AddSwap(SumSlots(pre), SumMeals(last.meals), Facts(item));
    }
  }

  /** The same, stated on the week: the selected day's total rises by the new item's facts. */
  lemma AddRaisesSelectedDayTotal(w: WeekData, day: string, slotId: string, data: MealFields, freshId: string)
    requires day in w && slotId != ""
    requires Distinct(SlotIds(w[day].meals)) && slotId in SlotIds(w[day].meals)
    ensures SumSlots(AddOrUpdateMealItem(w, day, Some(slotId), None, data, freshId)[day].meals)
            == Add(SumSlots(w[day].meals), Facts(NewMeal(data, freshId)))
  {
    AddRaisesDayTotal(w[day].meals, slotId, data, freshId);
  }
}
