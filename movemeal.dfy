/**
 * The week update of `handleDrop` in App.tsx: move a food item from one
 * slot to another, possibly on another day. `Moved` states the outcome;
 * `MoveMealItem` follows the source step by step (copy, find the source
 * slot, `findIndex`, `splice`, find the target, `push`) and is proved to
 * compute it. The lemmas give the no-op cases, the successful move, the
 * put-back when the target is missing, and conservation of the items.
 */
module MoveMeal {
  import opened Wrappers
  import opened Types
  import opened Totals

  function SlotIdIs(id: string): MealSlot -> bool {
    (s: MealSlot) => s.id == id
  }

  function MealIdIs(id: string): Meal -> bool {
    (m: Meal) => m.id == id
  }

  /** `splice(i, 1)` on a value: the list without its element at `i`. */
  function RemoveAt<T>(s: seq<T>, i: nat): (r: seq<T>)
    requires i < |s|
    ensures |r| == |s| - 1
    ensures multiset(r) + multiset{s[i]} == multiset(s)
    ensures forall k :: 0 <= k < i ==> r[k] == s[k]
    ensures forall k :: i <= k < |r| ==> r[k] == s[k + 1]
  {
    assert s == s[..i] + [s[i]] + s[i + 1..];
    s[..i] + s[i + 1..]
  }

  /** The week with slot `k` of day `d` replaced. */
  function WithSlot(w: WeekData, d: string, k: nat, slot: MealSlot): WeekData
    requires d in w && k < |w[d].meals|
  {
    w[d := w[d].(meals := w[d].meals[k := slot])]
  }

  /** The target day exists and has a slot with the target id. */
  predicate TargetFound(w: WeekData, targetDay: string, targetSlotId: string) {
    targetDay in w && FirstIndex(w[targetDay].meals, SlotIdIs(targetSlotId)).Some?
  }

  /**
   * What the drop does to the week: nothing when source and target are the
   * same slot, when the source day or slot is missing, or when the item is
   * not in the source slot; otherwise the item leaves its place in the
   * source slot and is appended to the first slot of the target day with
   * the target id, or, when there is none, appended back to the end of the
   * source slot.
   */
  function Moved(w: WeekData, mealId: string, sourceDay: string, sourceSlotId: string,
                 targetDay: string, targetSlotId: string): WeekData
  {
    if sourceDay == targetDay && sourceSlotId == targetSlotId then w
    else if sourceDay !in w then w
    else match FirstIndex(w[sourceDay].meals, SlotIdIs(sourceSlotId))
      case None => w
      case Some(si) =>
        var source := w[sourceDay].meals[si];
        match FirstIndex(source.meals, MealIdIs(mealId))
          case None => w
          case Some(mi) =>
            var item := source.meals[mi];
            var rest := RemoveAt(source.meals, mi);
            var removed := WithSlot(w, sourceDay, si, source.(meals := rest));
            if TargetFound(removed, targetDay, targetSlotId) then
              var ti := FirstIndex(removed[targetDay].meals, SlotIdIs(targetSlotId)).value;
              var target := removed[targetDay].meals[ti];
              WithSlot(removed, targetDay, ti, target.(meals := target.meals + [item]))
            else
              WithSlot(removed, sourceDay, si, source.(meals := rest + [item]))
  }

  /** The index of the first slot with id `id`, by a forward scan. */
  method FindSlot(slots: seq<MealSlot>, id: string) returns (i: nat)
    ensures i <= |slots|
    ensures FirstIndex(slots, SlotIdIs(id)) == if i < |slots| then Some(i) else None
  {
    i := 0;
    while i < |slots| && slots[i].id != id
      invariant 0 <= i <= |slots|
      invariant forall k :: 0 <= k < i ==> slots[k].id != id
    {
      i := i + 1;
    }
    FirstIndexAt(slots, SlotIdIs(id), i);
  }

  /** `findIndex` over a slot's items. */
  method FindMeal(meals: seq<Meal>, id: string) returns (i: nat)
    ensures i <= |meals|
    ensures FirstIndex(meals, MealIdIs(id)) == if i < |meals| then Some(i) else None
  {
    i := 0;
    while i < |meals| && meals[i].id != id
      invariant 0 <= i <= |meals|
      invariant forall k :: 0 <= k < i ==> meals[k].id != id
    {
      i := i + 1;
    }
    FirstIndexAt(meals, MealIdIs(id), i);
  }

  /** The `setWeekData` updater of `handleDrop`. */
  method MoveMealItem(prev: WeekData, mealId: string, sourceDay: string, sourceSlotId: string,
                      targetDay: string, targetSlotId: string) returns (r: WeekData)
    ensures r == Moved(prev, mealId, sourceDay, sourceSlotId, targetDay, targetSlotId)
  {
    if sourceDay == targetDay && sourceSlotId == targetSlotId {
      return prev;
    }
    var newWeekData := prev;
    if sourceDay !in newWeekData {
      return prev;
    }
    var slots := newWeekData[sourceDay].meals;
    var si := FindSlot(slots, sourceSlotId);
    if si == |slots| {
      return prev;
    }
    var sourceSlot := slots[si];
    var mealIndex := FindMeal(sourceSlot.meals, mealId);
    if mealIndex == |sourceSlot.meals| {
      return prev;
    }
    var mealToMove := sourceSlot.meals[mealIndex];
    sourceSlot := sourceSlot.(meals := sourceSlot.meals[..mealIndex] + sourceSlot.meals[mealIndex + 1..]);
    newWeekData := newWeekData[sourceDay := newWeekData[sourceDay].(meals := slots[si := sourceSlot])];
    ghost var removed := newWeekData;
    assert removed == WithSlot(prev, sourceDay, si, slots[si].(meals := RemoveAt(slots[si].meals, mealIndex)));
    var ti := 0;
    var found := false;
    if targetDay in newWeekData {
      var targetSlots := newWeekData[targetDay].meals;
      ti := FindSlot(targetSlots, targetSlotId);
      found := ti < |targetSlots|;
    }
    assert found <==> TargetFound(removed, targetDay, targetSlotId);
    if found {
      var targetSlot := newWeekData[targetDay].meals[ti];
      targetSlot := targetSlot.(meals := targetSlot.meals + [mealToMove]);
      newWeekData := newWeekData[targetDay := newWeekData[targetDay].(meals := newWeekData[targetDay].meals[ti := targetSlot])];
    } else {
      sourceSlot := sourceSlot.(meals := sourceSlot.meals + [mealToMove]);
      assert removed[sourceDay].meals[si := sourceSlot] == slots[si := sourceSlot];
      newWeekData := newWeekData[sourceDay := newWeekData[sourceDay].(meals := slots[si := sourceSlot])];
    }
    return newWeekData;
  }

  // ----- properties of the move -----

  /** The cases in which the drop leaves the week as it was. */
  lemma MoveNoOps(w: WeekData, mealId: string, sd: string, ss: string, td: string, ts: string)
    ensures sd == td && ss == ts ==> Moved(w, mealId, sd, ss, td, ts) == w
    ensures sd !in w ==> Moved(w, mealId, sd, ss, td, ts) == w
    ensures sd in w && (forall k :: 0 <= k < |w[sd].meals| ==> w[sd].meals[k].id != ss) ==>
              Moved(w, mealId, sd, ss, td, ts) == w
    ensures sd in w && FirstIndex(w[sd].meals, SlotIdIs(ss)).Some? &&
            FirstIndex(w[sd].meals[FirstIndex(w[sd].meals, SlotIdIs(ss)).value].meals, MealIdIs(mealId)).None? ==>
              Moved(w, mealId, sd, ss, td, ts) == w
  {
  }

  /**
   * A successful move: the item leaves position `mi` of source slot `si`
   * and is appended to target slot `ti`; every other slot and every
   * exercise list is as it was.
   */
  lemma MoveSucceeds(w: WeekData, mealId: string, sd: string, ss: string, td: string, ts: string,
                     si: nat, mi: nat, ti: nat)
    requires !(sd == td && ss == ts)
    requires sd in w && FirstIndex(w[sd].meals, SlotIdIs(ss)) == Some(si)
    requires FirstIndex(w[sd].meals[si].meals, MealIdIs(mealId)) == Some(mi)
    requires td in w && FirstIndex(w[td].meals, SlotIdIs(ts)) == Some(ti)
    ensures var r := Moved(w, mealId, sd, ss, td, ts);
      r.Keys == w.Keys &&
      (forall d :: d in w ==> |r[d].meals| == |w[d].meals| && r[d].exercises == w[d].exercises) &&
      (forall d, k :: d in w && 0 <= k < |w[d].meals| && !(d == sd && k == si) && !(d == td && k == ti) ==>
         r[d].meals[k] == w[d].meals[k]) &&
      r[sd].meals[si] == w[sd].meals[si].(meals := RemoveAt(w[sd].meals[si].meals, mi)) &&
      r[td].meals[ti] == w[td].meals[ti].(meals := w[td].meals[ti].meals + [w[sd].meals[si].meals[mi]])
  {
    var source := w[sd].meals[si];
    var item := source.meals[mi];
    var rest := RemoveAt(source.meals, mi);
    var removed := WithSlot(w, sd, si, source.(meals := rest));
    SameSlotIds(w, sd, si, source.(meals := rest), td, ts);
    assert TargetFound(removed, td, ts);
    assert td == sd ==> ti != si;
    var target := removed[td].meals[ti];
    assert target == w[td].meals[ti];
    var r := WithSlot(removed, td, ti, target.(meals := target.meals + [item]));
    assert Moved(w, mealId, sd, ss, td, ts) == r;
    WithSlotFrame(w, sd, si, source.(meals := rest));
    WithSlotFrame(removed, td, ti, target.(meals := target.meals + [item]));
  }

  /** Replacing one slot leaves every other slot, every exercise list and every slot count as it was. */
  lemma WithSlotFrame(w: WeekData, d: string, k: nat, slot: MealSlot)
    requires d in w && k < |w[d].meals|
    ensures var r := WithSlot(w, d, k, slot);
      r.Keys == w.Keys && r[d].meals[k] == slot &&
      (forall x :: x in w ==> |r[x].meals| == |w[x].meals| && r[x].exercises == w[x].exercises) &&
      (forall x, j :: x in w && 0 <= j < |w[x].meals| && !(x == d && j == k) ==> r[x].meals[j] == w[x].meals[j])
  {
  }

  /** Replacing a slot's items keeps the index of the first slot with any id. */
  lemma SameSlotIds(w: WeekData, d: string, k: nat, slot: MealSlot, td: string, ts: string)
    requires d in w && k < |w[d].meals| && slot.id == w[d].meals[k].id
    requires td in w
    ensures FirstIndex(WithSlot(w, d, k, slot)[td].meals, SlotIdIs(ts)) == FirstIndex(w[td].meals, SlotIdIs(ts))
  {
    var slots := w[td].meals;
    var slots' := WithSlot(w, d, k, slot)[td].meals;
    assert |slots'| == |slots| && forall j :: 0 <= j < |slots| ==> slots'[j].id == slots[j].id;
    match FirstIndex(slots, SlotIdIs(ts))
    case None =>
      FirstIndexAt(slots', SlotIdIs(ts), |slots'|);
    case Some(i) =>
      FirstIndexAt(slots', SlotIdIs(ts), i);
  }

  /**
   * When no slot of the target day has the target id (or the day is
   * missing), the item is appended back at the end of its own slot; every
   * other slot is as it was.
   */
  lemma MoveWithMissingTarget(w: WeekData, mealId: string, sd: string, ss: string, td: string, ts: string,
                              si: nat, mi: nat)
    requires !(sd == td && ss == ts)
    requires sd in w && FirstIndex(w[sd].meals, SlotIdIs(ss)) == Some(si)
    requires FirstIndex(w[sd].meals[si].meals, MealIdIs(mealId)) == Some(mi)
    requires td !in w || FirstIndex(w[td].meals, SlotIdIs(ts)) == None
    ensures var r := Moved(w, mealId, sd, ss, td, ts);
      var source := w[sd].meals[si];
      r == WithSlot(w, sd, si, source.(meals := RemoveAt(source.meals, mi) + [source.meals[mi]]))
  {
    var source := w[sd].meals[si];
    var rest := RemoveAt(source.meals, mi);
    var removed := WithSlot(w, sd, si, source.(meals := rest));
    if td in w {
      SameSlotIds(w, sd, si, source.(meals := rest), td, ts);
    }
    assert !TargetFound(removed, td, ts);
    var back := source.(meals := rest + [source.meals[mi]]);
    assert WithSlot(removed, sd, si, back) == WithSlot(w, sd, si, back) by {
      assert removed[sd].meals[si := back] == w[sd].meals[si := back];
    }
  }

  /**
   * The put-back is not a no-op: an item moved out of `[a, b]` towards a
   * missing slot comes back as `[b, a]`.
   */
  lemma MoveWithMissingTargetReorders(a: Meal, b: Meal)
    requires a.id == "a" && b.id == "b"
    ensures var w := map["d" := DayData([], [MealSlot("s", "t", [a, b], true)])];
      Moved(w, "a", "d", "s", "d", "missing") == map["d" := DayData([], [MealSlot("s", "t", [b, a], true)])]
  {
    var w := map["d" := DayData([], [MealSlot("s", "t", [a, b], true)])];
    var slots := w["d"].meals;
    FirstIndexAt(slots, SlotIdIs("s"), 0);
    FirstIndexAt(slots[0].meals, MealIdIs("a"), 0);
    FirstIndexAt(slots, SlotIdIs("missing"), 1);
    MoveWithMissingTarget(w, "a", "d", "s", "d", "missing", 0, 0);
    assert RemoveAt([a, b], 0) + [a] == [b, a];
    var back := MealSlot("s", "t", [b, a], true);
    assert slots[0 := back] == [back];
    assert WithSlot(w, "d", 0, back) == map["d" := DayData([], [back])];
  }

  // ----- conservation -----

  /** A slot list with one slot replaced holds the old items with that slot's items swapped. */
  lemma {:induction false} SlotItemsReplace(slots: seq<MealSlot>, k: nat, slot: MealSlot)
    requires k < |slots|
    ensures multiset(SlotItems(slots[k := slot])) + multiset(slots[k].meals)
            == multiset(SlotItems(slots)) + multiset(slot.meals)
  {
    var n := |slots|;
    var slots' := slots[k := slot];
    var pre, pre' := slots[..n - 1], slots'[..n - 1];
    if k == n - 1 {
      assert pre' == pre;
      assert SlotItems(slots') == SlotItems(pre) + slot.meals;
      assert SlotItems(slots) == SlotItems(pre) + slots[k].meals;
    } else {
      assert pre' == pre[k := slot];
      SlotItemsReplace(pre, k, slot);
      var last := slots[n - 1];
      assert slots'[n - 1] == last;
      assert SlotItems(slots') == SlotItems(pre') + last.meals;
      assert SlotItems(slots) == SlotItems(pre) + last.meals;
      assert multiset(SlotItems(slots')) == multiset(SlotItems(pre')) + multiset(last.meals);
      assert multiset(SlotItems(slots)) == multiset(SlotItems(pre)) + multiset(last.meals);
      MultisetAddBoth(multiset(SlotItems(pre')), multiset(SlotItems(pre)), multiset(slots[k].meals),
                      multiset(slot.meals), multiset(last.meals));
    }
  }

  /** Weeks that agree on the listed days have the same items there. */
  lemma {:induction false} WeekItemsAgree(w: WeekData, w': WeekData, days: seq<string>)
    requires forall x :: x in days ==> (x in w <==> x in w') && (x in w ==> w[x] == w'[x])
    ensures WeekItems(w, days) == WeekItems(w', days)
  {
    if days != [] {
      WeekItemsAgree(w, w', days[..|days| - 1]);
    }
  }

  /** Replacing one slot of a listed day swaps that slot's items in the week's items. */
  lemma {:induction false} WeekItemsReplace(w: WeekData, d: string, k: nat, slot: MealSlot, days: seq<string>)
    requires d in w && k < |w[d].meals|
    requires Distinct(days) && d in days
    ensures multiset(WeekItems(WithSlot(w, d, k, slot), days)) + multiset(w[d].meals[k].meals)
            == multiset(WeekItems(w, days)) + multiset(slot.meals)
  {
    var w' := WithSlot(w, d, k, slot);
    var n := |days|;
    var pre, last := days[..n - 1], days[n - 1];
    assert Distinct(pre);
    assert WeekItems(w', days) == WeekItems(w', pre) + DayItems(w', last);
    assert WeekItems(w, days) == WeekItems(w, pre) + DayItems(w, last);
    assert multiset(WeekItems(w', days)) == multiset(WeekItems(w', pre)) + multiset(DayItems(w', last));
    assert multiset(WeekItems(w, days)) == multiset(WeekItems(w, pre)) + multiset(DayItems(w, last));
    var o, sl := multiset(w[d].meals[k].meals), multiset(slot.meals);
    if last == d {
      assert d !in pre;
      WeekItemsAgree(w, w', pre);
      SlotItemsReplace(w[d].meals, k, slot);
      assert DayItems(w', d) == SlotItems(w[d].meals[k := slot]);
      assert multiset(SlotItems(w[d].meals[k := slot])) + o == multiset(SlotItems(w[d].meals)) + sl;
      MultisetAddBoth(multiset(DayItems(w', d)), multiset(DayItems(w, d)), o, sl, multiset(WeekItems(w, pre)));
    } else {
      assert d in pre by {
        var j :| 0 <= j < n && days[j] == d;
        assert j < n - 1;
        assert pre[j] == d;
      }
      WeekItemsReplace(w, d, k, slot, pre);
      assert DayItems(w', last) == DayItems(w, last);
      MultisetAddBoth(multiset(WeekItems(w', pre)), multiset(WeekItems(w, pre)), o, sl, multiset(DayItems(w, last)));
    }
  }

  /**
   * Every drop conserves the week's food items: the multiset of all items
   * over the listed days (which include every day of the week, once) is
   * the same before and after.
   */
  lemma MoveConservesItems(w: WeekData, mealId: string, sd: string, ss: string, td: string, ts: string,
                           days: seq<string>)
    requires Distinct(days) && forall d :: d in w ==> d in days
    ensures multiset(WeekItems(Moved(w, mealId, sd, ss, td, ts), days)) == multiset(WeekItems(w, days))
  {
    if !(sd == td && ss == ts) && sd in w {
      match FirstIndex(w[sd].meals, SlotIdIs(ss))
      case None =>
      case Some(si) =>
        match FirstIndex(w[sd].meals[si].meals, MealIdIs(mealId))
        case None =>
        case Some(mi) =>
          RemovalTakesOutItem(w, sd, si, mi, days);
          var source := w[sd].meals[si];
          var rest := RemoveAt(source.meals, mi);
          var removed := WithSlot(w, sd, si, source.(meals := rest));
          if TargetFound(removed, td, ts) {
            var ti := FirstIndex(removed[td].meals, SlotIdIs(ts)).value;
            AppendPutsInItem(removed, td, ti, source.meals[mi], days);
          } else {
            assert removed[sd].meals[si].meals == rest;
            AppendPutsInItem(removed, sd, si, source.meals[mi], days);
          }
    }
  }

  /** Taking the item out of its slot takes exactly one copy of it out of the week's items. */
  lemma RemovalTakesOutItem(w: WeekData, d: string, si: nat, mi: nat, days: seq<string>)
    requires Distinct(days) && forall x :: x in w ==> x in days
    requires d in w && si < |w[d].meals| && mi < |w[d].meals[si].meals|
    ensures var source := w[d].meals[si];
      multiset(WeekItems(WithSlot(w, d, si, source.(meals := RemoveAt(source.meals, mi))), days)) + multiset{source.meals[mi]}
      == multiset(WeekItems(w, days))
  {
    var source := w[d].meals[si];
    var rest := RemoveAt(source.meals, mi);
    var m0 := multiset(WeekItems(w, days));
    var m1 := multiset(WeekItems(WithSlot(w, d, si, source.(meals := rest)), days));
    WeekItemsReplace(w, d, si, source.(meals := rest), days);
    assert (m1 + multiset{source.meals[mi]}) + multiset(rest) == m0 + multiset(rest);
    MultisetCancel(m1 + multiset{source.meals[mi]}, m0, multiset(rest));
  }

  /** Appending an item to a slot puts exactly one copy of it into the week's items. */
  lemma AppendPutsInItem(w: WeekData, d: string, k: nat, item: Meal, days: seq<string>)
    requires Distinct(days) && forall x :: x in w ==> x in days
    requires d in w && k < |w[d].meals|
    ensures var slot := w[d].meals[k];
      multiset(WeekItems(WithSlot(w, d, k, slot.(meals := slot.meals + [item])), days))
      == multiset(WeekItems(w, days)) + multiset{item}
  {
    var slot := w[d].meals[k];
    var m1 := multiset(WeekItems(w, days));
    var m2 := multiset(WeekItems(WithSlot(w, d, k, slot.(meals := slot.meals + [item])), days));
    WeekItemsReplace(w, d, k, slot.(meals := slot.meals + [item]), days);
    assert m2 + multiset(slot.meals) == (m1 + multiset{item}) + multiset(slot.meals);
    MultisetCancel(m2, m1 + multiset{item}, multiset(slot.meals));
  }

  /** A drop changes no nutrition total of the week. */
  lemma MovePreservesWeekTotal(w: WeekData, mealId: string, sd: string, ss: string, td: string, ts: string,
                               days: seq<string>)
    requires Distinct(days) && forall d :: d in w ==> d in days
    ensures SumDays(Moved(w, mealId, sd, ss, td, ts), days) == SumDays(w, days)
  {
    var r := Moved(w, mealId, sd, ss, td, ts);
    MoveConservesItems(w, mealId, sd, ss, td, ts, days);
    SumMealsPermutation(WeekItems(r, days), WeekItems(w, days));
    WeekTotalIsSumOfDayTotals(r, days);
    WeekTotalIsSumOfDayTotals(w, days);
  }
}
