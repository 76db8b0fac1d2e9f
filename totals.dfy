/**
 * The nutrition and exercise totals of App.tsx: a slot's total
 * (`MealSlotCard`), a day's total (`dayNutrition`) and the weekly summary
 * and daily rows of `AnalyticsView`. Each source `reduce`/`forEach` loop is
 * a method proved against a sum function; the lemmas relate the sums.
 */
module Totals {
  import opened Types
  import opened Constants
  import opened ParseInt

  const Zero: Nutrition := Nutrition(0.0, 0.0, 0.0, 0.0)

  function Add(a: Nutrition, b: Nutrition): Nutrition {
    Nutrition(a.calories + b.calories, a.protein + b.protein, a.carbs + b.carbs, a.fat + b.fat)
  }

  /** Field-wise sum of food items, from an all-zero start. */
  function SumMeals(ms: seq<Meal>): Nutrition {
    if ms == [] then Zero else Add(SumMeals(ms[..|ms| - 1]), Facts(ms[|ms| - 1]))
  }

  /** Sum of the slot totals of a list of slots. */
  function SumSlots(slots: seq<MealSlot>): Nutrition {
    if slots == [] then Zero else Add(SumSlots(slots[..|slots| - 1]), SumMeals(slots[|slots| - 1].meals))
  }

  /** Sum of the day totals of the given days; a day missing from the week adds nothing. */
  function SumDays(w: WeekData, days: seq<string>): Nutrition {
    if days == [] then Zero
    else
      var d := days[|days| - 1];
      Add(SumDays(w, days[..|days| - 1]), if d in w then SumSlots(w[d].meals) else Zero)
  }

  /** All food items of a list of slots, slot after slot. */
  function SlotItems(slots: seq<MealSlot>): seq<Meal> {
    if slots == [] then [] else SlotItems(slots[..|slots| - 1]) + slots[|slots| - 1].meals
  }

  function DayItems(w: WeekData, d: string): seq<Meal> {
    if d in w then SlotItems(w[d].meals) else []
  }

  /** All food items of the given days, day after day. */
  function WeekItems(w: WeekData, days: seq<string>): seq<Meal> {
    if days == [] then [] else WeekItems(w, days[..|days| - 1]) + DayItems(w, days[|days| - 1])
  }

  // ----- the sums -----

  lemma {:induction false} SumMealsAppend(a: seq<Meal>, b: seq<Meal>)
    ensures SumMeals(a + b) == Add(SumMeals(a), SumMeals(b))
  {
    if b == [] {
      assert a + b == a;
    } else {
      assert (a + b)[..|a + b| - 1] == a + b[..|b| - 1];
      SumMealsAppend(a, b[..|b| - 1]);
    }
  }

  /** Taking one item out of a list takes its facts out of the total. */
  lemma SumMealsRemove(p: seq<Meal>, x: Meal, q: seq<Meal>)
    ensures SumMeals(p + [x] + q) == Add(SumMeals(p + q), Facts(x))
  {
    var px := p + [x];
    assert px[..|px| - 1] == p;
    assert SumMeals(px) == Add(SumMeals(p), Facts(x));
    SumMealsAppend(px, q);
    SumMealsAppend(p, q);
    AddSwap(SumMeals(p), Facts(x), SumMeals(q));
  }

  lemma AddSwap(u: Nutrition, v: Nutrition, t: Nutrition)
    ensures Add(Add(u, v), t) == Add(Add(u, t), v)
  {
  }

  lemma AddAssoc(u: Nutrition, v: Nutrition, t: Nutrition)
    ensures Add(u, Add(v, t)) == Add(Add(u, v), t)
  {
  }

  /** The total does not depend on the order of the items: any rearrangement has the same total. */
  lemma {:induction false} SumMealsPermutation(a: seq<Meal>, b: seq<Meal>)
    requires multiset(a) == multiset(b)
    ensures SumMeals(a) == SumMeals(b)
    decreases |a|
  {
    if a == [] {
      assert |b| == |multiset(b)| == 0;
    } else {
      var x := a[|a| - 1];
      var a' := a[..|a| - 1];
      assert a == a' + [x];
      assert multiset(a) == multiset(a') + multiset{x};
      assert x in multiset(b);
      var i :| 0 <= i < |b| && b[i] == x;
      var p, q := b[..i], b[i + 1..];
      assert b == p + [x] + q;
      assert multiset(b) == multiset(p + q) + multiset{x} by {
        assert multiset(p + [x] + q) == multiset(p) + multiset{x} + multiset(q);
        assert multiset(p + q) == multiset(p) + multiset(q);
      }
      MultisetCancel(multiset(a'), multiset(p + q), multiset{x});
      SumMealsPermutation(a', p + q);
      SumMealsRemove(p, x, q);
    }
  }

  /** A day's total is the sum of its slot totals, and is the total of all the day's items. */
  lemma {:induction false} DayTotalIsSumOfSlotTotals(slots: seq<MealSlot>)
    ensures SumSlots(slots) == SumMeals(SlotItems(slots))
  {
    if slots != [] {
      DayTotalIsSumOfSlotTotals(slots[..|slots| - 1]);
      SumMealsAppend(SlotItems(slots[..|slots| - 1]), slots[|slots| - 1].meals);
    }
  }

  /** The week's total is the sum of the day totals, and is the total of all the week's items. */
  lemma {:induction false} WeekTotalIsSumOfDayTotals(w: WeekData, days: seq<string>)
    ensures SumDays(w, days) == SumMeals(WeekItems(w, days))
  {
    if days != [] {
      var d := days[|days| - 1];
      WeekTotalIsSumOfDayTotals(w, days[..|days| - 1]);
      if d in w {
        DayTotalIsSumOfSlotTotals(w[d].meals);
      }
      SumMealsAppend(WeekItems(w, days[..|days| - 1]), DayItems(w, d));
    }
  }

  /** The aggregation examples: nothing sums to zero, one item to itself, two field by field. */
  lemma AggregateExamples(a: Meal, b: Meal)
    requires Facts(a) == Nutrition(10.0, 1.0, 2.0, 3.0) && Facts(b) == Nutrition(5.0, 0.0, 1.0, 0.0)
    ensures SumMeals([]) == Nutrition(0.0, 0.0, 0.0, 0.0)
    ensures SumMeals([a]) == Nutrition(10.0, 1.0, 2.0, 3.0)
    ensures SumMeals([a, b]) == Nutrition(15.0, 1.0, 3.0, 3.0)
  {
    assert [a, b][..1] == [a];
  }

  // ----- the loops of the source -----

  /** `MealSlotCard`'s `totalNutrition`. */
  method SlotTotal(slot: MealSlot) returns (acc: Nutrition)
    ensures acc == SumMeals(slot.meals)
  {
    acc := Zero;
    var j := 0;
    while j < |slot.meals|
      invariant 0 <= j <= |slot.meals|
      invariant acc == SumMeals(slot.meals[..j])
    {
      var meal := slot.meals[j];
      assert slot.meals[..j + 1][..j] == slot.meals[..j];
      acc := Nutrition(acc.calories + meal.calories, acc.protein + meal.protein,
                       acc.carbs + meal.carbs, acc.fat + meal.fat);
      j := j + 1;
    }
    assert slot.meals[..j] == slot.meals;
  }

  /** The inner `forEach` of `dayNutrition`: one slot's items added onto the running totals. */
  method AccumulateSlot(acc: Nutrition, meals: seq<Meal>) returns (r: Nutrition)
    ensures r == Add(acc, SumMeals(meals))
  {
    r := acc;
    var j := 0;
    while j < |meals|
      invariant 0 <= j <= |meals|
      invariant r == Add(acc, SumMeals(meals[..j]))
    {
      var meal := meals[j];
      assert meals[..j + 1][..j] == meals[..j];
      AddAssoc(acc, SumMeals(meals[..j]), Facts(meal));
      r := Nutrition(r.calories + meal.calories, r.protein + meal.protein,
                     r.carbs + meal.carbs, r.fat + meal.fat);
      j := j + 1;
    }
    assert meals[..j] == meals;
  }

  /** `dayNutrition` (and the per-day `nutrition` of the analytics view): one accumulator over every item of every slot. */
  method DayNutrition(day: DayData) returns (acc: Nutrition)
    ensures acc == SumSlots(day.meals)
    ensures acc == SumMeals(SlotItems(day.meals))
  {
    var slots := day.meals;
    acc := Zero;
    var i := 0;
    while i < |slots|
      invariant 0 <= i <= |slots|
      invariant acc == SumSlots(slots[..i])
    {
      assert slots[..i + 1][..i] == slots[..i];
      acc := AccumulateSlot(acc, slots[i].meals);
      i := i + 1;
    }
    assert slots[..i] == slots;
    DayTotalIsSumOfSlotTotals(slots);
  }

  // ----- the analytics view -----

  /** The minutes of a day: `parseInt(duration) || 0` per exercise, summed. */
  function Minutes(exs: seq<Exercise>): int {
    if exs == [] then 0 else Minutes(exs[..|exs| - 1]) + ParseIntOrZero(exs[|exs| - 1].duration)
  }

  /** `slot.meals.some(m => m.calories === 0 && m.name)`: a named item whose calories are missing. */
  function ItemsMissingData(ms: seq<Meal>): bool {
    if ms == [] then false
    else (ms[0].calories == 0.0 && ms[0].name != "") || ItemsMissingData(ms[1..])
  }

  /** `missingData`: some slot of the day holds a named item with 0 calories. */
  function MissingData(slots: seq<MealSlot>): bool {
    if slots == [] then false else ItemsMissingData(slots[0].meals) || MissingData(slots[1..])
  }

  lemma {:induction false} ItemsMissingDataMeans(ms: seq<Meal>)
    ensures ItemsMissingData(ms) <==> exists j :: 0 <= j < |ms| && ms[j].calories == 0.0 && ms[j].name != ""
  {
    if ms != [] {
      ItemsMissingDataMeans(ms[1..]);
      if ItemsMissingData(ms[1..]) {
        var j :| 0 <= j < |ms[1..]| && ms[1..][j].calories == 0.0 && ms[1..][j].name != "";
        assert ms[j + 1] == ms[1..][j];
      }
      if exists j :: 0 <= j < |ms| && ms[j].calories == 0.0 && ms[j].name != "" {
        var j :| 0 <= j < |ms| && ms[j].calories == 0.0 && ms[j].name != "";
        if j > 0 {
          assert ms[1..][j - 1] == ms[j];
        }
      }
    }
  }

  /** A day is flagged exactly when one of its slots holds a named item with 0 calories. */
  lemma {:induction false} MissingDataMeans(slots: seq<MealSlot>)
    ensures MissingData(slots) <==> exists k, j :: 0 <= k < |slots| && 0 <= j < |slots[k].meals|
                                                 && slots[k].meals[j].calories == 0.0 && slots[k].meals[j].name != ""
  {
    if slots != [] {
      MissingDataMeans(slots[1..]);
      ItemsMissingDataMeans(slots[0].meals);
      if MissingData(slots[1..]) {
        var k, j :| 0 <= k < |slots[1..]| && 0 <= j < |slots[1..][k].meals|
                    && slots[1..][k].meals[j].calories == 0.0 && slots[1..][k].meals[j].name != "";
        assert slots[k + 1] == slots[1..][k];
      }
      if exists k, j :: 0 <= k < |slots| && 0 <= j < |slots[k].meals|
                        && slots[k].meals[j].calories == 0.0 && slots[k].meals[j].name != "" {
        var k, j :| 0 <= k < |slots| && 0 <= j < |slots[k].meals|
                    && slots[k].meals[j].calories == 0.0 && slots[k].meals[j].name != "";
        if k > 0 {
          assert slots[1..][k - 1] == slots[k];
        }
      }
    }
  }

  datatype DailyRow = DailyRow(day: string, nutrition: Nutrition, exercises: nat, duration: int, missingData: bool)

  datatype WeeklyTotals = WeeklyTotals(calories: real, protein: real, carbs: real, fat: real,
                                       exerciseCount: nat, exerciseMinutes: int)

  function DayRow(w: WeekData, d: string): DailyRow
    requires d in w
  {
    DailyRow(d, SumSlots(w[d].meals), |w[d].exercises|, Minutes(w[d].exercises), MissingData(w[d].meals))
  }

  /** Number of exercises over the given days. */
  function ExerciseCount(w: WeekData, days: seq<string>): nat
    requires forall d :: d in days ==> d in w
  {
    if days == [] then 0 else ExerciseCount(w, days[..|days| - 1]) + |w[days[|days| - 1]].exercises|
  }

  /** Exercise minutes over the given days. */
  function ExerciseMinutes(w: WeekData, days: seq<string>): int
    requires forall d :: d in days ==> d in w
  {
    if days == [] then 0 else ExerciseMinutes(w, days[..|days| - 1]) + Minutes(w[days[|days| - 1]].exercises)
  }

  /** The per-day `duration` of the analytics view. */
  method DayMinutes(day: DayData) returns (duration: int)
    ensures duration == Minutes(day.exercises)
  {
    duration := 0;
    var j := 0;
    while j < |day.exercises|
      invariant 0 <= j <= |day.exercises|
      invariant duration == Minutes(day.exercises[..j])
    {
      assert day.exercises[..j + 1][..j] == day.exercises[..j];
      duration := duration + ParseIntOrZero(day.exercises[j].duration);
      j := j + 1;
    }
    assert day.exercises[..j] == day.exercises;
  }

  /** The daily rows of the given days, in order. */
  function Rows(w: WeekData, days: seq<string>): seq<DailyRow>
    requires forall d :: d in days ==> d in w
  {
    if days == [] then [] else Rows(w, days[..|days| - 1]) + [DayRow(w, days[|days| - 1])]
  }

  lemma {:induction false} RowsAt(w: WeekData, days: seq<string>)
    requires forall d :: d in days ==> d in w
    ensures |Rows(w, days)| == |days|
    ensures forall i :: 0 <= i < |days| ==> Rows(w, days)[i] == DayRow(w, days[i])
  {
    if days != [] {
      var n := |days|;
      var pre := days[..n - 1];
      RowsAt(w, pre);
      assert Rows(w, days) == Rows(w, pre) + [DayRow(w, days[n - 1])];
      forall i | 0 <= i < n
        ensures Rows(w, days)[i] == DayRow(w, days[i])
      {
        if i < n - 1 {
          assert pre[i] == days[i];
        }
      }
    }
  }

  /** One more day added to the weekly sums. */
  lemma WeekStep(w: WeekData, days: seq<string>, i: nat)
    requires i < |days| && forall d :: d in days ==> d in w
    ensures SumDays(w, days[..i + 1]) == Add(SumDays(w, days[..i]), SumSlots(w[days[i]].meals))
    ensures ExerciseCount(w, days[..i + 1]) == ExerciseCount(w, days[..i]) + |w[days[i]].exercises|
    ensures ExerciseMinutes(w, days[..i + 1]) == ExerciseMinutes(w, days[..i]) + Minutes(w[days[i]].exercises)
    ensures Rows(w, days[..i + 1]) == Rows(w, days[..i]) + [DayRow(w, days[i])]
  {
    assert days[..i + 1][..i] == days[..i];
  }

  /**
   * `AnalyticsView`: one row per day name, in order, and the weekly
   * totals. The weekly nutrition is the total of every item of the seven
   * days; the counts are sums over the days.
   */
  method Analytics(w: WeekData) returns (weekly: WeeklyTotals, daily: seq<DailyRow>)
    requires forall d :: d in DaysOfWeek ==> d in w
    ensures |daily| == |DaysOfWeek|
    ensures forall i :: 0 <= i < |daily| ==> daily[i] == DayRow(w, DaysOfWeek[i])
    ensures Nutrition(weekly.calories, weekly.protein, weekly.carbs, weekly.fat) == SumMeals(WeekItems(w, DaysOfWeek))
    ensures weekly.exerciseCount == ExerciseCount(w, DaysOfWeek)
    ensures weekly.exerciseMinutes == ExerciseMinutes(w, DaysOfWeek)
  {
    weekly, daily := Summarise(w, DaysOfWeek);
    RowsAt(w, DaysOfWeek);
  }

  /** The loop of `AnalyticsView` over a list of day names. */
  method Summarise(w: WeekData, days: seq<string>) returns (weekly: WeeklyTotals, daily: seq<DailyRow>)
    requires forall d :: d in days ==> d in w
    ensures daily == Rows(w, days)
    ensures Nutrition(weekly.calories, weekly.protein, weekly.carbs, weekly.fat) == SumMeals(WeekItems(w, days))
    ensures weekly.exerciseCount == ExerciseCount(w, days)
    ensures weekly.exerciseMinutes == ExerciseMinutes(w, days)
  {
    weekly := WeeklyTotals(0.0, 0.0, 0.0, 0.0, 0, 0);
    daily := [];
    var i := 0;
    while i < |days|
      invariant 0 <= i <= |days|
      invariant daily == Rows(w, days[..i])
      invariant Nutrition(weekly.calories, weekly.protein, weekly.carbs, weekly.fat) == SumDays(w, days[..i])
      invariant weekly.exerciseCount == ExerciseCount(w, days[..i])
      invariant weekly.exerciseMinutes == ExerciseMinutes(w, days[..i])
    {
      var day := days[i];
      var info := w[day];
      var nutrition := DayNutrition(info);
      var exercises := |info.exercises|;
      var duration := DayMinutes(info);
      WeekStep(w, days, i);
      weekly := WeeklyTotals(weekly.calories + nutrition.calories, weekly.protein + nutrition.protein,
                             weekly.carbs + nutrition.carbs, weekly.fat + nutrition.fat,
                             weekly.exerciseCount + exercises, weekly.exerciseMinutes + duration);
      var missing := MissingData(info.meals);
      var row := DailyRow(day, nutrition, exercises, duration, missing);
      daily := daily + [row];
      i := i + 1;
    }
    assert days[..i] == days;
    WeekTotalIsSumOfDayTotals(w, days);
  }
}
