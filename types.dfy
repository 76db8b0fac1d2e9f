/**
 * The records of the planner (types.ts). A `WeekData` maps a day name to
 * that day's exercises and meal slots; a meal slot holds the food items
 * ("meals" in the source) eaten in that period of the day.
 */
module Types {
  import opened Wrappers

  /** The four nutrition figures; JavaScript numbers, modelled as reals. */
  datatype Nutrition = Nutrition(calories: real, protein: real, carbs: real, fat: real)

  /** A food item: `Meal extends NutritionalInfo` with an id, a name and a free-text quantity. */
  datatype Meal = Meal(id: string, name: string, quantity: string,
                       calories: real, protein: real, carbs: real, fat: real)

  /** What the meal form submits: `Omit<Meal, 'id'>`. */
  datatype MealFields = MealFields(name: string, quantity: string,
                                   calories: real, protein: real, carbs: real, fat: real)

  datatype MealSlot = MealSlot(id: string, title: string, meals: seq<Meal>, isDefault: bool)

  datatype Exercise = Exercise(id: string, name: string, duration: string, setsReps: string)

  /** What the exercise form submits: `Omit<Exercise, 'id'>`. */
  datatype ExerciseFields = ExerciseFields(name: string, duration: string, setsReps: string)

  /** One day: its exercises and its meal slots (the source calls the slot list `meals`). */
  datatype DayData = DayData(exercises: seq<Exercise>, meals: seq<MealSlot>)

  /** `WeekData`: day name to day. */
  type WeekData = map<string, DayData>

  datatype Goal = Lose | Maintain | Gain

  datatype Profile = Profile(age: real, height: real, weight: real, goal: Goal)

  /**
   * A generated plan as the app reads it: an array of day plans. The
   * fields the apply step tests for truthiness (`mealSlots`, `items`, the
   * four numbers) are optional.
   */
  datatype PlanItem = PlanItem(name: string, quantity: string,
                               calories: Option<real>, protein: Option<real>,
                               carbs: Option<real>, fat: Option<real>)

  datatype PlanSlot = PlanSlot(slotTitle: string, items: Option<seq<PlanItem>>)

  datatype DayPlan = DayPlan(day: string, mealSlots: Option<seq<PlanSlot>>)

  type Plan = seq<DayPlan>

  /** The nutrition figures of a food item. */
  function Facts(m: Meal): Nutrition {
    Nutrition(m.calories, m.protein, m.carbs, m.fat)
  }

  /** The titles of a day's slots, in order. */
  function SlotTitles(slots: seq<MealSlot>): (r: seq<string>)
    ensures |r| == |slots|
    ensures forall k :: 0 <= k < |slots| ==> r[k] == slots[k].title
  {
    seq(|slots|, k requires 0 <= k < |slots| => slots[k].title)
  }

  // ----- sequence helpers: Array.prototype.map and Array.prototype.filter -----

  function MapSeq<A, B>(s: seq<A>, f: A -> B): (r: seq<B>)
    ensures |r| == |s|
    ensures forall i :: 0 <= i < |s| ==> r[i] == f(s[i])
  {
    seq(|s|, i requires 0 <= i < |s| => f(s[i]))
  }

  /** The elements of `s` that `keep` accepts, in their order. */
  function Filter<T>(s: seq<T>, keep: T -> bool): (r: seq<T>)
    ensures |r| <= |s|
  {
    if s == [] then []
    else
      var rest := Filter(s[1..], keep);
      if keep(s[0]) then [s[0]] + rest else rest
  }

  /** A filter keeps every copy of what it accepts and no copy of anything else. */
  lemma {:induction false} FilterMultiset<T(!new)>(s: seq<T>, keep: T -> bool)
    ensures forall x :: multiset(Filter(s, keep))[x] == if keep(x) then multiset(s)[x] else 0
  {
    if s != [] {
      FilterMultiset(s[1..], keep);
      assert s == [s[0]] + s[1..];
    }
  }

  /** So what is left is what passes the test. */
  lemma FilterMembers<T(!new)>(s: seq<T>, keep: T -> bool)
    ensures forall x :: x in Filter(s, keep) <==> x in s && keep(x)
  {
    FilterMultiset(s, keep);
    assert forall x :: x in Filter(s, keep) <==> x in multiset(Filter(s, keep));
    assert forall x :: x in s <==> x in multiset(s);
  }

  /** Filtering keeps the order: the result is what is left after dropping rejected elements. */
  lemma {:induction false} FilterAppend<T(!new)>(a: seq<T>, b: seq<T>, keep: T -> bool)
    ensures Filter(a + b, keep) == Filter(a, keep) + Filter(b, keep)
  {
    if a == [] {
      assert a + b == b;
    } else {
      var ab := a + b;
      assert ab[0] == a[0] && ab[1..] == a[1..] + b;
      FilterAppend(a[1..], b, keep);
      var fa, fb := Filter(a[1..], keep), Filter(b, keep);
      assert Filter(ab, keep) == if keep(a[0]) then [a[0]] + (fa + fb) else fa + fb;
      assert Filter(a, keep) == if keep(a[0]) then [a[0]] + fa else fa;
      assert [a[0]] + (fa + fb) == ([a[0]] + fa) + fb;
    }
  }

  /** A filter that accepts every element changes nothing. */
  lemma {:induction false} FilterKeepsAll<T(!new)>(s: seq<T>, keep: T -> bool)
    requires forall k :: 0 <= k < |s| ==> keep(s[k])
    ensures Filter(s, keep) == s
  {
    if s != [] {
      FilterKeepsAll(s[1..], keep);
      assert s == [s[0]] + s[1..];
    }
  }

  /** Filtering out an element that was just appended, and nothing else, gives back the list. */
  lemma FilterDropsAppended<T(!new)>(s: seq<T>, x: T, keep: T -> bool)
    requires forall k :: 0 <= k < |s| ==> keep(s[k])
    requires !keep(x)
    ensures Filter(s + [x], keep) == s
  {
    FilterAppend(s, [x], keep);
    FilterKeepsAll(s, keep);
    assert [x][1..] == [];
  }

  /** The result of a filter passes it, so filtering again changes nothing. */
  lemma FilterIdempotent<T(!new)>(s: seq<T>, keep: T -> bool)
    ensures Filter(Filter(s, keep), keep) == Filter(s, keep)
  {
    var r := Filter(s, keep);
    FilterMembers(s, keep);
    forall k | 0 <= k < |r|
      ensures keep(r[k])
    {
      assert r[k] in r;
    }
    FilterKeepsAll(r, keep);
  }

  /** `find`/`findIndex`: the first position whose element passes `p`. */
  function FirstIndex<T>(s: seq<T>, p: T -> bool): (r: Option<nat>)
    ensures r.Some? ==> r.value < |s| && p(s[r.value]) && forall k :: 0 <= k < r.value ==> !p(s[k])
    ensures r.None? ==> forall k :: 0 <= k < |s| ==> !p(s[k])
  {
    if s == [] then None
    else if p(s[0]) then Some(0)
    else match FirstIndex(s[1..], p)
      case None => None
      case Some(i) => Some(i + 1)
  }

  /** A scan that stops at `i` has found the first match (or, at the end, none). */
  lemma FirstIndexAt<T>(s: seq<T>, p: T -> bool, i: nat)
    requires i <= |s|
    requires forall k :: 0 <= k < i ==> !p(s[k])
    requires i < |s| ==> p(s[i])
    ensures FirstIndex(s, p) == if i < |s| then Some(i) else None
  {
  }

  lemma MultisetAddBoth<T>(a: multiset<T>, b: multiset<T>, o: multiset<T>, n: multiset<T>, l: multiset<T>)
    requires a + o == b + n
    ensures (a + l) + o == (b + l) + n
    ensures (l + a) + o == (l + b) + n
  {
    assert forall x :: ((a + l) + o)[x] == (a + o)[x] + l[x] == (b + n)[x] + l[x] == ((b + l) + n)[x];
    assert forall x :: ((l + a) + o)[x] == (a + o)[x] + l[x] == (b + n)[x] + l[x] == ((l + b) + n)[x];
  }

  lemma MultisetCancel<T>(a: multiset<T>, b: multiset<T>, c: multiset<T>)
    requires a + c == b + c
    ensures a == b
  {
    assert forall x :: a[x] == (a + c)[x] - c[x] == (b + c)[x] - c[x] == b[x];
  }

  /** No two elements of `s` are equal. */
  predicate Distinct<T(==)>(s: seq<T>) {
    forall i, j :: 0 <= i < j < |s| ==> s[i] != s[j]
  }
}
