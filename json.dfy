/**
 * JSON values, and the JSON form of the planner's records. The browser
 * store holds JSON text; the model treats `JSON.stringify` as the encoders
 * below and `JSON.parse` as the identity on `Json`, so what is stored is a
 * `Json` value. The decoders give the typed reading of a value that has
 * the right shape; each has a round-trip lemma with its encoder.
 */
module JsonValue {
  import opened Wrappers
  import opened Types

  datatype Json =
    | JNull
    | JBool(b: bool)
    | JNum(n: real)
    | JStr(str: string)
    | JArr(elems: seq<Json>)
    | JObj(fields: map<string, Json>)

  // ----- sequences: an all-or-nothing decode -----

  /** Decodes every element, or fails if any element fails. */
  function Traverse<A, B>(s: seq<A>, f: A -> Option<B>): (r: Option<seq<B>>)
    ensures r.Some? ==> |r.value| == |s|
  {
    if s == [] then Some([])
    else
      var x :- f(s[0]);
      var rest :- Traverse(s[1..], f);
      Some([x] + rest)
  }

  lemma {:induction false} TraverseMapSeq<A, B>(s: seq<A>, enc: A -> B, dec: B -> Option<A>)
    requires forall x :: x in s ==> dec(enc(x)) == Some(x)
    ensures Traverse(MapSeq(s, enc), dec) == Some(s)
  {
    if s != [] {
      var js := MapSeq(s, enc);
      assert js[0] == enc(s[0]) && dec(enc(s[0])) == Some(s[0]);
      assert js[1..] == MapSeq(s[1..], enc);
      TraverseMapSeq(s[1..], enc, dec);
      assert [s[0]] + s[1..] == s;
    }
  }

  // ----- reading the fields of an object -----

  function StrField(o: map<string, Json>, k: string): Option<string> {
    if k in o && o[k].JStr? then Some(o[k].str) else None
  }

  function NumField(o: map<string, Json>, k: string): Option<real> {
    if k in o && o[k].JNum? then Some(o[k].n) else None
  }

  function BoolField(o: map<string, Json>, k: string): Option<bool> {
    if k in o && o[k].JBool? then Some(o[k].b) else None
  }

  function ArrField(o: map<string, Json>, k: string): Option<seq<Json>> {
    if k in o && o[k].JArr? then Some(o[k].elems) else None
  }

  /** An optional field: absent or null reads as `None` (both falsy), a value of the wrong kind fails. */
  function OptNumField(o: map<string, Json>, k: string): Option<Option<real>> {
    if k !in o || o[k].JNull? then Some(None)
    else if o[k].JNum? then Some(Some(o[k].n))
    else None
  }

  function OptArrField(o: map<string, Json>, k: string): Option<Option<seq<Json>>> {
    if k !in o || o[k].JNull? then Some(None)
    else if o[k].JArr? then Some(Some(o[k].elems))
    else None
  }

  // ----- food items -----

  function EncodeMeal(m: Meal): Json {
    JObj(map["id" := JStr(m.id), "name" := JStr(m.name), "quantity" := JStr(m.quantity),
             "calories" := JNum(m.calories), "protein" := JNum(m.protein),
             "carbs" := JNum(m.carbs), "fat" := JNum(m.fat)])
  }

  function DecodeMeal(j: Json): Option<Meal> {
    if !j.JObj? then None
    else
      var o := j.fields;
      var id :- StrField(o, "id");
      var name :- StrField(o, "name");
      var quantity :- StrField(o, "quantity");
      var calories :- NumField(o, "calories");
      var protein :- NumField(o, "protein");
      var carbs :- NumField(o, "carbs");
      var fat :- NumField(o, "fat");
      Some(Meal(id, name, quantity, calories, protein, carbs, fat))
  }

  lemma MealRoundTrip(m: Meal)
    ensures DecodeMeal(EncodeMeal(m)) == Some(m)
  {
  }

  // ----- exercises -----

  function EncodeExercise(e: Exercise): Json {
    JObj(map["id" := JStr(e.id), "name" := JStr(e.name),
             "duration" := JStr(e.duration), "setsReps" := JStr(e.setsReps)])
  }

  function DecodeExercise(j: Json): Option<Exercise> {
    if !j.JObj? then None
    else
      var o := j.fields;
      var id :- StrField(o, "id");
      var name :- StrField(o, "name");
      var duration :- StrField(o, "duration");
      var setsReps :- StrField(o, "setsReps");
      Some(Exercise(id, name, duration, setsReps))
  }

  // ----- meal slots -----

  function EncodeSlot(s: MealSlot): Json {
    JObj(map["id" := JStr(s.id), "title" := JStr(s.title),
             "meals" := JArr(MapSeq(s.meals, EncodeMeal)), "isDefault" := JBool(s.isDefault)])
  }

  function DecodeSlot(j: Json): Option<MealSlot> {
    if !j.JObj? then None
    else
      var o := j.fields;
      var id :- StrField(o, "id");
      var title :- StrField(o, "title");
      var items :- ArrField(o, "meals");
      var meals :- Traverse(items, DecodeMeal);
      var isDefault :- BoolField(o, "isDefault");
      Some(MealSlot(id, title, meals, isDefault))
  }

  lemma SlotRoundTrip(s: MealSlot)
    ensures DecodeSlot(EncodeSlot(s)) == Some(s)
  {
    forall m | m in s.meals ensures DecodeMeal(EncodeMeal(m)) == Some(m) {
      MealRoundTrip(m);
    }
    TraverseMapSeq(s.meals, EncodeMeal, DecodeMeal);
  }

  // ----- days and weeks -----

  function EncodeDay(d: DayData): Json {
    JObj(map["exercises" := JArr(MapSeq(d.exercises, EncodeExercise)),
             "meals" := JArr(MapSeq(d.meals, EncodeSlot))])
  }

  function DecodeDay(j: Json): Option<DayData> {
    if !j.JObj? then None
    else
      var o := j.fields;
      var exs :- ArrField(o, "exercises");
      var exercises :- Traverse(exs, DecodeExercise);
      var slots :- ArrField(o, "meals");
      var meals :- Traverse(slots, DecodeSlot);
      Some(DayData(exercises, meals))
  }

  lemma DayRoundTrip(d: DayData)
    ensures DecodeDay(EncodeDay(d)) == Some(d)
  {
    forall e | e in d.exercises ensures DecodeExercise(EncodeExercise(e)) == Some(e) {
    }
    TraverseMapSeq(d.exercises, EncodeExercise, DecodeExercise);
    forall s | s in d.meals ensures DecodeSlot(EncodeSlot(s)) == Some(s) {
      SlotRoundTrip(s);
    }
    TraverseMapSeq(d.meals, EncodeSlot, DecodeSlot);
  }

  /** `JSON.stringify` of a week: an object keyed by day name. */
  function EncodeWeek(w: WeekData): (r: Json)
    ensures r.JObj? && r.fields.Keys == w.Keys
    ensures forall d :: d in w ==> r.fields[d] == EncodeDay(w[d])
  {
    JObj(map d | d in w :: EncodeDay(w[d]))
  }

  /** The typed reading of a stored week: every day must decode. */
  function DecodeWeek(j: Json): (r: Option<WeekData>)
    ensures r.Some? ==> j.JObj? && r.value.Keys == j.fields.Keys
  {
    if j.JObj? && forall d :: d in j.fields ==> DecodeDay(j.fields[d]).Some?
    then Some(map d | d in j.fields :: DecodeDay(j.fields[d]).value)
    else None
  }

  /** Storing a week and reading it back gives the same week. */
  lemma WeekRoundTrip(w: WeekData)
    ensures DecodeWeek(EncodeWeek(w)) == Some(w)
  {
    var j := EncodeWeek(w);
    forall d | d in j.fields ensures DecodeDay(j.fields[d]) == Some(w[d]) {
      DayRoundTrip(w[d]);
    }
    var r := DecodeWeek(j);
    assert r.Some?;
    assert r.value == w;
  }

  // ----- profile -----

  function GoalName(g: Goal): string {
    match g
    case Lose => "lose"
    case Maintain => "maintain"
    case Gain => "gain"
  }

  function GoalOf(s: string): Option<Goal> {
    if s == "lose" then Some(Lose)
    else if s == "maintain" then Some(Maintain)
    else if s == "gain" then Some(Gain)
    else None
  }

  function EncodeProfile(p: Profile): Json {
    JObj(map["age" := JNum(p.age), "height" := JNum(p.height),
             "weight" := JNum(p.weight), "goal" := JStr(GoalName(p.goal))])
  }

  function DecodeProfile(j: Json): Option<Profile> {
    if !j.JObj? then None
    else
      var o := j.fields;
      var age :- NumField(o, "age");
      var height :- NumField(o, "height");
      var weight :- NumField(o, "weight");
      var goalName :- StrField(o, "goal");
      var goal :- GoalOf(goalName);
      Some(Profile(age, height, weight, goal))
  }

  lemma ProfileRoundTrip(p: Profile)
    ensures DecodeProfile(EncodeProfile(p)) == Some(p)
  {
  }

  // ----- generated plan -----

  /** Adds the entry `k` to an object only when the optional value is present (`JSON.stringify` drops `undefined`). */
  function WithOptNum(o: map<string, Json>, k: string, v: Option<real>): map<string, Json> {
    if v.Some? then o[k := JNum(v.value)] else o
  }

  lemma WithOptNumLookup(o: map<string, Json>, k: string, v: Option<real>)
    requires k !in o
    ensures OptNumField(WithOptNum(o, k, v), k) == Some(v)
    ensures forall k' :: k' != k ==> (k' in WithOptNum(o, k, v) <==> k' in o)
    ensures forall k' :: k' != k && k' in o ==> WithOptNum(o, k, v)[k'] == o[k']
  {
  }

  function EncodePlanItem(it: PlanItem): Json {
    var o := map["name" := JStr(it.name), "quantity" := JStr(it.quantity)];
    JObj(WithOptNum(WithOptNum(WithOptNum(WithOptNum(o, "calories", it.calories),
                                          "protein", it.protein), "carbs", it.carbs), "fat", it.fat))
  }

  function DecodePlanItem(j: Json): Option<PlanItem> {
    if !j.JObj? then None
    else
      var o := j.fields;
      var name :- StrField(o, "name");
      var quantity :- StrField(o, "quantity");
      var calories :- OptNumField(o, "calories");
      var protein :- OptNumField(o, "protein");
      var carbs :- OptNumField(o, "carbs");
      var fat :- OptNumField(o, "fat");
      Some(PlanItem(name, quantity, calories, protein, carbs, fat))
  }

  lemma PlanItemRoundTrip(it: PlanItem)
    ensures DecodePlanItem(EncodePlanItem(it)) == Some(it)
  {
    var o0 := map["name" := JStr(it.name), "quantity" := JStr(it.quantity)];
    var o1 := WithOptNum(o0, "calories", it.calories);
    WithOptNumLookup(o0, "calories", it.calories);
    var o2 := WithOptNum(o1, "protein", it.protein);
    WithOptNumLookup(o1, "protein", it.protein);
    var o3 := WithOptNum(o2, "carbs", it.carbs);
    WithOptNumLookup(o2, "carbs", it.carbs);
    var o4 := WithOptNum(o3, "fat", it.fat);
    WithOptNumLookup(o3, "fat", it.fat);
    assert StrField(o4, "name") == Some(it.name);
    assert StrField(o4, "quantity") == Some(it.quantity);
    assert OptNumField(o4, "calories") == Some(it.calories);
    assert OptNumField(o4, "protein") == Some(it.protein);
    assert OptNumField(o4, "carbs") == Some(it.carbs);
  }

  function EncodePlanSlot(s: PlanSlot): Json {
    JObj(map["slotTitle" := JStr(s.slotTitle)]
         + (if s.items.Some? then map["items" := JArr(MapSeq(s.items.value, EncodePlanItem))] else map[]))
  }

  function DecodePlanSlot(j: Json): Option<PlanSlot> {
    if !j.JObj? then None
    else
      var o := j.fields;
      var title :- StrField(o, "slotTitle");
      var arr :- OptArrField(o, "items");
      if arr.None? then Some(PlanSlot(title, None))
      else
        var items :- Traverse(arr.value, DecodePlanItem);
        Some(PlanSlot(title, Some(items)))
  }

  lemma PlanSlotRoundTrip(s: PlanSlot)
    ensures DecodePlanSlot(EncodePlanSlot(s)) == Some(s)
  {
    if s.items.Some? {
      forall it | it in s.items.value ensures DecodePlanItem(EncodePlanItem(it)) == Some(it) {
        PlanItemRoundTrip(it);
      }
      TraverseMapSeq(s.items.value, EncodePlanItem, DecodePlanItem);
    }
  }

  function EncodeDayPlan(d: DayPlan): Json {
    JObj(map["day" := JStr(d.day)]
         + (if d.mealSlots.Some? then map["mealSlots" := JArr(MapSeq(d.mealSlots.value, EncodePlanSlot))] else map[]))
  }

  function DecodeDayPlan(j: Json): Option<DayPlan> {
    if !j.JObj? then None
    else
      var o := j.fields;
      var day :- StrField(o, "day");
      var arr :- OptArrField(o, "mealSlots");
      if arr.None? then Some(DayPlan(day, None))
      else
        var slots :- Traverse(arr.value, DecodePlanSlot);
        Some(DayPlan(day, Some(slots)))
  }

  lemma DayPlanRoundTrip(d: DayPlan)
    ensures DecodeDayPlan(EncodeDayPlan(d)) == Some(d)
  {
    if d.mealSlots.Some? {
      forall s | s in d.mealSlots.value ensures DecodePlanSlot(EncodePlanSlot(s)) == Some(s) {
        PlanSlotRoundTrip(s);
      }
      TraverseMapSeq(d.mealSlots.value, EncodePlanSlot, DecodePlanSlot);
    }
  }

  function EncodePlan(p: Plan): Json {
    JArr(MapSeq(p, EncodeDayPlan))
  }

  function DecodePlan(j: Json): Option<Plan> {
    if j.JArr? then Traverse(j.elems, DecodeDayPlan) else None
  }

  lemma PlanRoundTrip(p: Plan)
    ensures DecodePlan(EncodePlan(p)) == Some(p)
  {
    forall d | d in p ensures DecodeDayPlan(EncodeDayPlan(d)) == Some(d) {
      DayPlanRoundTrip(d);
    }
    TraverseMapSeq(p, EncodeDayPlan, DecodeDayPlan);
  }
}
