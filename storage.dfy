/**
 * The persistence adapter (services/localStorageService.ts): the empty
 * week, the shape check applied to a stored week, and a browser key-value
 * store holding three JSON blobs under fixed keys.
 */
module Storage {
  import opened Wrappers
  import opened Types
  import opened Constants
  import opened JsonValue

  const WeekDataKey: string := "fitnessPlannerWeekData_v2"
  const ProfileKey: string := "fitnessPlannerProfile"
  const GeneratedPlanKey: string := "fitnessPlannerGeneratedPlan"

  /** The profile used when none is stored. */
  const DefaultProfile: Profile := Profile(25.0, 175.0, 70.0, Maintain)

  /**
   * What `getItem` returns for a key that is present: text that
   * `JSON.parse` reads as `json`, or text it rejects. The empty string is
   * `Garbled` too: every loader treats it exactly like a parse failure.
   */
  datatype Entry = Text(json: Json) | Garbled

  /** The `Date.now()`/`Math.random()` part of a slot id, one per (day, title). */
  type Nonce = (string, string) -> string

  function SlotId(day: string, title: string, nonce: Nonce): string {
    day + "-" + title + "-" + nonce(day, title)
  }

  function EmptySlots(day: string, nonce: Nonce): seq<MealSlot> {
    MapSeq(DefaultMealSlots, (title: string) => MealSlot(SlotId(day, title, nonce), title, [], true))
  }

  /**
   * `createEmptyWeekData`: exactly the seven day names; each day has no
   * exercises and one empty default slot per default title, in order.
   */
  function CreateEmptyWeekData(nonce: Nonce): (r: WeekData)
    ensures r.Keys == DaySet()
    ensures forall d :: d in r ==> r[d].exercises == [] && SlotTitles(r[d].meals) == DefaultMealSlots
    ensures forall d, k :: d in r && 0 <= k < |r[d].meals| ==>
              var s := r[d].meals[k];
              s.meals == [] && s.isDefault && s.id == SlotId(d, s.title, nonce)
  {
    map d | d in DaysOfWeek :: DayData([], EmptySlots(d, nonce))
  }

  // ----- the shape check of loadWeekData -----

  /** `x?.[key]`: only an object has own properties; anything else yields undefined. */
  function Prop(x: Option<Json>, key: string): Option<Json> {
    if x.Some? && x.value.JObj? && key in x.value.fields then Some(x.value.fields[key]) else None
  }

  /**
   * `x?.[0]`: the first element of an array, or the property "0" of an
   * object. (The first character of a string has no `meals` property, so
   * it is folded into undefined here.)
   */
  function Elem0(x: Option<Json>): Option<Json> {
    if x.None? then None
    else match x.value
      case JArr(es) => if |es| > 0 then Some(es[0]) else None
      case JObj(o) => if "0" in o then Some(o["0"]) else None
      case _ => None
  }

  /**
   * `parsed[DAYS_OF_WEEK[0]]?.meals?.[0]?.meals && Array.isArray(...)`:
   * the first day's first slot has a `meals` array (an array is always
   * truthy, so the test is that it is an array).
   */
  predicate WeekShapeOk(parsed: Json) {
    var items := Prop(Elem0(Prop(Prop(Some(parsed), DaysOfWeek[0]), "meals")), "meals");
    items.Some? && items.value.JArr?
  }

  /** On an encoded week the check holds exactly when the first day is present and has a slot. */
  lemma EncodedWeekShape(w: WeekData)
    ensures WeekShapeOk(EncodeWeek(w)) <==> DaysOfWeek[0] in w && |w[DaysOfWeek[0]].meals| > 0
  {
    var d0 := DaysOfWeek[0];
    if d0 in w {
      var day := EncodeDay(w[d0]);
      assert Prop(Some(EncodeWeek(w)), d0) == Some(day);
      var slots := MapSeq(w[d0].meals, EncodeSlot);
      assert Prop(Some(day), "meals") == Some(JArr(slots));
      if |w[d0].meals| > 0 {
        assert Elem0(Some(JArr(slots))) == Some(EncodeSlot(w[d0].meals[0]));
      }
    }
  }

  /** The check looks at one slot only: a stored week that passes may lack every other day. */
  lemma ShapeCheckAllowsMissingDays(nonce: Nonce)
    ensures var w := map[DaysOfWeek[0] := CreateEmptyWeekData(nonce)[DaysOfWeek[0]]];
            WeekShapeOk(EncodeWeek(w)) && w.Keys != DaySet()
  {
    var w := map[DaysOfWeek[0] := CreateEmptyWeekData(nonce)[DaysOfWeek[0]]];
    EncodedWeekShape(w);
    assert DaysOfWeek[1] in DaySet() && DaysOfWeek[1] !in w;
  }

  /**
   * ... and a stored value that passes need not be a week at all: here the
   * first day has no exercise list, its slot has no id, title or flag, and
   * the second day is a string.
   */
  lemma ShapeCheckAllowsMalformedWeek()
    ensures var j := JObj(map[DaysOfWeek[0] := JObj(map["meals" := JArr([JObj(map["meals" := JArr([])])])]),
                              DaysOfWeek[1] := JStr("x")]);
            WeekShapeOk(j) && DecodeWeek(j).None?
  {
  }

  // ----- what the loaders return, as functions of the stored entries -----

  /** The stored week that `loadWeekData` accepts, if any. */
  function AcceptedWeek(entries: map<string, Entry>): (r: Option<Json>)
    ensures r.Some? ==> WeekShapeOk(r.value)
  {
    if WeekDataKey in entries && entries[WeekDataKey].Text? && WeekShapeOk(entries[WeekDataKey].json)
    then Some(entries[WeekDataKey].json)
    else None
  }

  function LoadedWeek(entries: map<string, Entry>, nonce: Nonce): Json {
    if AcceptedWeek(entries).Some? then AcceptedWeek(entries).value
    else EncodeWeek(CreateEmptyWeekData(nonce))
  }

  function LoadedProfile(entries: map<string, Entry>): Json {
    if ProfileKey in entries && entries[ProfileKey].Text? then entries[ProfileKey].json
    else EncodeProfile(DefaultProfile)
  }

  function LoadedPlan(entries: map<string, Entry>): Json {
    if GeneratedPlanKey in entries && entries[GeneratedPlanKey].Text? then entries[GeneratedPlanKey].json
    else JNull
  }

  /**
   * Saving a week and loading it back returns the same week exactly when
   * the week passes the shape check; otherwise the load falls back to a
   * fresh empty week.
   */
  lemma WeekSaveThenLoad(entries: map<string, Entry>, w: WeekData, nonce: Nonce)
    ensures var loaded := LoadedWeek(entries[WeekDataKey := Text(EncodeWeek(w))], nonce);
            if DaysOfWeek[0] in w && |w[DaysOfWeek[0]].meals| > 0
            then loaded == EncodeWeek(w) && DecodeWeek(loaded) == Some(w)
            else loaded == EncodeWeek(CreateEmptyWeekData(nonce))
  {
    EncodedWeekShape(w);
    WeekRoundTrip(w);
  }

  /** The empty week passes the shape check, so it survives a save and a load. */
  lemma EmptyWeekSurvivesReload(entries: map<string, Entry>, nonce: Nonce)
    ensures var w := CreateEmptyWeekData(nonce);
            DecodeWeek(LoadedWeek(entries[WeekDataKey := Text(EncodeWeek(w))], nonce)) == Some(w)
  {
    var w := CreateEmptyWeekData(nonce);
    var d0 := DaysOfWeek[0];
    assert d0 in DaySet();
    assert |SlotTitles(w[d0].meals)| == |DefaultMealSlots| == 6;
    WeekSaveThenLoad(entries, w, nonce);
  }

  /** A saved profile loads back as itself; with no usable entry the default is returned. */
  lemma ProfileSaveThenLoad(entries: map<string, Entry>, p: Profile)
    ensures DecodeProfile(LoadedProfile(entries[ProfileKey := Text(EncodeProfile(p))])) == Some(p)
    ensures ProfileKey !in entries ==> DecodeProfile(LoadedProfile(entries)) == Some(DefaultProfile)
  {
    ProfileRoundTrip(p);
    ProfileRoundTrip(DefaultProfile);
  }

  /** A saved plan loads back as itself; after it is cleared the load yields null. */
  lemma PlanSaveThenLoad(entries: map<string, Entry>, p: Plan)
    ensures DecodePlan(LoadedPlan(entries[GeneratedPlanKey := Text(EncodePlan(p))])) == Some(p)
    ensures LoadedPlan(entries - {GeneratedPlanKey}) == JNull
  {
    PlanRoundTrip(p);
  }

  /**
   * `localStorage`, as a key to entry map. A write or removal that throws
   * (storage full, storage disabled) is the `fails` parameter: the adapter
   * catches it, so the store is left as it was and the caller sees nothing.
   */
  class LocalStore {
    var entries: map<string, Entry>

    constructor (initial: map<string, Entry>)
      ensures entries == initial
    {
      entries := initial;
    }

    /** `loadWeekData`: the stored week if it parses and passes the shape check, else a fresh empty week. */
    method LoadWeekData(nonce: Nonce) returns (r: Json)
      ensures r == LoadedWeek(entries, nonce)
      ensures AcceptedWeek(entries).None? ==> r == EncodeWeek(CreateEmptyWeekData(nonce))
      ensures WeekShapeOk(r)
    {
      if WeekDataKey in entries {
        var saved := entries[WeekDataKey];
        if saved.Text? {
          var parsed := saved.json;
          if WeekShapeOk(parsed) {
            return parsed;
          }
        }
      }
      r := EncodeWeek(CreateEmptyWeekData(nonce));
      EncodedWeekShape(CreateEmptyWeekData(nonce));
      assert DaysOfWeek[0] in DaySet();
    }

    /** `saveWeekData` */
    method SaveWeekData(data: WeekData, fails: bool)
      modifies this
      ensures entries == if fails then old(entries) else old(entries)[WeekDataKey := Text(EncodeWeek(data))]
    {
      if !fails {
        entries := entries[WeekDataKey := Text(EncodeWeek(data))];
      }
    }

    /** `resetWeekData`: removes only the week key and returns a fresh empty week. */
    method ResetWeekData(nonce: Nonce, fails: bool) returns (r: WeekData)
      modifies this
      ensures entries == if fails then old(entries) else old(entries) - {WeekDataKey}
      ensures forall k :: k != WeekDataKey ==> (k in entries <==> k in old(entries))
      ensures forall k :: k != WeekDataKey && k in entries ==> entries[k] == old(entries)[k]
      ensures r == CreateEmptyWeekData(nonce)
    {
      if !fails {
        entries := entries - {WeekDataKey};
      }
      r := CreateEmptyWeekData(nonce);
    }

    /** `loadProfileData`: the stored profile if it parses, else age 25, height 175, weight 70, goal maintain. */
    method LoadProfileData() returns (r: Json)
      ensures r == LoadedProfile(entries)
      ensures ProfileKey !in entries ==> DecodeProfile(r) == Some(Profile(25.0, 175.0, 70.0, Maintain))
    {
      if ProfileKey in entries && entries[ProfileKey].Text? {
        return entries[ProfileKey].json;
      }
      r := EncodeProfile(DefaultProfile);
      ProfileRoundTrip(DefaultProfile);
    }

    /** `saveProfileData` */
    method SaveProfileData(p: Profile, fails: bool)
      modifies this
      ensures entries == if fails then old(entries) else old(entries)[ProfileKey := Text(EncodeProfile(p))]
    {
      if !fails {
        entries := entries[ProfileKey := Text(EncodeProfile(p))];
      }
    }

    /** `saveGeneratedPlan`: a falsy plan removes the key instead of storing null. */
    method SaveGeneratedPlan(plan: Option<Plan>, fails: bool)
      modifies this
      ensures entries == if fails then old(entries)
                         else if plan.Some? then old(entries)[GeneratedPlanKey := Text(EncodePlan(plan.value))]
                         else old(entries) - {GeneratedPlanKey}
      ensures !fails && plan.None? ==> GeneratedPlanKey !in entries
    {
      if !fails {
        if plan.Some? {
          entries := entries[GeneratedPlanKey := Text(EncodePlan(plan.value))];
        } else {
          entries := entries - {GeneratedPlanKey};
        }
      }
    }

    /** `loadGeneratedPlan`: the stored plan, or null when the key is absent or does not parse. */
    method LoadGeneratedPlan() returns (r: Json)
      ensures r == LoadedPlan(entries)
      ensures GeneratedPlanKey !in entries ==> r == JNull
    {
      if GeneratedPlanKey in entries {
        var saved := entries[GeneratedPlanKey];
        if saved.Text? {
          return saved.json;
        }
      }
      return JNull;
    }
  }
}
