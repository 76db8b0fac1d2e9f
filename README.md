# Weekly fitness planner: schedule model

A Dafny model of the core of a React fitness and nutrition planner. The app keeps a
week of days (Arabic day names). Each day holds a list of exercises and a list of meal
slots, and each meal slot holds a list of food items with calories, protein, carbs and
fat. The model covers these parts:

- the pure updaters behind the handlers in `App.tsx` that add, edit and delete an
  exercise or a food item (module `Exercises`, module `MealItems`);
- the imperative drag-and-drop move of a food item between slots and days (module
  `MoveMeal`);
- the imperative "apply generated plan" handler, which rebuilds a fresh week and fills
  its slots from an AI-generated seven-day plan (module `PlanApply`);
- the nutrition totals of a slot and a day, and the weekly analytics (module `Totals`,
  with `ParseInt` for JavaScript's `parseInt(...) || 0` on exercise durations);
- the persistence adapter `services/localStorageService.ts` (module `Storage`, with the
  stored JSON values modelled in `JsonValue`).

Modules `Types`, `Constants` and `Wrappers` hold the data model of `types.ts`, the
day and meal-slot name lists, and an `Option` type.

Modelling choices:

- A week is a `map<string, DayData>`; slots and items are sequences.
- React closure state (`selectedDay`, `selectedSlotId`, the item being edited) becomes
  explicit parameters. The edit/add distinction is `editing: Option<string>`, the id of
  the item being edited.
- `Date.now()` / `Math.random()` ids become parameters: a fresh id string for handler
  adds, a `Nonce` (day, title) for the empty week's slot ids, and `FreshIds` (day index,
  slot index, item index) for the plan's item ids.
- `localStorage` is the field `entries: map<string, Entry>` of class
  `Storage.LocalStore`. An entry is the stored JSON text, already parsed (`Text(json)`),
  or text that does not parse (`Garbled`). `JSON.stringify` is the `Encode…` functions
  of `JsonValue` and `JSON.parse` is the identity on the parsed value. Each write takes a
  `fails` flag: a write that throws is caught and leaves the store as it was.
- Nutrition numbers are `real`.
- `constants.ts` is not part of this model. `DAYS_OF_WEEK` is the seven Arabic day
  names, Sunday to Saturday. `DEFAULT_MEAL_SLOTS` is six distinct titles, matching the
  six slot names that `services/geminiService.ts` asks the AI provider to use.

Behaviour of the code worth noting:

- The profile goal values are `'lose' | 'maintain' | 'gain'` (types.ts:41).
- When the move target slot is missing, the item is pushed back at the END of its source
  slot (App.tsx:328), so the operation is not a no-op: the item's position can change.
  `MoveMeal.MoveWithMissingTargetReorders` exhibits `[a, b]` becoming `[b, a]`.
- Plan entries are matched to days by position (`DAYS_OF_WEEK[dayIndex]`, App.tsx:527),
  not by the plan's own `day` field.
- When several plan entries of one day name the same slot title, the LAST one with items
  wins (`PlanApply.LastFill`), because each one overwrites the slot again.

## Model

| member | source | states |
|---|---|---|
| Exercises.AddOrUpdateExercise | App.tsx:138-149 | No day is added or removed, and only the selected day's exercise list changes. Without an editing id, exactly one exercise is appended at the end, with the fresh id and the given fields. With an editing id, the list keeps its length and order: the exercises with that id get the new fields and keep their id, and all others stay as they were. |
| Exercises.DeleteExercise | App.tsx:153-161 | Only that day's exercise list changes. An exercise is in the new list exactly when it was in the old one and its id differs from the deleted id. The new list is the old one filtered by that test, so the kept exercises keep their order and multiplicity (`Types.FilterAppend`, `Types.FilterMultiset`). |
| Exercises.DeleteUnknownIsNoOp | App.tsx:153-161 | Deleting an id that no exercise of the day has leaves the week unchanged. |
| Exercises.AddThenDelete | App.tsx:138-161 | Adding an exercise under a fresh id and then deleting that id gives back the original week. |
| Exercises.DeleteIdempotent | App.tsx:153-161 | Deleting the same id twice is the same as deleting it once. |
| Exercises.EditUnknownIsNoOp | App.tsx:142-143 | Editing an id that no exercise of the day has leaves the week unchanged. |
| Exercises.AddOrUpdateKeepsIdsDistinct | App.tsx:142-145 | If the day's exercise ids are distinct and the new id is fresh, they stay distinct after an add or an edit. An edit keeps the sequence of ids exactly. |
| MealItems.WithItem | App.tsx:241-246 | An add appends one new item with the fresh id at the end. An edit keeps length, order and ids, and merges the new fields into the items with the edited id only. |
| MealItems.AddOrUpdateMealItem | App.tsx:235-252 | A missing or empty selected slot id leaves the week unchanged. Otherwise only the selected day changes, its exercises stay as they were and its slot count is kept. Each slot with the selected id gets its items updated by `WithItem`, and every other slot stays as it was. An unknown slot id therefore changes nothing. |
| MealItems.DeleteMealItem | App.tsx:256-268 | Only the selected day changes, and its exercises and slot count are kept. In slots with the given id, an item remains exactly when it was there and its id differs from the deleted id, the items are the old ones filtered by that test (so order and multiplicity are kept), and the slot's id, title and default flag are kept. All other slots stay as they were. |
| MealItems.DeleteUnknownIsNoOp | App.tsx:256-268 | Deleting an item id that no slot with the given id holds leaves the week unchanged. |
| MealItems.AddThenDelete | App.tsx:235-268 | Adding a food item under a fresh id to a slot and then deleting that id from the slot gives back the original week. |
| MealItems.DeleteIdempotent | App.tsx:256-268 | Deleting the same food item twice is the same as deleting it once. |
| MealItems.EditUnknownIsNoOp | App.tsx:241-243 | Editing an item id that the targeted slots do not contain leaves the week unchanged. |
| MealItems.AddRaisesDayTotal | App.tsx:235-252 | With distinct slot ids, adding an item to an existing slot raises the sum of all slot totals by exactly the new item's nutrition. |
| MealItems.AddRaisesSelectedDayTotal | App.tsx:235-252 | The same for the handler: after an add, the selected day's total is the old total plus the new item's nutrition. |
| MoveMeal.RemoveAt | App.tsx:318 | `splice(i, 1)` removes exactly the element at `i`. The length drops by one, the multiset loses that one element, and the elements before and after it keep their order. |
| MoveMeal.FindSlot | App.tsx:314 | The linear search returns the index of the first slot with the given id, or the slot count when there is none. |
| MoveMeal.FindMeal | App.tsx:316 | The linear search returns the index of the first item with the given id, or the item count when there is none (`findIndex` giving -1). |
| MoveMeal.Moved | App.tsx:308-331 | The drop updater as a function; its properties are `MoveNoOps`, `MoveSucceeds`, `MoveWithMissingTarget`, `MoveConservesItems` and `MovePreservesWeekTotal`. |
| MoveMeal.MoveMealItem | App.tsx:308-331 | The imperative updater (copy, find, splice, push) computes exactly the move defined by the function `Moved`, whose properties are the lemmas below. |
| MoveMeal.MoveNoOps | App.tsx:308-322 | The week is returned unchanged when the source and target are the same day and slot, when the source day is missing, when no source slot has the id, or when the first matching source slot has no item with the meal id. |
| MoveMeal.MoveSucceeds | App.tsx:314-326 | When the source slot, the item and the target slot are all found, the item is removed from its index in the source slot and appended at the end of the target slot, even when both are on the same day. Every other slot, the slot ids and titles, and the set of days are unchanged. |
| MoveMeal.MoveWithMissingTarget | App.tsx:324-329 | When the target slot is not found, the result is the original week with the source slot's items replaced by the items without the moved one, plus the moved item at the end. |
| MoveMeal.MoveWithMissingTargetReorders | App.tsx:328 | A concrete case: moving the first of two items to a missing target turns `[a, b]` into `[b, a]`. |
| MoveMeal.MoveConservesItems | App.tsx:311-331 | In every case, the multiset of all food items across the week is preserved. |
| MoveMeal.RemovalTakesOutItem | App.tsx:318 | Removing the item at an index from one slot takes exactly that item out of the week's multiset of items. |
| MoveMeal.AppendPutsInItem | App.tsx:325-328 | Appending an item to one slot adds exactly that item to the week's multiset of items. |
| MoveMeal.MovePreservesWeekTotal | App.tsx:311-331 | A move leaves the week's nutrition total unchanged. |
| PlanApply.PlannedMeals | App.tsx:532-540 | Each plan item becomes one meal, in order. The meal gets a fresh id, the item's name and quantity, and calories, protein, carbs and fat with a missing value read as 0. |
| PlanApply.FindTitle | App.tsx:530 | The linear search returns the index of the first slot whose title equals the plan slot's title, or the slot count when there is none. |
| PlanApply.FillDaySlots | App.tsx:529-542 | The inner `forEach` computes the slot-filling function `FillSlots`. |
| PlanApply.FillFromPlan | App.tsx:526-544 | The outer `forEach` computes the plan-application function `PlanApplied`. |
| PlanApply.ApplyPlan | App.tsx:521-547 | Without a generated plan, nothing changes. With one, the resulting week is the plan applied to a fresh empty week. The store ends with the week key removed (the reset) and then holds the resulting week unless that save fails. |
| PlanApply.PlanApplied | App.tsx:526-544 | The day keys never change. |
| PlanApply.LastFill | App.tsx:529-531 | The selected plan entry exists, carries exactly that title and has items, and no later entry has that title with items. `None` means no entry has that title with items. |
| PlanApply.FillSlotsResult | App.tsx:529-542 | With distinct slot titles, slot ids, titles and flags are kept. A slot's items are the meals of the last plan entry with that title and with items, or stay as they were when there is no such entry. |
| PlanApply.ApplySlotAt | App.tsx:530-541 | One plan entry replaces the items of the one slot whose title it names, when it has items, and of no other slot. |
| PlanApply.PlanAppliedFrame | App.tsx:526-544 | Applying a plan keeps every day's exercises and slot count, and in each slot changes only its items. |
| PlanApply.PlanAppliedDay | App.tsx:526-528 | Day `DAYS_OF_WEEK[i]` is filled only from plan entry `i`. It is left as it was when that entry is missing or has no `mealSlots`. |
| PlanApply.PlanExtraDaysIgnored | App.tsx:526-528 | Plan entries beyond the seventh have no effect. |
| PlanApply.ApplyPlanShape | App.tsx:524-545 | The applied week has exactly the seven day keys, no exercises, and in every day the default slot titles in order. |
| PlanApply.ApplyPlanSlot | App.tsx:524-545 | In the applied week, each day's slot `k` keeps its fresh default id and flag. Its items are the planned meals of the last matching entry of that day's plan entry, and empty when the plan does not mention that title. |
| Totals.SlotTotal | App.tsx:420-426 | The loop computes the field-wise sum of the slot's items, all zeros for an empty slot. |
| Totals.AccumulateSlot | App.tsx:339-344 | Adding a slot's items into an accumulator yields the accumulator plus the items' sum. |
| Totals.DayNutrition | App.tsx:338-346 | The nested loop computes the sum of the slot totals, which is also the sum of all the day's items. |
| Totals.DayTotalIsSumOfSlotTotals | App.tsx:338-346 | The sum of slot totals equals the sum over the flattened list of all the day's items. |
| Totals.WeekTotalIsSumOfDayTotals | App.tsx:700-703 | The sum of day totals equals the sum over all the week's items. |
| Totals.SumMealsAppend | App.tsx:420-426 | The total of two concatenated item lists is the sum of their totals. |
| Totals.SumMealsPermutation | App.tsx:420-426 | Item lists with the same multiset of items have the same total, so the order of items does not matter. |
| Totals.AggregateExamples | App.tsx:420-426 | Worked values: the empty slot totals zero, and one and two items sum field-wise. |
| Totals.MissingDataMeans | App.tsx:707 | The day's `missingData` flag holds exactly when some item of some slot has calories 0 and a non-empty name. |
| Totals.ItemsMissingDataMeans | App.tsx:707 | The inner `some`: a slot is flagged exactly when one of its items has calories 0 and a non-empty name. |
| Totals.DayMinutes | App.tsx:698 | The loop sums `parseInt(duration)` of each exercise, with a value that does not parse read as 0. |
| Totals.Summarise | App.tsx:684-709 | The loop over a list of days yields one row per day, in order. The weekly nutrition is the sum of all items of those days, the exercise count is the sum of list lengths, and the minutes are the sum of the day minutes. |
| Totals.Analytics | App.tsx:683-710 | For the seven days of the week: row `i` is the day row of `DAYS_OF_WEEK[i]`, and the weekly totals are those of `Summarise`. |
| Totals.RowsAt | App.tsx:684-709 | The row list has one row per day, and row `i` describes day `i`. |
| Totals.WeekStep | App.tsx:700-705 | One more day adds that day's total, exercise count and minutes to the weekly totals, and one row to the list. |
| ParseInt.ParseIntOrZero | App.tsx:698 | `parseInt(ex.duration) \|\| 0`; its meaning is stated by `ParseDecimal`, `ParseNegativeDecimal` and `ParseNoNumber`. |
| ParseInt.ParseDecimal | App.tsx:698 | `parseInt` of a decimal numeral followed by a non-digit, or by nothing, gives that number. |
| ParseInt.ParseNegativeDecimal | App.tsx:698 | The same with a leading minus sign gives the negative number. |
| ParseInt.ParseNoNumber | App.tsx:698 | A duration with no digits reads as 0 (`NaN \|\| 0`). |
| ParseInt.TrimStartSuffix | App.tsx:698 | Skipping leading whitespace leaves a suffix of the input, and every dropped character is whitespace. |
| ParseInt.ParseSkipsLeadingSpace | App.tsx:698 | A prefix of whitespace does not change what `parseInt(...) \|\| 0` reads. |
| ParseInt.LeadingDigits | App.tsx:698 | The digits `parseInt` reads are the longest prefix made only of digits. |
| Storage.CreateEmptyWeekData | services/localStorageService.ts:10-23 | The empty week has exactly the seven day keys. Each day has no exercises and one slot per default title, in order. Each slot has no items, the default flag set, and an id built from the day and the title. |
| Storage.WeekShapeOk | services/localStorageService.ts:32 | The shape check as a predicate on the stored JSON; `EncodedWeekShape` characterises it on encoded weeks, and the two `ShapeCheckAllows…` lemmas show what it lets through. |
| Storage.EncodedWeekShape | services/localStorageService.ts:32 | A stored week passes the shape check exactly when it has the first day, that day has a first slot, and that slot's items are an array. |
| Storage.ShapeCheckAllowsMissingDays | services/localStorageService.ts:32 | A stored week holding only the first day passes the check, although six days are missing. |
| Storage.ShapeCheckAllowsMalformedWeek | services/localStorageService.ts:32 | A witness value passes the check but does not decode as a week. Its first day has no exercise list, that day's first slot has no id, title or default flag, and its second day is a string rather than an object. |
| Storage.AcceptedWeek | services/localStorageService.ts:26-35 | An accepted stored value passes the shape check. |
| Storage.WeekSaveThenLoad | services/localStorageService.ts:26-50 | After a successful save of a week, loading returns that week when it passes the shape check, and a fresh empty week when it does not. |
| Storage.EmptyWeekSurvivesReload | services/localStorageService.ts:10-50 | A saved empty week always passes the check and is returned by the next load. |
| Storage.ProfileSaveThenLoad | services/localStorageService.ts:63-82 | Loading after a successful profile save returns that profile. With no stored profile, the load returns age 25, height 175, weight 70, goal maintain. |
| Storage.PlanSaveThenLoad | services/localStorageService.ts:86-105 | Loading after a successful save returns the saved plan. Saving no plan makes the next load return null. |
| Storage.LocalStore.LoadWeekData | services/localStorageService.ts:26-42 | Returns the stored week when it is present, parses and passes the shape check, and otherwise a fresh empty week. The result always passes the shape check. |
| Storage.LocalStore.SaveWeekData | services/localStorageService.ts:44-50 | A successful save sets only the week key to the encoded week. A failed write leaves the store unchanged. |
| Storage.LocalStore.ResetWeekData | services/localStorageService.ts:53-60 | Removes only the week key, leaving the profile and plan keys untouched, and returns a fresh empty week. The week is returned even when the removal fails. |
| Storage.LocalStore.LoadProfileData | services/localStorageService.ts:63-74 | Returns the stored profile when present and parsable, and the default profile when absent. |
| Storage.LocalStore.SaveProfileData | services/localStorageService.ts:76-82 | A successful save sets only the profile key. A failed write leaves the store unchanged. |
| Storage.LocalStore.SaveGeneratedPlan | services/localStorageService.ts:86-96 | A plan is stored under its key, and no plan removes the key instead of storing null. A failed write leaves the store unchanged. |
| Storage.LocalStore.LoadGeneratedPlan | services/localStorageService.ts:98-105 | Returns the stored plan, or null when the key is absent or its text does not parse. |
| JsonValue.MealRoundTrip | types.ts:8-12 | Decoding an encoded food item gives it back. |
| JsonValue.SlotRoundTrip | types.ts:14-19 | Decoding an encoded meal slot gives it back. |
| JsonValue.DayRoundTrip | types.ts:28-31 | Decoding an encoded day gives it back. |
| JsonValue.WeekRoundTrip | services/localStorageService.ts:46 | Decoding a stringified week gives the same week back. |
| JsonValue.ProfileRoundTrip | services/localStorageService.ts:78 | Decoding a stringified profile gives it back, goal included. |
| JsonValue.PlanItemRoundTrip | App.tsx:532-540 | Decoding an encoded plan item gives it back, with absent numbers staying absent. |
| JsonValue.PlanSlotRoundTrip | App.tsx:529-531 | Decoding an encoded plan slot gives it back, with absent items staying absent. |
| JsonValue.DayPlanRoundTrip | App.tsx:526-528 | Decoding an encoded day plan gives it back, with absent `mealSlots` staying absent. |
| JsonValue.PlanRoundTrip | services/localStorageService.ts:89 | Decoding a stringified generated plan gives it back. |
| JsonValue.EncodeWeek | services/localStorageService.ts:46 | The stringified week is an object with exactly the week's day names as keys, each holding its encoded day. |
| JsonValue.TraverseMapSeq | services/localStorageService.ts:46 | An encoded array decodes element by element back to the original list. |
| Types.FilterMembers | App.tsx:158 | `filter` keeps exactly the elements that satisfy the predicate. |
| Types.FilterMultiset | App.tsx:263 | `filter` keeps every kept element as many times as it occurred and drops none of them. |
| Types.FilterAppend | App.tsx:158 | Filtering distributes over concatenation, so order is preserved. |
| Types.FilterIdempotent | App.tsx:263 | Filtering twice with one predicate is filtering once. |
| Types.FirstIndex | App.tsx:314-316 | `find`/`findIndex`: on success the index is in range, satisfies the predicate, and no earlier element does; on failure no element does. |
| Types.MapSeq | App.tsx:143 | `map` keeps the length and transforms each element in place. |
| Constants.DaysOfWeekDistinct | services/localStorageService.ts:11 | The week has seven distinct day names. |
| Constants.DefaultMealSlotsDistinct | services/localStorageService.ts:14 | There are six distinct default slot titles. |

## Left out

- React plumbing (state hooks, effects, modals, confirmation dialogs, navigation and
  rendering) is not modelled. The handlers are pure updaters taking the closure state as
  parameters. The save that follows every week change (`useEffect`, App.tsx:56-58) is
  modelled only in `PlanApply.ApplyPlan`.
- Drag-and-drop DOM plumbing, the `dataTransfer` JSON and the `try/catch` around the drop
  (App.tsx:272-306, 332-335) are left out. The move takes the ids it would read as
  parameters.
- The `if (!itemToDelete) return` guards (App.tsx:154, 257) are handler plumbing with no
  effect on the week, and are left out.
- The exercise and meal handlers require the selected day to exist in the week. The
  source would throw on a missing day (`undefined.exercises`), and that is not modelled.
- The AI provider service, the chat view and the form components are outside this
  model. The forms' non-empty-name check is not needed by any handler and is not
  assumed. Their `parseFloat(...) || 0` coercion is float parsing and is left out.
- Floating-point arithmetic and `toFixed` formatting are left out. Sums are exact `real`
  sums, so rounding and the order of float additions are not modelled.
- Ids from `Date.now()` and `Math.random()` are parameters, so their uniqueness is an
  assumption (`freshId !in …`) in the lemmas that need it, not a property of a clock.
- `JSON.parse` and `JSON.stringify` are modelled as the encoders of `JsonValue` over
  a JSON datatype, not over text. A `localStorage.getItem` that throws is treated like
  text that does not parse. A stored value that passes the shape check but would not
  decode as a week is returned as JSON, and has no typed counterpart.
- Storage.LocalStore.LoadProfileData returns any parsable stored value unchecked, as the
  source does. Only the round trip (`ProfileSaveThenLoad`) connects it to a `Profile`.
- ParseInt: `parseInt` is modelled for decimal numerals with an optional sign and
  leading ASCII whitespace. Hexadecimal `0x` prefixes and Unicode whitespace other than
  the common ASCII characters, no-break space and byte-order mark are left out.
- PlanApply: JavaScript's `x || 0` also maps `NaN`, `0`, `false` and `""` to 0. The
  model covers only a missing or `null` number (`Option<real>`), as the plan's response
  schema makes calories, protein, carbs and fat numbers.
- PlanApply.ApplyPlan: the success `alert` (App.tsx:547) is left out.
- PlanApply.ApplyPlan: the generated plan is taken as a typed `Option<Plan>`. In the source it is whatever
  `loadGeneratedPlan` parsed; a stored value that is not an array makes `forEach` (App.tsx:525) throw
  after `resetWeekData()` (App.tsx:524) has already removed the stored week. That throw, and the partial
  state it leaves, is not modelled.
- Totals.Analytics: requires all seven days in the week. The source reads `weekData[day].meals`
  (App.tsx:686-687) and throws on a missing day, which a stored week accepted by the one-slot shape check
  can lack (`Storage.ShapeCheckAllowsMissingDays`). That throw is not modelled.
- Types.Filter: its own contract states only the length bound. Membership, multiplicity
  and order are the separate lemmas `FilterMembers`, `FilterMultiset` and `FilterAppend`.
- Plain store reads and writes assume one writer at a time; concurrent tabs writing the
  same keys are left out.
