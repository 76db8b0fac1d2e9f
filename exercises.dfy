/**
 * The exercise handlers of App.tsx: add or edit an exercise of the
 * selected day, and delete one. Each handler is the pure update the source
 * passes to `setWeekData`; the fresh id the source takes from the clock is
 * a parameter.
 */
module Exercises {
  import opened Wrappers
  import opened Types

  /** `{ ...ex, ...exerciseData }`: the submitted fields over the old ones, the id kept. */
  function Updated(e: Exercise, data: ExerciseFields): Exercise {
    Exercise(e.id, data.name, data.duration, data.setsReps)
  }

  function ExerciseIds(exs: seq<Exercise>): (r: seq<string>)
    ensures |r| == |exs| && forall k :: 0 <= k < |exs| ==> r[k] == exs[k].id
  {
    MapSeq(exs, (e: Exercise) => e.id)
  }

  /**
   * `handleAddOrUpdateExercise`. `editing` is the id of `itemToEdit` when
   * the edit modal is open; otherwise the exercise is appended under
   * `freshId`. Only the selected day's exercise list changes.
   */
  function AddOrUpdateExercise(w: WeekData, selectedDay: string, editing: Option<string>,
                               data: ExerciseFields, freshId: string): (r: WeekData)
    requires selectedDay in w
    ensures r.Keys == w.Keys
    ensures forall d :: d in w && d != selectedDay ==> r[d] == w[d]
    ensures r[selectedDay].meals == w[selectedDay].meals
    ensures editing.None? ==>
      r[selectedDay].exercises == w[selectedDay].exercises
                                  + [Exercise(freshId, data.name, data.duration, data.setsReps)]
    ensures editing.Some? ==>
      var before, after := w[selectedDay].exercises, r[selectedDay].exercises;
      |after| == |before| &&
      forall k :: 0 <= k < |before| ==>
        after[k] == if before[k].id == editing.value then Updated(before[k], data) else before[k]
  {
    var day := w[selectedDay];
    var exercises :=
      if editing.Some? then
        MapSeq(day.exercises, (e: Exercise) => if e.id == editing.value then Updated(e, data) else e)
      else
        day.exercises + [Exercise(freshId, data.name, data.duration, data.setsReps)];
    w[selectedDay := day.(exercises := exercises)]
  }

  /** The filter test of the delete handler: keep what does not carry `id`. */
  function OtherThan(id: string): Exercise -> bool {
    (e: Exercise) => e.id != id
  }

  /** `handleConfirmDeleteExercise`: every exercise of `day` with id `itemId` goes, the rest stay in order. */
  function DeleteExercise(w: WeekData, day: string, itemId: string): (r: WeekData)
    requires day in w
    ensures r.Keys == w.Keys
    ensures forall d :: d in w && d != day ==> r[d] == w[d]
    ensures r[day].meals == w[day].meals
    ensures forall e :: e in r[day].exercises <==> e in w[day].exercises && e.id != itemId
    ensures r[day].exercises == Filter(w[day].exercises, OtherThan(itemId))
  {
    var exercises := Filter(w[day].exercises, OtherThan(itemId));
    FilterMembers(w[day].exercises, OtherThan(itemId));
    w[day := w[day].(exercises := exercises)]
  }

  // ----- properties -----

  /** Deleting a just-added exercise by its fresh id gives back the week. */
  lemma AddThenDelete(w: WeekData, day: string, data: ExerciseFields, freshId: string)
    requires day in w
    requires freshId !in ExerciseIds(w[day].exercises)
    ensures DeleteExercise(AddOrUpdateExercise(w, day, None, data, freshId), day, freshId) == w
  {
    var exs := w[day].exercises;
    assert forall k :: 0 <= k < |exs| ==> ExerciseIds(exs)[k] == exs[k].id;
    FilterDropsAppended(exs, Exercise(freshId, data.name, data.duration, data.setsReps), OtherThan(freshId));
  }

  /** Deleting twice is deleting once. */
  lemma DeleteIdempotent(w: WeekData, day: string, itemId: string)
    requires day in w
    ensures DeleteExercise(DeleteExercise(w, day, itemId), day, itemId) == DeleteExercise(w, day, itemId)
  {
    FilterIdempotent(w[day].exercises, OtherThan(itemId));
  }

  /** Deleting an id that no exercise of the day carries changes nothing. */
  lemma DeleteUnknownIsNoOp(w: WeekData, day: string, itemId: string)
    requires day in w
    requires itemId !in ExerciseIds(w[day].exercises)
    ensures DeleteExercise(w, day, itemId) == w
  {
    var exs := w[day].exercises;
    assert forall k :: 0 <= k < |exs| ==> ExerciseIds(exs)[k] == exs[k].id;
    FilterKeepsAll(exs, OtherThan(itemId));
    assert DeleteExercise(w, day, itemId)[day] == w[day];
  }

  /** Editing an id that no exercise of the day carries changes nothing. */
  lemma EditUnknownIsNoOp(w: WeekData, day: string, id: string, data: ExerciseFields, freshId: string)
    requires day in w
    requires id !in ExerciseIds(w[day].exercises)
    ensures AddOrUpdateExercise(w, day, Some(id), data, freshId) == w
  {
    var r := AddOrUpdateExercise(w, day, Some(id), data, freshId);
    assert r[day].exercises == w[day].exercises;
    assert r[day] == w[day];
  }

  /** Adding under a fresh id keeps the day's ids distinct; editing keeps them as they were. */
  lemma AddOrUpdateKeepsIdsDistinct(w: WeekData, day: string, editing: Option<string>,
                                    data: ExerciseFields, freshId: string)
    requires day in w
    requires Distinct(ExerciseIds(w[day].exercises))
    requires freshId !in ExerciseIds(w[day].exercises)
    ensures editing.Some? ==>
      ExerciseIds(AddOrUpdateExercise(w, day, editing, data, freshId)[day].exercises) == ExerciseIds(w[day].exercises)
    ensures Distinct(ExerciseIds(AddOrUpdateExercise(w, day, editing, data, freshId)[day].exercises))
  {
    var ids := ExerciseIds(w[day].exercises);
    var ids' := ExerciseIds(AddOrUpdateExercise(w, day, editing, data, freshId)[day].exercises);
    if editing.Some? {
      assert ids' == ids;
    } else {
      assert ids' == ids + [freshId];
    }
  }
}
