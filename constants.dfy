/**
 * Stand-ins for `DAYS_OF_WEEK` and `DEFAULT_MEAL_SLOTS`. constants.ts is
 * not part of this model: the day names are Sunday to Saturday, the order
 * the plan request asks for, and the six slot titles are the ones the plan
 * request lists (services/geminiService.ts:25). The proofs use only that
 * there are seven distinct day names and six distinct slot titles.
 */
module Constants {
  import opened Types

  const DaysOfWeek: seq<string> :=
    ["الأحد", "الاثنين", "الثلاثاء", "الأربعاء", "الخميس", "الجمعة", "السبت"]

  const DefaultMealSlots: seq<string> :=
    ["الإفطار", "ما بعد الإفطار", "الغداء", "ما بعد الغداء", "العشاء", "ما بعد العشاء"]

  /** The set of the seven day names. */
  function DaySet(): set<string> {
    set d | d in DaysOfWeek
  }

  lemma DaysOfWeekDistinct()
    ensures |DaysOfWeek| == 7 && Distinct(DaysOfWeek)
  {
  }

  lemma DefaultMealSlotsDistinct()
    ensures |DefaultMealSlots| == 6 && Distinct(DefaultMealSlots)
  {
  }
}
