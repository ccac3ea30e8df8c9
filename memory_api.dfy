/**
 * The first, in-memory version of the handlers: a goal that is unset until `POST /goal`, and a
 * meal log that `POST /meal` grows at the end.
 */
module MemoryApi {
  import opened Wrappers
  import opened Schemas

  /** The response of `GET /summary`: the goal and today's meals. */
  datatype DaySummary = DaySummary(goal: Goal, mealsToday: seq<Meal>)

  /** The date of a logged meal; today's meals are `DatedOn(mealLog, LoggedDate, today)`. */
  function LoggedDate(m: Meal): Date {
    m.date
  }

  /** The process-wide `user_goal` and `meal_log`. */
  class Store {
    var userGoal: Option<Goal>
    var mealLog: seq<Meal>

    /** The state at import time: an empty goal dictionary and an empty log. */
    constructor ()
      ensures userGoal == None && mealLog == []
    {
      userGoal := None;
      mealLog := [];
    }

    /** `POST /goal`: the submitted goal replaces whatever was there. */
    method SetGoal(goal: Goal) returns (saved: Goal)
      modifies this
      ensures userGoal == Some(goal) && saved == goal
      ensures mealLog == old(mealLog)
    {
      userGoal := Some(goal);
      saved := goal;
    }

    /** `POST /meal`: exactly one meal is appended at the end; nothing else changes. */
    method UploadMeal(meal: Meal) returns (saved: Meal)
      modifies this
      ensures mealLog == old(mealLog) + [meal] && saved == meal
      ensures userGoal == old(userGoal)
    {
      mealLog := mealLog + [meal];
      saved := meal;
    }

    /** `GET /summary` on the given day: refused with 400 until a goal is set. */
    method GetSummary(today: Date) returns (r: Result<DaySummary, HttpError>)
      ensures userGoal.None? <==> r.Failure?
      ensures r.Failure? ==> r.error == HttpError(400)
      ensures r.Success? ==> r.value.goal == userGoal.value && r.value.mealsToday == DatedOn(mealLog, LoggedDate, today)
    {
      if userGoal.None? {
        return Failure(HttpError(400));
      }
      return Success(DaySummary(userGoal.value, DatedOn(mealLog, LoggedDate, today)));
    }
  }

  /** A meal uploaded for today appears last in today's summary, after the ones already there. */
  lemma UploadedTodayIsLast(log: seq<Meal>, meal: Meal, today: Date)
    requires meal.date == today
    ensures DatedOn(log + [meal], LoggedDate, today) == DatedOn(log, LoggedDate, today) + [meal]
  {
    DatedOnAppend(log, [meal], LoggedDate, today);
    assert [meal][..0] == [];
  }

  /** A meal uploaded for another day leaves today's summary as it was. */
  lemma UploadedOtherDayIsHidden(log: seq<Meal>, meal: Meal, today: Date)
    requires meal.date != today
    ensures DatedOn(log + [meal], LoggedDate, today) == DatedOn(log, LoggedDate, today)
  {
    DatedOnAppend(log, [meal], LoggedDate, today);
    assert [meal][..0] == [];
  }
}
