/**
 * The database-backed handlers: a goals table and a meals table, edited by `POST /goal`,
 * `POST /meal` and `DELETE /meal/{idx}` and read by `GET /summary`, `GET /foods/search` and
 * `GET /recommend/snacks`. The two tables are held in memory, in the order the database returns
 * their rows.
 */
module BackendApi {
  import opened Wrappers
  import opened Text
  import opened JsonValue
  import opened Schemas
  import Calorie
  import VectorSearch
  import Recommender

  /** A row of the meals table: the request's fields, the seven nutrient columns and the matched items. */
  datatype StoredMeal = StoredMeal(
    date: Date, mealType: string, items: seq<string>,
    kcal: real, protein: real, fat: real, carbs: real, sodium: real, potassium: real, phosphorus: real,
    matchedItems: seq<Calorie.FoundItem>)

  /** The column of a stored meal that holds nutrient `k`. */
  function Column(m: StoredMeal, k: Nutrient): real {
    match k
    case Kcal => m.kcal
    case Protein => m.protein
    case Fat => m.fat
    case Carbs => m.carbs
    case Sodium => m.sodium
    case Potassium => m.potassium
    case Phosphorus => m.phosphorus
  }

  /** The row `upload_meal` stores: each nutrient column is the matching total of `calculate_nutrition`. */
  function StoredRow(meal: Meal, result: Calorie.NutritionResult): (m: StoredMeal)
    requires forall k: Nutrient :: k in result.total
    ensures m.date == meal.date && m.mealType == meal.mealType && m.items == meal.items
    ensures forall k: Nutrient :: Column(m, k) == result.total[k]
    ensures m.matchedItems == result.matchedInfo
  {
    StoredMeal(meal.date, meal.mealType, meal.items,
      result.total[Kcal], result.total[Protein], result.total[Fat], result.total[Carbs],
      result.total[Sodium], result.total[Potassium], result.total[Phosphorus],
      result.matchedInfo)
  }

  /** One entry of `meals` or `today_meals` in the summary. */
  datatype MealData = MealData(date: Date, mealType: string, items: seq<string>, nutrition: map<Nutrient, real>)

  /** The entry a stored meal becomes: its fields, with the seven columns gathered into a dictionary. */
  function DataOf(m: StoredMeal): (d: MealData)
    ensures d.date == m.date && d.mealType == m.mealType && d.items == m.items
    ensures forall k: Nutrient :: k in d.nutrition && d.nutrition[k] == Column(m, k)
  {
    NutrientKeysComplete();
    MealData(m.date, m.mealType, m.items, map k | k in NutrientKeys :: Column(m, k))
  }

  /** The date column; today's meals are `DatedOn(meals, StoredDate, today)`. */
  function StoredDate(m: StoredMeal): Date {
    m.date
  }

  /** `sum(m.<column> for m in meals)` */
  function ColumnSum(meals: seq<StoredMeal>, k: Nutrient): (r: real)
    ensures (forall i :: 0 <= i < |meals| ==> Column(meals[i], k) >= 0.0) ==> r >= 0.0
  {
    if meals == [] then 0.0
    else ColumnSum(meals[..|meals| - 1], k) + Column(meals[|meals| - 1], k)
  }

  lemma {:induction false} ColumnSumAppend(a: seq<StoredMeal>, b: seq<StoredMeal>, k: Nutrient)
    ensures ColumnSum(a + b, k) == ColumnSum(a, k) + ColumnSum(b, k)
    decreases |b|
  {
    if b == [] {
      assert a + b == a;
    } else {
      var b' := b[..|b| - 1];
      ColumnSumAppend(a, b', k);
      assert (a + b)[..|a + b| - 1] == a + b';
      assert (a + b)[|a + b| - 1] == b[|b| - 1];
    }
  }

  /** The total of nutrient `k` over the meals dated `today`. */
  function TodayTotal(meals: seq<StoredMeal>, today: Date, k: Nutrient): (r: real)
    ensures (forall i :: 0 <= i < |meals| ==> meals[i].date != today) ==> r == 0.0
  {
    ColumnSum(DatedOn(meals, StoredDate, today), k)
  }

  /** Storing one more meal raises today's totals by its columns if it is dated today, and not at all otherwise. */
  lemma TodayTotalAfterUpload(meals: seq<StoredMeal>, m: StoredMeal, today: Date, k: Nutrient)
    ensures TodayTotal(meals + [m], today, k)
         == TodayTotal(meals, today, k) + (if m.date == today then Column(m, k) else 0.0)
  {
    DatedOnAppend(meals, [m], StoredDate, today);
    ColumnSumAppend(DatedOn(meals, StoredDate, today), DatedOn([m], StoredDate, today), k);
    assert [m][..0] == [];
  }

  /** Removing the idx-th meal lowers today's totals by its columns if it was dated today, and not at all otherwise. */
  lemma TodayTotalAfterDelete(meals: seq<StoredMeal>, idx: nat, today: Date, k: Nutrient)
    requires idx < |meals|
    ensures TodayTotal(meals[..idx] + meals[idx + 1..], today, k)
         == TodayTotal(meals, today, k) - (if meals[idx].date == today then Column(meals[idx], k) else 0.0)
  {
    var a, m, b := meals[..idx], meals[idx], meals[idx + 1..];
    assert meals == a + ([m] + b);
    DatedOnAppend(a, [m] + b, StoredDate, today);
    DatedOnAppend([m], b, StoredDate, today);
    DatedOnAppend(a, b, StoredDate, today);
    assert [m][..0] == [];
    var ta, tm, tb := DatedOn(a, StoredDate, today), DatedOn([m], StoredDate, today), DatedOn(b, StoredDate, today);
    ColumnSumAppend(ta, tm + tb, k);
    ColumnSumAppend(tm, tb, k);
    ColumnSumAppend(ta, tb, k);
  }

  /** The `meal_log` `get_snacks` rebuilds from the stored rows. */
  function MealLog(rows: seq<StoredMeal>): (log: seq<Meal>)
    ensures |log| == |rows|
    ensures forall i :: 0 <= i < |rows| ==> log[i] == Meal(rows[i].date, rows[i].mealType, rows[i].items)
  {
    seq(|rows|, i requires 0 <= i < |rows| => Meal(rows[i].date, rows[i].mealType, rows[i].items))
  }

  /** The response of `GET /summary`. */
  datatype Summary = Summary(goal: Option<Goal>, nutritionTotal: map<Nutrient, real>, remainingKcal: real, meals: seq<MealData>, todayMeals: seq<MealData>)

  /** `GET /foods/search`: a blank query is refused; otherwise the top five results scoring at least 0.3. */
  method SearchFoodsApi(db: VectorSearch.FaissFoodDB, query: string) returns (r: Result<seq<VectorSearch.SimilarFood>, HttpError>)
    requires db.Valid()
    ensures Strip(query) == [] <==> r.Failure?
    ensures r.Failure? ==> r.error == HttpError(400)
    ensures r.Success? ==> r.value == db.SimilarFoods(query, 5, Some(0.3)) && |r.value| <= 5
    ensures r.Success? ==> forall f :: f in r.value ==> f.score >= 0.3
  {
    if Strip(query) == [] {
      return Failure(HttpError(400));
    }
    var similarFoods := db.SearchSimilarFoods(query, 5, Some(0.3));
    return Success(similarFoods);
  }

  /** The two tables. */
  class Database {
    var goals: seq<Goal>
    var meals: seq<StoredMeal>

    constructor ()
      ensures goals == [] && meals == []
    {
      goals := [];
      meals := [];
    }

    /** `db.query(DBGoal).first()` */
    function FirstGoal(): (g: Option<Goal>)
      reads this
      ensures g.Some? <==> goals != []
      ensures g.Some? ==> g.value == goals[0]
    {
      if goals == [] then None else Some(goals[0])
    }

    /** `POST /goal`: every stored goal is deleted and the new one added, so exactly one remains. */
    method SetGoal(goal: Goal) returns (saved: Goal)
      modifies this
      ensures goals == [goal] && saved == goal
      ensures meals == old(meals)
    {
      goals := [];
      goals := goals + [goal];
      saved := goal;
    }

    /** `POST /meal`: the items are priced by `calculate_nutrition` and one row is added at the end. */
    method UploadMeal(db: VectorSearch.FaissFoodDB, meal: Meal) returns (nutrition: Calorie.NutritionResult)
      requires db.Valid()
      modifies this
      ensures nutrition.matchedInfo == Calorie.MatchedInfo(db, Calorie.ParsedName, meal.items)
      ensures nutrition.notFoundViaVector == Calorie.NotFoundItems(db, Calorie.ParsedName, meal.items)
      ensures forall k: Nutrient :: k in nutrition.total && nutrition.total[k] == Calorie.SumNutrient(nutrition.matchedInfo, k)
      ensures meals == old(meals) + [StoredRow(meal, nutrition)]
      ensures goals == old(goals)
    {
      nutrition := Calorie.CalculateNutrition(db, meal.items);
      meals := meals + [StoredRow(meal, nutrition)];
    }

    /**
     * `DELETE /meal/{idx}`: an index outside the table is refused with 404 and nothing changes;
     * otherwise exactly the idx-th row goes and the type of the deleted meal is reported.
     */
    method DeleteMeal(idx: int) returns (r: Result<string, HttpError>)
      modifies this
      ensures idx < 0 || idx >= |old(meals)| ==> r == Failure(HttpError(404)) && meals == old(meals)
      ensures 0 <= idx < |old(meals)| ==>
        && r == Success(old(meals)[idx].mealType)
        && meals == old(meals)[..idx] + old(meals)[idx + 1..]
      ensures goals == old(goals)
    {
      if idx >= |meals| || idx < 0 {
        return Failure(HttpError(404));
      }
      var mealToDelete := meals[idx];
      meals := meals[..idx] + meals[idx + 1..];
      return Success(mealToDelete.mealType);
    }

    /**
     * `GET /summary` on the given day: every stored meal, the ones dated that day, their total of
     * each nutrient, and the remaining budget, which is `current_weight * 30` less the day's kcal
     * with a goal and 0 without one.
     */
    method GetSummary(today: Date) returns (s: Summary)
      ensures s.goal == FirstGoal()
      ensures |s.meals| == |meals| && forall i :: 0 <= i < |meals| ==> s.meals[i] == DataOf(meals[i])
      ensures var t := DatedOn(meals, StoredDate, today);
        |s.todayMeals| == |t| && forall i :: 0 <= i < |t| ==> s.todayMeals[i] == DataOf(t[i])
      ensures forall k: Nutrient :: k in s.nutritionTotal && s.nutritionTotal[k] == TodayTotal(meals, today, k)
      ensures s.goal.None? ==> s.remainingKcal == 0.0
      ensures s.goal.Some? ==> s.remainingKcal == s.goal.value.currentWeight * 30.0 - TodayTotal(meals, today, Kcal)
    {
      var goal := FirstGoal();
      var todayMeals := DatedOn(meals, StoredDate, today);
      var mealsData: seq<MealData> := [];
      for i := 0 to |meals|
        invariant |mealsData| == i
        invariant forall j :: 0 <= j < i ==> mealsData[j] == DataOf(meals[j])
      {
        mealsData := mealsData + [DataOf(meals[i])];
      }
      var todayMealsData: seq<MealData> := [];
      for i := 0 to |todayMeals|
        invariant |todayMealsData| == i
        invariant forall j :: 0 <= j < i ==> todayMealsData[j] == DataOf(todayMeals[j])
      {
        todayMealsData := todayMealsData + [DataOf(todayMeals[i])];
      }
      NutrientKeysComplete();
      var totalNutrition := map k | k in NutrientKeys :: ColumnSum(todayMeals, k);
      if goal.None? {
        return Summary(None, totalNutrition, 0.0, mealsData, todayMealsData);
      }
      var remainingKcal := goal.value.currentWeight * 30.0 - totalNutrition[Kcal];
      return Summary(goal, totalNutrition, remainingKcal, mealsData, todayMealsData);
    }

    /** `GET /recommend/snacks`: refused with 400 without a goal, otherwise five snacks for the first goal. */
    method GetSnacks(parse: FloatParser, catalog: seq<Record>) returns (r: Result<Recommender.SnackAdvice, HttpError>)
      requires goals != [] ==> Recommender.AdviceDefined(parse, catalog, goals[0], MealLog(meals), true)
      ensures goals == [] <==> r.Failure?
      ensures r.Failure? ==> r.error == HttpError(400)
      ensures r.Success? ==> r.value == Recommender.RecommendSnacks(parse, catalog, goals[0], MealLog(meals), Recommender.DefaultTopK)
    {
      var goal := FirstGoal();
      if goal.None? {
        return Failure(HttpError(400));
      }
      var mealLog: seq<Meal> := [];
      for i := 0 to |meals|
        invariant mealLog == MealLog(meals[..i])
      {
        assert MealLog(meals[..i + 1]) == MealLog(meals[..i]) + [Meal(meals[i].date, meals[i].mealType, meals[i].items)];
        mealLog := mealLog + [Meal(meals[i].date, meals[i].mealType, meals[i].items)];
      }
      assert meals[..|meals|] == meals;
      return Success(Recommender.RecommendSnacks(parse, catalog, goal.value, mealLog, Recommender.DefaultTopK));
    }
  }
}
