/** The request bodies both API files declare, the nutrients the dictionaries are keyed by, and the catalog columns. */
module Schemas {

  /** A calendar date; only compared for equality with today's date. */
  datatype Date = Date(year: int, month: int, day: int)

  /** The request body of `POST /goal`. */
  datatype Goal = Goal(currentWeight: real, targetWeight: real, periodDays: int, activityLevel: string)

  /** The request body of `POST /meal`. */
  datatype Meal = Meal(date: Date, mealType: string, items: seq<string>)

  /** `[m for m in meals if m.date == today]`, for any kind of record that carries a date. */
  function DatedOn<T>(xs: seq<T>, dateOf: T -> Date, today: Date): (r: seq<T>)
    ensures |r| <= |xs|
    ensures (forall i :: 0 <= i < |xs| ==> dateOf(xs[i]) != today) ==> r == []
  {
    if xs == [] then []
    else
      var last := xs[|xs| - 1];
      DatedOn(xs[..|xs| - 1], dateOf, today) + (if dateOf(last) == today then [last] else [])
  }

  /** A record is kept exactly when it is in the list and dated `today`. */
  lemma {:induction false} DatedOnComplete<T>(xs: seq<T>, dateOf: T -> Date, today: Date, x: T)
    ensures x in DatedOn(xs, dateOf, today) <==> x in xs && dateOf(x) == today
    decreases |xs|
  {
    if xs != [] {
      var init := xs[..|xs| - 1];
      DatedOnComplete(init, dateOf, today, x);
      assert xs == init + [xs[|xs| - 1]];
    }
  }

  /** The filter keeps list order: filtering a concatenation concatenates the filtered parts. */
  lemma {:induction false} DatedOnAppend<T>(a: seq<T>, b: seq<T>, dateOf: T -> Date, today: Date)
    ensures DatedOn(a + b, dateOf, today) == DatedOn(a, dateOf, today) + DatedOn(b, dateOf, today)
    decreases |b|
  {
    if b == [] {
      assert a + b == a;
    } else {
      var b', last := b[..|b| - 1], b[|b| - 1];
      var tail := if dateOf(last) == today then [last] else [];
      assert (a + b)[..|a + b| - 1] == a + b';
      assert (a + b)[|a + b| - 1] == last;
      assert DatedOn(a + b, dateOf, today) == DatedOn(a + b', dateOf, today) + tail;
      assert DatedOn(b, dateOf, today) == DatedOn(b', dateOf, today) + tail;
      DatedOnAppend(a, b', dateOf, today);
    }
  }

  /** An `HTTPException` raised by a handler. */
  datatype HttpError = HttpError(status: nat)

  /**
   * A nutrient key of the backend dictionaries. The program spells them `"kcal"`, `"protein"`,
   * `"fat"`, `"carbs"`, `"sodium"`, `"potassium"` and `"phosphorus"`; see `Key`.
   */
  datatype Nutrient = Kcal | Protein | Fat | Carbs | Sodium | Potassium | Phosphorus
  {
    /** The dictionary key the program uses for this nutrient. */
    function Key(): (k: string)
      ensures k != []
    {
      match this
      case Kcal => "kcal"
      case Protein => "protein"
      case Fat => "fat"
      case Carbs => "carbs"
      case Sodium => "sodium"
      case Potassium => "potassium"
      case Phosphorus => "phosphorus"
    }
  }

  /** The nutrients in the order the backend's dictionaries list them. */
  const NutrientKeys: seq<Nutrient> := [Kcal, Protein, Fat, Carbs, Sodium, Potassium, Phosphorus]

  /** Every nutrient appears exactly once in `NutrientKeys`. */
  lemma NutrientKeysComplete()
    ensures forall i, j :: 0 <= i < j < |NutrientKeys| ==> NutrientKeys[i] != NutrientKeys[j]
    ensures forall k: Nutrient :: k in NutrientKeys
  {
    forall k: Nutrient
      ensures k in NutrientKeys
    {
      match k
      case Kcal => assert NutrientKeys[0] == k;
      case Protein => assert NutrientKeys[1] == k;
      case Fat => assert NutrientKeys[2] == k;
      case Carbs => assert NutrientKeys[3] == k;
      case Sodium => assert NutrientKeys[4] == k;
      case Potassium => assert NutrientKeys[5] == k;
      case Phosphorus => assert NutrientKeys[6] == k;
    }
  }

  // ----- catalog columns (the food database's records) -----

  /** The food-name column. */
  const NameField := "식품명"

  /** The data-category column; snacks are the records whose code is `"P"`. */
  const CodeField := "데이터구분코드"

  /** The catalog column `food_dict` reads for each nutrient. */
  function CatalogField(n: Nutrient): (f: string)
    ensures f != NameField
  {
    match n
    case Kcal => "에너지(kcal)"
    case Protein => "단백질(g)"
    case Fat => "지방(g)"
    case Carbs => "탄수화물(g)"
    case Sodium => "나트륨(mg)"
    case Potassium => "칼륨(mg)"
    case Phosphorus => "인(mg)"
  }

  /** Distinct nutrients read distinct columns, so no column feeds two nutrients. */
  lemma CatalogFieldInjective(a: Nutrient, b: Nutrient)
    ensures CatalogField(a) == CatalogField(b) ==> a == b
  {
  }
}
