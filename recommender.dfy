/**
 * The calorie budget and snack filter: name normalisation, the per-item calorie estimate by
 * first substring match in the catalog (300 kcal when nothing matches), the target from the
 * activity-factor table, and the snack candidates within the remaining budget.
 *
 * Both recommender files share everything except one clause of the snack filter; the filter
 * therefore takes that clause as a flag (`requirePositive`), and `LegacyRecommender` holds the
 * older file's entry point.
 */
module Recommender {
  import opened Wrappers
  import opened Text
  import opened JsonValue
  import opened Schemas
  import PyDict

  // ----- normalize -----

  /** `normalize`: every whitespace character deleted, the rest lowercased. */
  function Normalize(text: string): (r: string)
    ensures NoSpace(r)
    ensures |r| <= |text|
  {
    NoSpaceLower(RemoveSpace(text));
    Lower(RemoveSpace(text))
  }

  lemma NoSpaceLower(s: string)
    requires NoSpace(s)
    ensures NoSpace(Lower(s))
  {
  }

  /** Normalisation works character by character: it distributes over concatenation. */
  lemma NormalizeAppend(a: string, b: string)
    ensures Normalize(a + b) == Normalize(a) + Normalize(b)
  {
    RemoveSpaceAppend(a, b);
    LowerAppend(RemoveSpace(a), RemoveSpace(b));
  }

  /** On one character: a whitespace character disappears, any other is lowercased. */
  lemma NormalizeChar(c: char)
    ensures Normalize([c]) == if IsSpace(c) then [] else [LowerChar(c)]
  {
    assert [c][1..] == [];
  }

  /** A text made of whitespace only normalises to the empty string. */
  lemma NormalizeAllSpace(s: string)
    requires AllSpace(s)
    ensures Normalize(s) == []
  {
    RemoveSpaceAllSpace(s);
  }

  /** Normalising twice is normalising once. */
  lemma NormalizeIdempotent(s: string)
    ensures Normalize(Normalize(s)) == Normalize(s)
  {
    var n := Normalize(s);
    RemoveSpaceNoSpace(n);
    forall i | 0 <= i < |n|
      ensures Lower(n)[i] == n[i]
    {
      assert n[i] == LowerChar(RemoveSpace(s)[i]);
    }
  }

  // ----- estimate_kcal -----

  /** The kcal `estimate_kcal` adds for an item that matches no catalog record. */
  const DefaultKcal: real := 300.0

  /** `normalize(food.get("식품명", ""))` raises unless the name is absent or a string. */
  predicate NameDefined(food: Record) {
    NameField !in food || food[NameField].JStr?
  }

  /** `food.get("식품명", "")` */
  function NameText(food: Record): string
    requires NameDefined(food)
  {
    if NameField in food then food[NameField].s else ""
  }

  /** `item_norm in normalize(food.get("식품명", ""))` */
  predicate Matches(food: Record, needle: string)
    requires NameDefined(food)
  {
    Contains(Normalize(NameText(food)), needle)
  }

  /**
   * The scan from record `j` on never raises: every record it reads up to the first match has a
   * usable name (records after the match are never read).
   */
  predicate ScanDefined(catalog: seq<Record>, needle: string, j: nat)
    requires j <= |catalog|
    decreases |catalog| - j
  {
    j == |catalog| || (NameDefined(catalog[j]) && (Matches(catalog[j], needle) || ScanDefined(catalog, needle, j + 1)))
  }

  /** The index of the first record from `j` on whose normalised name contains `needle`. */
  function FindFrom(catalog: seq<Record>, needle: string, j: nat): (r: Option<nat>)
    requires j <= |catalog| && ScanDefined(catalog, needle, j)
    ensures r.Some? ==> j <= r.value < |catalog| && NameDefined(catalog[r.value]) && Matches(catalog[r.value], needle)
    ensures forall k :: j <= k < (if r.Some? then r.value else |catalog|) ==> NameDefined(catalog[k]) && !Matches(catalog[k], needle)
    decreases |catalog| - j
  {
    if j == |catalog| then None
    else if Matches(catalog[j], needle) then Some(j)
    else FindFrom(catalog, needle, j + 1)
  }

  /** The record the inner loop of `estimate_kcal` stops at, if any. */
  function FirstContaining(catalog: seq<Record>, needle: string): Option<nat>
    requires ScanDefined(catalog, needle, 0)
  {
    FindFrom(catalog, needle, 0)
  }

  /** `float(food.get("에너지(kcal)", 0))`, `None` when it raises. */
  function ItemKcal(parse: FloatParser, food: Record): Option<real> {
    PyFloat(parse, GetOr(food, CatalogField(Kcal), JNum(0.0)))
  }

  /** `estimate_kcal` does not raise on this item. */
  predicate ItemDefined(parse: FloatParser, catalog: seq<Record>, item: string) {
    ScanDefined(catalog, Normalize(item), 0) &&
    (FirstContaining(catalog, Normalize(item)).Some? ==>
      ItemKcal(parse, catalog[FirstContaining(catalog, Normalize(item)).value]).Some?)
  }

  predicate ItemsDefined(parse: FloatParser, catalog: seq<Record>, items: seq<string>) {
    forall i :: 0 <= i < |items| ==> ItemDefined(parse, catalog, items[i])
  }

  /** What one item adds to the estimate: the first match's kcal, or 300. */
  function Estimated(parse: FloatParser, catalog: seq<Record>, item: string): real
    requires ItemDefined(parse, catalog, item)
  {
    match FirstContaining(catalog, Normalize(item))
    case Some(j) => ItemKcal(parse, catalog[j]).value
    case None => DefaultKcal
  }

  /** The sum of the per-item estimates. */
  function EstimateTotal(parse: FloatParser, catalog: seq<Record>, items: seq<string>): real
    requires ItemsDefined(parse, catalog, items)
  {
    if items == [] then 0.0
    else EstimateTotal(parse, catalog, items[..|items| - 1]) + Estimated(parse, catalog, items[|items| - 1])
  }

  /** The estimate of a concatenation is the sum of the two estimates; `estimate_kcal([])` is 0. */
  lemma {:induction false} EstimateTotalAppend(parse: FloatParser, catalog: seq<Record>, a: seq<string>, b: seq<string>)
    requires ItemsDefined(parse, catalog, a) && ItemsDefined(parse, catalog, b)
    ensures ItemsDefined(parse, catalog, a + b)
    ensures EstimateTotal(parse, catalog, a + b) == EstimateTotal(parse, catalog, a) + EstimateTotal(parse, catalog, b)
    ensures EstimateTotal(parse, catalog, []) == 0.0
    decreases |b|
  {
    assert ItemsDefined(parse, catalog, a + b) by {
      forall i | 0 <= i < |a + b|
        ensures ItemDefined(parse, catalog, (a + b)[i])
      {
        if i < |a| { assert (a + b)[i] == a[i]; } else { assert (a + b)[i] == b[i - |a|]; }
      }
    }
    if b == [] {
      assert a + b == a;
    } else {
      var b' := b[..|b| - 1];
      assert ItemsDefined(parse, catalog, b') by {
        forall i | 0 <= i < |b'| ensures ItemDefined(parse, catalog, b'[i]) { assert b'[i] == b[i]; }
      }
      EstimateTotalAppend(parse, catalog, a, b');
      assert (a + b)[..|a + b| - 1] == a + b';
      assert (a + b)[|a + b| - 1] == b[|b| - 1];
    }
  }

  /** An item of whitespace only matches the first record, whose kcal it then takes. */
  lemma BlankItemTakesFirstRecord(parse: FloatParser, catalog: seq<Record>, item: string)
    requires AllSpace(item) && catalog != [] && ItemDefined(parse, catalog, item)
    ensures FirstContaining(catalog, Normalize(item)) == Some(0)
    ensures ItemKcal(parse, catalog[0]).Some? && Estimated(parse, catalog, item) == ItemKcal(parse, catalog[0]).value
  {
    NormalizeAllSpace(item);
    assert NameDefined(catalog[0]);
    assert Matches(catalog[0], []);
  }

  /** An item no record name contains after normalisation is estimated at 300 kcal. */
  lemma UnmatchedItemIsDefault(parse: FloatParser, catalog: seq<Record>, item: string)
    requires forall k :: 0 <= k < |catalog| ==> NameDefined(catalog[k]) && !Matches(catalog[k], Normalize(item))
    ensures ItemDefined(parse, catalog, item)
    ensures Estimated(parse, catalog, item) == DefaultKcal
  {
    UnmatchedScan(catalog, Normalize(item), 0);
  }

  lemma {:induction false} UnmatchedScan(catalog: seq<Record>, needle: string, j: nat)
    requires j <= |catalog|
    requires forall k :: 0 <= k < |catalog| ==> NameDefined(catalog[k]) && !Matches(catalog[k], needle)
    ensures ScanDefined(catalog, needle, j)
    decreases |catalog| - j
  {
    if j < |catalog| {
      UnmatchedScan(catalog, needle, j + 1);
    }
  }

  lemma ItemsDefinedPrefix(parse: FloatParser, catalog: seq<Record>, items: seq<string>, n: nat)
    requires ItemsDefined(parse, catalog, items) && n <= |items|
    ensures ItemsDefined(parse, catalog, items[..n])
  {
    forall i | 0 <= i < n
      ensures ItemDefined(parse, catalog, items[..n][i])
    {
      assert items[..n][i] == items[i];
    }
  }

  /**
   * The inner loop of `estimate_kcal` for one item: scan the catalog until the first record whose
   * normalised name contains the normalised item and add its kcal to `totalKcal`; add 300 when
   * the scan finds none.
   */
  method AddItemKcal(parse: FloatParser, catalog: seq<Record>, item: string, totalKcal: real) returns (sum: real)
    requires ItemDefined(parse, catalog, item)
    ensures sum == totalKcal + Estimated(parse, catalog, item)
  {
    sum := totalKcal;
    var itemNorm := Normalize(item);
    var found := false;
    var j := 0;
    while j < |catalog|
      invariant j <= |catalog| && ScanDefined(catalog, itemNorm, j)
      invariant FindFrom(catalog, itemNorm, j) == FirstContaining(catalog, itemNorm)
      invariant !found && sum == totalKcal
      decreases |catalog| - j
    {
      var foodName := Normalize(NameText(catalog[j]));
      if Contains(foodName, itemNorm) {
        var kcal := ItemKcal(parse, catalog[j]).value;
        sum := sum + kcal;
        found := true;
        break;
      }
      j := j + 1;
    }
    if !found {
      sum := sum + DefaultKcal;
    }
  }

  /** `estimate_kcal`: the estimates of the items, added up in list order. */
  method EstimateKcal(parse: FloatParser, catalog: seq<Record>, itemList: seq<string>) returns (totalKcal: real)
    requires ItemsDefined(parse, catalog, itemList)
    ensures totalKcal == EstimateTotal(parse, catalog, itemList)
  {
    totalKcal := 0.0;
    for i := 0 to |itemList|
      invariant ItemsDefined(parse, catalog, itemList[..i])
      invariant totalKcal == EstimateTotal(parse, catalog, itemList[..i])
    {
      var item := itemList[i];
      assert ItemDefined(parse, catalog, item);
      totalKcal := AddItemKcal(parse, catalog, item, totalKcal);
      assert itemList[..i + 1][..i] == itemList[..i];
      ItemsDefinedPrefix(parse, catalog, itemList, i + 1);
    }
    assert itemList[..|itemList|] == itemList;
  }

  // ----- calculate_target_kcal -----

  /** The activity-factor table of `calculate_target_kcal`. */
  const ActivityFactors: map<string, real> := map["low" := 25.0, "medium" := 30.0, "high" := 35.0]

  /** The factor for a level the table does not list. */
  const DefaultActivityFactor: real := 30.0

  /** `calculate_target_kcal`: target weight times the activity factor of the goal's level. */
  function TargetKcal(goal: Goal): (t: real)
    ensures goal.activityLevel == "low" ==> t == goal.targetWeight * 25.0
    ensures goal.activityLevel == "medium" ==> t == goal.targetWeight * 30.0
    ensures goal.activityLevel == "high" ==> t == goal.targetWeight * 35.0
    ensures goal.activityLevel !in {"low", "medium", "high"} ==> t == goal.targetWeight * 30.0
    ensures 0.0 <= goal.targetWeight ==> goal.targetWeight * 25.0 <= t <= goal.targetWeight * 35.0
  {
    goal.targetWeight * PyDict.GetOr(ActivityFactors, goal.activityLevel, DefaultActivityFactor)
  }

  // ----- recommend_snacks -----

  predicate MealsDefined(parse: FloatParser, catalog: seq<Record>, mealLog: seq<Meal>) {
    forall m :: 0 <= m < |mealLog| ==> ItemsDefined(parse, catalog, mealLog[m].items)
  }

  /** `sum([estimate_kcal(m.items) for m in meal_log])` */
  function Consumed(parse: FloatParser, catalog: seq<Record>, mealLog: seq<Meal>): real
    requires MealsDefined(parse, catalog, mealLog)
  {
    if mealLog == [] then 0.0
    else Consumed(parse, catalog, mealLog[..|mealLog| - 1]) + EstimateTotal(parse, catalog, mealLog[|mealLog| - 1].items)
  }

  /** `remain_kcal = target_kcal - consumed_kcal` */
  function RemainKcal(parse: FloatParser, catalog: seq<Record>, goal: Goal, mealLog: seq<Meal>): real
    requires MealsDefined(parse, catalog, mealLog)
  {
    TargetKcal(goal) - Consumed(parse, catalog, mealLog)
  }

  /** `consumed_kcal` adds up over a log split in two: every meal's estimate is counted once. */
  lemma {:induction false} ConsumedAppend(parse: FloatParser, catalog: seq<Record>, a: seq<Meal>, b: seq<Meal>)
    requires MealsDefined(parse, catalog, a) && MealsDefined(parse, catalog, b)
    ensures MealsDefined(parse, catalog, a + b)
    ensures Consumed(parse, catalog, a + b) == Consumed(parse, catalog, a) + Consumed(parse, catalog, b)
    decreases |b|
  {
    assert forall m :: 0 <= m < |a + b| ==> (a + b)[m] == if m < |a| then a[m] else b[m - |a|];
    if b == [] {
      assert a + b == a;
    } else {
      var b' := b[..|b| - 1];
      ConsumedAppend(parse, catalog, a, b');
      assert (a + b)[..|a + b| - 1] == a + b';
      assert (a + b)[|a + b| - 1] == b[|b| - 1];
    }
  }

  /**
   * With an empty log the whole target is left; after a log split in two, what is left is what
   * the first part left minus what the second part consumed.
   */
  lemma RemainKcalSplit(parse: FloatParser, catalog: seq<Record>, goal: Goal, a: seq<Meal>, b: seq<Meal>)
    requires MealsDefined(parse, catalog, a) && MealsDefined(parse, catalog, b)
    ensures RemainKcal(parse, catalog, goal, []) == TargetKcal(goal)
    ensures MealsDefined(parse, catalog, a + b)
    ensures RemainKcal(parse, catalog, goal, a + b) == RemainKcal(parse, catalog, goal, a) - Consumed(parse, catalog, b)
  {
    ConsumedAppend(parse, catalog, a, b);
  }

  /** Eating one more meal lowers the remaining budget by exactly that meal's estimate. */
  lemma RemainAfterMeal(parse: FloatParser, catalog: seq<Record>, goal: Goal, mealLog: seq<Meal>, meal: Meal)
    requires MealsDefined(parse, catalog, mealLog) && ItemsDefined(parse, catalog, meal.items)
    ensures MealsDefined(parse, catalog, mealLog + [meal])
    ensures RemainKcal(parse, catalog, goal, mealLog + [meal]) == RemainKcal(parse, catalog, goal, mealLog) - EstimateTotal(parse, catalog, meal.items)
  {
    assert (mealLog + [meal])[..|mealLog|] == mealLog;
  }

  /** One entry of `추천 간식`. */
  datatype Snack = Snack(name: Json, kcal: real, protein: real, fat: real, carbs: real)

  /** The dictionary `recommend_snacks` returns: `남은 칼로리` and `추천 간식`. */
  datatype SnackAdvice = SnackAdvice(remainKcal: real, snacks: seq<Snack>)

  /** `food.get("데이터구분코드") == "P"` */
  predicate IsPCode(food: Record) {
    Get(food, CodeField) == Some(JStr("P"))
  }

  /** `food.get("에너지(kcal)", "").strip()` raises unless the kcal column is absent or a string. */
  predicate KcalTextDefined(food: Record) {
    CatalogField(Kcal) in food ==> food[CatalogField(Kcal)].JStr?
  }

  /** `food.get("에너지(kcal)", "")` */
  function KcalText(food: Record): string
    requires KcalTextDefined(food)
  {
    if CatalogField(Kcal) in food then food[CatalogField(Kcal)].s else ""
  }

  /** The budget clause: `0 < kcal <= remain` in the backend, just `kcal <= remain` in the older file. */
  predicate KcalAccepted(kcal: real, remain: real, requirePositive: bool) {
    (requirePositive ==> 0.0 < kcal) && kcal <= remain
  }

  /** Building the candidate dictionary does not raise. */
  predicate CandidateDefined(parse: FloatParser, food: Record) {
    NameField in food &&
    PyFloat(parse, GetOr(food, CatalogField(Kcal), JNum(0.0))).Some? &&
    PyFloat(parse, GetOr(food, CatalogField(Protein), JNum(0.0))).Some? &&
    PyFloat(parse, GetOr(food, CatalogField(Fat), JNum(0.0))).Some? &&
    PyFloat(parse, GetOr(food, CatalogField(Carbs), JNum(0.0))).Some?
  }

  /** The candidate dictionary built for a selected record. */
  function Candidate(parse: FloatParser, food: Record): Snack
    requires CandidateDefined(parse, food)
  {
    Snack(food[NameField],
          PyFloat(parse, GetOr(food, CatalogField(Kcal), JNum(0.0))).value,
          PyFloat(parse, GetOr(food, CatalogField(Protein), JNum(0.0))).value,
          PyFloat(parse, GetOr(food, CatalogField(Fat), JNum(0.0))).value,
          PyFloat(parse, GetOr(food, CatalogField(Carbs), JNum(0.0))).value)
  }

  /**
   * The filter of the comprehension does not raise on this record, nor does the candidate it
   * builds when the record is selected. The clauses are evaluated left to right and stop at
   * the first false one.
   */
  predicate RowDefined(parse: FloatParser, remain: real, food: Record, requirePositive: bool) {
    IsPCode(food) ==>
      KcalTextDefined(food) &&
      (Strip(KcalText(food)) != [] ==>
        parse(KcalText(food)).Some? &&
        (KcalAccepted(parse(KcalText(food)).value, remain, requirePositive) ==> CandidateDefined(parse, food)))
  }

  predicate RowsDefined(parse: FloatParser, remain: real, catalog: seq<Record>, requirePositive: bool) {
    forall i :: 0 <= i < |catalog| ==> RowDefined(parse, remain, catalog[i], requirePositive)
  }

  /** The comprehension's condition. */
  predicate Selected(parse: FloatParser, remain: real, food: Record, requirePositive: bool)
    requires RowDefined(parse, remain, food, requirePositive)
  {
    IsPCode(food) && Strip(KcalText(food)) != [] &&
    KcalAccepted(parse(KcalText(food)).value, remain, requirePositive)
  }

  /** `snack_candidates`: the selected records of the catalog, in catalog order. */
  function Candidates(parse: FloatParser, remain: real, catalog: seq<Record>, requirePositive: bool): (c: seq<Snack>)
    requires RowsDefined(parse, remain, catalog, requirePositive)
    ensures |c| <= |catalog|
    ensures forall s :: s in c ==> KcalAccepted(s.kcal, remain, requirePositive)
  {
    if catalog == [] then []
    else
      var last := catalog[|catalog| - 1];
      Candidates(parse, remain, catalog[..|catalog| - 1], requirePositive) +
      (if Selected(parse, remain, last, requirePositive) then [Candidate(parse, last)] else [])
  }

  /** The candidates of one record: its candidate dictionary exactly when it is selected. */
  lemma CandidatesOfOne(parse: FloatParser, remain: real, food: Record, requirePositive: bool)
    requires RowDefined(parse, remain, food, requirePositive)
    ensures RowsDefined(parse, remain, [food], requirePositive)
    ensures Candidates(parse, remain, [food], requirePositive) ==
              if Selected(parse, remain, food, requirePositive) then [Candidate(parse, food)] else []
  {
    assert [food][..0] == [];
  }

  /** The filter keeps catalog order: the candidates of a concatenation are concatenated. */
  lemma {:induction false} CandidatesAppend(parse: FloatParser, remain: real, a: seq<Record>, b: seq<Record>, requirePositive: bool)
    requires RowsDefined(parse, remain, a, requirePositive) && RowsDefined(parse, remain, b, requirePositive)
    ensures RowsDefined(parse, remain, a + b, requirePositive)
    ensures Candidates(parse, remain, a + b, requirePositive) ==
              Candidates(parse, remain, a, requirePositive) + Candidates(parse, remain, b, requirePositive)
    decreases |b|
  {
    assert RowsDefined(parse, remain, a + b, requirePositive) by {
      forall i | 0 <= i < |a + b|
        ensures RowDefined(parse, remain, (a + b)[i], requirePositive)
      {
        if i < |a| { assert (a + b)[i] == a[i]; } else { assert (a + b)[i] == b[i - |a|]; }
      }
    }
    if b == [] {
      assert a + b == a;
    } else {
      var b' := b[..|b| - 1];
      assert RowsDefined(parse, remain, b', requirePositive) by {
        forall i | 0 <= i < |b'| ensures RowDefined(parse, remain, b'[i], requirePositive) { assert b'[i] == b[i]; }
      }
      CandidatesAppend(parse, remain, a, b', requirePositive);
      assert (a + b)[..|a + b| - 1] == a + b';
      assert (a + b)[|a + b| - 1] == b[|b| - 1];
    }
  }

  /** Every candidate is the dictionary of a selected record of the catalog. */
  lemma {:induction false} CandidatesFromCatalog(parse: FloatParser, remain: real, catalog: seq<Record>, requirePositive: bool, s: Snack)
    requires RowsDefined(parse, remain, catalog, requirePositive)
    requires s in Candidates(parse, remain, catalog, requirePositive)
    ensures exists i :: 0 <= i < |catalog| && Selected(parse, remain, catalog[i], requirePositive) &&
                        IsPCode(catalog[i]) && s == Candidate(parse, catalog[i])
  {
    assert catalog != [];
    var init := catalog[..|catalog| - 1];
    var last := catalog[|catalog| - 1];
    assert RowsDefined(parse, remain, init, requirePositive) by {
      forall i | 0 <= i < |init| ensures RowDefined(parse, remain, init[i], requirePositive) { assert init[i] == catalog[i]; }
    }
    if s in Candidates(parse, remain, init, requirePositive) {
      CandidatesFromCatalog(parse, remain, init, requirePositive, s);
      var i :| 0 <= i < |init| && Selected(parse, remain, init[i], requirePositive) &&
               IsPCode(init[i]) && s == Candidate(parse, init[i]);
      assert init[i] == catalog[i];
    } else {
      assert Selected(parse, remain, last, requirePositive) && s == Candidate(parse, last);
    }
  }

  /** A candidate's kcal is the number its record's kcal text parses to. */
  lemma CandidateKcal(parse: FloatParser, remain: real, food: Record, requirePositive: bool)
    requires RowDefined(parse, remain, food, requirePositive) && Selected(parse, remain, food, requirePositive)
    ensures Candidate(parse, food).kcal == parse(KcalText(food)).value
  {
  }

  function Min(a: int, b: int): int {
    if a < b then a else b
  }

  /** `s[:k]` in Python: a negative `k` counts from the end, a large one takes everything. */
  function PyPrefix<T>(s: seq<T>, k: int): (r: seq<T>)
    ensures r <= s
    ensures 0 <= k ==> |r| == Min(k, |s|)
    ensures k < 0 ==> |r| == if -k < |s| then |s| + k else 0
  {
    if 0 <= k then (if k < |s| then s[..k] else s)
    else if -k < |s| then s[..|s| + k] else []
  }

  /** The number of snacks `get_snacks` asks for (the default `top_k`). */
  const DefaultTopK: int := 5

  /** `recommend_snacks` raises nowhere on these inputs. */
  predicate AdviceDefined(parse: FloatParser, catalog: seq<Record>, goal: Goal, mealLog: seq<Meal>, requirePositive: bool) {
    MealsDefined(parse, catalog, mealLog) &&
    RowsDefined(parse, RemainKcal(parse, catalog, goal, mealLog), catalog, requirePositive)
  }

  /** The body both recommenders share: the remaining budget and the first `top_k` candidates. */
  function Advice(parse: FloatParser, catalog: seq<Record>, goal: Goal, mealLog: seq<Meal>, topK: int, requirePositive: bool): (r: SnackAdvice)
    requires AdviceDefined(parse, catalog, goal, mealLog, requirePositive)
    ensures r.remainKcal == TargetKcal(goal) - Consumed(parse, catalog, mealLog)
    ensures r.snacks <= Candidates(parse, r.remainKcal, catalog, requirePositive)
    ensures 0 <= topK ==> |r.snacks| == Min(topK, |Candidates(parse, r.remainKcal, catalog, requirePositive)|)
    ensures forall s :: s in r.snacks ==> KcalAccepted(s.kcal, r.remainKcal, requirePositive)
  {
    var remain := RemainKcal(parse, catalog, goal, mealLog);
    var c := Candidates(parse, remain, catalog, requirePositive);
    assert forall s :: s in PyPrefix(c, topK) ==> s in c;
    SnackAdvice(remain, PyPrefix(c, topK))
  }

  /** `recommend_snacks` of the backend: only snacks with `0 < kcal <= remain`. */
  function RecommendSnacks(parse: FloatParser, catalog: seq<Record>, goal: Goal, mealLog: seq<Meal>, topK: int): (r: SnackAdvice)
    requires AdviceDefined(parse, catalog, goal, mealLog, true)
    ensures r.remainKcal == TargetKcal(goal) - Consumed(parse, catalog, mealLog)
    ensures r.snacks <= Candidates(parse, r.remainKcal, catalog, true)
    ensures 0 <= topK ==> |r.snacks| == Min(topK, |Candidates(parse, r.remainKcal, catalog, true)|)
    ensures forall s :: s in r.snacks ==> 0.0 < s.kcal <= r.remainKcal
    ensures r.remainKcal <= 0.0 ==> r.snacks == []
  {
    var r := Advice(parse, catalog, goal, mealLog, topK, true);
    assert r.snacks != [] ==> r.snacks[0] in r.snacks;
    r
  }
}
