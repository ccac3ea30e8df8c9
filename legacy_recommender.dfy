/**
 * The older recommender file. Its `normalize`, `estimate_kcal` and `calculate_target_kcal` are
 * the backend's, line for line, and are modelled once in `Recommender`; its snack filter lacks
 * the `kcal > 0` clause.
 */
module LegacyRecommender {
  import opened Wrappers
  import opened Text
  import opened JsonValue
  import opened Schemas
  import opened Recommender

  /** `recommend_snacks` of the older file: snacks with `kcal <= remain`, zero or negative ones included. */
  function RecommendSnacks(parse: FloatParser, catalog: seq<Record>, goal: Goal, mealLog: seq<Meal>, topK: int): (r: SnackAdvice)
    requires AdviceDefined(parse, catalog, goal, mealLog, false)
    ensures r.remainKcal == TargetKcal(goal) - Consumed(parse, catalog, mealLog)
    ensures r.snacks <= Candidates(parse, r.remainKcal, catalog, false)
    ensures 0 <= topK ==> |r.snacks| == Min(topK, |Candidates(parse, r.remainKcal, catalog, false)|)
    ensures forall s :: s in r.snacks ==> s.kcal <= r.remainKcal
  {
    Advice(parse, catalog, goal, mealLog, topK, false)
  }

  /** A "P" record whose kcal text parses to 0, with a budget of at least 0. */
  predicate ZeroKcalSnack(parse: FloatParser, remain: real, food: Record) {
    IsPCode(food) && KcalTextDefined(food) && Strip(KcalText(food)) != [] &&
    parse(KcalText(food)) == Some(0.0) && CandidateDefined(parse, food) && 0.0 <= remain
  }

  /**
   * The two filters differ exactly on such records: the older one recommends a 0-kcal "P" record
   * whenever the budget is not negative, the backend never does.
   */
  lemma ZeroKcalSnackContrast(parse: FloatParser, remain: real, food: Record)
    requires ZeroKcalSnack(parse, remain, food)
    ensures RowsDefined(parse, remain, [food], false) && RowsDefined(parse, remain, [food], true)
    ensures Candidates(parse, remain, [food], false) == [Candidate(parse, food)]
    ensures Candidates(parse, remain, [food], true) == []
  {
    CandidatesOfOne(parse, remain, food, false);
    CandidatesOfOne(parse, remain, food, true);
  }

  /** Apart from that clause the filters agree: every backend candidate is an older-file candidate. */
  lemma {:induction false} BackendCandidatesAmongLegacy(parse: FloatParser, remain: real, catalog: seq<Record>)
    requires RowsDefined(parse, remain, catalog, false)
    ensures RowsDefined(parse, remain, catalog, true)
    ensures forall s :: s in Candidates(parse, remain, catalog, true) ==> s in Candidates(parse, remain, catalog, false)
  {
    if catalog != [] {
      var init := catalog[..|catalog| - 1];
      assert RowsDefined(parse, remain, init, false) by {
        forall i | 0 <= i < |init| ensures RowDefined(parse, remain, init[i], false) { assert init[i] == catalog[i]; }
      }
      BackendCandidatesAmongLegacy(parse, remain, init);
    }
  }
}
