/**
 * The older aggregator: a dictionary from exact food names to nutrition dictionaries, and a
 * loop that adds five nutrients of every item found there.
 */
module LegacyCalorie {
  import opened Schemas
  import PyDict

  /** One record of the older catalog file: its `name` and its `nutrition` dictionary. */
  datatype FoodEntry = FoodEntry(name: string, nutrition: map<string, real>)

  /** The keys of `total`, in the order the dictionary literal lists them. */
  const TrackedKeys: seq<Nutrient> := [Kcal, Protein, Sodium, Potassium, Phosphorus]

  /** The same keys as a set; fat and carbs are not among them. */
  const Tracked: set<Nutrient> := {Kcal, Protein, Sodium, Potassium, Phosphorus}

  lemma TrackedKeysAreTracked()
    ensures forall i, j :: 0 <= i < j < |TrackedKeys| ==> TrackedKeys[i] != TrackedKeys[j]
    ensures forall k :: k in TrackedKeys <==> k in Tracked
  {
    forall k: Nutrient
      ensures k in TrackedKeys <==> k in Tracked
    {
      match k
      case Kcal => assert TrackedKeys[0] == k;
      case Protein => assert TrackedKeys[1] == k;
      case Sodium => assert TrackedKeys[2] == k;
      case Potassium => assert TrackedKeys[3] == k;
      case Phosphorus => assert TrackedKeys[4] == k;
      case Fat =>
      case Carbs =>
    }
  }

  function NamePairs(entries: seq<FoodEntry>): (ps: seq<(string, map<string, real>)>)
    ensures |ps| == |entries|
    ensures forall i :: 0 <= i < |entries| ==> ps[i] == (entries[i].name, entries[i].nutrition)
  {
    seq(|entries|, i requires 0 <= i < |entries| => (entries[i].name, entries[i].nutrition))
  }

  /** `food_dict`: name to nutrition dictionary; every name is a key and every value is a record's. */
  function FoodDict(entries: seq<FoodEntry>): (d: map<string, map<string, real>>)
    ensures forall i :: 0 <= i < |entries| ==> entries[i].name in d
    ensures forall k :: k in d ==> exists i :: 0 <= i < |entries| && entries[i].name == k && d[k] == entries[i].nutrition
  {
    var ps := NamePairs(entries);
    assert forall k :: k in PyDict.FromPairs(ps) ==> exists i :: 0 <= i < |ps| && ps[i] == (k, PyDict.FromPairs(ps)[k]);
    PyDict.FromPairs(ps)
  }

  /** A name that occurs again keeps the nutrition of its last record. */
  lemma FoodDictLastWins(entries: seq<FoodEntry>, i: nat)
    requires i < |entries|
    requires forall j :: i < j < |entries| ==> entries[j].name != entries[i].name
    ensures FoodDict(entries)[entries[i].name] == entries[i].nutrition
  {
    var ps := NamePairs(entries);
    assert PyDict.IsLastKey(ps, i);
    PyDict.FromPairsLastWins(ps, i);
  }

  /**
   * What one item adds to `total[key]`: `nutrition.get(key, 0)` when the exact-name lookup finds
   * a non-empty dictionary, nothing for an unknown name or an empty dictionary.
   */
  function Contribution(foodDict: map<string, map<string, real>>, name: string, key: Nutrient): real {
    if name in foodDict && foodDict[name] != map[] then PyDict.GetOr(foodDict[name], key.Key(), 0.0)
    else 0.0
  }

  /** The value `total[key]` reaches after the given items. */
  function LegacyTotal(foodDict: map<string, map<string, real>>, items: seq<string>, key: Nutrient): real {
    if items == [] then 0.0
    else LegacyTotal(foodDict, items[..|items| - 1], key) + Contribution(foodDict, items[|items| - 1], key)
  }

  /** Totals add up over a concatenation, so a repeated item is counted each time it occurs. */
  lemma {:induction false} LegacyTotalAppend(foodDict: map<string, map<string, real>>, a: seq<string>, b: seq<string>, key: Nutrient)
    ensures LegacyTotal(foodDict, a + b, key) == LegacyTotal(foodDict, a, key) + LegacyTotal(foodDict, b, key)
    decreases |b|
  {
    if b == [] {
      assert a + b == a;
    } else {
      var b' := b[..|b| - 1];
      LegacyTotalAppend(foodDict, a, b', key);
      assert (a + b)[..|a + b| - 1] == a + b';
      assert (a + b)[|a + b| - 1] == b[|b| - 1];
    }
  }

  /** An item the dictionary lacks, or whose dictionary is empty, changes no total. */
  lemma UnknownItemAddsNothing(foodDict: map<string, map<string, real>>, items: seq<string>, name: string, key: Nutrient)
    requires name !in foodDict || foodDict[name] == map[]
    ensures LegacyTotal(foodDict, items + [name], key) == LegacyTotal(foodDict, items, key)
  {
    assert (items + [name])[..|items|] == items;
  }

  /** An item listed twice adds its share twice. */
  lemma RepeatedItemCountsTwice(foodDict: map<string, map<string, real>>, items: seq<string>, name: string, key: Nutrient)
    ensures LegacyTotal(foodDict, items + [name, name], key)
         == LegacyTotal(foodDict, items, key) + 2.0 * Contribution(foodDict, name, key)
  {
    LegacyTotalAppend(foodDict, items, [name, name], key);
    assert [name, name][..1] == [name];
    assert [name][..0] == [];
    assert LegacyTotal(foodDict, [name], key) == Contribution(foodDict, name, key);
    assert LegacyTotal(foodDict, [name, name], key) == LegacyTotal(foodDict, [name], key) + Contribution(foodDict, name, key);
  }

  /** The lookup is exact: only the dictionary's entry under precisely `name` decides its share. */
  lemma ContributionIsExact(d1: map<string, map<string, real>>, d2: map<string, map<string, real>>, name: string, key: Nutrient)
    requires (name in d1 <==> name in d2) && (name in d1 ==> d1[name] == d2[name])
    ensures Contribution(d1, name, key) == Contribution(d2, name, key)
  {
  }

  /**
   * The inner loop: `total[key] += nutrition.get(key, 0)` for each key of `total`, visited in the
   * order `keys` lists them; every key of `total` is visited once.
   */
  method AddFound(total: map<Nutrient, real>, keys: seq<Nutrient>, nutrition: map<string, real>) returns (sum: map<Nutrient, real>)
    requires forall i, j :: 0 <= i < j < |keys| ==> keys[i] != keys[j]
    requires forall k :: k in total <==> k in keys
    ensures sum.Keys == total.Keys
    ensures forall k :: k in sum ==> sum[k] == total[k] + PyDict.GetOr(nutrition, k.Key(), 0.0)
  {
    sum := total;
    for j := 0 to |keys|
      invariant sum.Keys == total.Keys
      invariant forall i :: 0 <= i < j ==> sum[keys[i]] == total[keys[i]] + PyDict.GetOr(nutrition, keys[i].Key(), 0.0)
      invariant forall i :: j <= i < |keys| ==> sum[keys[i]] == total[keys[i]]
    {
      var key := keys[j];
      sum := sum[key := sum[key] + PyDict.GetOr(nutrition, key.Key(), 0.0)];
    }
  }

  /** `calculate_nutrition` of the older file. */
  method CalculateNutrition(foodDict: map<string, map<string, real>>, items: seq<string>) returns (total: map<Nutrient, real>)
    ensures total.Keys == Tracked
    ensures forall k :: k in total ==> total[k] == LegacyTotal(foodDict, items, k)
  {
    TrackedKeysAreTracked();
    total := map k | k in Tracked :: 0.0;
    for i := 0 to |items|
      invariant total.Keys == Tracked
      invariant forall k :: k in total ==> total[k] == LegacyTotal(foodDict, items[..i], k)
    {
      var name := items[i];
      assert items[..i + 1][..i] == items[..i];
      if name in foodDict && foodDict[name] != map[] {
        var nutrition := foodDict[name];
        total := AddFound(total, TrackedKeys, nutrition);
      }
    }
    assert items[..|items|] == items;
  }
}
