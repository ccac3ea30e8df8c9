/**
 * Post-processing of nearest-neighbour results from the food vector index, the validation done
 * when the prebuilt index is loaded, and the load-once global instance.
 *
 * The sentence-embedding model and FAISS itself are not modelled: a loaded index carries
 * `search`, the function from a query text and `top_k` to the (score, id) row that
 * `index.search` returns for the L2-normalised embedding of the text (`None` when the library
 * raises). FAISS always returns `top_k` columns, padding with id -1 (`WellShaped`).
 */
module VectorSearch {
  import opened Wrappers
  import opened Schemas

  /** One entry of the metadata file, parallel to the index vectors. */
  datatype MetaEntry = MetaEntry(name: string, kcal: real, protein: real, fat: real, carbs: real)

  /** One column of the returned row: `D[0][i]`, `I[0][i]`. */
  datatype Neighbour = Neighbour(score: real, id: int)

  /** A loaded FAISS index: its dimension `d`, its vector count `ntotal` and its search. */
  datatype FaissIndex = FaissIndex(d: nat, ntotal: nat, search: (string, nat) -> Option<seq<Neighbour>>)

  /** One search result: a name, a score and the four nutrients the metadata holds. */
  datatype SimilarFood = SimilarFood(name: string, score: real, nutrition: map<Nutrient, real>)

  const MetaNutrientKeys: set<Nutrient> := {Kcal, Protein, Fat, Carbs}

  ghost predicate WellShaped(ix: FaissIndex) {
    forall q: string, k: nat :: ix.search(q, k).Some? ==> |ix.search(q, k).value| == k
  }

  function MetaNutrition(m: MetaEntry): (n: map<Nutrient, real>)
    ensures n.Keys == MetaNutrientKeys
    ensures n[Kcal] == m.kcal && n[Protein] == m.protein && n[Fat] == m.fat && n[Carbs] == m.carbs
  {
    map[Kcal := m.kcal, Protein := m.protein, Fat := m.fat, Carbs := m.carbs]
  }

  /** The two `continue` tests of the result loop, negated: the column is kept. */
  predicate Keeps(meta: seq<MetaEntry>, c: Neighbour, threshold: Option<real>) {
    0 <= c.id < |meta| && (threshold.None? || c.score >= threshold.value)
  }

  function Entry(meta: seq<MetaEntry>, c: Neighbour): SimilarFood
    requires 0 <= c.id < |meta|
  {
    SimilarFood(meta[c.id].name, c.score, MetaNutrition(meta[c.id]))
  }

  /** The results kept from a row, in column order. */
  function Filtered(meta: seq<MetaEntry>, row: seq<Neighbour>, threshold: Option<real>): (r: seq<SimilarFood>)
    ensures |r| <= |row|
    ensures forall f :: f in r ==> f.nutrition.Keys == MetaNutrientKeys
    ensures forall f :: f in r && threshold.Some? ==> f.score >= threshold.value
  {
    if row == [] then []
    else
      var c := row[|row| - 1];
      Filtered(meta, row[..|row| - 1], threshold) + (if Keeps(meta, c, threshold) then [Entry(meta, c)] else [])
  }

  /** Results keep the column order: filtering a row is filtering its parts one after the other. */
  lemma {:induction false} FilteredAppend(meta: seq<MetaEntry>, a: seq<Neighbour>, b: seq<Neighbour>, threshold: Option<real>)
    ensures Filtered(meta, a + b, threshold) == Filtered(meta, a, threshold) + Filtered(meta, b, threshold)
  {
    if b == [] {
      assert a + b == a;
    } else {
      var b0 := b[..|b| - 1];
      assert (a + b)[..|a + b| - 1] == a + b0;
      assert (a + b)[|a + b| - 1] == b[|b| - 1];
      FilteredAppend(meta, a, b0, threshold);
    }
  }

  /**
   * Every result is the copy of a kept column: an id inside the metadata, a score that passes
   * the threshold, and the name and nutrients of that metadata entry.
   */
  lemma {:induction false} FilteredSource(meta: seq<MetaEntry>, row: seq<Neighbour>, threshold: Option<real>, f: SimilarFood)
    requires f in Filtered(meta, row, threshold)
    ensures exists c :: c in row && Keeps(meta, c, threshold) && f == Entry(meta, c)
  {
    var c := row[|row| - 1];
    var rest := row[..|row| - 1];
    if f in Filtered(meta, rest, threshold) {
      FilteredSource(meta, rest, threshold, f);
      var c' :| c' in rest && Keeps(meta, c', threshold) && f == Entry(meta, c');
      assert c' in row;
    } else {
      assert c in row;
    }
  }

  /** Every kept column yields a result. */
  lemma {:induction false} FilteredComplete(meta: seq<MetaEntry>, row: seq<Neighbour>, threshold: Option<real>, i: nat)
    requires i < |row| && Keeps(meta, row[i], threshold)
    ensures Entry(meta, row[i]) in Filtered(meta, row, threshold)
  {
    if i < |row| - 1 {
      var rest := row[..|row| - 1];
      assert rest[i] == row[i];
      FilteredComplete(meta, rest, threshold, i);
    }
  }

  /** What `_load_prebuilt_index` finds on disk. `None`: reading the file raised. */
  datatype PrebuiltFiles = PrebuiltFiles(
    indexFileExists: bool,
    metaFileExists: bool,
    readIndex: Option<FaissIndex>,
    readMeta: Option<seq<MetaEntry>>)

  datatype LoadError = IndexFileNotFound | MetaFileNotFound | IndexUnreadable | MetaUnreadable | DimensionMismatch

  /** `countMismatch`: the warning about vector count and metadata count was printed. */
  datatype LoadOutcome = Loaded(countMismatch: bool) | LoadFailed(error: LoadError)

  /** The outcome of `_load_prebuilt_index` for a model of the given embedding dimension. */
  function LoadOutcomeOf(dimension: nat, files: PrebuiltFiles): (r: LoadOutcome)
    ensures r.Loaded? <==>
      && files.indexFileExists && files.metaFileExists
      && files.readIndex.Some? && files.readMeta.Some?
      && files.readIndex.value.d == dimension
    ensures r.Loaded? ==> (r.countMismatch <==> files.readIndex.value.ntotal != |files.readMeta.value|)
    ensures (files.indexFileExists && files.metaFileExists && files.readIndex.Some? && files.readMeta.Some?
             && files.readIndex.value.d != dimension) ==> r == LoadFailed(DimensionMismatch)
  {
    if !files.indexFileExists then LoadFailed(IndexFileNotFound)
    else if !files.metaFileExists then LoadFailed(MetaFileNotFound)
    else if files.readIndex.None? then LoadFailed(IndexUnreadable)
    else if files.readMeta.None? then LoadFailed(MetaUnreadable)
    else if files.readIndex.value.d != dimension then LoadFailed(DimensionMismatch)
    else Loaded(files.readIndex.value.ntotal != |files.readMeta.value|)
  }

  class FaissFoodDB {
    const dimension: nat
    var index: Option<FaissIndex>
    var foodItemsMeta: seq<MetaEntry>

    ghost predicate Valid()
      reads this
    {
      index.Some? ==> WellShaped(index.value)
    }

    /** The state `__init__` sets up before it loads the prebuilt index. */
    constructor (dimension: nat)
      ensures Valid()
      ensures this.dimension == dimension && index == None && foodItemsMeta == []
    {
      this.dimension := dimension;
      index := None;
      foodItemsMeta := [];
    }

    /**
     * `_load_prebuilt_index`. The index and the metadata are stored as soon as they are read,
     * so a dimension mismatch leaves both in place.
     */
    method LoadPrebuiltIndex(files: PrebuiltFiles) returns (outcome: LoadOutcome)
      requires Valid()
      requires files.readIndex.Some? ==> WellShaped(files.readIndex.value)
      modifies this
      ensures Valid()
      ensures outcome == LoadOutcomeOf(dimension, files)
      ensures index == if files.indexFileExists && files.metaFileExists && files.readIndex.Some?
                       then files.readIndex else old(index)
      ensures foodItemsMeta == if files.indexFileExists && files.metaFileExists && files.readIndex.Some? && files.readMeta.Some?
                               then files.readMeta.value else old(foodItemsMeta)
    {
      if !files.indexFileExists {
        return LoadFailed(IndexFileNotFound);
      }
      if !files.metaFileExists {
        return LoadFailed(MetaFileNotFound);
      }
      if files.readIndex.None? {
        return LoadFailed(IndexUnreadable);
      }
      index := files.readIndex;
      if files.readMeta.None? {
        return LoadFailed(MetaUnreadable);
      }
      foodItemsMeta := files.readMeta.value;
      if index.value.d != dimension {
        return LoadFailed(DimensionMismatch);
      }
      outcome := Loaded(index.value.ntotal != |foodItemsMeta|);
    }

    /** What `search_similar_foods` returns in the current state. */
    function SimilarFoods(queryText: string, topK: nat, threshold: Option<real>): (r: seq<SimilarFood>)
      reads this
      ensures forall f :: f in r ==> f.nutrition.Keys == MetaNutrientKeys
    {
      if index.None? || index.value.ntotal == 0 then []
      else match index.value.search(queryText, topK)
        case None => []
        case Some(row) => Filtered(foodItemsMeta, row, threshold)
    }

    method SearchSimilarFoods(queryText: string, topK: nat, threshold: Option<real>) returns (similarFoods: seq<SimilarFood>)
      requires Valid()
      ensures similarFoods == SimilarFoods(queryText, topK, threshold)
      ensures index.None? || index.value.ntotal == 0 ==> similarFoods == []
      ensures |similarFoods| <= topK
      ensures forall f :: f in similarFoods && threshold.Some? ==> f.score >= threshold.value
      ensures forall f :: f in similarFoods ==> f.nutrition.Keys == MetaNutrientKeys
    {
      if index.None? || index.value.ntotal == 0 {
        return [];
      }
      var found := index.value.search(queryText, topK);
      if found.None? {
        return [];
      }
      var row := found.value;
      similarFoods := [];
      for i := 0 to |row|
        invariant similarFoods == Filtered(foodItemsMeta, row[..i], threshold)
      {
        var idx := row[i].id;
        var score := row[i].score;
        assert row[..i + 1][..i] == row[..i];
        if 0 <= idx < |foodItemsMeta| && (threshold.None? || score >= threshold.value) {
          var meta := foodItemsMeta[idx];
          var nutrition := map[Kcal := meta.kcal, Protein := meta.protein, Fat := meta.fat, Carbs := meta.carbs];
          similarFoods := similarFoods + [SimilarFood(meta.name, score, nutrition)];
        }
      }
      assert row[..|row|] == row;
    }

    /** What `find_best_match` returns in the current state. */
    function BestMatch(queryText: string): (m: Option<SimilarFood>)
      reads this
      ensures m.Some? ==> m.value.nutrition.Keys == MetaNutrientKeys
    {
      var results := SimilarFoods(queryText, 1, None);
      if results == [] then None else Some(results[0])
    }

    /** The first result of a one-column search with no threshold, or `None`. */
    method FindBestMatch(queryText: string) returns (m: Option<SimilarFood>)
      requires Valid()
      ensures m == BestMatch(queryText)
      ensures m.Some? ==> m.value.nutrition.Keys == MetaNutrientKeys
      ensures m.Some? ==> exists c :: Keeps(foodItemsMeta, c, None) && m.value == Entry(foodItemsMeta, c)
      ensures (index.None? || index.value.ntotal == 0) ==> m.None?
    {
      var results := SearchSimilarFoods(queryText, 1, None);
      if results == [] {
        return None;
      }
      m := Some(results[0]);
      var row := index.value.search(queryText, 1).value;
      FilteredSource(foodItemsMeta, row, None, results[0]);
    }
  }

  /** The module-level `faiss_db_instance` and `get_vector_db`. */
  class VectorDbRegistry {
    var instance: FaissFoodDB?
    /** How many instances were built successfully; never more than one. */
    ghost var builds: nat

    ghost predicate Valid()
      reads this, instance
    {
      && builds <= 1
      && (instance == null <==> builds == 0)
      && (instance != null ==> instance.Valid())
    }

    constructor ()
      ensures Valid() && instance == null
    {
      instance := null;
      builds := 0;
    }

    /**
     * `get_vector_db`: builds and loads the instance on the first successful call and returns
     * the same instance from then on. A failed build leaves the slot empty, so the next call
     * tries again.
     */
    method GetVectorDb(dimension: nat, files: PrebuiltFiles) returns (r: Result<FaissFoodDB, LoadError>)
      requires Valid()
      requires files.readIndex.Some? ==> WellShaped(files.readIndex.value)
      modifies this
      ensures Valid()
      ensures old(instance) != null ==> r == Success(old(instance)) && instance == old(instance) && builds == old(builds)
      ensures old(instance) == null ==> (r.Success? <==> LoadOutcomeOf(dimension, files).Loaded?)
      ensures old(instance) == null && r.Success? ==> fresh(r.value) && instance == r.value && builds == 1
      ensures old(instance) == null && r.Success? ==>
        && r.value.dimension == dimension
        && r.value.index == files.readIndex
        && r.value.foodItemsMeta == files.readMeta.value
      ensures old(instance) == null && r.Failure? ==> instance == null && r.error == LoadOutcomeOf(dimension, files).error
      ensures r.Success? ==> r.value.Valid()
    {
      if instance != null {
        return Success(instance);
      }
      var db := new FaissFoodDB(dimension);
      var outcome := db.LoadPrebuiltIndex(files);
      if outcome.LoadFailed? {
        return Failure(outcome.error);
      }
      instance := db;
      builds := 1;
      r := Success(db);
    }
  }
}
