# Nutrition core of the ad-project meal tracker, in Dafny

This project models the nutrition pipeline of a small meal-tracking service. Users set a weight goal, log meals as lists of free-text items ("현미밥 1공기", "닭가슴살 100g"), get a daily summary of calories and nutrients, and get snack recommendations that fit the remaining calorie budget. The model covers:

- `backend/services/calorie.py` (module `Calorie`):
  - `safe_float` and the `food_dict` comprehension over catalog records;
  - `parse_food_item`, an item-text cleaner. It strips the text, then removes "number + optional spaces + unit word" fragments, ten unit patterns followed by a trailing-space pattern, each applied once in list order;
  - `calculate_nutrition`. It looks up each cleaned name with the vector index's best match, sums the matched nutrients and keeps the matched and unmatched items in input order.
- `backend/services/vector_search.py` (module `VectorSearch`):
  - post-processing of the raw nearest-neighbour row (`search_similar_foods` and `find_best_match`);
  - the validation done by `_load_prebuilt_index`;
  - the load-once global returned by `get_vector_db`.
- `backend/services/recommender.py` (module `Recommender`):
  - `normalize`;
  - `estimate_kcal` (first catalog record whose normalised name contains the normalised item, else 300 kcal);
  - `calculate_target_kcal`;
  - `recommend_snacks`.
- `services/recommender.py` (module `LegacyRecommender`). Lines 1-41 are identical to the backend file, so `normalize`, `estimate_kcal` and `calculate_target_kcal` are the `Recommender` members. Its `recommend_snacks` lacks the `kcal > 0` filter; both filters are one function, `Recommender.Candidates`, with a flag.
- `services/calorie.py` (module `LegacyCalorie`): an exact-name dictionary and a loop that sums five nutrients.
- `backend/main.py` (module `BackendApi`): the database-backed handlers. The goals and meals tables are the sequence fields of a `Database` object, in the order the database returns rows.
- `main.py` (module `MemoryApi`): the first in-memory handlers, with a global goal and an append-only meal log.

Support modules:

- `Wrappers`: `Option` and `Result`.
- `Text`: Python's `str.strip`, `lower`, whitespace removal and substring test.
- `JsonValue`: decoded JSON catalog records and Python's `float()` on them.
- `PyDict`: a dict comprehension where the last duplicate key wins.
- `Schemas`: the request bodies, and the nutrient keys and catalog columns they all share.

Kcal and nutrient values are exact `real`s. Python's `float()` on a string is a caller-supplied parser (`FloatParser`). A dictionary the code builds with a fixed set of nutrient keys is a `map<Nutrient, real>`, where `Nutrient.Key()` gives the Python key.

Notable behaviour of the code, which the model keeps:

- `parse_food_item` applies each pattern once and is not idempotent.
- A vector-count/metadata-count mismatch on load only warns; the index is not rebuilt.
- `calculate_nutrition` matches with `find_best_match`: one column and no score threshold.
- The older `recommend_snacks` keeps snacks of 0 kcal or less.

## Model

| member | source | states |
|---|---|---|
| Calorie.SafeFloat | backend/services/calorie.py:8-12 | never fails; a number converts to itself, a bool to 1 or 0, null and lists/objects to 0.0; a string is stripped and parsed, and gives 0.0 when it does not parse |
| Calorie.SafeFloatIgnoresPadding | backend/services/calorie.py:8-12 | surrounding whitespace of a string value does not change the result, because it is stripped before parsing |
| Schemas.CatalogField | backend/services/calorie.py:44-50 | no nutrient reads the name column |
| Schemas.CatalogFieldInjective | backend/services/calorie.py:44-50 | distinct nutrients read distinct catalog columns |
| Calorie.Profile | backend/services/calorie.py:43-51 | holds all seven nutrient keys, each `safe_float` of its own column; a missing column gives 0.0, a numeric column its value, and a text column its stripped, parsed value or 0.0 when that does not parse |
| Calorie.FoodDict | backend/services/calorie.py:42-53 | every record's name is a key, every key comes from a record with that name and holds that record's profile, and every entry has all seven keys |
| Calorie.FoodDictLastWins | backend/services/calorie.py:42-53 | a repeated name keeps the profile of its last record |
| PyDict.FromPairs | services/calorie.py:12 | a dict comprehension has a key for every pair, and every entry comes from some pair |
| PyDict.FromPairsLastWins | backend/services/calorie.py:42-53 | when keys repeat, the comprehension keeps the value of the key's last pair |
| Calorie.UnitsAreUnitWords | backend/services/calorie.py:61-71 | each of the ten unit words is non-empty and starts with a character that is neither a digit, nor '.', nor whitespace |
| Calorie.UnitMatch | backend/services/calorie.py:62-71 | a match of `\d+\.?\d*\s*unit` at the front is non-empty, fits in the text and starts with a digit |
| Calorie.Substitute | backend/services/calorie.py:77 | a substitution never lengthens the text; a unit pattern leaves digit-free text unchanged; `\s+$` removes exactly the trailing whitespace run |
| Calorie.RemoveUnit | backend/services/calorie.py:77 | `re.sub` never lengthens the text and leaves digit-free text unchanged |
| Calorie.RemoveUnitRemovesQuantity | backend/services/calorie.py:62-77 | a quantity "digits[.digits] spaces unit" after digit-free text is removed wherever it occurs, and substitution continues after it |
| Calorie.UnitMatchQuantity | backend/services/calorie.py:62-71 | the match consumes exactly the integer part, the optional fraction, the spaces and the unit word |
| Calorie.RemoveUnitSkipsNoDigit | backend/services/calorie.py:77 | digit-free text in front is copied unchanged |
| Calorie.RemoveUnitAfterName | backend/services/calorie.py:62-77 | a digit-free name, spaces, then a quantity: the substitution leaves the name and the spaces |
| Calorie.ApplyPatterns | backend/services/calorie.py:76-77 | after at least one pattern the text is stripped, and stripped input stays stripped |
| Calorie.ApplyPatternsNoDigit | backend/services/calorie.py:61-77 | stripped digit-free text passes every pattern unchanged |
| Calorie.ParsedName | backend/services/calorie.py:75-79 | the cleaned name has no leading or trailing whitespace |
| Calorie.ParsedNameNoDigit | backend/services/calorie.py:61-79 | an item without a digit comes back as its stripped self |
| Calorie.ParsedNameDropsBowl | backend/services/calorie.py:57-79 | "name + spaces + digits[.digits] + spaces + 공기" cleans to the name, for any digit-free stripped name (the "현미밥 1공기" → "현미밥" case) |
| Calorie.ParsedNameAfterBowl | backend/services/calorie.py:75-79 | when the first pattern leaves digit-free stripped text, the remaining patterns change nothing |
| Calorie.ApplyEach | backend/services/calorie.py:76-77 | the loop over the patterns computes the patterns applied in list order |
| Calorie.ParseFoodItem | backend/services/calorie.py:55-79 | returns the cleaned name, which has no surrounding whitespace |
| Calorie.OutcomeOf | backend/services/calorie.py:97-121 | an item is matched exactly when the best match of its cleaned name exists; the entry records the item, its cleaned name, and the best match's name, score and nutrition unchanged, which has the four metadata keys |
| Calorie.OutcomesOfIndex | backend/services/calorie.py:97-121 | the k-th outcome of the loop belongs to the k-th item |
| Calorie.MatchedCount | backend/services/calorie.py:109-120 | every outcome lands in exactly one of the two lists |
| Calorie.MatchedAppend | backend/services/calorie.py:109-120 | both lists keep loop order over a concatenation |
| Calorie.MatchedFromOutcomes | backend/services/calorie.py:109-115 | every matched entry comes from some item's outcome |
| Calorie.PartitionCount | backend/services/calorie.py:97-131 | `len(matched_info) + len(not_found_via_vector) == len(items)` |
| Calorie.PartitionAppend | backend/services/calorie.py:97-121 | processing `a + b` gives the lists of `a` followed by those of `b`, so input order is kept |
| Calorie.SingleItemPartition | backend/services/calorie.py:104-120 | one item: a match gives one matched entry and no unmatched item, otherwise the item itself is unmatched |
| Calorie.MatchedNutritionKeys | backend/services/calorie.py:105 | every matched entry's nutrition has exactly kcal, protein, fat and carbs |
| Calorie.SumAbsentNutrient | backend/services/calorie.py:106-107 | a key no matched entry carries sums to 0 |
| Calorie.SumNutrientAppend | backend/services/calorie.py:106-107 | totals over matched entries add up over a concatenation |
| Calorie.MineralsAlwaysZero | backend/services/calorie.py:105-107 | the sodium, potassium and phosphorus totals are always 0 |
| Calorie.AddNutrition | backend/services/calorie.py:106-107 | the key loop adds `nutrition.get(key, 0)` to every total |
| Calorie.CalculateNutrition | backend/services/calorie.py:81-133 | the matched and unmatched lists are the loop's outcomes in input order, their lengths add to the item count, each total is the sum over matched entries, and the three minerals are 0 |
| VectorSearch.MetaNutrition | backend/services/vector_search.py:99-104 | a result's nutrition is exactly the four metadata values |
| VectorSearch.Filtered | backend/services/vector_search.py:86-106 | at most one result per returned column, all with the four metadata keys, and all at or above a non-null threshold |
| VectorSearch.FilteredAppend | backend/services/vector_search.py:88-106 | results keep the order of the returned row |
| VectorSearch.FilteredSource | backend/services/vector_search.py:91-105 | every result is a copy of a column whose id is in `[0, len(meta))` and whose score passes the threshold |
| VectorSearch.FilteredComplete | backend/services/vector_search.py:88-105 | every such column yields a result |
| VectorSearch.LoadOutcomeOf | backend/services/vector_search.py:28-65 | the load succeeds exactly when both files exist, both reads succeed and the dimension matches; a count mismatch is only flagged; a wrong dimension is a dimension error |
| VectorSearch.FaissFoodDB.constructor | backend/services/vector_search.py:19-26 | a new instance has no index and no metadata |
| VectorSearch.FaissFoodDB.LoadPrebuiltIndex | backend/services/vector_search.py:28-65 | returns the load outcome and sets the index and the metadata as far as the reads got |
| VectorSearch.FaissFoodDB.SimilarFoods | backend/services/vector_search.py:71-106 | every result carries the four metadata keys |
| VectorSearch.FaissFoodDB.SearchSimilarFoods | backend/services/vector_search.py:71-106 | an absent or empty index gives `[]`; at most `top_k` results, each at or above a non-null threshold |
| VectorSearch.FaissFoodDB.BestMatch | backend/services/vector_search.py:108-112 | a best match carries the four metadata keys |
| VectorSearch.FaissFoodDB.FindBestMatch | backend/services/vector_search.py:108-112 | the first result of a one-column search with no threshold, copied from a valid metadata id, or None; always None for an absent or empty index |
| VectorSearch.VectorDbRegistry.constructor | backend/services/vector_search.py:114-115 | the global starts unset |
| VectorSearch.VectorDbRegistry.GetVectorDb | backend/services/vector_search.py:117-135 | built at most once; a fresh build holds the model's dimension and the index and metadata just read; once built, the same instance is always returned; a failed build leaves the global unset, so the next call retries |
| JsonValue.PyFloat | backend/services/recommender.py:23 | `float()` of a number is the number, of a bool 1 or 0, of a string what the parser makes of it, and raises on null and lists/objects |
| Text.Strip | backend/services/calorie.py:75 | `str.strip` leaves no surrounding whitespace and keeps a digit-free text digit-free |
| Text.StripPadding | backend/services/calorie.py:10 | stripping ignores whitespace added on either side |
| Text.Lower | backend/services/recommender.py:11 | lowercasing maps every character and keeps the length |
| Text.RemoveSpace | backend/services/recommender.py:11 | `re.sub(r"\s+", "", …)` leaves no whitespace |
| Text.ContainsAt | backend/services/recommender.py:22 | a needle found at some offset is `in` the text |
| Recommender.Normalize | backend/services/recommender.py:10-11 | the result has no whitespace and is no longer than the input |
| Recommender.NormalizeAppend | backend/services/recommender.py:10-11 | normalising a concatenation concatenates the normalised parts |
| Recommender.NormalizeAllSpace | backend/services/recommender.py:11 | whitespace-only text normalises to "" |
| Recommender.NormalizeIdempotent | backend/services/recommender.py:10-11 | normalising twice equals normalising once |
| Recommender.FindFrom | backend/services/recommender.py:20-26 | the inner scan stops at a record whose normalised name contains the item; no earlier record's does |
| Recommender.AddItemKcal | backend/services/recommender.py:17-30 | one item adds the kcal of the first containing record, or exactly 300 when none contains it |
| Recommender.EstimateKcal | backend/services/recommender.py:14-32 | the nested loop with `break` computes the sum of the per-item estimates |
| Recommender.EstimateTotalAppend | backend/services/recommender.py:15-32 | `estimate_kcal([]) == 0` and `estimate_kcal(a + b) == estimate_kcal(a) + estimate_kcal(b)` |
| Recommender.BlankItemTakesFirstRecord | backend/services/recommender.py:17-26 | a whitespace-only item matches record 0 of a non-empty catalog and takes its kcal |
| Recommender.UnmatchedItemIsDefault | services/recommender.py:28-30 | an item that no record's name contains is estimated at exactly 300 |
| Recommender.TargetKcal | backend/services/recommender.py:35-41 | target weight times 25, 30 or 35 for low, medium or high, and times 30 for any other level; so between 25 and 35 times a non-negative weight |
| Recommender.ConsumedAppend | backend/services/recommender.py:52 | `consumed_kcal` over a log split in two is the sum of the two parts |
| Recommender.RemainKcalSplit | backend/services/recommender.py:55 | with no meals `remain_kcal` is the whole target; over a log split in two it is the first part's budget minus the second part's consumption |
| Recommender.RemainAfterMeal | backend/services/recommender.py:49-55 | one more logged meal lowers `remain_kcal` by exactly that meal's estimate |
| Recommender.Candidates | backend/services/recommender.py:58-71 | no more candidates than records, and each candidate's kcal passes the filter (above 0 when required, at most `remain_kcal`) |
| Recommender.CandidatesOfOne | backend/services/recommender.py:66-71 | a single record gives its candidate exactly when it passes the filter |
| Recommender.CandidatesAppend | backend/services/recommender.py:58-71 | candidates keep catalog order: the filter of `a + b` is the filter of `a` followed by that of `b` |
| Recommender.CandidatesFromCatalog | backend/services/recommender.py:58-67 | every candidate comes from a record with code "P" that passes the filter |
| Recommender.CandidateKcal | backend/services/recommender.py:59-61 | a candidate's kcal is the parsed kcal text of its record |
| Recommender.PyPrefix | backend/services/recommender.py:79 | `s[:k]` is a prefix of `s`, of length `min(k, len(s))` for `k >= 0`, and Python's length for negative `k` |
| Recommender.Advice | services/recommender.py:45-65 | `remain_kcal` is target minus consumed; the snacks are the first `top_k` candidates in catalog order, each passing the filter |
| Recommender.RecommendSnacks | backend/services/recommender.py:44-85 | as above, with every snack at `0 < kcal <= remain_kcal`; so a budget of 0 or less yields no snacks |
| LegacyRecommender.RecommendSnacks | services/recommender.py:44-66 | the first `top_k` candidates in catalog order, every snack with kcal at most `remain_kcal`, and `remain_kcal` returned as computed |
| LegacyRecommender.ZeroKcalSnackContrast | services/recommender.py:57-60 | a "P" record of 0 kcal is recommended by the older version and not by the backend version |
| LegacyRecommender.BackendCandidatesAmongLegacy | services/recommender.py:57-60 | every backend candidate is also an older-version candidate |
| LegacyCalorie.TrackedKeysAreTracked | services/calorie.py:15-21 | the five totals are kcal, protein, sodium, potassium and phosphorus, each once; fat and carbs are absent |
| LegacyCalorie.FoodDict | services/calorie.py:12 | every entry's name is a key, and every key holds the nutrition of a record with that name |
| LegacyCalorie.FoodDictLastWins | services/calorie.py:12 | a duplicate name keeps its last record's nutrition |
| LegacyCalorie.LegacyTotalAppend | services/calorie.py:23-27 | totals add up over a concatenation of item lists |
| LegacyCalorie.RepeatedItemCountsTwice | services/calorie.py:23-27 | an item listed twice is counted twice |
| LegacyCalorie.UnknownItemAddsNothing | services/calorie.py:24-29 | an unknown name, or a name whose nutrition dict is empty, changes no total |
| LegacyCalorie.ContributionIsExact | services/calorie.py:24 | only the entry under exactly the item's name decides what it adds |
| LegacyCalorie.AddFound | services/calorie.py:26-27 | the key loop adds `nutrition.get(key, 0)` to every total and keeps the key set |
| LegacyCalorie.CalculateNutrition | services/calorie.py:14-31 | the result has exactly the five keys, each the sum of what the items add |
| BackendApi.StoredRow | backend/main.py:78-92 | the stored row keeps the request's date, type and items; each nutrient column is the matching `calculate_nutrition` total; the matched items are stored |
| BackendApi.DataOf | backend/main.py:128-147 | a summary entry has the row's date, type and items, and all seven columns as its nutrition |
| Schemas.DatedOn | main.py:45 | today's meals are never more than all meals, and none when no meal is dated today |
| Schemas.DatedOnComplete | backend/main.py:125 | a row is among today's exactly when it is stored and dated today (the same filter as main.py:45) |
| Schemas.DatedOnAppend | main.py:45 | filtering by date keeps list order: the filter of a concatenation is the concatenation of the filters |
| BackendApi.ColumnSum | backend/main.py:171-179 | a column whose values are all non-negative sums to a non-negative total |
| BackendApi.TodayTotal | backend/main.py:171-179 | every total is 0 when no stored meal is dated today |
| BackendApi.ColumnSumAppend | backend/main.py:171-179 | a column's sum adds up over a concatenation |
| BackendApi.TodayTotalAfterUpload | backend/main.py:171-179 | storing a meal raises today's totals by its columns if it is dated today, and leaves them as they were otherwise |
| BackendApi.TodayTotalAfterDelete | backend/main.py:111-113 | deleting the idx-th meal lowers today's totals by its columns if it was dated today, and leaves them as they were otherwise |
| BackendApi.MealLog | backend/main.py:233-243 | one rebuilt meal per stored row, in order, with its date, type and items |
| BackendApi.SearchFoodsApi | backend/main.py:207-220 | a blank or whitespace-only query is refused with 400; otherwise at most five results, each scoring at least 0.3 |
| BackendApi.Database.FirstGoal | backend/main.py:119 | the first stored goal, or none when the table is empty |
| BackendApi.Database.SetGoal | backend/main.py:64-72 | every old goal is deleted, so exactly the new goal remains; meals are untouched |
| BackendApi.Database.UploadMeal | backend/main.py:74-102 | the response's matched and unmatched items are `calculate_nutrition`'s; exactly one row is appended, holding its totals; goals are untouched |
| BackendApi.Database.DeleteMeal | backend/main.py:104-114 | `idx < 0` or `idx >= len(meals)` gives 404 and no change; otherwise exactly the idx-th meal is removed, the rest keep their order, and its type is reported |
| BackendApi.Database.GetSummary | backend/main.py:116-205 | one entry per stored meal in stored order; today's entries are today's meals; each total is the sum over today's meals; with no goal the goal is None and `remaining_kcal` is 0; otherwise `remaining_kcal` is `current_weight * 30` minus today's kcal |
| BackendApi.Database.GetSnacks | backend/main.py:225-252 | refused with 400 without a goal; otherwise the backend recommendation for the first goal and the rebuilt log, with `top_k` 5 |
| MemoryApi.Store.constructor | main.py:21-22 | no goal and an empty log at start |
| MemoryApi.Store.SetGoal | main.py:26-30 | the submitted goal replaces the old one; the log is untouched |
| MemoryApi.Store.UploadMeal | main.py:33-36 | exactly one meal is appended at the end; the goal is untouched |
| MemoryApi.Store.GetSummary | main.py:39-46 | refused with 400 while no goal is set; otherwise the goal and today's meals in log order |
| MemoryApi.UploadedTodayIsLast | main.py:43-46 | a meal uploaded for today appears last in today's summary |
| MemoryApi.UploadedOtherDayIsHidden | main.py:43-46 | a meal uploaded for another day leaves today's summary unchanged |

## Left out

- The sentence-embedding model and FAISS (`SentenceTransformer`, `encode`, `normalize_L2`, `faiss.read_index`, `index.search`) are foreign numeric libraries. A loaded index is its dimension, its vector count and a given function from query text and `top_k` to the (score, id) row. For the count bound, the row is assumed to have `top_k` columns, as FAISS pads with id -1.
- File and JSON loading at import time, file paths and `load_dotenv` are I/O. The catalogs, the prebuilt-index files and the metadata are parameters.
- FastAPI routing, CORS, static files, SQLAlchemy sessions and `create_all` are framework plumbing. The tables are sequence fields.
  - The `json.dumps`/`json.loads` round trip of a meal's items, and its fallbacks, is left out: the items are stored as a sequence.
  - `str(date)` formatting is left out, and dates are compared as values: `str` is injective on dates.
- `search_foods_api` does not model `get_vector_db()` or its 500 path; the handler receives the instance. Only an exception from `index.search` is mapped to `[]` inside `search_similar_foods`. An exception from `encode` or `normalize_L2`, or a metadata row without one of its keys, escapes that `try` and would reach the 500 path, which is not modelled.
- `calculate_nutrition` receives the instance `get_vector_db()` returned; handling a failed load there is left out.
- Python float parsing, IEEE rounding, and int-vs-float sums are left out. Values are exact reals, and `float(str)` is a caller-supplied partial parser.
- `Recommender.ItemDefined`, `Recommender.RowsDefined`, `Recommender.AdviceDefined`: the inputs on which the source raises are excluded by these preconditions rather than modelled as errors. They are: `float()` of unparsable kcal text; a non-string food name and a record missing its name column; `.strip()` on a kcal value of a "P" record that is not a string; and `float()` of an unparsable protein, fat or carbs value in a record the snack filter selects.
- `Calorie.FoodDict`: the same holds for a record without a usable 식품명. The dictionary is keyed by JSON values, so `true` and `1`, or `false` and `0`, are two keys, where a Python dict merges them; catalog names are strings, so this does not arise for the catalog.
- `Text.Lower` lowercases ASCII letters only. Korean text is unaffected either way; other non-ASCII cased letters are not lowercased.
- `Text.IsDigit` is the ASCII digits only. Python's `\d` also matches other Unicode decimal digits. `\s` and `str.strip` are modelled exactly, as the characters `str.isspace` accepts.
- `VectorSearch.MetaEntry`: a metadata row is narrowed to a name and four present real values. A row missing `name`, `kcal`, `protein`, `fat` or `carbs` raises `KeyError` in `search_similar_foods`, outside any `try`. A non-numeric value makes `total[key] += ...` in `calculate_nutrition` raise. Neither failure is modelled.
- `LegacyCalorie.FoodEntry`: a catalog record of the older file is narrowed to a name and a dictionary of real values. A non-dictionary `nutrition` value is not modelled; the truthiness test `if nutrition:` is modelled for an absent name and an empty dictionary.
- `_safe_float` in `backend/services/vector_search.py` is the same conversion as `safe_float` and is called nowhere; `Calorie.SafeFloat` stands for both.
- Printing, logging and the debug output of `recommend_snacks` are left out.
- `GetVectorDb` does not model which `except` branch of `get_vector_db` handles a failure, nor the `RuntimeError` it re-raises. A missing file raises `FileNotFoundError` outside the `try` of `_load_prebuilt_index`, so the `except FileNotFoundError` branch handles it. A dimension mismatch or a failed read is re-raised as `RuntimeError` inside that method, so the final `except Exception` branch handles it. The `except ValueError` branch is reached only by a `ValueError` from the embedding model's constructor, which is not modelled. `GetVectorDb` returns the load error, leaves the global unset, and the next call retries.
- `VectorSearch.VectorDbRegistry`: the model is sequential. `get_vector_db` takes no lock, so two concurrent first calls could each build an instance; that race is not modelled.
- The frontend and the schema-only model files have no behaviour to model.
