/**
 * The backend nutrition aggregator: permissive number coercion, the nutrient dictionary built
 * from the catalog, the quantity/unit stripper applied to free-text meal items, and the
 * summation of the nutrients of the vector-matched items.
 */
module Calorie {
  import opened Wrappers
  import opened Text
  import opened JsonValue
  import PyDict
  import opened Schemas
  import opened VectorSearch

  // ----- safe_float -----

  /** `safe_float`: `float` of the stripped text, or of the value itself; 0.0 when that raises. */
  function SafeFloat(parse: FloatParser, val: Json): (r: real)
    ensures val.JNum? ==> r == val.n
    ensures val.JBool? ==> r == if val.b then 1.0 else 0.0
    ensures (val.JNull? || val.JComposite?) ==> r == 0.0
    ensures val.JStr? && parse(Strip(val.s)).Some? ==> r == parse(Strip(val.s)).value
    ensures val.JStr? && parse(Strip(val.s)).None? ==> r == 0.0
  {
    if val.JStr? then PyFloat(parse, JStr(Strip(val.s))).GetOr(0.0)
    else PyFloat(parse, val).GetOr(0.0)
  }

  /** Whitespace around a numeric string never changes what `safe_float` makes of it. */
  lemma SafeFloatIgnoresPadding(parse: FloatParser, a: string, s: string, b: string)
    requires AllSpace(a) && AllSpace(b)
    ensures SafeFloat(parse, JStr(a + s + b)) == SafeFloat(parse, JStr(s))
  {
    StripPadding(a, s, b);
  }

  // ----- food_dict -----

  /**
   * The nutrient profile of one catalog record: all seven nutrients, each `safe_float` of its own
   * column, a missing column counting as `0`; a text column is stripped and parsed, and counts
   * as `0.0` when it does not parse.
   */
  function Profile(parse: FloatParser, item: Record): (p: map<Nutrient, real>)
    ensures forall n: Nutrient :: n in p
    ensures forall n: Nutrient :: CatalogField(n) !in item ==> p[n] == 0.0
    ensures forall n: Nutrient :: CatalogField(n) in item ==> p[n] == SafeFloat(parse, item[CatalogField(n)])
    ensures forall n: Nutrient :: CatalogField(n) in item && item[CatalogField(n)].JNum? ==> p[n] == item[CatalogField(n)].n
    ensures forall n: Nutrient :: CatalogField(n) in item && item[CatalogField(n)].JStr? ==>
      p[n] == parse(Strip(item[CatalogField(n)].s)).GetOr(0.0)
  {
    NutrientKeysComplete();
    map n | n in NutrientKeys :: SafeFloat(parse, GetOr(item, CatalogField(n), JNum(0.0)))
  }

  /** The comprehension raises unless every record has a hashable `식품명`. */
  predicate NamesUsable(items: seq<Record>) {
    forall i :: 0 <= i < |items| ==> NameField in items[i] && Hashable(items[i][NameField])
  }

  function NamedProfiles(parse: FloatParser, items: seq<Record>): (ps: seq<(Json, map<Nutrient, real>)>)
    requires NamesUsable(items)
    ensures |ps| == |items|
    ensures forall i :: 0 <= i < |items| ==> ps[i] == (items[i][NameField], Profile(parse, items[i]))
  {
    seq(|items|, i requires 0 <= i < |items| => (items[i][NameField], Profile(parse, items[i])))
  }

  /** `food_dict`: food name to nutrient profile. */
  function FoodDict(parse: FloatParser, items: seq<Record>): (d: map<Json, map<Nutrient, real>>)
    requires NamesUsable(items)
    ensures forall i :: 0 <= i < |items| ==> items[i][NameField] in d
    ensures forall k :: k in d ==> exists i :: 0 <= i < |items| && items[i][NameField] == k && d[k] == Profile(parse, items[i])
    ensures forall k, n: Nutrient :: k in d ==> n in d[k]
  {
    var ps := NamedProfiles(parse, items);
    PyDict.FromPairs(ps)
  }

  /** A repeated name keeps the profile of its last record. */
  lemma FoodDictLastWins(parse: FloatParser, items: seq<Record>, i: nat)
    requires NamesUsable(items) && i < |items|
    requires forall j :: i < j < |items| ==> items[j][NameField] != items[i][NameField]
    ensures FoodDict(parse, items)[items[i][NameField]] == Profile(parse, items[i])
  {
    var ps := NamedProfiles(parse, items);
    assert PyDict.IsLastKey(ps, i);
    PyDict.FromPairsLastWins(ps, i);
  }

  // ----- parse_food_item -----

  /** The measure words the pattern list removes after a number. */
  datatype Unit = Bowl | Count | Gram | Millilitre | Cup | Tablespoon | Teaspoon | Slice | Sheet | Grain
  {
    /** The text of the unit as the pattern spells it. */
    function Text(): string {
      match this
      case Bowl => "공기"
      case Count => "개"
      case Gram => "g"
      case Millilitre => "ml"
      case Cup => "컵"
      case Tablespoon => "큰술"
      case Teaspoon => "작은술"
      case Slice => "조각"
      case Sheet => "장"
      case Grain => "알"
    }
  }

  /** One entry of the pattern list: `\d+\.?\d*\s*unit`, or the final `\s+$`. */
  datatype Pattern = UnitPattern(unit: Unit) | TrailingSpace

  const Patterns: seq<Pattern> := [
    UnitPattern(Bowl), UnitPattern(Count), UnitPattern(Gram), UnitPattern(Millilitre), UnitPattern(Cup),
    UnitPattern(Tablespoon), UnitPattern(Teaspoon), UnitPattern(Slice), UnitPattern(Sheet), UnitPattern(Grain),
    TrailingSpace
  ]

  /**
   * A unit that starts with neither a digit, a dot nor whitespace. For such a unit the regular
   * expression never gains by backtracking, so the greedy scan of `UnitMatch` is exact.
   */
  predicate IsUnitWord(u: string) {
    u != [] && !IsDigit(u[0]) && !IsSpace(u[0]) && u[0] != '.'
  }

  lemma UnitsAreUnitWords(u: Unit)
    ensures IsUnitWord(u.Text())
  {
  }

  function DigitRun(s: string): (n: nat)
    ensures n <= |s|
  {
    if s != [] && IsDigit(s[0]) then 1 + DigitRun(s[1..]) else 0
  }

  function SpaceRun(s: string): (n: nat)
    ensures n <= |s|
  {
    if s != [] && IsSpace(s[0]) then 1 + SpaceRun(s[1..]) else 0
  }

  /** The end of `\.?\d*` after the integer digits that end at `d`. */
  function FracEnd(s: string, d: nat): (f: nat)
    requires d <= |s|
    ensures d <= f <= |s|
  {
    if d < |s| && s[d] == '.' then d + 1 + DigitRun(s[d + 1..]) else d
  }

  /** The end of `\s*` starting at `f`. */
  function SpaceEnd(s: string, f: nat): (e: nat)
    requires f <= |s|
    ensures f <= e <= |s|
  {
    f + SpaceRun(s[f..])
  }

  /** The length of the match of `\d+\.?\d*\s*unit` at the start of `s`, if there is one. */
  function UnitMatch(s: string, unit: string): (r: Option<nat>)
    ensures r.Some? ==> 0 < r.value <= |s|
    ensures r.Some? ==> IsDigit(s[0])
  {
    if DigitRun(s) == 0 then None
    else if unit <= s[SpaceEnd(s, FracEnd(s, DigitRun(s)))..] then Some(SpaceEnd(s, FracEnd(s, DigitRun(s))) + |unit|)
    else None
  }

  /** `re.sub(pattern, '', s)` for a unit pattern: every leftmost match, scanning left to right. */
  function RemoveUnit(s: string, unit: string): (r: string)
    ensures |r| <= |s|
    ensures NoDigit(s) ==> r == s
    decreases |s|
  {
    if s == [] then []
    else match UnitMatch(s, unit)
      case Some(n) => RemoveUnit(s[n..], unit)
      case None => [s[0]] + RemoveUnit(s[1..], unit)
  }

  /** One substitution of the pattern list; `\s+$` removes exactly the trailing whitespace. */
  function Substitute(p: Pattern, s: string): (r: string)
    ensures |r| <= |s|
    ensures p.UnitPattern? && NoDigit(s) ==> r == s
    ensures p.TrailingSpace? ==> r == s[..|r|] && AllSpace(s[|r|..]) && (r == [] || !IsSpace(r[|r| - 1]))
  {
    match p
    case UnitPattern(u) => RemoveUnit(s, u.Text())
    case TrailingSpace => RStripPrefix(s); RStrip(s)
  }

  /** The pattern loop: each pattern once, in list order, each result stripped. */
  function ApplyPatterns(ps: seq<Pattern>, s: string): (r: string)
    ensures ps != [] ==> Trimmed(r)
    ensures Trimmed(s) ==> Trimmed(r)
  {
    if ps == [] then s else ApplyPatterns(ps[1..], Strip(Substitute(ps[0], s)))
  }

  /** What `parse_food_item` returns. */
  function ParsedName(itemText: string): (r: string)
    ensures Trimmed(r)
  {
    ApplyPatterns(Patterns, Strip(itemText))
  }

  /** The substitution loop of `parse_food_item` over a pattern list `ps`. */
  method ApplyEach(ps: seq<Pattern>, s: string) returns (r: string)
    ensures r == ApplyPatterns(ps, s)
  {
    r := s;
    for i := 0 to |ps|
      invariant ApplyPatterns(ps[i..], r) == ApplyPatterns(ps, s)
    {
      assert ps[i..][1..] == ps[i + 1..];
      r := Strip(Substitute(ps[i], r));
    }
  }

  method ParseFoodItem(itemText: string) returns (foodName: string)
    ensures foodName == ParsedName(itemText)
    ensures Trimmed(foodName)
  {
    foodName := ApplyEach(Patterns, Strip(itemText));
  }

  /** A stripped text without digits goes through the pattern list unchanged. */
  lemma {:induction false} ApplyPatternsNoDigit(ps: seq<Pattern>, s: string)
    requires Trimmed(s) && NoDigit(s)
    ensures ApplyPatterns(ps, s) == s
  {
    if ps != [] {
      var t := Substitute(ps[0], s);
      assert t == s;
      StripTrimmed(s);
      ApplyPatternsNoDigit(ps[1..], s);
    }
  }

  /** An item without any digit comes back trimmed and otherwise unchanged. */
  lemma ParsedNameNoDigit(itemText: string)
    requires NoDigit(itemText)
    ensures ParsedName(itemText) == Strip(itemText)
  {
    ApplyPatternsNoDigit(Patterns, Strip(itemText));
  }

  lemma {:induction false} DigitRunOf(p: string, t: string)
    requires AllDigits(p)
    requires t == [] || !IsDigit(t[0])
    ensures DigitRun(p + t) == |p|
  {
    if p != [] {
      assert (p + t)[1..] == p[1..] + t;
      DigitRunOf(p[1..], t);
    } else {
      assert p + t == t;
    }
  }

  lemma {:induction false} SpaceRunOf(p: string, t: string)
    requires AllSpace(p)
    requires t == [] || !IsSpace(t[0])
    ensures SpaceRun(p + t) == |p|
  {
    if p != [] {
      assert (p + t)[1..] == p[1..] + t;
      SpaceRunOf(p[1..], t);
    } else {
      assert p + t == t;
    }
  }

  lemma ConsAppend(a: string, r: string)
    requires a != []
    ensures [a[0]] + (a[1..] + r) == a + r
  {
    assert a == [a[0]] + a[1..];
  }

  /** At a character that is not a digit the scan keeps that character and moves on. */
  lemma RemoveUnitStep(s: string, unit: string)
    requires s != [] && !IsDigit(s[0])
    ensures RemoveUnit(s, unit) == [s[0]] + RemoveUnit(s[1..], unit)
  {
    assert UnitMatch(s, unit).None?;
  }

  /** Where the scan matches, the match is dropped and the scan goes on after it. */
  lemma RemoveUnitAtMatch(s: string, unit: string, n: nat)
    requires UnitMatch(s, unit) == Some(n)
    ensures RemoveUnit(s, unit) == RemoveUnit(s[n..], unit)
  {
  }

  /** Text without digits is kept as it is in front of what the scan does with the rest. */
  lemma {:induction false} RemoveUnitSkipsNoDigit(a: string, t: string, unit: string)
    requires NoDigit(a)
    ensures RemoveUnit(a + t, unit) == a + RemoveUnit(t, unit)
  {
    if a == [] {
      assert a + t == t;
    } else {
      assert RemoveUnit(a + t, unit) == [a[0]] + RemoveUnit(a[1..] + t, unit) by {
        assert (a + t)[0] == a[0];
        assert (a + t)[1..] == a[1..] + t;
        RemoveUnitStep(a + t, unit);
      }
      RemoveUnitSkipsNoDigit(a[1..], t, unit);
      ConsAppend(a, RemoveUnit(t, unit));
    }
  }

  /** The integer digits in front of `[.digits] spaces unit` are scanned exactly. */
  lemma DigitRunQuantity(intPart: string, frac: string, w: string, unit: string, b: string)
    requires AllDigits(intPart)
    requires frac == [] || frac[0] == '.'
    requires AllSpace(w) && IsUnitWord(unit)
    ensures DigitRun(intPart + (frac + (w + (unit + b)))) == |intPart|
    ensures (intPart + (frac + (w + (unit + b))))[|intPart|..] == frac + (w + (unit + b))
  {
    var r := frac + (w + (unit + b));
    assert r[0] == (if frac != [] then '.' else if w != [] then w[0] else unit[0]);
    DigitRunOf(intPart, r);
  }

  /** The optional fraction `.digits` in front of `spaces unit` is scanned exactly. */
  lemma FracEndQuantity(q: string, d: nat, frac: string, w: string, unit: string, b: string)
    requires d <= |q| && q[d..] == frac + (w + (unit + b))
    requires frac == [] || (frac[0] == '.' && AllDigits(frac[1..]))
    requires AllSpace(w) && IsUnitWord(unit)
    ensures FracEnd(q, d) == d + |frac|
    ensures q[d + |frac|..] == w + (unit + b)
  {
    var r := w + (unit + b);
    assert r[0] == (if w != [] then w[0] else unit[0]);
    if frac != [] {
      assert q[d] == '.';
      assert q[d + 1..] == frac[1..] + r;
      DigitRunOf(frac[1..], r);
    } else {
      assert q[d] == r[0];
    }
  }

  /** The whitespace in front of the unit is scanned exactly. */
  lemma SpaceEndQuantity(q: string, f: nat, w: string, unit: string, b: string)
    requires f <= |q| && q[f..] == w + (unit + b)
    requires AllSpace(w) && IsUnitWord(unit)
    ensures SpaceEnd(q, f) == f + |w|
    ensures q[f + |w|..] == unit + b
    ensures unit <= q[f + |w|..]
  {
    assert (unit + b)[0] == unit[0];
    SpaceRunOf(w, unit + b);
    assert q[f + |w|..] == unit + b;
    assert (unit + b)[..|unit|] == unit;
  }

  /** The scan stops at the integer digits, the fraction and the spaces wherever they end. */
  lemma UnitMatchEnd(q: string, unit: string, e: nat)
    requires 0 < DigitRun(q)
    requires SpaceEnd(q, FracEnd(q, DigitRun(q))) == e
    requires unit <= q[e..]
    ensures UnitMatch(q, unit) == Some(e + |unit|)
  {
  }

  lemma UnitMatchAt(q: string, unit: string, d: nat, f: nat, e: nat)
    requires 0 < d && DigitRun(q) == d
    requires d <= |q| && FracEnd(q, d) == f
    requires f <= |q| && SpaceEnd(q, f) == e
    requires unit <= q[e..]
    ensures UnitMatch(q, unit) == Some(e + |unit|)
  {
    UnitMatchEnd(q, unit, e);
  }

  /** The scan matches a whole quantity `digits[.digits] spaces unit` at the start. */
  lemma UnitMatchQuantity(intPart: string, frac: string, w: string, unit: string, b: string)
    requires intPart != [] && AllDigits(intPart)
    requires frac == [] || (frac[0] == '.' && AllDigits(frac[1..]))
    requires AllSpace(w) && IsUnitWord(unit)
    ensures UnitMatch(intPart + (frac + (w + (unit + b))), unit) == Some(|intPart| + |frac| + |w| + |unit|)
  {
    var q := intPart + (frac + (w + (unit + b)));
    var d, f, e := |intPart|, |intPart| + |frac|, |intPart| + |frac| + |w|;
    assert DigitRun(q) == d && q[d..] == frac + (w + (unit + b)) by {
      DigitRunQuantity(intPart, frac, w, unit, b);
    }
    assert FracEnd(q, d) == f && q[f..] == w + (unit + b) by {
      FracEndQuantity(q, d, frac, w, unit, b);
    }
    assert SpaceEnd(q, f) == e && unit <= q[e..] by {
      SpaceEndQuantity(q, f, w, unit, b);
    }
    UnitMatchAt(q, unit, d, f, e);
  }

  /** A quantity at the start is dropped and the scan goes on after it. */
  lemma RemoveUnitQuantityPrefix(intPart: string, frac: string, w: string, unit: string, b: string)
    requires intPart != [] && AllDigits(intPart)
    requires frac == [] || (frac[0] == '.' && AllDigits(frac[1..]))
    requires AllSpace(w) && IsUnitWord(unit)
    ensures RemoveUnit(intPart + (frac + (w + (unit + b))), unit) == RemoveUnit(b, unit)
  {
    UnitMatchQuantity(intPart, frac, w, unit, b);
    RemoveUnitAtMatch(intPart + (frac + (w + (unit + b))), unit, |intPart| + |frac| + |w| + |unit|);
    DropQuantity(intPart, frac, w, unit, b);
  }

  lemma AppendNest(a: string, intPart: string, frac: string, w: string, unit: string, b: string)
    ensures a + intPart + frac + w + unit + b == a + (intPart + (frac + (w + (unit + b))))
  {
  }

  lemma DropQuantity(intPart: string, frac: string, w: string, unit: string, b: string)
    ensures (intPart + (frac + (w + (unit + b))))[|intPart| + |frac| + |w| + |unit|..] == b
  {
    assert intPart + (frac + (w + (unit + b))) == (intPart + frac + w + unit) + b;
  }

  /**
   * A quantity `digits[.digits] spaces unit` is removed wherever it stands, not only at the
   * end: `a + quantity + b` becomes `a` followed by the scan of `b`.
   */
  lemma RemoveUnitRemovesQuantity(a: string, intPart: string, frac: string, w: string, unit: string, b: string)
    requires NoDigit(a)
    requires intPart != [] && AllDigits(intPart)
    requires frac == [] || (frac[0] == '.' && AllDigits(frac[1..]))
    requires AllSpace(w) && IsUnitWord(unit)
    ensures RemoveUnit(a + intPart + frac + w + unit + b, unit) == a + RemoveUnit(b, unit)
  {
    AppendNest(a, intPart, frac, w, unit, b);
    RemoveUnitSkipsNoDigit(a, intPart + (frac + (w + (unit + b))), unit);
    RemoveUnitQuantityPrefix(intPart, frac, w, unit, b);
  }

  /** The input is already stripped when a trimmed name is followed by a unit word. */
  lemma QuantityItemTrimmed(name: string, sp: string, intPart: string, frac: string, w: string, unit: string)
    requires name != [] && Trimmed(name) && IsUnitWord(unit) && !IsSpace(unit[|unit| - 1])
    ensures Trimmed(name + sp + intPart + frac + w + unit)
  {
    var t := name + sp + intPart + frac + w + unit;
    assert t[0] == name[0];
    assert t[|t| - 1] == unit[|unit| - 1];
  }

  /** A quantity at the very end of a digit-free name is removed, separating spaces kept. */
  lemma RemoveUnitAfterName(name: string, sp: string, intPart: string, frac: string, w: string, unit: string)
    requires NoDigit(name) && AllSpace(sp)
    requires intPart != [] && AllDigits(intPart)
    requires frac == [] || (frac[0] == '.' && AllDigits(frac[1..]))
    requires AllSpace(w) && IsUnitWord(unit)
    ensures RemoveUnit(name + sp + intPart + frac + w + unit, unit) == name + sp
  {
    assert NoDigit(name + sp);
    RemoveUnitRemovesQuantity(name + sp, intPart, frac, w, unit, []);
    assert name + sp + intPart + frac + w + unit + [] == name + sp + intPart + frac + w + unit;
    assert name + sp + RemoveUnit([], unit) == name + sp;
  }

  /**
   * A name followed by a quantity of the first unit of the list, as in `"현미밥 1공기"`, comes back
   * as the name alone (`"현미밥"`), whether or not whitespace separates the two.
   */
  lemma ParsedNameDropsBowl(name: string, sp: string, intPart: string, frac: string, w: string)
    requires name != [] && Trimmed(name) && NoDigit(name) && AllSpace(sp)
    requires intPart != [] && AllDigits(intPart)
    requires frac == [] || (frac[0] == '.' && AllDigits(frac[1..]))
    requires AllSpace(w)
    ensures ParsedName(name + sp + intPart + frac + w + Bowl.Text()) == name
  {
    UnitsAreUnitWords(Bowl);
    QuantityItemTrimmed(name, sp, intPart, frac, w, Bowl.Text());
    RemoveUnitAfterName(name, sp, intPart, frac, w, Bowl.Text());
    StripTrailing(name, sp);
    ParsedNameAfterBowl(name + sp + intPart + frac + w + Bowl.Text(), name);
  }

  /** When the first pattern leaves a stripped text without digits, the rest of the list keeps it. */
  lemma ParsedNameAfterBowl(t: string, r: string)
    requires Trimmed(t) && Strip(RemoveUnit(t, Bowl.Text())) == r
    requires Trimmed(r) && NoDigit(r)
    ensures ParsedName(t) == r
  {
    StripTrimmed(t);
    assert Patterns[0] == UnitPattern(Bowl);
    assert ApplyPatterns(Patterns, t) == ApplyPatterns(Patterns[1..], r);
    ApplyPatternsNoDigit(Patterns[1..], r);
  }

  // ----- calculate_nutrition -----

  /** One entry of `matched_info`. */
  datatype FoundItem = FoundItem(original: string, parsed: string, matched: string, score: real, nutrition: map<Nutrient, real>)

  /** The dictionary `calculate_nutrition` returns: the totals and the two item lists. */
  datatype NutritionResult = NutritionResult(total: map<Nutrient, real>, matchedInfo: seq<FoundItem>, notFoundViaVector: seq<string>)

  /** What one item of the loop yields: the item, and its `matched_info` entry if it has one. */
  datatype Outcome = Outcome(item: string, found: Option<FoundItem>)

  /**
   * A map from item text to the name that is searched for. `calculate_nutrition` uses
   * `ParsedName`; the list functions below are stated for any such map.
   */
  type NameParser = string -> string

  /** The outcome of one item: its parsed name goes to `find_best_match`. */
  function OutcomeOf(db: FaissFoodDB, parseName: NameParser, item: string): (o: Outcome)
    reads db
    ensures o.item == item
    ensures o.found.Some? ==> o.found.value.original == item && o.found.value.parsed == parseName(item)
    ensures o.found.Some? ==> o.found.value.nutrition.Keys == MetaNutrientKeys
    ensures o.found.None? <==> db.BestMatch(parseName(item)).None?
    ensures o.found.Some? ==>
      var m := db.BestMatch(parseName(item)).value;
      o.found.value.matched == m.name && o.found.value.score == m.score && o.found.value.nutrition == m.nutrition
  {
    var name := parseName(item);
    match db.BestMatch(name)
    case None => Outcome(item, None)
    case Some(m) => Outcome(item, Some(FoundItem(item, name, m.name, m.score, m.nutrition)))
  }

  /** The outcomes of the items, in input order. */
  function OutcomesOf(db: FaissFoodDB, parseName: NameParser, items: seq<string>): (os: seq<Outcome>)
    reads db
    ensures |os| == |items|
  {
    if items == [] then []
    else OutcomesOf(db, parseName, items[..|items| - 1]) + [OutcomeOf(db, parseName, items[|items| - 1])]
  }

  /** The outcome at each position is that of the item there. */
  lemma {:induction false} OutcomesOfIndex(db: FaissFoodDB, parseName: NameParser, items: seq<string>)
    ensures forall i :: 0 <= i < |items| ==> OutcomesOf(db, parseName, items)[i] == OutcomeOf(db, parseName, items[i])
  {
    if items != [] {
      var init := items[..|items| - 1];
      OutcomesOfIndex(db, parseName, init);
      assert forall i :: 0 <= i < |init| ==> init[i] == items[i];
    }
  }

  /** The outcomes of one more item are the earlier outcomes followed by its own. */
  lemma OutcomesOfStep(db: FaissFoodDB, parseName: NameParser, items: seq<string>, i: nat)
    requires i < |items|
    ensures OutcomesOf(db, parseName, items[..i + 1]) == OutcomesOf(db, parseName, items[..i]) + [OutcomeOf(db, parseName, items[i])]
  {
    assert items[..i + 1][..i] == items[..i];
  }

  /** The found entries of a list of outcomes, in order. */
  function Matched(os: seq<Outcome>): seq<FoundItem> {
    if os == [] then []
    else Matched(os[..|os| - 1]) + (if os[|os| - 1].found.Some? then [os[|os| - 1].found.value] else [])
  }

  /** The items of a list of outcomes that found nothing, in order. */
  function Unmatched(os: seq<Outcome>): seq<string> {
    if os == [] then []
    else Unmatched(os[..|os| - 1]) + (if os[|os| - 1].found.None? then [os[|os| - 1].item] else [])
  }

  /** `matched_info`. */
  function MatchedInfo(db: FaissFoodDB, parseName: NameParser, items: seq<string>): seq<FoundItem>
    reads db
  {
    Matched(OutcomesOf(db, parseName, items))
  }

  /** `not_found_via_vector`. */
  function NotFoundItems(db: FaissFoodDB, parseName: NameParser, items: seq<string>): seq<string>
    reads db
  {
    Unmatched(OutcomesOf(db, parseName, items))
  }

  /** The sum of `nutrition.get(key, 0)` over the matched items. */
  function SumNutrient(found: seq<FoundItem>, key: Nutrient): real {
    if found == [] then 0.0
    else SumNutrient(found[..|found| - 1], key) + PyDict.GetOr(found[|found| - 1].nutrition, key, 0.0)
  }

  /** One more outcome extends exactly one of the two lists. */
  lemma MatchedSnoc(os: seq<Outcome>, o: Outcome)
    ensures Matched(os + [o]) == Matched(os) + (if o.found.Some? then [o.found.value] else [])
    ensures Unmatched(os + [o]) == Unmatched(os) + (if o.found.None? then [o.item] else [])
  {
    assert (os + [o])[..|os|] == os;
  }

  /** Every outcome lands in exactly one of the two lists. */
  lemma {:induction false} MatchedCount(os: seq<Outcome>)
    ensures |Matched(os)| + |Unmatched(os)| == |os|
  {
    if os != [] {
      MatchedCount(os[..|os| - 1]);
    }
  }

  /** Both lists keep the order: the lists of a concatenation are the concatenated lists. */
  lemma {:induction false} MatchedAppend(a: seq<Outcome>, b: seq<Outcome>)
    ensures Matched(a + b) == Matched(a) + Matched(b)
    ensures Unmatched(a + b) == Unmatched(a) + Unmatched(b)
  {
    if b == [] {
      assert a + b == a;
    } else {
      var b0 := b[..|b| - 1];
      assert (a + b)[..|a + b| - 1] == a + b0;
      assert (a + b)[|a + b| - 1] == b[|b| - 1];
      MatchedAppend(a, b0);
    }
  }

  /** Every found entry comes from one of the outcomes. */
  lemma {:induction false} MatchedFromOutcomes(os: seq<Outcome>)
    ensures forall f :: f in Matched(os) ==> exists o :: o in os && o.found == Some(f)
  {
    if os != [] {
      var os0 := os[..|os| - 1];
      MatchedFromOutcomes(os0);
      assert forall o :: o in os0 ==> o in os;
      assert os[|os| - 1] in os;
    }
  }

  /** Every item lands in exactly one of the two lists. */
  lemma PartitionCount(db: FaissFoodDB, parseName: NameParser, items: seq<string>)
    ensures |MatchedInfo(db, parseName, items)| + |NotFoundItems(db, parseName, items)| == |items|
  {
    MatchedCount(OutcomesOf(db, parseName, items));
  }

  /** Both lists keep the input order: the lists of a concatenation are the concatenated lists. */
  lemma PartitionAppend(db: FaissFoodDB, parseName: NameParser, a: seq<string>, b: seq<string>)
    ensures MatchedInfo(db, parseName, a + b) == MatchedInfo(db, parseName, a) + MatchedInfo(db, parseName, b)
    ensures NotFoundItems(db, parseName, a + b) == NotFoundItems(db, parseName, a) + NotFoundItems(db, parseName, b)
  {
    var oa, ob := OutcomesOf(db, parseName, a), OutcomesOf(db, parseName, b);
    OutcomesOfIndex(db, parseName, a);
    OutcomesOfIndex(db, parseName, b);
    OutcomesOfIndex(db, parseName, a + b);
    assert OutcomesOf(db, parseName, a + b) == oa + ob;
    MatchedAppend(oa, ob);
  }

  /** A single item is either matched, carrying its original text and parsed name, or listed as not found. */
  lemma SingleItemPartition(db: FaissFoodDB, parseName: NameParser, item: string)
    ensures db.BestMatch(parseName(item)).Some? ==>
      |MatchedInfo(db, parseName, [item])| == 1 && NotFoundItems(db, parseName, [item]) == [] &&
      MatchedInfo(db, parseName, [item])[0].original == item && MatchedInfo(db, parseName, [item])[0].parsed == parseName(item)
    ensures db.BestMatch(parseName(item)).None? ==>
      MatchedInfo(db, parseName, [item]) == [] && NotFoundItems(db, parseName, [item]) == [item]
  {
    var o := OutcomeOf(db, parseName, item);
    assert [item][..0] == [];
    assert OutcomesOf(db, parseName, [item]) == [o];
    MatchedSnoc([], o);
    assert [] + [o] == [o];
  }

  /** Matched items carry only the four nutrients the index metadata holds. */
  lemma MatchedNutritionKeys(db: FaissFoodDB, parseName: NameParser, items: seq<string>)
    ensures forall f :: f in MatchedInfo(db, parseName, items) ==> f.nutrition.Keys == MetaNutrientKeys
  {
    var os := OutcomesOf(db, parseName, items);
    OutcomesOfIndex(db, parseName, items);
    MatchedFromOutcomes(os);
    forall f | f in Matched(os)
      ensures f.nutrition.Keys == MetaNutrientKeys
    {
      var o :| o in os && o.found == Some(f);
      var i :| 0 <= i < |os| && os[i] == o;
    }
  }

  /** A nutrient no matched item carries sums to zero. */
  lemma {:induction false} SumAbsentNutrient(found: seq<FoundItem>, key: Nutrient)
    requires forall f :: f in found ==> key !in f.nutrition
    ensures SumNutrient(found, key) == 0.0
  {
    if found != [] {
      assert found[|found| - 1] in found;
      SumAbsentNutrient(found[..|found| - 1], key);
    }
  }

  /** One more matched item adds its own amount to the sum. */
  lemma SumNutrientSnoc(found: seq<FoundItem>, f: FoundItem, key: Nutrient)
    ensures SumNutrient(found + [f], key) == SumNutrient(found, key) + PyDict.GetOr(f.nutrition, key, 0.0)
  {
    assert (found + [f])[..|found|] == found;
  }

  /** Adding the nutrition of one more matched item to the totals of the earlier ones. */
  lemma TotalsSnoc(before: map<Nutrient, real>, after: map<Nutrient, real>, found: seq<FoundItem>, f: FoundItem)
    requires forall k: Nutrient :: k in before && before[k] == SumNutrient(found, k)
    requires forall k: Nutrient :: k in after && after[k] == before[k] + PyDict.GetOr(f.nutrition, k, 0.0)
    ensures forall k: Nutrient :: k in after && after[k] == SumNutrient(found + [f], k)
  {
    forall k: Nutrient
      ensures after[k] == SumNutrient(found + [f], k)
    {
      SumNutrientSnoc(found, f, k);
    }
  }

  /** The totals are sums: the total of a concatenation is the sum of the totals. */
  lemma {:induction false} SumNutrientAppend(a: seq<FoundItem>, b: seq<FoundItem>, key: Nutrient)
    ensures SumNutrient(a + b, key) == SumNutrient(a, key) + SumNutrient(b, key)
  {
    if b == [] {
      assert a + b == a;
    } else {
      var b0 := b[..|b| - 1];
      assert (a + b)[..|a + b| - 1] == a + b0;
      assert (a + b)[|a + b| - 1] == b[|b| - 1];
      SumNutrientAppend(a, b0, key);
    }
  }

  /** On the vector path sodium, potassium and phosphorus always total 0. */
  lemma MineralsAlwaysZero(db: FaissFoodDB, parseName: NameParser, items: seq<string>)
    ensures SumNutrient(MatchedInfo(db, parseName, items), Sodium) == 0.0
    ensures SumNutrient(MatchedInfo(db, parseName, items), Potassium) == 0.0
    ensures SumNutrient(MatchedInfo(db, parseName, items), Phosphorus) == 0.0
  {
    var found := MatchedInfo(db, parseName, items);
    MatchedNutritionKeys(db, parseName, items);
    SumAbsentNutrient(found, Sodium);
    SumAbsentNutrient(found, Potassium);
    SumAbsentNutrient(found, Phosphorus);
  }

  /** The inner loop `for key in total: total[key] += nutrition.get(key, 0)`. */
  method AddNutrition(total: map<Nutrient, real>, nutrition: map<Nutrient, real>) returns (sum: map<Nutrient, real>)
    requires forall k: Nutrient :: k in total
    ensures forall k: Nutrient :: k in sum && sum[k] == total[k] + PyDict.GetOr(nutrition, k, 0.0)
  {
    NutrientKeysComplete();
    sum := total;
    for j := 0 to |NutrientKeys|
      invariant forall k: Nutrient :: k in sum
      invariant forall k :: k in NutrientKeys[..j] ==> sum[k] == total[k] + PyDict.GetOr(nutrition, k, 0.0)
      invariant forall k :: k in NutrientKeys[j..] ==> sum[k] == total[k]
    {
      var key := NutrientKeys[j];
      assert NutrientKeys[..j + 1] == NutrientKeys[..j] + [key];
      assert NutrientKeys[j..] == [key] + NutrientKeys[j + 1..];
      sum := sum[key := sum[key] + PyDict.GetOr(nutrition, key, 0.0)];
    }
    assert NutrientKeys[..|NutrientKeys|] == NutrientKeys;
  }

  /** `calculate_nutrition` over the instance `get_vector_db` returned. */
  method CalculateNutrition(db: FaissFoodDB, items: seq<string>) returns (result: NutritionResult)
    requires db.Valid()
    ensures result.matchedInfo == MatchedInfo(db, ParsedName, items)
    ensures result.notFoundViaVector == NotFoundItems(db, ParsedName, items)
    ensures |result.matchedInfo| + |result.notFoundViaVector| == |items|
    ensures forall k: Nutrient :: k in result.total && result.total[k] == SumNutrient(result.matchedInfo, k)
    ensures result.total[Sodium] == 0.0 && result.total[Potassium] == 0.0 && result.total[Phosphorus] == 0.0
  {
    NutrientKeysComplete();
    var total: map<Nutrient, real> := map k | k in NutrientKeys :: 0.0;
    var foundItems: seq<FoundItem> := [];
    var notFoundItems: seq<string> := [];
    for i := 0 to |items|
      invariant foundItems == Matched(OutcomesOf(db, ParsedName, items[..i]))
      invariant notFoundItems == Unmatched(OutcomesOf(db, ParsedName, items[..i]))
      invariant forall k: Nutrient :: k in total && total[k] == SumNutrient(foundItems, k)
    {
      var item := items[i];
      ghost var before := OutcomesOf(db, ParsedName, items[..i]);
      ghost var o := OutcomeOf(db, ParsedName, item);
      OutcomesOfStep(db, ParsedName, items, i);
      MatchedSnoc(before, o);
      var foodName := ParseFoodItem(item);
      var m := db.FindBestMatch(foodName);
      if m.Some? {
        var nutrition := m.value.nutrition;
        var f := FoundItem(item, foodName, m.value.name, m.value.score, nutrition);
        assert o.found == Some(f);
        ghost var totalBefore := total;
        total := AddNutrition(total, nutrition);
        TotalsSnoc(totalBefore, total, foundItems, f);
        foundItems := foundItems + [f];
      } else {
        assert o.found.None?;
        notFoundItems := notFoundItems + [item];
      }
    }
    assert items[..|items|] == items;
    PartitionCount(db, ParsedName, items);
    MineralsAlwaysZero(db, ParsedName, items);
    result := NutritionResult(total, foundItems, notFoundItems);
  }
}
