/**
 * The substitution advisor: for each high-risk product it looks up a
 * lower-carbon alternative in a fixed two-level knowledge base and rates how
 * much the swap would save.
 */
module Recommender {
  import opened Options
  import opened Text
  import Numbers

  /** One `key: value` entry of a category's sub-dictionary, in insertion order. */
  datatype Pair = Pair(key: string, value: string)

  /** One category of the knowledge base: its key and its ordered sub-dictionary. */
  datatype Shelf = Shelf(key: string, entries: seq<Pair>)

  /** The key under which every sub-dictionary keeps its catch-all alternative. */
  const DefaultKey: string := "default"

  /** The answer when no category of the knowledge base matches. */
  const GenericAlternative: string := "Generic Eco-Friendly Alternative"

  /** The emission factor assumed for every alternative, whichever one is chosen. */
  const AlternativeFactor: real := 0.5

  /** The knowledge base, category by category, in the order the dictionary literal lists them. */
  const AlternativesDb: seq<Shelf> := [
    Shelf("Dairy", [
      Pair("default", "Plant-based Milk (Oat, Almond, Soy)"),
      Pair("Milk", "Oat Milk"),
      Pair("Cheese", "Nut-based Cheese"),
      Pair("Yogurt", "Coconut Yogurt"),
      Pair("Butter", "Olive Oil Spread")]),
    Shelf("Plastic", [
      Pair("default", "Biodegradable or Reusable Alternatives"),
      Pair("Bottle", "Reusable Metal/Glass Bottle"),
      Pair("Bag", "Cotton Tote Bag"),
      Pair("Packaging", "Mushroom Packaging"),
      Pair("Cutlery", "Bamboo Cutlery")]),
    Shelf("Electronics", [
      Pair("default", "Energy-efficient (Energy Star) or Refurbished Devices"),
      Pair("Phone", "Refurbished Phone / Fairphone"),
      Pair("Laptop", "Laptop with repairable design"),
      Pair("Monitor", "Energy-efficient LED Monitor")]),
    Shelf("Food", [
      Pair("default", "Locally sourced and seasonal produce"),
      Pair("Beef", "Plant-based Meat / Lentils"),
      Pair("Lamb", "Chicken / Tofu"),
      Pair("Pork", "Seitan"),
      Pair("Chicken", "Beans / Legumes"),
      Pair("Processed Food", "Whole Foods")]),
    Shelf("Textile", [
      Pair("default", "Organic Cotton, Hemp, or Recycled Fabrics"),
      Pair("Polyester", "Recycled Polyester"),
      Pair("Nylon", "Econyl"),
      Pair("Conventional Cotton", "Organic Cotton"),
      Pair("Rayon", "Tencel / Lyocell")]),
    Shelf("Transport", [
      Pair("default", "Public Transit / EV"),
      Pair("Flight", "Train"),
      Pair("Car", "Carpool / EV / Public Transit")]),
    Shelf("Packaging", [
      Pair("default", "Minimal / Compostable"),
      Pair("Styrofoam", "Mushroom Packaging"),
      Pair("Plastic Wrap", "Beeswax Wrap")])
  ]

  /** The case-insensitive containment test `key.lower() in text.lower()`. */
  predicate Mentions(text: string, key: string) {
    Contains(Lower(text), Lower(key))
  }

  /** The value stored under `key` in a sub-dictionary (`category_dict[key]`), if any. */
  function ValueOf(entries: seq<Pair>, key: string): (v: Option<string>)
    ensures v.None? <==> forall i :: 0 <= i < |entries| ==> entries[i].key != key
    ensures v.Some? ==> exists i :: 0 <= i < |entries| && entries[i].key == key && entries[i].value == v.value
  {
    if entries == [] then None
    else if entries[0].key == key then Some(entries[0].value)
    else ValueOf(entries[1..], key)
  }

  /** Every sub-dictionary has a "default" entry, so `category_dict["default"]` never fails. */
  predicate WellFormed(db: seq<Shelf>) {
    forall i :: 0 <= i < |db| ==> ValueOf(db[i].entries, DefaultKey).Some?
  }

  /**
   * The first category at or after position `from` whose key the category
   * text mentions: the scan over the knowledge base that stops at its first hit.
   */
  function CategoryIndex(db: seq<Shelf>, category: string, from: nat): (k: Option<nat>)
    decreases |db| - from
    ensures k.Some? ==> from <= k.value < |db|
  {
    if from >= |db| then None
    else if Mentions(category, db[from].key) then Some(from)
    else CategoryIndex(db, category, from + 1)
  }

  /**
   * The scan finds a mentioned key with no mentioned key before it, and finds
   * nothing exactly when no key from `from` on is mentioned.
   */
  lemma {:induction false} CategoryIndexIsFirstMatch(db: seq<Shelf>, category: string, from: nat)
    decreases |db| - from
    ensures var k := CategoryIndex(db, category, from);
            && (k.Some? ==> from <= k.value < |db| && Mentions(category, db[k.value].key))
            && (k.Some? ==> forall j :: from <= j < k.value ==> !Mentions(category, db[j].key))
            && (k.None? <==> forall j :: from <= j < |db| ==> !Mentions(category, db[j].key))
  {
    if from < |db| && !Mentions(category, db[from].key) {
      CategoryIndexIsFirstMatch(db, category, from + 1);
    }
  }

  /** An entry other than "default" whose key the product name mentions. */
  predicate Names(product: string, entry: Pair) {
    Mentions(product, entry.key) && entry.key != DefaultKey
  }

  /** The first entry at or after position `from` that names the product (see `Names`). */
  function ProductIndex(entries: seq<Pair>, product: string, from: nat): (k: Option<nat>)
    decreases |entries| - from
    ensures k.Some? ==> from <= k.value < |entries|
  {
    if from >= |entries| then None
    else if Names(product, entries[from]) then Some(from)
    else ProductIndex(entries, product, from + 1)
  }

  /**
   * The scan finds an entry naming the product with none before it, and
   * finds nothing exactly when no entry from `from` on names the product.
   */
  lemma {:induction false} ProductIndexIsFirstMatch(entries: seq<Pair>, product: string, from: nat)
    decreases |entries| - from
    ensures var k := ProductIndex(entries, product, from);
            && (k.Some? ==> from <= k.value < |entries| && Names(product, entries[k.value]))
            && (k.Some? ==> forall j :: from <= j < k.value ==> !Names(product, entries[j]))
            && (k.None? <==> forall j :: from <= j < |entries| ==> !Names(product, entries[j]))
  {
    if from < |entries| && !Names(product, entries[from]) {
      ProductIndexIsFirstMatch(entries, product, from + 1);
    }
  }

  /**
   * The alternative's name the advisor picks for a product of a category:
   * the first category whose key the category text mentions, then within it
   * the first product entry the product name mentions, else its "default";
   * the generic alternative when no category matches. A matched key that is
   * empty counts as no match, as an empty string is false in Python.
   */
  function Alternative(db: seq<Shelf>, category: string, product: string): string
    requires WellFormed(db)
  {
    match CategoryIndex(db, category, 0)
    case None => GenericAlternative
    case Some(c) =>
      if db[c].key == [] then GenericAlternative
      else match ProductIndex(db[c].entries, product, 0)
        case None => ValueOf(db[c].entries, DefaultKey).value
        case Some(p) => db[c].entries[p].value
  }

  /** When no category key is mentioned by the category text, the generic alternative is returned. */
  lemma NoCategoryMatchGivesGeneric(db: seq<Shelf>, category: string, product: string)
    requires WellFormed(db)
    requires forall j :: 0 <= j < |db| ==> !Mentions(category, db[j].key)
    ensures Alternative(db, category, product) == GenericAlternative
  {
    CategoryIndexIsFirstMatch(db, category, 0);
  }

  /**
   * When shelf `c` is the first whose (non-empty) key the category text
   * mentions, the answer is one of that shelf's values: the value of the
   * first non-default entry the product mentions, or else the default.
   */
  lemma AlternativeComesFromFirstMatchingShelf(db: seq<Shelf>, category: string, product: string, c: nat)
    requires WellFormed(db)
    requires c < |db| && db[c].key != [] && Mentions(category, db[c].key)
    requires forall j :: 0 <= j < c ==> !Mentions(category, db[j].key)
    ensures exists i :: 0 <= i < |db[c].entries| && db[c].entries[i].value == Alternative(db, category, product)
    ensures (forall p :: 0 <= p < |db[c].entries| ==> !Names(product, db[c].entries[p])) ==>
              Alternative(db, category, product) == ValueOf(db[c].entries, DefaultKey).value
    ensures forall p :: 0 <= p < |db[c].entries| && Names(product, db[c].entries[p]) &&
                        (forall q :: 0 <= q < p ==> !Names(product, db[c].entries[q])) ==>
              Alternative(db, category, product) == db[c].entries[p].value
  {
    var entries := db[c].entries;
    CategoryIndexIsFirstMatch(db, category, 0);
    assert CategoryIndex(db, category, 0) == Some(c);
    ProductIndexIsFirstMatch(entries, product, 0);
    var p := ProductIndex(entries, product, 0);
    assert Alternative(db, category, product) ==
           if p.Some? then entries[p.value].value else ValueOf(entries, DefaultKey).value;
    if p.Some? {
      forall q | 0 <= q < |entries| && Names(product, entries[q]) &&
                 (forall r :: 0 <= r < q ==> !Names(product, entries[r]))
        ensures q == p.value
      {
      }
    }
  }

  /** The knowledge base has a "default" entry in every category and no empty category key. */
  lemma AlternativesDbWellFormed()
    ensures WellFormed(AlternativesDb)
    ensures forall i :: 0 <= i < |AlternativesDb| ==> AlternativesDb[i].key != []
  {
    forall i | 0 <= i < |AlternativesDb|
      ensures ValueOf(AlternativesDb[i].entries, DefaultKey).Some?
    {
      assert AlternativesDb[i].entries[0].key == DefaultKey;
    }
  }

  /**
   * Category keys are tried in knowledge-base order: a category text that
   * mentions the key at position `i` is never served from a later shelf `j`,
   * whatever else it mentions.
   */
  lemma {:induction false} EarlierShelfWins(db: seq<Shelf>, category: string, i: nat, j: nat)
    requires i < j < |db| && Mentions(category, db[i].key)
    ensures CategoryIndex(db, category, 0) != Some(j)
  {
    CategoryIndexIsFirstMatch(db, category, 0);
  }

  /** In the knowledge base, "Plastic" comes before "Packaging", so it wins when both are mentioned. */
  lemma PlasticWinsOverPackaging(category: string)
    requires Mentions(category, "Plastic")
    ensures AlternativesDb[1].key == "Plastic" && AlternativesDb[6].key == "Packaging"
    ensures CategoryIndex(AlternativesDb, category, 0) != Some(6)
  {
    var db := AlternativesDb;
    assert db[1].key == "Plastic";
    EarlierShelfWins(db, category, 1, 6);
  }

  /** A dairy milk product is offered oat milk. */
  lemma DairyMilkGetsOatMilk()
    ensures WellFormed(AlternativesDb)
    ensures Alternative(AlternativesDb, "Dairy", "Milk") == "Oat Milk"
  {
    AlternativesDbWellFormed();
    var dairy := AlternativesDb[0];
    assert Mentions("Dairy", dairy.key);
    assert CategoryIndex(AlternativesDb, "Dairy", 0) == Some(0);
    assert !Names("Milk", dairy.entries[0]);
    assert Names("Milk", dairy.entries[1]);
    assert ProductIndex(dairy.entries, "Milk", 0) == Some(1);
  }

  /**
   * `_find_alternative`: the name of the alternative and its assumed emission
   * factor, by a first-match scan over the categories and then over the
   * matched category's entries.
   */
  method FindAlternative(db: seq<Shelf>, category: string, product: string) returns (name: string, factor: real)
    requires WellFormed(db)
    ensures name == Alternative(db, category, product)
    ensures factor == AlternativeFactor
  {
    var catKey: Option<nat> := None;
    var i := 0;
    while i < |db|
      invariant 0 <= i <= |db| && catKey == None
      invariant CategoryIndex(db, category, 0) == CategoryIndex(db, category, i)
    {
      if Mentions(category, db[i].key) {
        catKey := Some(i);
        break;
      }
      i := i + 1;
    }
    assert CategoryIndex(db, category, 0) == catKey;
    if catKey.None? || db[catKey.value].key == [] {
      assert Alternative(db, category, product) == GenericAlternative;
      return GenericAlternative, AlternativeFactor;
    }
    var entries := db[catKey.value].entries;
    assert ValueOf(entries, DefaultKey).Some?;
    name := ValueOf(entries, DefaultKey).value;
    var j := 0;
    while j < |entries|
      invariant 0 <= j <= |entries| && name == ValueOf(entries, DefaultKey).value
      invariant ProductIndex(entries, product, 0) == ProductIndex(entries, product, j)
    {
      if Names(product, entries[j]) {
        assert ProductIndex(entries, product, 0) == Some(j);
        name := entries[j].value;
        break;
      }
      j := j + 1;
    }
    assert CategoryIndex(db, category, 0) == Some(catKey.value) && db[catKey.value].key != [];
    factor := AlternativeFactor;
  }

  /** One high-risk product as the advisor receives it; its emission factor may be missing. */
  datatype Listing = Listing(product: string, category: string, emissionPerUnit: Option<real>)

  /** How much the swap is worth: `Low` risk, or a flag that the alternative barely improves. */
  datatype Flag = Low | ModerateMinimalReduction

  /** One suggestion record, one per high-risk product. */
  datatype Suggestion = Suggestion(
    originalProduct: string,
    category: string,
    alternativeProduct: string,
    reductionPotential: real,
    riskAnalysis: Flag)

  /** The listing's emission factor, 0 when it is missing. */
  function CurrentEmission(item: Listing): real {
    item.emissionPerUnit.GetOr(0.0)
  }

  /**
   * The substitution flag: moderate when the saving per unit is at most a
   * tenth of the current factor. A saving of exactly 10% is flagged too.
   */
  function SubstitutionRisk(current: real, alternative: real): (f: Flag)
    ensures f == ModerateMinimalReduction <==> current - alternative <= current / 10.0
    ensures current <= 0.0 && alternative >= 0.0 ==> f == ModerateMinimalReduction
  {
    if alternative >= current * 0.9 then ModerateMinimalReduction else Low
  }

  /** With the fixed 0.5 alternative, the flag is moderate exactly for current factors up to 5/9. */
  lemma ModerateExactlyUpToFiveNinths(current: real)
    ensures SubstitutionRisk(current, AlternativeFactor) == ModerateMinimalReduction <==> current <= 5.0 / 9.0
  {
  }

  /** The per-unit saving, rounded to cents and never negative. */
  function ReductionPotential(current: real, alternative: real): (r: real)
    ensures r >= 0.0
    ensures current <= alternative ==> r == 0.0
    ensures current >= alternative ==> -0.005 <= r - (current - alternative) <= 0.005
  {
    var rounded := Numbers.Round2(current - alternative);
    if rounded < 0.0 then 0.0 else rounded
  }

  /**
   * The boundary: at a current factor of 5/9 the 0.5 alternative saves
   * exactly a tenth of it, and the swap is still flagged moderate.
   */
  lemma ExactlyTenPercentIsModerate()
    ensures 5.0 / 9.0 - AlternativeFactor == (5.0 / 9.0) / 10.0
    ensures SubstitutionRisk(5.0 / 9.0, AlternativeFactor) == ModerateMinimalReduction
  {
  }

  /** A listing whose emission factor is missing is flagged moderate and promises no saving. */
  lemma MissingFactorIsModerate(item: Listing)
    requires item.emissionPerUnit.None?
    ensures SubstitutionRisk(CurrentEmission(item), AlternativeFactor) == ModerateMinimalReduction
    ensures ReductionPotential(CurrentEmission(item), AlternativeFactor) == 0.0
  {
  }

  /** A dairy product at 1.9 per unit: the swap saves 1.4 per unit and is not flagged. */
  lemma DairySavingExample()
    ensures ReductionPotential(1.9, AlternativeFactor) == 1.4
    ensures SubstitutionRisk(1.9, AlternativeFactor) == Low
  {
  }

  /**
   * `get_suggestions`: one suggestion per listing, in order, carrying the
   * product and category unchanged, the alternative found for them, the
   * saving and the flag.
   */
  method GetSuggestions(db: seq<Shelf>, items: seq<Listing>) returns (suggestions: seq<Suggestion>)
    requires WellFormed(db)
    ensures |suggestions| == |items|
    ensures forall i :: 0 <= i < |items| ==>
              && suggestions[i].originalProduct == items[i].product
              && suggestions[i].category == items[i].category
              && suggestions[i].alternativeProduct == Alternative(db, items[i].category, items[i].product)
              && suggestions[i].reductionPotential == ReductionPotential(CurrentEmission(items[i]), AlternativeFactor)
              && suggestions[i].riskAnalysis == SubstitutionRisk(CurrentEmission(items[i]), AlternativeFactor)
    ensures forall i :: 0 <= i < |suggestions| ==> suggestions[i].reductionPotential >= 0.0
  {
    suggestions := [];
    if items == [] {
      return [];
    }
    for n := 0 to |items|
      invariant |suggestions| == n
      invariant forall i :: 0 <= i < n ==>
                  && suggestions[i].originalProduct == items[i].product
                  && suggestions[i].category == items[i].category
                  && suggestions[i].alternativeProduct == Alternative(db, items[i].category, items[i].product)
                  && suggestions[i].reductionPotential == ReductionPotential(CurrentEmission(items[i]), AlternativeFactor)
                  && suggestions[i].riskAnalysis == SubstitutionRisk(CurrentEmission(items[i]), AlternativeFactor)
    {
      var item := items[n];
      var current := CurrentEmission(item);
      var altName, altFactor := FindAlternative(db, item.category, item.product);
      var flag := Low;
      if altFactor >= current * 0.9 {
        flag := ModerateMinimalReduction;
      }
      var reduction := Numbers.Round2(current - altFactor);
      if reduction < 0.0 {
        reduction := 0.0;
      }
      suggestions := suggestions + [Suggestion(item.product, item.category, altName, reduction, flag)];
    }
  }
}
