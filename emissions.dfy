/**
 * The emission classification and aggregation pass of the upload handler:
 * every parsed sales row is priced with a per-category emission factor,
 * given a risk tier, and folded into counts, per-category and per-source
 * sums, grand totals and the single highest-emission product; the
 * high-risk rows then go to the substitution advisor.
 */
module Emissions {
  import opened Options
  import opened Text
  import Numbers
  import Recommender

  // ---------------------------------------------------------------------
  // The emission factor table
  // ---------------------------------------------------------------------

  /** One entry of the emission factor table: a category and its emission per unit sold. */
  datatype Factor = Factor(category: string, perUnit: real)

  /** The emission factor table, in the order the dictionary literal lists it. */
  const CarbonTable: seq<Factor> := [
    Factor("Dairy", 1.9),
    Factor("Plastic", 3.5),
    Factor("Electronics", 8.2),
    Factor("Food", 2.1),
    Factor("Textile", 4.0)
  ]

  /** The category is a key of the table (exact, case-sensitive match). */
  predicate Listed(table: seq<Factor>, category: string) {
    exists i :: 0 <= i < |table| && table[i].category == category
  }

  /** `table.get(category, 0)`: the factor stored for the category, 0 for a category the table lacks. */
  function FactorOf(table: seq<Factor>, category: string): real {
    if table == [] then 0.0
    else if table[0].category == category then table[0].perUnit
    else FactorOf(table[1..], category)
  }

  /**
   * The lookup gives 0 for a category that is not a key of the table, and
   * otherwise the factor of the first entry with that key.
   */
  lemma {:induction false} FactorOfLookup(table: seq<Factor>, category: string)
    ensures !Listed(table, category) ==> FactorOf(table, category) == 0.0
    ensures forall i ::
              (0 <= i < |table| && table[i].category == category &&
               forall j :: 0 <= j < i ==> table[j].category != category) ==> FactorOf(table, category) == table[i].perUnit
  {
    if table != [] && table[0].category != category {
      FactorOfLookup(table[1..], category);
      assert forall i :: 0 < i < |table| ==> table[1..][i - 1] == table[i];
      assert Listed(table[1..], category) ==> Listed(table, category);
    }
  }

  /** Every factor in the table is non-negative, so a non-negative quantity never yields a negative total. */
  lemma CarbonTableFactorsNonNegative(category: string)
    ensures FactorOf(CarbonTable, category) >= 0.0
  {
    FactorOfLookup(CarbonTable, category);
    if Listed(CarbonTable, category) {
      var i :| 0 <= i < |CarbonTable| && CarbonTable[i].category == category;
      assert forall k :: 0 <= k < |CarbonTable| ==> CarbonTable[k].perUnit >= 0.0;
    }
  }

  // ---------------------------------------------------------------------
  // Risk classification
  // ---------------------------------------------------------------------

  /** The three risk tiers; the report spells them "Normal", "Critical" and "High-Risk". */
  datatype Risk = Normal | Critical | HighRisk

  /**
   * The tier of a row from its emission factor and units sold, by the
   * ordered rule chain: heavy factor with bulk sales first, then a total
   * above 500, then a total above 200, else normal.
   */
  function Classify(factor: real, units: real): Risk {
    var total := units * factor;
    if factor > 3.0 && units > 100.0 then HighRisk
    else if total > 500.0 then HighRisk
    else if total > 200.0 then Critical
    else Normal
  }

  /** Each tier, characterised in both directions. */
  lemma ClassifyTiers(factor: real, units: real)
    ensures Classify(factor, units) == HighRisk <==> (factor > 3.0 && units > 100.0) || units * factor > 500.0
    ensures Classify(factor, units) == Critical <==> !(factor > 3.0 && units > 100.0) && 200.0 < units * factor <= 500.0
    ensures Classify(factor, units) == Normal <==> !(factor > 3.0 && units > 100.0) && units * factor <= 200.0
  {
  }

  /** The test of one classification rule. */
  datatype Test =
    | HeavyAndBulk(minFactor: real, minUnits: real)  // factor above the first bound and units above the second
    | TotalAbove(limit: real)                        // units times factor above the limit

  /** One rule of the ordered chain: when its test holds, the row gets its outcome. */
  datatype Rule = Rule(test: Test, outcome: Risk)

  /** The classification rules in priority order; a row matching none of them is normal. */
  const RiskRules: seq<Rule> := [
    Rule(HeavyAndBulk(3.0, 100.0), HighRisk),
    Rule(TotalAbove(500.0), HighRisk),
    Rule(TotalAbove(200.0), Critical)
  ]

  predicate Holds(test: Test, factor: real, units: real) {
    match test
    case HeavyAndBulk(minFactor, minUnits) => factor > minFactor && units > minUnits
    case TotalAbove(limit) => units * factor > limit
  }

  /** The outcome of the first rule whose test holds, or `otherwise` when none does. */
  function FirstMatch(rules: seq<Rule>, factor: real, units: real, otherwise: Risk): Risk {
    if rules == [] then otherwise
    else if Holds(rules[0].test, factor, units) then rules[0].outcome
    else FirstMatch(rules[1..], factor, units, otherwise)
  }

  /** `Classify` is the first-match evaluation of the ordered rule list. */
  lemma ClassifyIsFirstMatch(factor: real, units: real)
    ensures Classify(factor, units) == FirstMatch(RiskRules, factor, units, Normal)
  {
    var rest1 := RiskRules[1..];
    var rest2 := rest1[1..];
    assert rest2[1..] == [];
    assert FirstMatch(rest2, factor, units, Normal) == if units * factor > 200.0 then Critical else Normal;
    assert FirstMatch(rest1, factor, units, Normal)
        == if units * factor > 500.0 then HighRisk else FirstMatch(rest2, factor, units, Normal);
  }

  /**
   * Rule priority: a row that meets the first rule is high-risk by that rule
   * even when its total is at most 500, e.g. a factor of 3.01 and 101 units.
   */
  lemma HeavyBulkRuleFiresFirst()
    ensures Classify(3.01, 101.0) == HighRisk && !(101.0 * 3.01 > 500.0)
  {
  }

  /**
   * Three rows worked through the table and the rule chain: 60 units of
   * electronics (492 in total) are critical, 150 units of plastic are
   * high-risk by the first rule, and any quantity of an unknown category is
   * normal.
   */
  lemma ClassificationExamples()
    ensures FactorOf(CarbonTable, "Electronics") == 8.2 && Classify(8.2, 60.0) == Critical
    ensures FactorOf(CarbonTable, "Plastic") == 3.5 && Classify(3.5, 150.0) == HighRisk
    ensures FactorOf(CarbonTable, "Unknown") == 0.0 && Classify(0.0, 999.0) == Normal
  {
  }

  // ---------------------------------------------------------------------
  // Rows and their classification
  // ---------------------------------------------------------------------

  /** Which optional columns the uploaded sheet has. */
  datatype Columns = Columns(hasId: bool, hasSource: bool)

  /**
   * One row as the sheet reader delivers it: cell texts, and the units
   * cell already passed through `float()`, `None` when that raised.
   */
  datatype Row = Row(productId: string, product: string, category: string, unitsSold: Option<real>, source: string)

  /** A parsed sheet: its optional columns and its rows in file order. */
  datatype Sheet = Sheet(columns: Columns, rows: seq<Row>)

  /** The row's units sold; a value that did not parse counts as 0. Negative values are kept. */
  function Units(row: Row): real {
    row.unitsSold.GetOr(0.0)
  }

  /** The row's category with surrounding whitespace removed: the key looked up in the table. */
  function CategoryOf(row: Row): string {
    Strip(row.category)
  }

  /** The row's production source, or "Unknown" when the sheet has no such column. */
  function SourceOf(columns: Columns, row: Row): string {
    if columns.hasSource then Strip(row.source) else "Unknown"
  }

  /** The row's emission factor. */
  function PerUnit(table: seq<Factor>, row: Row): real {
    FactorOf(table, CategoryOf(row))
  }

  /** The row's total emission: units sold times the factor, unrounded. */
  function ProductTotal(table: seq<Factor>, row: Row): real {
    Units(row) * PerUnit(table, row)
  }

  /** The loop's `units * emission_per_unit` is the row's total. */
  lemma TotalOfRow(table: seq<Factor>, row: Row, units: real, factor: real)
    requires units == Units(row) && factor == PerUnit(table, row)
    ensures units * factor == ProductTotal(table, row)
  {
  }

  /** One entry of the per-product report. */
  datatype Item = Item(
    id: string,
    product: string,
    category: string,
    source: string,
    units: real,
    emissionPerUnit: real,
    totalEmission: real,   // rounded to cents
    riskLevel: Risk)

  /** The report entry for one row. */
  function ItemOf(table: seq<Factor>, columns: Columns, row: Row): Item {
    Item(
      if columns.hasId then Strip(row.productId) else "N/A",
      Strip(row.product),
      CategoryOf(row),
      SourceOf(columns, row),
      Units(row),
      PerUnit(table, row),
      Numbers.Round2(ProductTotal(table, row)),
      Classify(PerUnit(table, row), Units(row)))
  }

  /**
   * A report entry carries the stripped texts, the factor of its category,
   * a total within half a cent of units times factor, and the tier; an
   * unknown category or an unparsable unit count gives total 0 and tier
   * Normal whatever else the row says.
   */
  lemma ItemReportsRow(table: seq<Factor>, columns: Columns, row: Row)
    ensures var item := ItemOf(table, columns, row);
            && item.category == Strip(row.category) && item.product == Strip(row.product)
            && item.emissionPerUnit == FactorOf(table, item.category)
            && item.units * item.emissionPerUnit == ProductTotal(table, row)
            && -0.005 <= item.totalEmission - ProductTotal(table, row) <= 0.005
            && (!Listed(table, item.category) ==>
                  item.emissionPerUnit == 0.0 && item.totalEmission == 0.0 && item.riskLevel == Normal)
            && (row.unitsSold.None? ==> item.units == 0.0 && item.totalEmission == 0.0 && item.riskLevel == Normal)
  {
    var total := ProductTotal(table, row);
    FactorOfLookup(table, CategoryOf(row));
    assert PerUnit(table, row) == 0.0 ==> total == 0.0;
    assert Units(row) == 0.0 ==> total == 0.0;
  }

  // ---------------------------------------------------------------------
  // Specification of the fold, one row at a time from the left
  // ---------------------------------------------------------------------

  /** All but the last element. */
  function Init<T>(s: seq<T>): seq<T>
    requires s != []
  {
    s[..|s| - 1]
  }

  /** The report entries of the rows, in row order. */
  function ItemsOf(table: seq<Factor>, columns: Columns, rows: seq<Row>): (items: seq<Item>)
    ensures |items| == |rows|
    ensures forall i :: 0 <= i < |rows| ==> items[i] == ItemOf(table, columns, rows[i])
  {
    if rows == [] then [] else ItemsOf(table, columns, Init(rows)) + [ItemOf(table, columns, rows[|rows| - 1])]
  }

  /** The sum of the rows' unrounded total emissions. */
  function TotalEmissionOf(table: seq<Factor>, rows: seq<Row>): real {
    if rows == [] then 0.0 else TotalEmissionOf(table, Init(rows)) + ProductTotal(table, rows[|rows| - 1])
  }

  /** The sum of the units sold over the report entries. */
  function TotalUnitsOf(items: seq<Item>): real {
    if items == [] then 0.0 else TotalUnitsOf(Init(items)) + items[|items| - 1].units
  }

  /** The number of rows in each risk tier. */
  datatype RiskCounts = RiskCounts(normal: nat, critical: nat, highRisk: nat) {

    /** `risk_counts[risk] += 1`. */
    function Bump(risk: Risk): RiskCounts {
      match risk
      case Normal => this.(normal := normal + 1)
      case Critical => this.(critical := critical + 1)
      case HighRisk => this.(highRisk := highRisk + 1)
    }

    function Total(): nat {
      normal + critical + highRisk
    }
  }

  /** The tier counts of the report entries. */
  function CountsOf(items: seq<Item>): RiskCounts {
    if items == [] then RiskCounts(0, 0, 0) else CountsOf(Init(items)).Bump(items[|items| - 1].riskLevel)
  }

  /** The report entries of the high-risk tier, in their original order. */
  function HighRiskOf(items: seq<Item>): seq<Item> {
    if items == [] then []
    else if items[|items| - 1].riskLevel == HighRisk then HighRiskOf(Init(items)) + [items[|items| - 1]]
    else HighRiskOf(Init(items))
  }

  // ---------------------------------------------------------------------
  // Insertion-ordered sums by key (the two breakdown dictionaries)
  // ---------------------------------------------------------------------

  /** One key of a breakdown and its running sum. */
  datatype Bucket = Bucket(key: string, amount: real)

  /** Add `amount` to the bucket of `key`, or append a new bucket for it at the end. */
  function Accumulate(tally: seq<Bucket>, key: string, amount: real): seq<Bucket> {
    if tally == [] then [Bucket(key, amount)]
    else if tally[0].key == key then [Bucket(key, tally[0].amount + amount)] + tally[1..]
    else [tally[0]] + Accumulate(tally[1..], key, amount)
  }

  /** The sum of the amounts. */
  function SumOf(buckets: seq<Bucket>): real {
    if buckets == [] then 0.0 else buckets[0].amount + SumOf(buckets[1..])
  }

  /** The keys, in order. */
  function KeysOf(buckets: seq<Bucket>): (keys: seq<string>)
    ensures |keys| == |buckets|
    ensures forall i :: 0 <= i < |buckets| ==> keys[i] == buckets[i].key
  {
    if buckets == [] then [] else [buckets[0].key] + KeysOf(buckets[1..])
  }

  /** The amount of the first bucket with this key, 0 when there is none. */
  function AmountOf(buckets: seq<Bucket>, key: string): real {
    if buckets == [] then 0.0
    else if buckets[0].key == key then buckets[0].amount
    else AmountOf(buckets[1..], key)
  }

  /** The sum of the amounts of the buckets with this key. */
  function SumFor(buckets: seq<Bucket>, key: string): real {
    if buckets == [] then 0.0
    else (if buckets[0].key == key then buckets[0].amount else 0.0) + SumFor(buckets[1..], key)
  }

  /** No element occurs twice. */
  predicate Distinct<T(==)>(s: seq<T>) {
    forall i, j :: 0 <= i < j < |s| ==> s[i] != s[j]
  }

  /** A new element appended keeps the elements distinct. */
  lemma DistinctAppend<T>(s: seq<T>, x: T)
    requires Distinct(s) && x !in s
    ensures Distinct(s + [x])
  {
    forall i, j | 0 <= i < j < |s + [x]| ensures (s + [x])[i] != (s + [x])[j] {
      if j == |s| {
        assert s[i] in s;
      }
    }
  }

  /** The breakdown of a sequence of contributions: the contributions folded with `Accumulate` from the left. */
  function TallyOf(shares: seq<Bucket>): seq<Bucket> {
    if shares == [] then [] else
      var last := shares[|shares| - 1];
      Accumulate(TallyOf(Init(shares)), last.key, last.amount)
  }

  /** Accumulating adds exactly the amount to the grand sum. */
  lemma {:induction false} AccumulateSum(tally: seq<Bucket>, key: string, amount: real)
    ensures SumOf(Accumulate(tally, key, amount)) == SumOf(tally) + amount
  {
    if tally != [] && tally[0].key != key {
      AccumulateSum(tally[1..], key, amount);
    }
  }

  /** Accumulating adds the amount to its own key and leaves every other key's amount alone. */
  lemma {:induction false} AccumulateAmount(tally: seq<Bucket>, key: string, amount: real, k: string)
    ensures AmountOf(Accumulate(tally, key, amount), k) == AmountOf(tally, k) + (if k == key then amount else 0.0)
  {
    if tally != [] && tally[0].key != key {
      AccumulateAmount(tally[1..], key, amount, k);
    }
  }

  /** A key already present keeps the key order; a new key is appended at the end. */
  lemma {:induction false} AccumulateKeys(tally: seq<Bucket>, key: string, amount: real)
    ensures KeysOf(Accumulate(tally, key, amount)) == if key in KeysOf(tally) then KeysOf(tally) else KeysOf(tally) + [key]
  {
    if tally != [] && tally[0].key != key {
      AccumulateKeys(tally[1..], key, amount);
      assert KeysOf(tally) == [tally[0].key] + KeysOf(tally[1..]);
    }
  }

  /** The sum of a sequence extended at the end. */
  lemma {:induction false} SumOfAppend(buckets: seq<Bucket>, b: Bucket)
    ensures SumOf(buckets + [b]) == SumOf(buckets) + b.amount
  {
    if buckets != [] {
      assert (buckets + [b])[1..] == buckets[1..] + [b];
      SumOfAppend(buckets[1..], b);
    }
  }

  /** The per-key sum of a sequence extended at the end. */
  lemma {:induction false} SumForAppend(buckets: seq<Bucket>, b: Bucket, key: string)
    ensures SumFor(buckets + [b], key) == SumFor(buckets, key) + (if b.key == key then b.amount else 0.0)
  {
    if buckets != [] {
      assert (buckets + [b])[1..] == buckets[1..] + [b];
      SumForAppend(buckets[1..], b, key);
    }
  }

  /** The breakdown's grand sum is the sum of all contributions. */
  lemma {:induction false} TallySum(shares: seq<Bucket>)
    ensures SumOf(TallyOf(shares)) == SumOf(shares)
  {
    if shares != [] {
      var last := shares[|shares| - 1];
      TallySum(Init(shares));
      AccumulateSum(TallyOf(Init(shares)), last.key, last.amount);
      assert shares == Init(shares) + [last];
      SumOfAppend(Init(shares), last);
    }
  }

  /** Each key's entry in the breakdown is the sum of that key's contributions. */
  lemma {:induction false} TallyAmount(shares: seq<Bucket>, key: string)
    ensures AmountOf(TallyOf(shares), key) == SumFor(shares, key)
  {
    if shares != [] {
      var last := shares[|shares| - 1];
      TallyAmount(Init(shares), key);
      AccumulateAmount(TallyOf(Init(shares)), last.key, last.amount, key);
      assert shares == Init(shares) + [last];
      SumForAppend(Init(shares), last, key);
    }
  }

  /** The keys of all but the last bucket, then the last bucket's key. */
  lemma {:induction false} KeysOfInit(buckets: seq<Bucket>)
    requires buckets != []
    ensures KeysOf(buckets) == KeysOf(Init(buckets)) + [buckets[|buckets| - 1].key]
  {
    if |buckets| > 1 {
      var rest := buckets[1..];
      KeysOfInit(rest);
      assert Init(rest) == Init(buckets)[1..];
      assert Init(buckets)[0] == buckets[0];
    }
  }

  /** The elements of `s` that do not occur earlier in `s`, in their order. */
  function FirstAppearances<T(==)>(s: seq<T>): seq<T> {
    if s == [] then []
    else if s[|s| - 1] in Init(s) then FirstAppearances(Init(s))
    else FirstAppearances(Init(s)) + [s[|s| - 1]]
  }

  /** The breakdown's keys are the contributions' keys, each once. */
  lemma {:induction false} TallyKeys(shares: seq<Bucket>)
    ensures Distinct(KeysOf(TallyOf(shares)))
    ensures forall k :: k in KeysOf(TallyOf(shares)) <==> k in KeysOf(shares)
  {
    if shares != [] {
      var last := shares[|shares| - 1];
      var before := TallyOf(Init(shares));
      TallyKeys(Init(shares));
      AccumulateKeys(before, last.key, last.amount);
      if last.key !in KeysOf(before) {
        DistinctAppend(KeysOf(before), last.key);
      }
      KeysOfInit(shares);
    }
  }

  /** The breakdown's keys come in the order of their first appearance among the contributions. */
  lemma {:induction false} TallyKeysInOrder(shares: seq<Bucket>)
    ensures KeysOf(TallyOf(shares)) == FirstAppearances(KeysOf(shares))
  {
    if shares != [] {
      var last := shares[|shares| - 1];
      var before := TallyOf(Init(shares));
      var keys := KeysOf(shares);
      var earlier := KeysOf(Init(shares));
      TallyKeysInOrder(Init(shares));
      TallyKeys(Init(shares));
      AccumulateKeys(before, last.key, last.amount);
      KeysOfInit(shares);
      assert Init(keys) == earlier && keys[|keys| - 1] == last.key;
      assert last.key in KeysOf(before) <==> last.key in earlier;
    }
  }

  /** The per-category contributions of the rows: each row's stripped category and unrounded total. */
  function CategoryShares(table: seq<Factor>, rows: seq<Row>): (shares: seq<Bucket>)
    ensures |shares| == |rows|
    ensures forall i :: 0 <= i < |rows| ==> shares[i] == Bucket(CategoryOf(rows[i]), ProductTotal(table, rows[i]))
  {
    if rows == [] then [] else CategoryShares(table, Init(rows)) + [Bucket(CategoryOf(rows[|rows| - 1]), ProductTotal(table, rows[|rows| - 1]))]
  }

  /** The per-source contributions of the rows. */
  function SourceShares(table: seq<Factor>, columns: Columns, rows: seq<Row>): (shares: seq<Bucket>)
    ensures |shares| == |rows|
    ensures forall i :: 0 <= i < |rows| ==> shares[i] == Bucket(SourceOf(columns, rows[i]), ProductTotal(table, rows[i]))
  {
    if rows == [] then [] else SourceShares(table, columns, Init(rows)) + [Bucket(SourceOf(columns, rows[|rows| - 1]), ProductTotal(table, rows[|rows| - 1]))]
  }

  /** Both contribution sequences add up to the grand total emission. */
  lemma {:induction false} SharesSum(table: seq<Factor>, columns: Columns, rows: seq<Row>)
    ensures SumOf(CategoryShares(table, rows)) == TotalEmissionOf(table, rows)
    ensures SumOf(SourceShares(table, columns, rows)) == TotalEmissionOf(table, rows)
  {
    if rows != [] {
      var last := rows[|rows| - 1];
      SharesSum(table, columns, Init(rows));
      SumOfAppend(CategoryShares(table, Init(rows)), Bucket(CategoryOf(last), ProductTotal(table, last)));
      SumOfAppend(SourceShares(table, columns, Init(rows)), Bucket(SourceOf(columns, last), ProductTotal(table, last)));
    }
  }

  /** The category breakdown of the rows. */
  function CategoryBreakdown(table: seq<Factor>, rows: seq<Row>): seq<Bucket> {
    TallyOf(CategoryShares(table, rows))
  }

  /** The source breakdown of the rows. */
  function SourceBreakdown(table: seq<Factor>, columns: Columns, rows: seq<Row>): seq<Bucket> {
    TallyOf(SourceShares(table, columns, rows))
  }

  /** Sum of parts equals whole: both breakdowns add up to the grand total emission. */
  lemma BreakdownsAddUp(table: seq<Factor>, columns: Columns, rows: seq<Row>)
    ensures SumOf(CategoryBreakdown(table, rows)) == TotalEmissionOf(table, rows)
    ensures SumOf(SourceBreakdown(table, columns, rows)) == TotalEmissionOf(table, rows)
  {
    SharesSum(table, columns, rows);
    TallySum(CategoryShares(table, rows));
    TallySum(SourceShares(table, columns, rows));
  }

  // ---------------------------------------------------------------------
  // The highest-emission product
  // ---------------------------------------------------------------------

  /** A product name and its emission: the "highest impact" record. */
  datatype Peak = Peak(name: string, emission: real)

  /** The record before any row beats it. */
  const NoPeak: Peak := Peak("-", 0.0)

  /** The running maximum over candidates in order: replaced only by a strictly greater emission. */
  function BestOf(candidates: seq<Peak>): Peak {
    if candidates == [] then NoPeak else
      var best := BestOf(Init(candidates));
      var last := candidates[|candidates| - 1];
      if last.emission > best.emission then last else best
  }

  /**
   * No candidate exceeds the running maximum, and the running maximum is
   * either the sentinel or one of the candidates, with a positive emission.
   */
  lemma {:induction false} BestBoundsAll(candidates: seq<Peak>)
    ensures forall j :: 0 <= j < |candidates| ==> candidates[j].emission <= BestOf(candidates).emission
    ensures BestOf(candidates) == NoPeak || (BestOf(candidates) in candidates && BestOf(candidates).emission > 0.0)
  {
    if candidates != [] {
      var init := Init(candidates);
      BestBoundsAll(init);
      assert candidates == init + [candidates[|candidates| - 1]];
    }
  }

  /**
   * Ties go to the first: when candidate `k` has a positive emission that no
   * candidate exceeds and every earlier candidate stays strictly below, the
   * running maximum is candidate `k`.
   */
  lemma {:induction false} BestIsFirstMaximum(candidates: seq<Peak>, k: nat)
    requires k < |candidates| && candidates[k].emission > 0.0
    requires forall j :: 0 <= j < |candidates| ==> candidates[j].emission <= candidates[k].emission
    requires forall j :: 0 <= j < k ==> candidates[j].emission < candidates[k].emission
    ensures BestOf(candidates) == candidates[k]
  {
    var init := Init(candidates);
    var n := |candidates| - 1;
    assert forall j :: 0 <= j < |init| ==> init[j] == candidates[j];
    if k == n {
      BestBoundsAll(init);
      assert BestOf(init) == NoPeak || BestOf(init) in init;
    } else {
      BestIsFirstMaximum(init, k);
    }
  }

  /** Each row as a highest-impact candidate: its stripped product name and its unrounded total. */
  function Candidates(table: seq<Factor>, rows: seq<Row>): (candidates: seq<Peak>)
    ensures |candidates| == |rows|
    ensures forall i :: 0 <= i < |rows| ==> candidates[i] == Peak(Strip(rows[i].product), ProductTotal(table, rows[i]))
  {
    if rows == [] then [] else Candidates(table, Init(rows)) + [Peak(Strip(rows[|rows| - 1].product), ProductTotal(table, rows[|rows| - 1]))]
  }

  /** The highest-impact record of the rows. */
  function PeakOf(table: seq<Factor>, rows: seq<Row>): Peak {
    BestOf(Candidates(table, rows))
  }

  // ---------------------------------------------------------------------
  // Counts and the high-risk report
  // ---------------------------------------------------------------------

  /** Every entry is counted in exactly one tier, and the high-risk count is the length of the high-risk report. */
  lemma {:induction false} CountsCoverItems(items: seq<Item>)
    ensures CountsOf(items).Total() == |items|
    ensures CountsOf(items).highRisk == |HighRiskOf(items)|
  {
    if items != [] {
      CountsCoverItems(Init(items));
    }
  }

  /** The positions of the entries in one risk tier. */
  function TierIndices(items: seq<Item>, tier: Risk): set<int> {
    set i | 0 <= i < |items| && items[i].riskLevel == tier
  }

  /** One more entry adds its own position to its tier and nothing else. */
  lemma {:induction false} TierIndicesStep(items: seq<Item>, tier: Risk)
    requires items != []
    ensures |TierIndices(items, tier)| ==
      |TierIndices(Init(items), tier)| + (if items[|items| - 1].riskLevel == tier then 1 else 0)
  {
    var n := |items| - 1;
    var before := TierIndices(Init(items), tier);
    if items[n].riskLevel == tier {
      TierIndicesSplit(items, tier, before + {n});
      assert n !in before;
    } else {
      TierIndicesSplit(items, tier, before);
    }
  }

  /** The positions of a tier, given those of all entries but the last. */
  lemma {:induction false} TierIndicesSplit(items: seq<Item>, tier: Risk, expected: set<int>)
    requires items != []
    requires expected == TierIndices(Init(items), tier) + (if items[|items| - 1].riskLevel == tier then {|items| - 1} else {})
    ensures TierIndices(items, tier) == expected
  {
    forall i ensures i in TierIndices(items, tier) <==> i in expected {
      if 0 <= i < |items| - 1 {
        assert items[i] == Init(items)[i];
      }
    }
  }

  /** Each tier count is the number of positions whose entry is in that tier. */
  lemma {:induction false} CountsAreTierSizes(items: seq<Item>)
    ensures CountsOf(items).normal == |TierIndices(items, Normal)|
    ensures CountsOf(items).critical == |TierIndices(items, Critical)|
    ensures CountsOf(items).highRisk == |TierIndices(items, HighRisk)|
  {
    if items != [] {
      CountsAreTierSizes(Init(items));
      TierIndicesStep(items, Normal);
      TierIndicesStep(items, Critical);
      TierIndicesStep(items, HighRisk);
    }
  }

  /** `sub` can be obtained from `s` by deleting elements, keeping the order of the rest. */
  predicate IsSubsequence<T(==)>(sub: seq<T>, s: seq<T>) {
    if sub == [] then true
    else if s == [] then false
    else if sub[|sub| - 1] == s[|s| - 1] then IsSubsequence(Init(sub), Init(s))
    else IsSubsequence(sub, Init(s))
  }

  /**
   * The high-risk report holds exactly the high-risk entries: all of them,
   * nothing else, in their original order, one report entry per high-risk
   * position.
   */
  lemma {:induction false} HighRiskReportIsFilter(items: seq<Item>)
    ensures forall x :: x in HighRiskOf(items) ==> x.riskLevel == HighRisk && x in items
    ensures forall i :: 0 <= i < |items| && items[i].riskLevel == HighRisk ==> items[i] in HighRiskOf(items)
    ensures IsSubsequence(HighRiskOf(items), items)
    ensures |HighRiskOf(items)| == |TierIndices(items, HighRisk)|
  {
    CountsCoverItems(items);
    CountsAreTierSizes(items);
    if items != [] {
      var init := Init(items);
      var last := items[|items| - 1];
      HighRiskReportIsFilter(init);
      assert items == init + [last];
      if last.riskLevel != HighRisk {
        SubsequenceExtend(HighRiskOf(init), init, last);
      }
    }
  }

  /** A subsequence stays one when the sequence grows at the end. */
  lemma {:induction false} SubsequenceExtend<T>(sub: seq<T>, s: seq<T>, x: T)
    requires IsSubsequence(sub, s)
    ensures IsSubsequence(sub, s + [x])
    decreases |s|, 1
  {
    assert Init(s + [x]) == s;
    if sub != [] && sub[|sub| - 1] == x {
      SubsequenceDropLast(sub, s);
    }
  }

  /** Dropping the last element of a subsequence keeps it a subsequence. */
  lemma {:induction false} SubsequenceDropLast<T>(sub: seq<T>, s: seq<T>)
    requires sub != [] && IsSubsequence(sub, s)
    ensures IsSubsequence(Init(sub), s)
    decreases |s|, 0
  {
    var t := Init(s);
    if sub[|sub| - 1] != s[|s| - 1] {
      SubsequenceDropLast(sub, t);
    }
    assert s == t + [s[|s| - 1]];
    SubsequenceExtend(Init(sub), t, s[|s| - 1]);
  }

  // ---------------------------------------------------------------------
  // The upload handler's computation
  // ---------------------------------------------------------------------

  /** What the row loop accumulates. */
  datatype Batch = Batch(
    items: seq<Item>,
    totalEmission: real,
    totalUnits: real,
    counts: RiskCounts,
    categories: seq<Bucket>,
    sources: seq<Bucket>,
    peak: Peak)

  /** The loop's state before the first row. */
  const Empty: Batch := Batch([], 0.0, 0.0, RiskCounts(0, 0, 0), [], [], NoPeak)

  /** One turn of the row loop: a row's report entry and product total folded into the state. */
  function Step(b: Batch, item: Item, total: real): Batch {
    Batch(
      b.items + [item],
      b.totalEmission + total,
      b.totalUnits + item.units,
      b.counts.Bump(item.riskLevel),
      Accumulate(b.categories, item.category, total),
      Accumulate(b.sources, item.source, total),
      if total > b.peak.emission then Peak(item.product, total) else b.peak)
  }

  /** The loop's state after the given rows. */
  function Fold(table: seq<Factor>, columns: Columns, rows: seq<Row>): Batch {
    if rows == [] then Empty
    else
      var row := rows[|rows| - 1];
      Step(Fold(table, columns, Init(rows)), ItemOf(table, columns, row), ProductTotal(table, row))
  }

  /** Taking one more row into the fold is one more `Step`. */
  lemma FoldStep(table: seq<Factor>, columns: Columns, rows: seq<Row>, i: nat)
    requires i < |rows|
    ensures Fold(table, columns, rows[..i + 1]) ==
            Step(Fold(table, columns, rows[..i]), ItemOf(table, columns, rows[i]), ProductTotal(table, rows[i]))
  {
    assert Init(rows[..i + 1]) == rows[..i];
  }

  /** The loop's entries are the rows' entries, and its unit total and tier counts are theirs. */
  lemma {:induction false} FoldItems(table: seq<Factor>, columns: Columns, rows: seq<Row>)
    ensures Fold(table, columns, rows).items == ItemsOf(table, columns, rows)
    ensures Fold(table, columns, rows).totalUnits == TotalUnitsOf(ItemsOf(table, columns, rows))
    ensures Fold(table, columns, rows).counts == CountsOf(ItemsOf(table, columns, rows))
  {
    if rows != [] {
      var init := Init(rows);
      FoldItems(table, columns, init);
      var items, item := ItemsOf(table, columns, init), ItemOf(table, columns, rows[|rows| - 1]);
      assert Init(items + [item]) == items;
    }
  }

  /** The loop's emission total is the sum of the rows' product totals. */
  lemma {:induction false} FoldTotal(table: seq<Factor>, columns: Columns, rows: seq<Row>)
    ensures Fold(table, columns, rows).totalEmission == TotalEmissionOf(table, rows)
  {
    if rows != [] {
      FoldTotal(table, columns, Init(rows));
    }
  }

  /** The loop's two breakdowns are the tallies of the rows' contributions. */
  lemma {:induction false} FoldBreakdowns(table: seq<Factor>, columns: Columns, rows: seq<Row>)
    ensures Fold(table, columns, rows).categories == CategoryBreakdown(table, rows)
    ensures Fold(table, columns, rows).sources == SourceBreakdown(table, columns, rows)
  {
    if rows != [] {
      var init, row := Init(rows), rows[|rows| - 1];
      FoldBreakdowns(table, columns, init);
      ItemReportsRow(table, columns, row);
      var share := Bucket(CategoryOf(row), ProductTotal(table, row));
      var shares := CategoryShares(table, init);
      assert Init(shares + [share]) == shares;
      share := Bucket(SourceOf(columns, row), ProductTotal(table, row));
      shares := SourceShares(table, columns, init);
      assert Init(shares + [share]) == shares;
    }
  }

  /** The loop's highest-impact record is the first largest positive product total. */
  lemma {:induction false} FoldPeak(table: seq<Factor>, columns: Columns, rows: seq<Row>)
    ensures Fold(table, columns, rows).peak == PeakOf(table, rows)
  {
    if rows != [] {
      var init, row := Init(rows), rows[|rows| - 1];
      FoldPeak(table, columns, init);
      ItemReportsRow(table, columns, row);
      var candidates := Candidates(table, init);
      assert Init(candidates + [Peak(Strip(row.product), ProductTotal(table, row))]) == candidates;
    }
  }

  /**
   * What the row loop reaches, in terms of the specifications: the entries,
   * the totals, the tier counts (one per row), both breakdowns (each adding
   * up to the emission total) and the highest-impact record.
   */
  lemma FoldMeaning(table: seq<Factor>, columns: Columns, rows: seq<Row>)
    ensures var b := Fold(table, columns, rows);
            && b.items == ItemsOf(table, columns, rows)
            && b.totalEmission == TotalEmissionOf(table, rows)
            && b.totalUnits == TotalUnitsOf(b.items)
            && b.counts == CountsOf(b.items)
            && b.categories == CategoryBreakdown(table, rows)
            && b.sources == SourceBreakdown(table, columns, rows)
            && b.peak == PeakOf(table, rows)
            && b.counts.Total() == |rows|
            && SumOf(b.categories) == b.totalEmission && SumOf(b.sources) == b.totalEmission
  {
    FoldItems(table, columns, rows);
    FoldTotal(table, columns, rows);
    FoldBreakdowns(table, columns, rows);
    FoldPeak(table, columns, rows);
    BreakdownsAddUp(table, columns, rows);
    CountsCoverItems(ItemsOf(table, columns, rows));
  }

  /**
   * The first half of one turn of the row loop: clean the row's texts, look
   * up its factor, multiply by the units sold and classify the risk.
   * It performs `ItemOf` step by step on purpose: it is the loop body as
   * statements, proved against that specification, which keeps each proof
   * of the loop small.
   */
  method ReadRow(table: seq<Factor>, columns: Columns, row: Row) returns (item: Item, productTotal: real)
    ensures item == ItemOf(table, columns, row)
    ensures productTotal == ProductTotal(table, row)
  {
    var category := Strip(row.category);
    var units := if row.unitsSold.Some? then row.unitsSold.value else 0.0;
    var product := Strip(row.product);
    var id := if columns.hasId then Strip(row.productId) else "N/A";
    var source := if columns.hasSource then Strip(row.source) else "Unknown";

    var emissionPerUnit := FactorOf(table, category);
    productTotal := units * emissionPerUnit;
    assert category == CategoryOf(row) && units == Units(row) && emissionPerUnit == PerUnit(table, row);
    TotalOfRow(table, row, units, emissionPerUnit);

    var riskLevel := Classify(emissionPerUnit, units);
    item := Item(id, product, category, source, units, emissionPerUnit, Numbers.Round2(productTotal), riskLevel);
  }

  /**
   * The second half of one turn of the row loop: add the row's total and
   * units to the running sums, replace the highest-impact record on a
   * strictly greater total, count the tier, add the total to the row's
   * category and source, and append the report entry.
   * It performs `Step` field by field on purpose, for the same reason as
   * `ReadRow`.
   */
  method Absorb(b: Batch, item: Item, productTotal: real) returns (next: Batch)
    ensures next == Step(b, item, productTotal)
  {
    var totalEmission := b.totalEmission + productTotal;
    var totalUnits := b.totalUnits + item.units;
    var peak := b.peak;
    if productTotal > peak.emission {
      peak := Peak(item.product, productTotal);
    }
    var counts := b.counts.Bump(item.riskLevel);
    var categories := Accumulate(b.categories, item.category, productTotal);
    var sources := Accumulate(b.sources, item.source, productTotal);
    next := Batch(b.items + [item], totalEmission, totalUnits, counts, categories, sources, peak);
  }

  /**
   * The row loop: classify each row with the given factor table and fold it
   * into the running totals, tier counts, breakdowns, highest-impact record
   * and report entries.
   */
  method Tabulate(table: seq<Factor>, sheet: Sheet) returns (batch: Batch)
    ensures batch == Fold(table, sheet.columns, sheet.rows)
  {
    var rows, columns := sheet.rows, sheet.columns;
    batch := Empty;
    for i := 0 to |rows|
      invariant batch == Fold(table, columns, rows[..i])
    {
      var item, productTotal := ReadRow(table, columns, rows[i]);
      batch := Absorb(batch, item, productTotal);
      FoldStep(table, columns, rows, i);
    }
    assert rows[..|rows|] == rows;
  }

  /** The values the upload handler reports. */
  datatype Report = Report(
    totalEmission: real,     // rounded to cents
    totalUnits: int,         // truncated toward zero
    avgEmission: real,
    highestImpact: string,
    riskBreakdown: RiskCounts,
    categoryEmissions: seq<Bucket>,
    sourceEmissions: seq<Bucket>,
    highRiskReport: seq<Item>,
    suggestions: seq<Recommender.Suggestion>)

  /** A report entry as the substitution advisor receives it. */
  function ListingOf(item: Item): Recommender.Listing {
    Recommender.Listing(item.product, item.category, Some(item.emissionPerUnit))
  }

  /** The high-risk entries as the advisor receives them, in order. */
  function ListingsOf(items: seq<Item>): (listings: seq<Recommender.Listing>)
    ensures |listings| == |items|
    ensures forall k :: 0 <= k < |items| ==>
              && listings[k].product == items[k].product
              && listings[k].category == items[k].category
              && listings[k].emissionPerUnit == Some(items[k].emissionPerUnit)
  {
    seq(|items|, k requires 0 <= k < |items| => ListingOf(items[k]))
  }

  /**
   * `recommender.get_suggestions(high_risk_items)`: one suggestion per report
   * entry, in order, for its product and category.
   */
  method Advise(db: seq<Recommender.Shelf>, items: seq<Item>) returns (suggestions: seq<Recommender.Suggestion>)
    requires Recommender.WellFormed(db)
    ensures |suggestions| == |items|
    ensures forall i :: 0 <= i < |items| ==>
              && suggestions[i].originalProduct == items[i].product
              && suggestions[i].category == items[i].category
              && suggestions[i].alternativeProduct == Recommender.Alternative(db, items[i].category, items[i].product)
              && suggestions[i].reductionPotential ==
                   Recommender.ReductionPotential(items[i].emissionPerUnit, Recommender.AlternativeFactor)
              && suggestions[i].riskAnalysis ==
                   Recommender.SubstitutionRisk(items[i].emissionPerUnit, Recommender.AlternativeFactor)
  {
    var listings := ListingsOf(items);
    suggestions := Recommender.GetSuggestions(db, listings);
    assert forall k :: 0 <= k < |listings| ==> Recommender.CurrentEmission(listings[k]) == items[k].emissionPerUnit;
  }

  /**
   * The upload handler after the sheet is read: tabulate the rows with the
   * emission factor table, keep the high-risk entries, ask the advisor for
   * their substitutions and compute the average emission per unit.
   */
  method UploadFile(table: seq<Factor>, db: seq<Recommender.Shelf>, sheet: Sheet) returns (report: Report)
    requires Recommender.WellFormed(db)
    ensures report.highRiskReport == HighRiskOf(ItemsOf(table, sheet.columns, sheet.rows))
    ensures report.riskBreakdown == CountsOf(ItemsOf(table, sheet.columns, sheet.rows))
    ensures report.riskBreakdown.Total() == |sheet.rows|
    ensures report.riskBreakdown.highRisk == |report.highRiskReport|
    ensures report.categoryEmissions == CategoryBreakdown(table, sheet.rows)
    ensures report.sourceEmissions == SourceBreakdown(table, sheet.columns, sheet.rows)
    ensures SumOf(report.categoryEmissions) == TotalEmissionOf(table, sheet.rows)
    ensures SumOf(report.sourceEmissions) == TotalEmissionOf(table, sheet.rows)
    ensures report.totalEmission == Numbers.Round2(TotalEmissionOf(table, sheet.rows))
    ensures report.totalUnits == Numbers.TruncateToInt(TotalUnitsOf(ItemsOf(table, sheet.columns, sheet.rows)))
    ensures report.highestImpact == PeakOf(table, sheet.rows).name
    ensures TotalUnitsOf(ItemsOf(table, sheet.columns, sheet.rows)) <= 0.0 ==> report.avgEmission == 0.0
    ensures TotalUnitsOf(ItemsOf(table, sheet.columns, sheet.rows)) > 0.0 ==>
              -0.005 <= report.avgEmission - TotalEmissionOf(table, sheet.rows) / TotalUnitsOf(ItemsOf(table, sheet.columns, sheet.rows)) <= 0.005
    ensures |report.suggestions| == |report.highRiskReport|
    ensures forall i :: 0 <= i < |report.suggestions| ==>
              && report.suggestions[i].originalProduct == report.highRiskReport[i].product
              && report.suggestions[i].category == report.highRiskReport[i].category
              && report.suggestions[i].alternativeProduct ==
                   Recommender.Alternative(db, report.highRiskReport[i].category, report.highRiskReport[i].product)
              && report.suggestions[i].reductionPotential ==
                   Recommender.ReductionPotential(report.highRiskReport[i].emissionPerUnit, Recommender.AlternativeFactor)
              && report.suggestions[i].riskAnalysis ==
                   Recommender.SubstitutionRisk(report.highRiskReport[i].emissionPerUnit, Recommender.AlternativeFactor)
  {
    var batch := Tabulate(table, sheet);
    FoldMeaning(table, sheet.columns, sheet.rows);
    var highRiskItems := HighRiskOf(batch.items);
    CountsCoverItems(batch.items);
    var suggestions := Advise(db, highRiskItems);
    var avgEmission := if batch.totalUnits > 0.0 then Numbers.Round2(batch.totalEmission / batch.totalUnits) else 0.0;
    report := Report(
      Numbers.Round2(batch.totalEmission),
      Numbers.TruncateToInt(batch.totalUnits),
      avgEmission,
      batch.peak.name,
      batch.counts,
      batch.categories,
      batch.sources,
      highRiskItems,
      suggestions);
  }
}
