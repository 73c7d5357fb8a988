# Carbon emission tabulation and substitution advice, in Dafny

This project models the computational core of a small carbon-footprint web
service. A user uploads a sales sheet (product, category, units sold, and
optionally a product id and a production source). For every row the upload
handler does the following:

- it looks up an emission factor for the row's category in a fixed table;
- it multiplies the factor by the units sold;
- it puts the row in one of three risk tiers by an ordered rule chain;
- it folds the row into:
  - running totals,
  - tier counts,
  - per-category and per-source emission sums,
  - the single highest-emission product,
  - a list of per-product report entries.

The high-risk entries then go to the substitution advisor. For each one, the
advisor finds a lower-carbon alternative by case-insensitive substring
matching. The match runs first on the category keys and then on the product
keys of a two-level knowledge base. The advisor also rates how much the swap
would save.

The model has five modules:

- `Options` (`options.dfy`): an option type, used for `dict.get` with a
  default.
- `Text` (`text.dfy`): Python's `str.strip()` (with Python's set of
  whitespace characters), `str.lower()` and the `in` test on strings.
- `Numbers` (`numbers.dfy`): `round(x, 2)` (half to even, on reals) and
  `int(x)` (truncation toward zero).
- `Recommender` (`recommender.dfy`): the knowledge base and the advisor.
  - `FindAlternative` is the two nested first-match loops.
  - `GetSuggestions` is the loop over the high-risk entries.
  - Both are proved against pure specifications (`Alternative`,
    `ReductionPotential`, `SubstitutionRisk`), whose properties are proved
    as lemmas.
- `Emissions` (`emissions.dfy`): the factor table, the risk classifier, the
  row loop and the upload handler.
  - `Tabulate` is the row loop. Each turn reads and classifies a row
    (`ReadRow`) and then folds it into the running values (`Absorb`). The
    loop is proved equal to `Fold`, a left fold of `Step` over the rows.
  - `FoldMeaning` states what that fold is, field by field:
    - the entries of all rows;
    - the sum of the unrounded product totals;
    - one tier count per row;
    - two insertion-ordered breakdowns (`TallyOf` of the per-row
      contributions), which add up to the grand total. Lemmas about
      `TallyOf` show that each key carries the sum of its contributions
      (`TallyAmount`), that each key appears once (`TallyKeys`), and that
      the keys come in order of first appearance (`TallyKeysInOrder`);
    - the first strictly largest positive total.
  - `UploadFile` is the handler after the sheet is read:
    - the high-risk report (an order-preserving filter);
    - the substitution suggestions;
    - the rounded totals and the average.

The two dictionaries the service keeps as literals are `CarbonTable` and
`AlternativesDb`, with the source's values in the source's order. The
operations take them as parameters `table` and `db`. The knowledge base's
categories and their entries are ordered sequences, so the order-sensitive
first-match behaviour of the lookups is explicit. The two breakdown
dictionaries are sequences of `Bucket`s in insertion order: a new key is
appended and an existing key's amount is increased.

Two details of the source are kept on purpose:

- The empty category key is falsy in `if not cat_key`, so a shelf whose key
  is the empty string leads to the generic alternative.
- The lookup of `category_dict["default"]` (recommender.py line 121) reads
  the "default" entry of the matched shelf only, and fails when that entry
  is missing. The advisor's operations ask more: `WellFormed(db)` requires a
  "default" entry in every shelf. `AlternativesDbWellFormed` proves that the
  service's own knowledge base meets this.

The comment above the rule chain in `app.py` (lines 87-89) describes rules
that differ from the code: for example, "Normal" for sales under 50 units.
The model follows the code (lines 92-98).

The comment on the substitution flag in `recommender.py` (line 80) says
"less than 10% improvement", but the test `alternative_emission >=
current_emission * 0.9` also flags a saving of exactly 10%. The model
follows the code: `SubstitutionRisk` is moderate exactly when the saving is
at most a tenth of the current factor, and `ExactlyTenPercentIsModerate`
shows the boundary case (a current factor of 5/9 against the 0.5
alternative).

## Model

| member | source | states |
|---|---|---|
| Text.StripShape | app.py:65 | `strip()` keeps exactly the part of the cell between a whitespace-only prefix and a whitespace-only suffix, and the result neither starts nor ends with whitespace |
| Text.StripIdempotent | app.py:65 | stripping a stripped text changes nothing |
| Text.Lower | recommender.py:104 | `lower()` keeps the length and lower-cases each character (ASCII letters) |
| Text.LowerIdempotent | recommender.py:104 | lower-casing twice equals lower-casing once |
| Text.ContainsIffOccurs | recommender.py:104 | the `in` test on strings holds exactly when the needle occurs at some position of the haystack |
| Numbers.Round2 | app.py:121 | `round(x, 2)` is within half a cent of `x` and keeps the sign of `x` |
| Numbers.TruncateToInt | app.py:136 | `int(x)` is the integer part of `x`, truncated toward zero |
| Recommender.ValueOf | recommender.py:121 | a sub-dictionary lookup finds nothing exactly when no entry has the key, and otherwise returns the value of an entry with that key |
| Recommender.CategoryIndexIsFirstMatch | recommender.py:102-106 | the category scan stops at a key the category text mentions case-insensitively, no earlier key is mentioned, and it finds nothing exactly when no key is mentioned |
| Recommender.ProductIndexIsFirstMatch | recommender.py:121-125 | the product scan stops at a non-"default" key the product name mentions, no earlier such key is mentioned, and it finds nothing exactly when none is |
| Recommender.NoCategoryMatchGivesGeneric | recommender.py:108-110 | when no category key is mentioned, the answer is "Generic Eco-Friendly Alternative" |
| Recommender.AlternativeComesFromFirstMatchingShelf | recommender.py:112-125 | for the first mentioned (non-empty) category, the answer is a value of that category: the first matching product's value, or the "default" value when no product key matches |
| Recommender.AlternativesDbWellFormed | recommender.py:4-50 | every category of the knowledge base has a "default" entry and a non-empty key |
| Recommender.EarlierShelfWins | recommender.py:103-106 | a category text that mentions an earlier key is never served from a later category, whatever else it mentions |
| Recommender.PlasticWinsOverPackaging | recommender.py:103-106 | "Plastic" comes before "Packaging" in the knowledge base, so a text mentioning "Plastic" never gets the "Packaging" category |
| Recommender.DairyMilkGetsOatMilk | recommender.py:5-7 | a "Dairy" category with product "Milk" gets "Oat Milk" |
| Recommender.FindAlternative | recommender.py:97-127 | the two nested first-match loops return exactly `Alternative` (the generic answer, the first matching product's value, or the category's default) and the factor 0.5 |
| Recommender.SubstitutionRisk | recommender.py:79-81 | the flag is "Moderate - Minimal Reduction" exactly when the saving per unit is at most a tenth of the current factor (so a saving of exactly 10% is flagged too, unlike the comment's "less than 10%"); an entry with no positive factor is always flagged against a non-negative alternative |
| Recommender.ExactlyTenPercentIsModerate | recommender.py:80-81 | at a current factor of 5/9 the 0.5 alternative saves exactly a tenth, and the swap is still flagged moderate |
| Recommender.ModerateExactlyUpToFiveNinths | recommender.py:79-81 | with the fixed 0.5 alternative, the flag is moderate exactly for current factors up to 5/9 |
| Recommender.ReductionPotential | recommender.py:83-85 | the saving is never negative, is 0 when the alternative is no better, and is otherwise within half a cent of the difference |
| Recommender.MissingFactorIsModerate | recommender.py:70-85 | an entry without an emission factor counts as 0, so it is flagged moderate and promises no saving |
| Recommender.DairySavingExample | recommender.py:79-85 | at 1.9 per unit the saving is 1.4 and the flag is "Low" |
| Recommender.GetSuggestions | recommender.py:62-95 | one suggestion per entry, in order, with product and category copied and with the alternative, saving and flag of that entry; an empty input gives an empty output |
| Emissions.FactorOfLookup | app.py:77 | `CARBON_TABLE.get(category, 0)` is 0 for a category that is not a key, and otherwise the factor stored under that exact key |
| Emissions.CarbonTableFactorsNonNegative | app.py:18-24 | every factor of the table is non-negative |
| Emissions.ClassifyTiers | app.py:92-98 | each tier in both directions: high-risk iff (factor > 3 and units > 100) or total > 500; critical iff not the first rule and 200 < total <= 500; normal iff not the first rule and total <= 200 |
| Emissions.ClassifyIsFirstMatch | app.py:92-98 | the classifier is first-match evaluation of the ordered rule list (heavy and bulk, total above 500, total above 200; otherwise normal) |
| Emissions.HeavyBulkRuleFiresFirst | app.py:93-96 | the first rule alone makes a row high-risk: factor 3.01 and 101 units give a total of at most 500 and are still high-risk |
| Emissions.ClassificationExamples | app.py:77-98 | 60 units of electronics are critical, 150 units of plastic are high-risk, and an unknown category is normal |
| Emissions.ItemReportsRow | app.py:65-123 | a report entry carries the stripped texts and its category's factor, its total is within half a cent of units times factor, and an unknown category or an unparsable unit count gives total 0 and tier Normal |
| Emissions.ItemsOf | app.py:114-124 | the report entries are one per row, in row order, each the entry of its row |
| Emissions.CountsCoverItems | app.py:58-100 | every entry is counted in exactly one tier (counts add up to the number of rows), and the high-risk count equals the length of the high-risk report |
| Emissions.CountsAreTierSizes | app.py:58-100 | each tier count is the number of row positions whose entry is in that tier |
| Emissions.HighRiskReportIsFilter | app.py:127 | the high-risk report holds every high-risk entry and nothing else, in the original order (a subsequence), and its length is the number of high-risk positions, so each high-risk row appears exactly once |
| Emissions.AccumulateSum | app.py:103-106 | adding a contribution to a breakdown adds exactly its amount to the breakdown's sum |
| Emissions.AccumulateAmount | app.py:103-106 | adding a contribution raises its own key's amount by the contribution and leaves every other key's amount alone |
| Emissions.AccumulateKeys | app.py:103-106 | an existing key keeps the key order; a new key is appended at the end |
| Emissions.TallySum | app.py:102-112 | a breakdown's sum is the sum of all contributions |
| Emissions.TallyAmount | app.py:102-112 | each key's amount in a breakdown is the sum of that key's contributions |
| Emissions.TallyKeys | app.py:102-112 | a breakdown's keys are distinct and are exactly the contributions' keys |
| Emissions.TallyKeysInOrder | app.py:102-112 | a breakdown's keys are the contributions' keys with later repeats dropped, in order of first appearance (`FirstAppearances`) |
| Emissions.SharesSum | app.py:79-112 | the per-row category and source contributions each add up to the total emission |
| Emissions.BreakdownsAddUp | app.py:79-112 | both the category breakdown and the source breakdown add up to the total emission |
| Emissions.BestBoundsAll | app.py:62-84 | no product's total exceeds the highest-impact record, which is either the "-" sentinel or one of the products with a positive total |
| Emissions.BestIsFirstMaximum | app.py:83-84 | ties go to the first: the record is the first product reaching the largest positive total |
| Emissions.FoldStep | app.py:64-124 | one more row is one more `Step` of the loop's state |
| Emissions.FoldItems | app.py:80-124 | the loop's entries, unit total and tier counts are those of the rows |
| Emissions.FoldTotal | app.py:79 | the loop's emission total is the sum of the rows' unrounded totals |
| Emissions.FoldBreakdowns | app.py:102-112 | the loop's category and source dictionaries are the breakdowns of the rows' contributions |
| Emissions.FoldPeak | app.py:62-84 | the loop's highest-impact record is that of the rows |
| Emissions.FoldMeaning | app.py:48-124 | the loop's final state, field by field, in terms of the specifications: one tier count per row, and both breakdowns summing to the total |
| Emissions.ReadRow | app.py:65-123 | the per-row half of a loop turn yields the row's report entry and its unrounded total |
| Emissions.Absorb | app.py:79-124 | the accumulating half of a loop turn is one `Step`: the emission and unit sums grow by the row's total and units, the record is replaced only on a strictly greater total, the row's tier count goes up by one, the row's total goes to its category and its source, and the entry is appended |
| Emissions.Tabulate | app.py:48-124 | the row loop's final state is `Fold` of the rows (see `FoldMeaning`) |
| Emissions.ListingsOf | app.py:127-130 | the advisor receives each high-risk entry's product, category and factor, in order |
| Emissions.Advise | app.py:130 | one suggestion per high-risk entry, in order, with its alternative, saving and flag |
| Emissions.UploadFile | app.py:48-144 | the reported values: the high-risk report is the filter of the entries, counts and breakdowns are those of the rows and add up, totals are rounded and truncated, the highest impact is the first largest total, the average is 0 without units and otherwise within half a cent of total over units, and the suggestions match the high-risk report entry by entry |

## Left out

- The Flask routes, the file upload and its saving to disk, CSV or Excel reading by pandas, the missing-column error response (app.py lines 33-46) and JSON serialisation (lines 134-144) are I/O. The model starts from a parsed `Sheet` and returns a `Report` value.
- pandas' rendering of non-text cells by `str()` (numbers, and missing cells that become "nan") is not modelled. A `Row` holds the cell texts.
- `float()` of the units cell is not modelled. A `Row` carries its result, or `None` when it raised `ValueError`. NaN and infinite values (pandas reads an empty cell as NaN, which `float()` accepts) are outside the model, because units are reals.
- Floating-point arithmetic is modelled by exact reals. IEEE rounding of products and sums, and `round()` acting on the binary value of a float (for example `round(2.675, 2)` giving 2.67), are not captured. `Numbers.Round2` rounds the exact real half to even.
- Numbers.Round2: the contract states the half-cent bound and the sign, not the exact result `round()` gives on a float, because of the binary representation above.
- Text.Lower: lower-cases ASCII letters only. Python's `str.lower()` also maps non-ASCII letters, and a few of them to several characters.
- The factor table and the knowledge base are parameters of the operations rather than module globals. `CarbonTable` and `AlternativesDb` hold the source's literals.
- `CarbonRecommender` is not modelled as a class. Its only field is the knowledge base, which is set in the constructor and never changed, so its methods take that knowledge base as a parameter.
- The risk labels ("Normal", "Critical", "High-Risk") and the substitution flags ("Low", "Moderate - Minimal Reduction") are datatype constructors rather than strings.
- The dictionaries handed to the advisor and returned in the report are records. Only the keys the advisor reads (product, category, emission per unit) go into a `Listing`.
- Recommender.FindAlternative: requires `WellFormed(db)` (a "default" entry in every shelf), where the source needs it only in the matched shelf. The `KeyError` the source raises for a matched shelf without "default" is not modelled. The service's own knowledge base has the entry in every shelf (`AlternativesDbWellFormed`).
- `get_suggestions` reads `emission_per_unit` with `.get(..., 0)`. The upload handler always sets this key, but the model keeps the missing case (`MissingFactorIsModerate`).
