# Superstore sales aggregation, modelled in Dafny

The program reads a table of sales records (the Sample Superstore data set). Each record maps column names to cell text. The program computes two group-by reports from it:

- **Average profit margin by region** (`calculate_avg_profit_margin_by_region`).
  - A region is the record's `Region` cell with surrounding whitespace stripped. Records whose region is blank are skipped.
  - Every other record adds its `Sales` and `Profit` numbers to its region's running totals.
  - A region whose total sales are zero or negative reports 0.0.
  - Every other region reports `profit / sales * 100`, rounded half-up to two decimals.
- **Total sales and mean discount by category** (`calculate_sales_and_avg_discount_by_category`).
  - Records whose stripped category is blank are skipped.
  - Every other record adds its sales to its category's total and appends one discount to the category's discount list.
  - A category reports its total rounded half-up to two decimals, and the mean of its list rounded half-up to three decimals.

Numbers are read by `_to_float`. It strips the text and parses it as a decimal number. It never fails: text that does not parse reads as 0.

Rounding is done by `_round2` and `_round3`. They quantise a decimal with ROUND_HALF_UP, which sends ties away from zero.

Both results are dictionaries whose keys appear in the order in which the regions or categories first occur.

Modules:

- `Text`: Python's `str.strip()` and `str.isspace()`.
- `Coercion`: decimal literals, the scanner and `ToFloat`.
- `Rounding`: ROUND_HALF_UP quantisation, with `Round2` and `Round3`.
- `Dicts`: an insertion-ordered dictionary.
- `Records`: records, key and number columns, and the filter-and-sum specification functions that the aggregators are proved against.
  - `FirstKeys`: the result keys.
  - `SumWhere`: a group's sum.
  - `CountWhere`: a group's size.
  - `ValuesWhere`: a group's values, in input order.
- `RegionMargin` and `CategoryStats`: the two aggregators. Each is modelled as two loops over a dictionary accumulator, as the source writes them. The loop invariants tie the state after `i` records to the specification functions over the first `i` records.
- `Readings` and `Scenarios`: the eight tests in the source file, restated as lemmas about the specification.

## Model

| member | source | states |
|---|---|---|
| Text.Trim | project1_kaishahanda.py:15 | the stripped text neither starts nor ends with whitespace, and it is empty exactly when the input is all whitespace |
| Text.TrimParts | project1_kaishahanda.py:15 | any text is leading whitespace, then the stripped text, then trailing whitespace |
| Text.TrimUnique | project1_kaishahanda.py:15 | text without whitespace at either end, padded by any whitespace, strips back to exactly itself |
| Text.TrimIdempotent | project1_kaishahanda.py:15 | stripping twice gives the same as stripping once |
| Text.TrimPadding | project1_kaishahanda.py:15 | extra whitespace around a field does not change what stripping gives |
| Text.TrimKeeps | project1_kaishahanda.py:15 | every non-whitespace character lies inside the stripped text, which is a contiguous slice of the input |
| Coercion.Scan | project1_kaishahanda.py:15 | whenever the parser accepts a text, it returns a well-formed literal whose rendering is exactly that text |
| Coercion.ScanRender | project1_kaishahanda.py:15 | the parser reads back every well-formed literal from its text (round trip) |
| Coercion.RenderNumeral | project1_kaishahanda.py:15 | a literal's text is non-empty and uses only digits, signs and the point |
| Coercion.ToFloat | project1_kaishahanda.py:13-17 | `_to_float` never fails: an empty or whitespace-only field reads as 0, and a non-zero result comes only from a field whose stripped text is non-empty and uses only digits, signs and the point; with `Scan`/`ScanRender`, `ToFloatLiteral` and `ToFloatForeign` this fixes the value of every text |
| Coercion.ToFloatLiteral | project1_kaishahanda.py:13-17 | a decimal literal with any whitespace around it reads as its exact value |
| Coercion.ToFloatForeign | project1_kaishahanda.py:13-17 | text containing a character that is neither whitespace nor part of a number reads as 0 (the `except` path, within the grammar modelled) |
| Coercion.ToFloatWhole | project1_kaishahanda.py:13-17 | a run of digits with any whitespace around it reads as its decimal value |
| Coercion.ToFloatNegative | project1_kaishahanda.py:13-17 | a minus sign before digits negates their value |
| Coercion.ToFloatFraction | project1_kaishahanda.py:13-17 | digits, a point and digits, with any whitespace around them, read as the whole part plus the fraction scaled by its length |
| Coercion.ToFloatPaddedExample | project1_kaishahanda.py:112 | `" 250.0 "` reads as 250 |
| Coercion.ToFloatNegativeExample | project1_kaishahanda.py:104 | `"-25"` reads as -25 |
| Readings.DecimalText | project1_kaishahanda.py:13-17 | a bare decimal with its point at position p reads as the digits before p plus the digits after p, scaled down |
| Rounding.RoundHalfUp | project1_kaishahanda.py:22-26 | the result has at most `places` fractional digits, and at that scale it is the nearest integer, with ties away from zero |
| Rounding.RoundHalfUpUnique | project1_kaishahanda.py:22-26 | those two properties determine the result, so they fully specify the quantisation |
| Rounding.RoundHalfUpError | project1_kaishahanda.py:22-26 | the result is within half a unit of the last kept digit of the input |
| Rounding.RoundHalfUpTie | project1_kaishahanda.py:22-26 | an exact tie goes up in magnitude, on both sides of zero (ROUND_HALF_UP, not banker's rounding) |
| Rounding.RoundHalfUpNegate | project1_kaishahanda.py:22-26 | rounding is symmetric about zero |
| Rounding.RoundHalfUpOnGrid | project1_kaishahanda.py:22-26 | a value that already has `places` digits or fewer is returned unchanged |
| Rounding.RoundHalfUpMonotonic | project1_kaishahanda.py:22-26 | rounding preserves order |
| Rounding.Round2 | project1_kaishahanda.py:22-23 | `_round2` gives a whole number of hundredths within 0.005 of its input, which in hundredths is the integer nearest to the input, ties away from zero |
| Rounding.Round3 | project1_kaishahanda.py:25-26 | `_round3` gives a whole number of thousandths within 0.0005 of its input, which in thousandths is the integer nearest to the input, ties away from zero |
| Rounding.HalfUpTieUp | project1_kaishahanda.py:22-23 | 0.125 rounds to 0.13 at two places |
| Rounding.HalfUpTieDown | project1_kaishahanda.py:22-23 | -0.125 rounds to -0.13 at two places |
| Rounding.HalfUpTieThousandths | project1_kaishahanda.py:25-26 | 0.1235 rounds to 0.124 at three places |
| Dicts.Dict.Set | project1_kaishahanda.py:43-45 | assigning `d[k] = v` maps k to v and leaves other keys unchanged; a new key goes last, an existing key keeps its place |
| Dicts.DictEqual | project1_kaishahanda.py:46-54 | two dictionaries with the same keys in the same order and the same values are equal |
| Records.KeyColumn | project1_kaishahanda.py:37 | one key per record, each the stripped region or category cell (blank when the column is missing) |
| Records.NumberColumn | project1_kaishahanda.py:38-39 | one number per record, each the field's cell read by `_to_float` (0 when the column is missing) |
| Records.FirstOccurrences | project1_kaishahanda.py:42-43 | the keys that occur and are not blank, each exactly once |
| Records.FirstKeysMembership | project1_kaishahanda.py:36-43 | a key is in the result exactly when it is non-blank and some record's stripped field equals it |
| Records.FirstKeysStripped | project1_kaishahanda.py:37 | every result key is non-blank, not all whitespace, and already stripped |
| Records.BlankNeverKey | project1_kaishahanda.py:40-41 | an empty or whitespace-only value is never a result key |
| Records.FirstKeysPrefix | project1_kaishahanda.py:42-43 | the keys of any prefix of the input are a prefix of the input's keys, so keys stay in order of first occurrence |
| Records.FirstKeysCounted | project1_kaishahanda.py:65-68 | every key has at least one record, one collected value per record, and the values sum to the group's sum |
| Records.SumWhereAppend | project1_kaishahanda.py:44-45 | a group's sum over two concatenated inputs is the sum of its sums over each |
| Records.TotalAppend | project1_kaishahanda.py:44-45 | the same as SumWhereAppend, over plain key and value columns |
| Records.CollectTotal | project1_kaishahanda.py:68 | a group's collected values number the same as its entries and add up to its total |
| RegionMargin.Margin | project1_kaishahanda.py:50-53 | with total sales ≤ 0 the margin is 0; otherwise it is a whole number of hundredths, within 0.005 of 100·profit/sales, with the sign of the profit |
| RegionMargin.PercentSign | project1_kaishahanda.py:53 | for positive sales, a non-negative profit gives a non-negative rounded percentage and a non-positive profit a non-positive one |
| RegionMargin.MarginExact | project1_kaishahanda.py:53 | a percentage that is already a whole number of hundredths is reported exactly |
| RegionMargin.AccumulateTotals | project1_kaishahanda.py:35-45 | after the first loop, the accumulator's keys are the distinct non-blank regions in order of first occurrence, and each holds that region's summed sales and profit |
| RegionMargin.ComputeMargins | project1_kaishahanda.py:46-54 | the second loop gives each region, in the accumulator's order, the margin of its totals |
| RegionMargin.MarginsComplete | project1_kaishahanda.py:34-54 | the two loops together give the first-occurrence keys, each mapped to its margin over the whole input |
| RegionMargin.CalculateAvgProfitMarginByRegion | project1_kaishahanda.py:34-54 | the result's keys are the distinct non-blank stripped regions in order of first occurrence, and each maps to the margin of its sales and profit summed over all of its records |
| RegionMargin.ResultDetermined | project1_kaishahanda.py:34-54 | the contract determines the result, so the result depends on the records alone |
| CategoryStats.Mean | project1_kaishahanda.py:72 | the mean of an empty discount list is 0; of any other list, the value that taken once per discount adds up to their sum |
| CategoryStats.Finalise | project1_kaishahanda.py:70-73 | the reported total is a whole number of hundredths within 0.005 of the summed sales, and the reported discount a whole number of thousandths within 0.0005 of the mean |
| CategoryStats.AccumulateGroups | project1_kaishahanda.py:58-68 | after the first loop, the accumulator's keys are the distinct non-blank categories in order of first occurrence, and each holds that category's summed sales and its records' discounts in input order |
| CategoryStats.ComputeStats | project1_kaishahanda.py:69-74 | the second loop gives each category, in the accumulator's order, its rounded total and rounded mean discount |
| CategoryStats.StatsComplete | project1_kaishahanda.py:57-74 | the two loops together give the first-occurrence keys, each mapped to its figures over the whole input |
| CategoryStats.CalculateSalesAndAvgDiscountByCategory | project1_kaishahanda.py:57-74 | the result's keys are the distinct non-blank stripped categories in order of first occurrence, and each maps to its sales total and mean discount over all of its records |
| CategoryStats.CategoryFiguresSpec | project1_kaishahanda.py:67-73 | a category's total is round2 of its summed sales; its count is positive; its mean discount is round3 of its summed discounts over its number of records, so a missing discount still counts in the mean |
| CategoryStats.ResultDetermined | project1_kaishahanda.py:57-74 | the contract determines the result, so the result depends on the records alone |
| Scenarios.RegionByColumns | project1_kaishahanda.py:34-54 | the region keys and margins depend only on the key, sales and profit columns |
| Scenarios.CategoryByColumns | project1_kaishahanda.py:57-74 | the category keys and figures depend only on the key, sales and discount columns |
| Scenarios.TwoRegionsScenario | project1_kaishahanda.py:88-95 | keys East then West; East 12.5, West 20.0 |
| Scenarios.ZeroSalesScenario | project1_kaishahanda.py:97-100 | zero sales gives North 0.0 |
| Scenarios.NegativeProfitScenario | project1_kaishahanda.py:102-108 | profits -25 and 5 on sales of 200 give South -10.0 |
| Scenarios.PaddedNumbersScenario | project1_kaishahanda.py:110-116 | padded and fractional texts give Central 10.0 |
| Scenarios.TwoCategoriesScenario | project1_kaishahanda.py:118-126 | keys Furniture then Technology; Furniture (400.0, 0.05), Technology (50.0, 0.2) |
| Scenarios.BlankCategoryScenario | project1_kaishahanda.py:128-135 | only "Office Supplies" is a key, `" "` is not, and it gets (100.0, 0.0) |
| Scenarios.RoundingScenario | project1_kaishahanda.py:137-143 | 33.335 + 66.665 and the mean discount 0.1235 give Tech (100.0, 0.124) |
| Scenarios.MissingDiscountScenario | project1_kaishahanda.py:145-151 | an empty discount counts as 0 in the mean: (300.0, 0.1) |

## Left out

- Reading the CSV file and writing the reports (`read_csv_file`, `write_results_txt`, `write_category_stats_csv`, `main`, lines 28-32, 76-86 and 164-177) are file I/O. The model starts from the list of records and ends at the result dictionaries.
- `run_all_tests` (lines 153-162) only calls the tests and prints. The tests themselves are restated in `Scenarios`.
- Numbers are exact rationals (`real`), not IEEE doubles.
  - Summation and division are therefore exact.
  - The model does not capture how `str(x)` of a binary float feeds `Decimal`. For example, a sum that is inexact in binary can round differently at a tie.
  - The decimal context's precision of 16 digits (line 20) is not modelled either. It only matters for the exception described next.
- `Rounding.Round2` and `Rounding.Round3` never fail, whatever the size of their input. The source's quantize needs more than 16 significant digits once the magnitude reaches about 10^14 for `_round2` (10^13 for `_round3`), and then raises `InvalidOperation`. The model does not show that exception.
- `Coercion.ToFloat` accepts an optional sign, then digits with an optional point and fraction (at least one digit), with Python's whitespace stripped around them. Everything else reads as 0. The following parts of Python's `float()` grammar are not modelled:
  - exponents;
  - `inf`, `nan` and `infinity`;
  - underscores between digits;
  - non-ASCII digits.
- A cell whose value is `None` (a short CSV row) is not modelled, because records map column names to text.
- The input list is never changed by either aggregator. In the model this holds by construction, since the records are an immutable sequence value. Calling an aggregator twice therefore gives equal results (`ResultDetermined`).
- The source reads a missing numeric column with the integer default `0`. The model uses the text `"0"`, which `_to_float` reads as the same 0.
- `calculate_avg_profit_margin_by_region` reads sales and profit before it checks whether the region is blank. The category function checks first. The model follows both orders as the source writes them (`RegionMargin.AccumulateTotals` and `CategoryStats.AccumulateGroups`). Reading a number has no effect and cannot fail, so the order does not change either result.
