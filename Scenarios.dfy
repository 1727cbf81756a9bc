/** The scenarios of the source's own tests, restated over the model: for
    records whose stripped keys and numeric fields read as in each test, the
    aggregates are the ones the test expects. How each kind of field text
    reads (padded numbers, a blank discount, a blank category) is stated
    separately, over the text itself. */
module Scenarios {
  import opened Text
  import opened Coercion
  import opened Rounding
  import opened Readings
  import opened Records
  import opened RegionMargin
  import opened CategoryStats

  // Connecting the aggregates to the columns they are computed from.

  /** The region margins depend on the records only through their region,
      sales and profit columns. */
  lemma RegionByColumns(data: seq<Record>, ks: seq<string>, ss: seq<real>, ps: seq<real>, k: string)
    requires KeyColumn(data, REGION) == ks && NumberColumn(data, SALES) == ss && NumberColumn(data, PROFIT) == ps
    ensures FirstKeys(data, REGION) == FirstOccurrences(ks)
    ensures MarginOf(data, k) == Margin(Total(ks, ss, k), Total(ks, ps, k))
  {
  }

  /** The category figures depend on the records only through their
      category, sales and discount columns. */
  lemma CategoryByColumns(data: seq<Record>, ks: seq<string>, ss: seq<real>, ds: seq<real>, k: string)
    requires KeyColumn(data, CATEGORY) == ks && NumberColumn(data, SALES) == ss && NumberColumn(data, DISCOUNT) == ds
    ensures FirstKeys(data, CATEGORY) == FirstOccurrences(ks)
    ensures CategoryFigures(data, k) == Finalise(Group(Total(ks, ss, k), Collect(ks, ds, k)))
  {
  }

  // Evaluating the column functions on short columns.

  function Part(ks: seq<string>, vs: seq<real>, key: string, i: nat): real
    requires i < |ks| == |vs|
  {
    if ks[i] == key then vs[i] else 0.0
  }

  function Picked(ks: seq<string>, vs: seq<real>, key: string, i: nat): seq<real>
    requires i < |ks| == |vs|
  {
    if ks[i] == key then [vs[i]] else []
  }

  lemma Total1(ks: seq<string>, vs: seq<real>, key: string)
    requires |ks| == |vs| == 1
    ensures Total(ks, vs, key) == Part(ks, vs, key, 0)
  {
    assert ks[..0] == [];
  }

  lemma Total2(ks: seq<string>, vs: seq<real>, key: string)
    requires |ks| == |vs| == 2
    ensures Total(ks, vs, key) == Part(ks, vs, key, 0) + Part(ks, vs, key, 1)
  {
    assert Total(ks[..0], vs[..0], key) == 0.0;
    TotalStep(ks, vs, 0);
    TotalStep(ks, vs, 1);
    assert ks[..2] == ks && vs[..2] == vs;
  }

  lemma Total3(ks: seq<string>, vs: seq<real>, key: string)
    requires |ks| == |vs| == 3
    ensures Total(ks, vs, key) == Part(ks, vs, key, 0) + Part(ks, vs, key, 1) + Part(ks, vs, key, 2)
  {
    assert Total(ks[..0], vs[..0], key) == 0.0;
    TotalStep(ks, vs, 0);
    TotalStep(ks, vs, 1);
    TotalStep(ks, vs, 2);
    assert ks[..3] == ks && vs[..3] == vs;
  }

  lemma Collect2(ks: seq<string>, vs: seq<real>, key: string)
    requires |ks| == |vs| == 2
    ensures Collect(ks, vs, key) == Picked(ks, vs, key, 0) + Picked(ks, vs, key, 1)
  {
    assert Collect(ks[..0], vs[..0], key) == [];
    CollectStep(ks, vs, 0);
    CollectStep(ks, vs, 1);
    assert ks[..2] == ks && vs[..2] == vs;
  }

  lemma Collect3(ks: seq<string>, vs: seq<real>, key: string)
    requires |ks| == |vs| == 3
    ensures Collect(ks, vs, key) == Picked(ks, vs, key, 0) + Picked(ks, vs, key, 1) + Picked(ks, vs, key, 2)
  {
    assert Collect(ks[..0], vs[..0], key) == [];
    CollectStep(ks, vs, 0);
    CollectStep(ks, vs, 1);
    CollectStep(ks, vs, 2);
    assert ks[..3] == ks && vs[..3] == vs;
  }

  /** Appending a key adds it to the key list unless it is blank or already
      there. */
  lemma FirstOccurrencesSnoc(ks: seq<string>, k: string)
    ensures FirstOccurrences(ks + [k])
         == var r := FirstOccurrences(ks);
            if k == "" || k in r then r else r + [k]
  {
    assert (ks + [k])[..|ks|] == ks;
  }

  lemma FirstOccurrences2(ks: seq<string>, a: string, b: string)
    requires ks == [a, b]
    ensures FirstOccurrences(ks)
         == var r1 := if a == "" then [] else [a];
            if b == "" || b in r1 then r1 else r1 + [b]
  {
    FirstOccurrencesSnoc([], a);
    assert [] + [a] == [a];
    FirstOccurrencesSnoc([a], b);
    assert [a] + [b] == ks;
  }

  /** Keys `a, a` give `a` alone. */
  lemma FirstOccurrencesSame(ks: seq<string>, a: string)
    requires ks == [a, a] && a != ""
    ensures FirstOccurrences(ks) == [a]
  {
    FirstOccurrences2(ks, a, a);
  }

  /** Keys `a, a, b` give `a` then `b`. */
  lemma FirstOccurrencesRepeat(ks: seq<string>, a: string, b: string)
    requires ks == [a, a, b] && a != "" && b != "" && a != b
    ensures FirstOccurrences(ks) == [a, b]
  {
    var twice := [a, a];
    FirstOccurrencesSame(twice, a);
    FirstOccurrencesSnoc(twice, b);
    assert twice + [b] == ks;
  }

  lemma Sum2(xs: seq<real>)
    requires |xs| == 2
    ensures Sum(xs) == xs[0] + xs[1]
  {
    var init := xs[..1];
    assert init[..0] == [];
    assert Sum(init) == Sum(init[..0]) + init[0];
  }

  /** A value with at most two fractional digits is its own `_round2`. */
  lemma Round2Exact(x: real)
    requires (x * 100.0).Floor as real == x * 100.0
    ensures Round2(x) == x
  {
    assert Shift(x, 1) == 10.0 * x;
    assert Shift(x, 2) == x * 100.0;
    RoundHalfUpOnGrid(x, 2);
  }

  /** A value with at most three fractional digits is its own `_round3`. */
  lemma Round3Exact(x: real)
    requires (x * 1000.0).Floor as real == x * 1000.0
    ensures Round3(x) == x
  {
    assert Shift(x, 1) == 10.0 * x;
    assert Shift(x, 2) == 100.0 * x;
    assert Shift(x, 3) == x * 1000.0;
    RoundHalfUpOnGrid(x, 3);
  }

  // The region tests.

  lemma TwoRegionsColumns(ks: seq<string>, ss: seq<real>, ps: seq<real>)
    requires ks == ["East", "East", "West"] && ss == [100.0, 300.0, 200.0] && ps == [20.0, 30.0, 40.0]
    ensures FirstOccurrences(ks) == ["East", "West"]
    ensures Margin(Total(ks, ss, "East"), Total(ks, ps, "East")) == 12.5
    ensures Margin(Total(ks, ss, "West"), Total(ks, ps, "West")) == 20.0
  {
    FirstOccurrencesRepeat(ks, "East", "West");
    Total3(ks, ss, "East");
    Total3(ks, ps, "East");
    Total3(ks, ss, "West");
    Total3(ks, ps, "West");
    MarginExact(400.0, 50.0, 12.5);
    MarginExact(200.0, 40.0, 20.0);
  }

  function TwoRegionsData(): seq<Record> {
    [map["Region" := "East", "Sales" := "100", "Profit" := "20"],
     map["Region" := "East", "Sales" := "300", "Profit" := "30"],
     map["Region" := "West", "Sales" := "200", "Profit" := "40"]]
  }

  lemma TwoRegionsRegions(data: seq<Record>)
    requires data == TwoRegionsData()
    ensures KeyColumn(data, REGION) == ["East", "East", "West"]
  {
    TrimBare(data[0][REGION]);
    TrimBare(data[1][REGION]);
    TrimBare(data[2][REGION]);
    KeyColumn3(data, REGION, "East", "East", "West");
  }

  lemma TwoRegionsSales(data: seq<Record>)
    requires data == TwoRegionsData()
    ensures NumberColumn(data, SALES) == [100.0, 300.0, 200.0]
  {
    Reads100(data[0][SALES]);
    Reads300(data[1][SALES]);
    Reads200(data[2][SALES]);
    NumberColumn3(data, SALES, 100.0, 300.0, 200.0);
  }

  lemma TwoRegionsProfits(data: seq<Record>)
    requires data == TwoRegionsData()
    ensures NumberColumn(data, PROFIT) == [20.0, 30.0, 40.0]
  {
    Reads20(data[0][PROFIT]);
    Reads30(data[1][PROFIT]);
    Reads40(data[2][PROFIT]);
    NumberColumn3(data, PROFIT, 20.0, 30.0, 40.0);
  }

  /** Two regions: East sells 100 and 300 for a profit of 20 and 30, West
      sells 200 for a profit of 40. East's margin is 50 / 400 = 12.5 percent
      and West's is 20 percent, and the regions come in that order. */
  lemma TwoRegionsScenario(data: seq<Record>)
    requires data == TwoRegionsData()
    ensures FirstKeys(data, REGION) == ["East", "West"]
    ensures MarginOf(data, "East") == 12.5 && MarginOf(data, "West") == 20.0
  {
    TwoRegionsRegions(data);
    TwoRegionsSales(data);
    TwoRegionsProfits(data);
    var ks, ss, ps := KeyColumn(data, REGION), NumberColumn(data, SALES), NumberColumn(data, PROFIT);
    RegionByColumns(data, ks, ss, ps, "East");
    RegionByColumns(data, ks, ss, ps, "West");
    TwoRegionsColumns(ks, ss, ps);
  }

  lemma ZeroSalesColumns(ks: seq<string>, ss: seq<real>, ps: seq<real>)
    requires ks == ["North"] && ss == [0.0] && ps == [10.0]
    ensures FirstOccurrences(ks) == ["North"]
    ensures Margin(Total(ks, ss, "North"), Total(ks, ps, "North")) == 0.0
  {
    assert ks[..0] == [];
    Total1(ks, ss, "North");
  }

  function ZeroSalesData(): seq<Record> {
    [map["Region" := "North", "Sales" := "0", "Profit" := "10"]]
  }

  lemma ZeroSalesRegions(data: seq<Record>)
    requires data == ZeroSalesData()
    ensures KeyColumn(data, REGION) == ["North"]
  {
    TrimBare(data[0][REGION]);
    KeyColumn1(data, REGION, "North");
  }

  lemma ZeroSalesSales(data: seq<Record>)
    requires data == ZeroSalesData()
    ensures NumberColumn(data, SALES) == [0.0]
  {
    Reads0(data[0][SALES]);
    NumberColumn1(data, SALES, 0.0);
  }

  lemma ZeroSalesProfits(data: seq<Record>)
    requires data == ZeroSalesData()
    ensures NumberColumn(data, PROFIT) == [10.0]
  {
    Reads10(data[0][PROFIT]);
    NumberColumn1(data, PROFIT, 10.0);
  }

  /** A region without sales: North sells 0 for a profit of 10, and its
      margin is 0 rather than a division by zero. */
  lemma ZeroSalesScenario(data: seq<Record>)
    requires data == ZeroSalesData()
    ensures FirstKeys(data, REGION) == ["North"]
    ensures MarginOf(data, "North") == 0.0
  {
    ZeroSalesRegions(data);
    ZeroSalesSales(data);
    ZeroSalesProfits(data);
    var ks, ss, ps := KeyColumn(data, REGION), NumberColumn(data, SALES), NumberColumn(data, PROFIT);
    RegionByColumns(data, ks, ss, ps, "North");
    ZeroSalesColumns(ks, ss, ps);
  }

  lemma NegativeProfitColumns(ks: seq<string>, ss: seq<real>, ps: seq<real>)
    requires ks == ["South", "South"] && ss == [100.0, 100.0] && ps == [-25.0, 5.0]
    ensures FirstOccurrences(ks) == ["South"]
    ensures Margin(Total(ks, ss, "South"), Total(ks, ps, "South")) == -10.0
  {
    FirstOccurrencesSame(ks, "South");
    Total2(ks, ss, "South");
    Total2(ks, ps, "South");
    MarginExact(200.0, -20.0, -10.0);
  }

  function NegativeProfitData(): seq<Record> {
    [map["Region" := "South", "Sales" := "100", "Profit" := "-25"],
     map["Region" := "South", "Sales" := "100", "Profit" := "5"]]
  }

  lemma NegativeProfitRegions(data: seq<Record>)
    requires data == NegativeProfitData()
    ensures KeyColumn(data, REGION) == ["South", "South"]
  {
    TrimBare(data[0][REGION]);
    TrimBare(data[1][REGION]);
    KeyColumn2(data, REGION, "South", "South");
  }

  lemma NegativeProfitSales(data: seq<Record>)
    requires data == NegativeProfitData()
    ensures NumberColumn(data, SALES) == [100.0, 100.0]
  {
    Reads100(data[0][SALES]);
    Reads100(data[1][SALES]);
    NumberColumn2(data, SALES, 100.0, 100.0);
  }

  lemma NegativeProfitProfits(data: seq<Record>)
    requires data == NegativeProfitData()
    ensures NumberColumn(data, PROFIT) == [-25.0, 5.0]
  {
    ToFloatNegativeExample(data[0][PROFIT]);
    Reads5(data[1][PROFIT]);
    NumberColumn2(data, PROFIT, -25.0, 5.0);
  }

  /** A loss: South sells 100 twice for a profit of -25 and 5; its margin is
      -20 / 200 = -10 percent. */
  lemma NegativeProfitScenario(data: seq<Record>)
    requires data == NegativeProfitData()
    ensures FirstKeys(data, REGION) == ["South"]
    ensures MarginOf(data, "South") == -10.0
  {
    NegativeProfitRegions(data);
    NegativeProfitSales(data);
    NegativeProfitProfits(data);
    var ks, ss, ps := KeyColumn(data, REGION), NumberColumn(data, SALES), NumberColumn(data, PROFIT);
    RegionByColumns(data, ks, ss, ps, "South");
    NegativeProfitColumns(ks, ss, ps);
  }

  lemma PaddedNumbersColumns(ks: seq<string>, ss: seq<real>, ps: seq<real>)
    requires ks == ["Central", "Central"] && ss == [250.0, 250.0] && ps == [25.0, 25.0]
    ensures FirstOccurrences(ks) == ["Central"]
    ensures Margin(Total(ks, ss, "Central"), Total(ks, ps, "Central")) == 10.0
  {
    FirstOccurrencesSame(ks, "Central");
    Total2(ks, ss, "Central");
    Total2(ks, ps, "Central");
    MarginExact(500.0, 50.0, 10.0);
  }

  function PaddedNumbersData(): seq<Record> {
    [map["Region" := "Central", "Sales" := " 250.0 ", "Profit" := " 25 "],
     map["Region" := "Central", "Sales" := "250", "Profit" := "25.0"]]
  }

  lemma PaddedNumbersRegions(data: seq<Record>)
    requires data == PaddedNumbersData()
    ensures KeyColumn(data, REGION) == ["Central", "Central"]
  {
    TrimBare(data[0][REGION]);
    TrimBare(data[1][REGION]);
    KeyColumn2(data, REGION, "Central", "Central");
  }

  lemma PaddedNumbersSales(data: seq<Record>)
    requires data == PaddedNumbersData()
    ensures NumberColumn(data, SALES) == [250.0, 250.0]
  {
    ToFloatPaddedExample(data[0][SALES]);
    Reads250(data[1][SALES]);
    NumberColumn2(data, SALES, 250.0, 250.0);
  }

  lemma PaddedNumbersProfits(data: seq<Record>)
    requires data == PaddedNumbersData()
    ensures NumberColumn(data, PROFIT) == [25.0, 25.0]
  {
    PaddedWholeReads(data[0][PROFIT]);
    FractionReads(data[1][PROFIT]);
    NumberColumn2(data, PROFIT, 25.0, 25.0);
  }

  /** Messy numbers: Central's sales `" 250.0 "` and `"250"` and profits
      `" 25 "` and `"25.0"` read as 250 and 25 each (by the reading lemmas of
      module `Readings`), and its margin is 10 percent. */
  lemma PaddedNumbersScenario(data: seq<Record>)
    requires data == PaddedNumbersData()
    ensures FirstKeys(data, REGION) == ["Central"]
    ensures MarginOf(data, "Central") == 10.0
  {
    PaddedNumbersRegions(data);
    PaddedNumbersSales(data);
    PaddedNumbersProfits(data);
    var ks, ss, ps := KeyColumn(data, REGION), NumberColumn(data, SALES), NumberColumn(data, PROFIT);
    RegionByColumns(data, ks, ss, ps, "Central");
    PaddedNumbersColumns(ks, ss, ps);
  }

  // The category tests.

  /** The figures of a group whose total and mean discount have at most two
      and three fractional digits are those values themselves. */
  lemma FinaliseExact(g: Group, total: real, avg: real)
    requires g.totalSales == total && (total * 100.0).Floor as real == total * 100.0
    requires Mean(g.discounts) == avg && (avg * 1000.0).Floor as real == avg * 1000.0
    ensures Finalise(g) == Stats(total, avg)
  {
    Round2Exact(total);
    Round3Exact(avg);
  }

  lemma TwoCategoriesColumns(ks: seq<string>, ss: seq<real>, ds: seq<real>)
    requires ks == ["Furniture", "Furniture", "Technology"] && ss == [100.0, 300.0, 50.0] && ds == [0.1, 0.0, 0.2]
    ensures FirstOccurrences(ks) == ["Furniture", "Technology"]
    ensures Finalise(Group(Total(ks, ss, "Furniture"), Collect(ks, ds, "Furniture"))) == Stats(400.0, 0.05)
    ensures Finalise(Group(Total(ks, ss, "Technology"), Collect(ks, ds, "Technology"))) == Stats(50.0, 0.2)
  {
    FirstOccurrencesRepeat(ks, "Furniture", "Technology");
    Total3(ks, ss, "Furniture");
    Collect3(ks, ds, "Furniture");
    Total3(ks, ss, "Technology");
    Collect3(ks, ds, "Technology");
    var furniture := Collect(ks, ds, "Furniture");
    assert furniture == [0.1, 0.0];
    Sum2(furniture);
    FinaliseExact(Group(Total(ks, ss, "Furniture"), furniture), 400.0, 0.05);
    var technology := Collect(ks, ds, "Technology");
    assert technology == [0.2];
    assert Sum(technology) == 0.2 by { assert technology[..0] == []; }
    FinaliseExact(Group(Total(ks, ss, "Technology"), technology), 50.0, 0.2);
  }

  function TwoCategoriesData(): seq<Record> {
    [map["Category" := "Furniture", "Sales" := "100", "Discount" := "0.1"],
     map["Category" := "Furniture", "Sales" := "300", "Discount" := "0.0"],
     map["Category" := "Technology", "Sales" := "50", "Discount" := "0.2"]]
  }

  lemma TwoCategoriesCategories(data: seq<Record>)
    requires data == TwoCategoriesData()
    ensures KeyColumn(data, CATEGORY) == ["Furniture", "Furniture", "Technology"]
  {
    TrimBare(data[0][CATEGORY]);
    TrimBare(data[1][CATEGORY]);
    TrimBare(data[2][CATEGORY]);
    KeyColumn3(data, CATEGORY, "Furniture", "Furniture", "Technology");
  }

  lemma TwoCategoriesSales(data: seq<Record>)
    requires data == TwoCategoriesData()
    ensures NumberColumn(data, SALES) == [100.0, 300.0, 50.0]
  {
    Reads100(data[0][SALES]);
    Reads300(data[1][SALES]);
    Reads50(data[2][SALES]);
    NumberColumn3(data, SALES, 100.0, 300.0, 50.0);
  }

  lemma TwoCategoriesDiscounts(data: seq<Record>)
    requires data == TwoCategoriesData()
    ensures NumberColumn(data, DISCOUNT) == [0.1, 0.0, 0.2]
  {
    ReadsDiscount1(data[0][DISCOUNT]);
    ReadsNoDiscount(data[1][DISCOUNT]);
    ReadsDiscount2(data[2][DISCOUNT]);
    NumberColumn3(data, DISCOUNT, 0.1, 0.0, 0.2);
  }

  /** Two categories: Furniture sells 100 and 300 at discounts 0.1 and 0.0,
      Technology sells 50 at 0.2. Furniture totals 400 with a mean discount
      of 0.05, Technology 50 with 0.2, and they come in that order. */
  lemma TwoCategoriesScenario(data: seq<Record>)
    requires data == TwoCategoriesData()
    ensures FirstKeys(data, CATEGORY) == ["Furniture", "Technology"]
    ensures CategoryFigures(data, "Furniture") == Stats(400.0, 0.05)
    ensures CategoryFigures(data, "Technology") == Stats(50.0, 0.2)
  {
    TwoCategoriesCategories(data);
    TwoCategoriesSales(data);
    TwoCategoriesDiscounts(data);
    var ks, ss, ds := KeyColumn(data, CATEGORY), NumberColumn(data, SALES), NumberColumn(data, DISCOUNT);
    CategoryByColumns(data, ks, ss, ds, "Furniture");
    CategoryByColumns(data, ks, ss, ds, "Technology");
    TwoCategoriesColumns(ks, ss, ds);
  }

  lemma BlankCategoryColumns(ks: seq<string>, ss: seq<real>, ds: seq<real>)
    requires ks == ["", "Office Supplies"] && ss == [100.0, 100.0] && ds == [0.3, 0.0]
    ensures FirstOccurrences(ks) == ["Office Supplies"]
    ensures Finalise(Group(Total(ks, ss, "Office Supplies"), Collect(ks, ds, "Office Supplies"))) == Stats(100.0, 0.0)
  {
    FirstOccurrences2(ks, "", "Office Supplies");
    BlankCategoryFigures(ks, ss, ds);
  }

  lemma BlankCategoryFigures(ks: seq<string>, ss: seq<real>, ds: seq<real>)
    requires ks == ["", "Office Supplies"] && ss == [100.0, 100.0] && ds == [0.3, 0.0]
    ensures Finalise(Group(Total(ks, ss, "Office Supplies"), Collect(ks, ds, "Office Supplies"))) == Stats(100.0, 0.0)
  {
    Total2(ks, ss, "Office Supplies");
    Collect2(ks, ds, "Office Supplies");
    var office := Collect(ks, ds, "Office Supplies");
    assert office == [0.0];
    assert Sum(office) == 0.0 by { assert office[..0] == []; }
    FinaliseExact(Group(Total(ks, ss, "Office Supplies"), office), 100.0, 0.0);
  }

  function BlankCategoryData(): seq<Record> {
    [map["Category" := " ", "Sales" := "100", "Discount" := "0.3"],
     map["Category" := "Office Supplies", "Sales" := "100", "Discount" := "0.0"]]
  }

  lemma BlankCategoryCategories(data: seq<Record>)
    requires data == BlankCategoryData()
    ensures KeyColumn(data, CATEGORY) == ["", "Office Supplies"]
  {
    assert AllSpace(data[0][CATEGORY]);
    TrimBare(data[1][CATEGORY]);
    KeyColumn2(data, CATEGORY, "", "Office Supplies");
  }

  lemma BlankCategorySales(data: seq<Record>)
    requires data == BlankCategoryData()
    ensures NumberColumn(data, SALES) == [100.0, 100.0]
  {
    Reads100(data[0][SALES]);
    Reads100(data[1][SALES]);
    NumberColumn2(data, SALES, 100.0, 100.0);
  }

  lemma BlankCategoryDiscounts(data: seq<Record>)
    requires data == BlankCategoryData()
    ensures NumberColumn(data, DISCOUNT) == [0.3, 0.0]
  {
    ReadsDiscount3(data[0][DISCOUNT]);
    ReadsNoDiscount(data[1][DISCOUNT]);
    NumberColumn2(data, DISCOUNT, 0.3, 0.0);
  }

  /** A blank category: the record whose category is `" "` (which strips to
      the empty key) is skipped, sales and discount included, and only Office
      Supplies is reported, with total 100 and mean discount 0. */
  lemma BlankCategoryScenario(data: seq<Record>)
    requires data == BlankCategoryData()
    ensures FirstKeys(data, CATEGORY) == ["Office Supplies"]
    ensures " " !in FirstKeys(data, CATEGORY)
    ensures CategoryFigures(data, "Office Supplies") == Stats(100.0, 0.0)
  {
    BlankCategoryCategories(data);
    BlankCategorySales(data);
    BlankCategoryDiscounts(data);
    var ks, ss, ds := KeyColumn(data, CATEGORY), NumberColumn(data, SALES), NumberColumn(data, DISCOUNT);
    CategoryByColumns(data, ks, ss, ds, "Office Supplies");
    BlankCategoryColumns(ks, ss, ds);
  }

  lemma RoundingColumns(ks: seq<string>, ss: seq<real>, ds: seq<real>)
    requires ks == ["Tech", "Tech"] && ss == [33.335, 66.665] && ds == [0.12345, 0.12355]
    ensures FirstOccurrences(ks) == ["Tech"]
    ensures Finalise(Group(Total(ks, ss, "Tech"), Collect(ks, ds, "Tech"))) == Stats(100.0, 0.124)
  {
    FirstOccurrencesSame(ks, "Tech");
    Total2(ks, ss, "Tech");
    Collect2(ks, ds, "Tech");
    var tech := Collect(ks, ds, "Tech");
    assert tech == ds;
    Sum2(tech);
    assert Mean(tech) == 0.1235;
    HalfUpTieThousandths();
    Round2Exact(100.0);
  }

  function RoundingData(): seq<Record> {
    [map["Category" := "Tech", "Sales" := "33.335", "Discount" := "0.12345"],
     map["Category" := "Tech", "Sales" := "66.665", "Discount" := "0.12355"]]
  }

  lemma RoundingCategories(data: seq<Record>)
    requires data == RoundingData()
    ensures KeyColumn(data, CATEGORY) == ["Tech", "Tech"]
  {
    TrimBare(data[0][CATEGORY]);
    TrimBare(data[1][CATEGORY]);
    KeyColumn2(data, CATEGORY, "Tech", "Tech");
  }

  lemma RoundingSales(data: seq<Record>)
    requires data == RoundingData()
    ensures NumberColumn(data, SALES) == [33.335, 66.665]
  {
    SmallSalesReads(data[0][SALES]);
    LargeSalesReads(data[1][SALES]);
    NumberColumn2(data, SALES, 33.335, 66.665);
  }

  lemma RoundingDiscounts(data: seq<Record>)
    requires data == RoundingData()
    ensures NumberColumn(data, DISCOUNT) == [0.12345, 0.12355]
  {
    LowDiscountReads(data[0][DISCOUNT]);
    HighDiscountReads(data[1][DISCOUNT]);
    NumberColumn2(data, DISCOUNT, 0.12345, 0.12355);
  }

  /** Rounding at the tie: Tech sells 33.335 and 66.665, exactly 100, at
      discounts 0.12345 and 0.12355, whose mean 0.1235 is halfway between
      0.123 and 0.124 and goes up to 0.124. */
  lemma RoundingScenario(data: seq<Record>)
    requires data == RoundingData()
    ensures FirstKeys(data, CATEGORY) == ["Tech"]
    ensures CategoryFigures(data, "Tech") == Stats(100.0, 0.124)
  {
    RoundingCategories(data);
    RoundingSales(data);
    RoundingDiscounts(data);
    var ks, ss, ds := KeyColumn(data, CATEGORY), NumberColumn(data, SALES), NumberColumn(data, DISCOUNT);
    CategoryByColumns(data, ks, ss, ds, "Tech");
    RoundingColumns(ks, ss, ds);
  }

  lemma MissingDiscountColumns(ks: seq<string>, ss: seq<real>, ds: seq<real>)
    requires ks == ["Office Supplies", "Office Supplies"] && ss == [100.0, 200.0] && ds == [0.0, 0.2]
    ensures FirstOccurrences(ks) == ["Office Supplies"]
    ensures Finalise(Group(Total(ks, ss, "Office Supplies"), Collect(ks, ds, "Office Supplies"))) == Stats(300.0, 0.1)
  {
    FirstOccurrencesSame(ks, "Office Supplies");
    Total2(ks, ss, "Office Supplies");
    Collect2(ks, ds, "Office Supplies");
    var office := Collect(ks, ds, "Office Supplies");
    assert office == [0.0, 0.2];
    Sum2(office);
    FinaliseExact(Group(Total(ks, ss, "Office Supplies"), office), 300.0, 0.1);
  }

  function MissingDiscountData(): seq<Record> {
    [map["Category" := "Office Supplies", "Sales" := "100", "Discount" := ""],
     map["Category" := "Office Supplies", "Sales" := "200", "Discount" := "0.2"]]
  }

  lemma MissingDiscountCategories(data: seq<Record>)
    requires data == MissingDiscountData()
    ensures KeyColumn(data, CATEGORY) == ["Office Supplies", "Office Supplies"]
  {
    TrimBare(data[0][CATEGORY]);
    TrimBare(data[1][CATEGORY]);
    KeyColumn2(data, CATEGORY, "Office Supplies", "Office Supplies");
  }

  lemma MissingDiscountSales(data: seq<Record>)
    requires data == MissingDiscountData()
    ensures NumberColumn(data, SALES) == [100.0, 200.0]
  {
    Reads100(data[0][SALES]);
    Reads200(data[1][SALES]);
    NumberColumn2(data, SALES, 100.0, 200.0);
  }

  lemma MissingDiscountDiscounts(data: seq<Record>)
    requires data == MissingDiscountData()
    ensures NumberColumn(data, DISCOUNT) == [0.0, 0.2]
  {
    assert AllSpace(data[0][DISCOUNT]);
    ReadsDiscount2(data[1][DISCOUNT]);
    NumberColumn2(data, DISCOUNT, 0.0, 0.2);
  }

  /** A missing discount: Office Supplies sells 100 with an empty discount
      field, which reads as 0 (by the contract of `ToFloat`), and 200 at 0.2.
      The empty discount still counts in the mean: the total is 300 and the
      mean discount 0.1, not 0.2. */
  lemma MissingDiscountScenario(data: seq<Record>)
    requires data == MissingDiscountData()
    ensures FirstKeys(data, CATEGORY) == ["Office Supplies"]
    ensures CategoryFigures(data, "Office Supplies") == Stats(300.0, 0.1)
  {
    MissingDiscountCategories(data);
    MissingDiscountSales(data);
    MissingDiscountDiscounts(data);
    var ks, ss, ds := KeyColumn(data, CATEGORY), NumberColumn(data, SALES), NumberColumn(data, DISCOUNT);
    CategoryByColumns(data, ks, ss, ds, "Office Supplies");
    MissingDiscountColumns(ks, ss, ds);
  }
}
