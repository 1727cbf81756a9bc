/** `calculate_sales_and_avg_discount_by_category`: the total sales of each
    product category, rounded half-up to two decimals, and its mean discount,
    rounded half-up to three decimals. Records with a blank category are
    skipped; every other record adds its sales to its category's total and
    contributes exactly one discount to its category's mean, a missing or
    unreadable discount counting as 0. */
module CategoryStats {
  import opened Records
  import opened Dicts
  import opened Rounding

  /** The running state of one category: its sales so far and the discount of
      each of its records so far, in input order. */
  datatype Group = Group(totalSales: real, discounts: seq<real>)

  /** What is reported for one category. */
  datatype Stats = Stats(totalSales: real, avgDiscount: real)

  /** The mean of a list of discounts, with the defensive 0 for an empty list:
      otherwise the value that, taken once per element, adds up to the sum. */
  function Mean(xs: seq<real>): (m: real)
    ensures xs == [] ==> m == 0.0
    ensures xs != [] ==> m * |xs| as real == Sum(xs)
  {
    if xs == [] then 0.0 else Sum(xs) / |xs| as real
  }

  /** The reported figures of a category whose running state is `g`. */
  function Finalise(g: Group): (s: Stats)
    ensures (s.totalSales * 100.0).Floor as real == s.totalSales * 100.0
    ensures (s.avgDiscount * 1000.0).Floor as real == s.avgDiscount * 1000.0
    ensures -0.005 <= s.totalSales - g.totalSales <= 0.005
    ensures -0.0005 <= s.avgDiscount - Mean(g.discounts) <= 0.0005
  {
    Stats(Round2(g.totalSales), Round3(Mean(g.discounts)))
  }

  /** The state of every category after reading the first `i` entries of the
      category, sales and discount columns. */
  ghost predicate GroupsUpTo(categories: seq<string>, sales: seq<real>, discounts: seq<real>, i: nat, groups: Dict<Group>)
    requires i <= |categories| == |sales| == |discounts|
  {
    && groups.Valid()
    && groups.keys == FirstOccurrences(categories[..i])
    && forall k :: k in groups.entries ==>
         groups.entries[k] == Group(Total(categories[..i], sales[..i], k), Collect(categories[..i], discounts[..i], k))
  }

  /** The state of every category after reading all of `data`. */
  ghost predicate AccumulatedGroups(data: seq<Record>, groups: Dict<Group>) {
    GroupsUpTo(KeyColumn(data, CATEGORY), NumberColumn(data, SALES), NumberColumn(data, DISCOUNT), |data|, groups)
  }

  /** A record with a blank category leaves every category as it is. */
  lemma SkipRecord(categories: seq<string>, sales: seq<real>, discounts: seq<real>, i: nat, groups: Dict<Group>)
    requires i < |categories| == |sales| == |discounts|
    requires GroupsUpTo(categories, sales, discounts, i, groups) && categories[i] == ""
    ensures GroupsUpTo(categories, sales, discounts, i + 1, groups)
  {
    TotalStep(categories, sales, i);
    CollectStep(categories, discounts, i);
    FirstOccurrencesStep(categories, i);
  }

  /** Adding a record's sales to its category and appending its discount,
      after creating the category empty when it is new, gives the state over
      one more record. */
  lemma AddRecord(categories: seq<string>, sales: seq<real>, discounts: seq<real>, i: nat,
                  category: string, s: real, d: real,
                  before: Dict<Group>, created: Dict<Group>, g: Group, after: Dict<Group>)
    requires i < |categories| == |sales| == |discounts|
    requires category == categories[i] && s == sales[i] && d == discounts[i]
    requires GroupsUpTo(categories, sales, discounts, i, before) && category != ""
    requires created == if category in before.entries then before else before.Set(category, Group(0.0, []))
    requires category in created.entries && g == created.entries[category]
    requires after == created.Set(category, Group(g.totalSales + s, g.discounts + [d]))
    ensures GroupsUpTo(categories, sales, discounts, i + 1, after)
  {
    FirstOccurrencesStep(categories, i);
    assert after.keys == FirstOccurrences(categories[..i + 1]);
    AddRecordGroups(categories, sales, discounts, i, category, s, d, before, created, g, after);
  }

  lemma AddRecordGroups(categories: seq<string>, sales: seq<real>, discounts: seq<real>, i: nat,
                        category: string, s: real, d: real,
                        before: Dict<Group>, created: Dict<Group>, g: Group, after: Dict<Group>)
    requires i < |categories| == |sales| == |discounts|
    requires category == categories[i] && s == sales[i] && d == discounts[i]
    requires GroupsUpTo(categories, sales, discounts, i, before) && category != ""
    requires created == if category in before.entries then before else before.Set(category, Group(0.0, []))
    requires category in created.entries && g == created.entries[category]
    requires after == created.Set(category, Group(g.totalSales + s, g.discounts + [d]))
    ensures forall k :: k in after.entries ==>
      after.entries[k] == Group(Total(categories[..i + 1], sales[..i + 1], k), Collect(categories[..i + 1], discounts[..i + 1], k))
  {
    TotalStep(categories, sales, i);
    CollectStep(categories, discounts, i);
    if category !in before.entries {
      Absent(categories[..i], sales[..i], category);
      Absent(categories[..i], discounts[..i], category);
    }
  }

  /** The first loop: adds each record's sales to its category and appends
      its discount, creating the category at its first record. */
  method AccumulateGroups(data: seq<Record>) returns (groups: Dict<Group>)
    ensures AccumulatedGroups(data, groups)
  {
    ghost var categories := KeyColumn(data, CATEGORY);
    ghost var salesColumn := NumberColumn(data, SALES);
    ghost var discountColumn := NumberColumn(data, DISCOUNT);
    groups := Empty();
    for i := 0 to |data|
      invariant GroupsUpTo(categories, salesColumn, discountColumn, i, groups)
    {
      var row := data[i];
      var category := KeyOf(row, CATEGORY);
      if category == "" {
        SkipRecord(categories, salesColumn, discountColumn, i, groups);
        continue;
      }
      var sales := NumberOf(row, SALES);
      var discount := NumberOf(row, DISCOUNT);
      assert categories[i] == category && salesColumn[i] == sales && discountColumn[i] == discount;
      ghost var before := groups;
      if category !in groups.entries {
        groups := groups.Set(category, Group(0.0, []));
      }
      ghost var created := groups;
      var g := groups.entries[category];
      groups := groups.Set(category, Group(g.totalSales + sales, g.discounts + [discount]));
      AddRecord(categories, salesColumn, discountColumn, i, category, sales, discount, before, created, g, groups);
    }
  }

  /** The figures of the first `j` categories of `groups`, in the same order. */
  ghost predicate StatsUpTo(groups: Dict<Group>, j: nat, result: Dict<Stats>)
    requires j <= |groups.keys|
  {
    && result.Valid()
    && result.keys == groups.keys[..j]
    && forall k :: k in result.entries ==> k in groups.entries && result.entries[k] == Finalise(groups.entries[k])
  }

  /** The second loop: the figures of every category, in the order of the
      groups' keys. */
  method ComputeStats(groups: Dict<Group>) returns (result: Dict<Stats>)
    requires groups.Valid()
    ensures StatsUpTo(groups, |groups.keys|, result)
  {
    result := Empty();
    for j := 0 to |groups.keys|
      invariant StatsUpTo(groups, j, result)
    {
      var category := groups.keys[j];
      var g := groups.entries[category];
      var avg := if g.discounts != [] then Sum(g.discounts) / |g.discounts| as real else 0.0;
      var stats := Stats(Round2(g.totalSales), Round3(avg));
      InsertNext(groups, j, result, stats);
      result := result.Set(category, stats);
    }
  }

  /** The figures a category gets from the whole input: its total sales and
      the mean of its records' discounts, one discount per record. */
  function CategoryFigures(data: seq<Record>, k: string): Stats {
    Finalise(Group(SumWhere(data, CATEGORY, k, SALES), ValuesWhere(data, CATEGORY, k, DISCOUNT)))
  }

  /** Once every category has its figures, they are those of the input. */
  lemma StatsComplete(data: seq<Record>, groups: Dict<Group>, result: Dict<Stats>)
    requires AccumulatedGroups(data, groups) && StatsUpTo(groups, |groups.keys|, result)
    ensures result.Valid()
    ensures result.keys == FirstKeys(data, CATEGORY)
    ensures forall k :: k in result.entries ==> result.entries[k] == CategoryFigures(data, k)
  {
    var categories := KeyColumn(data, CATEGORY);
    var salesColumn, discountColumn := NumberColumn(data, SALES), NumberColumn(data, DISCOUNT);
    assert categories[..|data|] == categories;
    assert salesColumn[..|data|] == salesColumn;
    assert discountColumn[..|data|] == discountColumn;
    assert groups.keys[..|groups.keys|] == groups.keys;
  }

  /** The category figures: one entry per non-blank category, in the order in
      which the categories first occur, each holding the category's total
      sales and mean discount over all of its records. */
  method CalculateSalesAndAvgDiscountByCategory(data: seq<Record>) returns (result: Dict<Stats>)
    ensures result.Valid()
    ensures result.keys == FirstKeys(data, CATEGORY)
    ensures forall k :: k in result.entries ==> result.entries[k] == CategoryFigures(data, k)
  {
    var groups := AccumulateGroups(data);
    result := ComputeStats(groups);
    StatsComplete(data, groups, result);
  }

  /** The figures of a category that occurs: the total is its summed sales
      rounded to two places, and the mean discount is its summed discounts
      over its number of records, rounded to three places, so a record
      without a discount still counts in the mean. */
  lemma CategoryFiguresSpec(data: seq<Record>, k: string)
    requires k in FirstKeys(data, CATEGORY)
    ensures CategoryFigures(data, k).totalSales == Round2(SumWhere(data, CATEGORY, k, SALES))
    ensures CountWhere(data, CATEGORY, k) > 0
    ensures CategoryFigures(data, k).avgDiscount
         == Round3(SumWhere(data, CATEGORY, k, DISCOUNT) / CountWhere(data, CATEGORY, k) as real)
  {
    FirstKeysCounted(data, CATEGORY, k, DISCOUNT);
  }

  /** The result of the aggregation is determined by the input alone: two
      results that both meet its contract are equal, so calling it twice on
      the same records gives equal dictionaries. */
  lemma ResultDetermined(data: seq<Record>, r1: Dict<Stats>, r2: Dict<Stats>)
    requires r1.Valid() && r1.keys == FirstKeys(data, CATEGORY)
    requires forall k :: k in r1.entries ==> r1.entries[k] == CategoryFigures(data, k)
    requires r2.Valid() && r2.keys == FirstKeys(data, CATEGORY)
    requires forall k :: k in r2.entries ==> r2.entries[k] == CategoryFigures(data, k)
    ensures r1 == r2
  {
    DictEqual(r1, r2);
  }
}
