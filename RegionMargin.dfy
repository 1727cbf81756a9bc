/** `calculate_avg_profit_margin_by_region`: the profit margin of each region,
    in percent, rounded half-up to two decimals. Records with a blank region
    are skipped; a region whose total sales are not positive gets a margin of
    0 instead of a division. */
module RegionMargin {
  import opened Records
  import opened Dicts
  import opened Rounding

  /** The running sums of one region. */
  datatype Totals = Totals(sales: real, profit: real)

  /** The margin reported for a region with the given total sales and profit:
      0 when there are no positive sales, otherwise the percentage of profit
      over sales, rounded to a whole number of hundredths, which is within
      half a hundredth of the exact percentage and has the sign of the
      profit. */
  function Margin(sales: real, profit: real): (m: real)
    ensures sales <= 0.0 ==> m == 0.0
    ensures sales > 0.0 ==> (m * 100.0).Floor as real == m * 100.0
    ensures sales > 0.0 ==> -0.005 <= m - profit / sales * 100.0 <= 0.005
    ensures sales > 0.0 && profit >= 0.0 ==> m >= 0.0
    ensures sales > 0.0 && profit <= 0.0 ==> m <= 0.0
  {
    if sales <= 0.0 then 0.0 else PercentSign(sales, profit); Round2(profit / sales * 100.0)
  }

  /** The rounded percentage has the sign of the profit. */
  lemma PercentSign(sales: real, profit: real)
    requires sales > 0.0
    ensures profit >= 0.0 ==> Round2(profit / sales * 100.0) >= 0.0
    ensures profit <= 0.0 ==> Round2(profit / sales * 100.0) <= 0.0
  {
    var percent := profit / sales * 100.0;
    RoundHalfUpOnGrid(0.0, 2);
    if profit >= 0.0 {
      assert profit / sales >= 0.0;
      RoundHalfUpMonotonic(0.0, percent, 2);
    }
    if profit <= 0.0 {
      assert profit / sales <= 0.0;
      RoundHalfUpMonotonic(percent, 0.0, 2);
    }
  }

  /** A margin that is already a whole number of hundredths of a percent is
      reported exactly. */
  lemma MarginExact(sales: real, profit: real, percent: real)
    requires sales > 0.0 && percent == profit / sales * 100.0
    requires (percent * 100.0).Floor as real == percent * 100.0
    ensures Margin(sales, profit) == percent
  {
    assert Shift(percent, 1) == 10.0 * percent;
    assert Shift(percent, 2) == percent * 100.0;
    RoundHalfUpOnGrid(percent, 2);
  }

  /** The margin a region gets from the whole input: the margin of its sales
      and profit summed over exactly the records of that region. */
  function MarginOf(data: seq<Record>, region: string): real {
    Margin(SumWhere(data, REGION, region, SALES), SumWhere(data, REGION, region, PROFIT))
  }

  /** The totals of every region after reading the records of `data`. */
  ghost predicate AccumulatedTotals(data: seq<Record>, totals: Dict<Totals>) {
    var n := |data|;
    TotalsUpTo(KeyColumn(data, REGION), NumberColumn(data, SALES), NumberColumn(data, PROFIT), n, totals)
  }

  /** The totals of every region after reading the first `i` entries of the
      region, sales and profit columns. */
  ghost predicate TotalsUpTo(regions: seq<string>, sales: seq<real>, profits: seq<real>, i: nat, totals: Dict<Totals>)
    requires i <= |regions| == |sales| == |profits|
  {
    && totals.Valid()
    && totals.keys == FirstOccurrences(regions[..i])
    && forall k :: k in totals.entries ==>
         totals.entries[k] == Totals(Total(regions[..i], sales[..i], k), Total(regions[..i], profits[..i], k))
  }

  /** A record with a blank region leaves the totals as they are. */
  lemma SkipRecord(regions: seq<string>, sales: seq<real>, profits: seq<real>, i: nat, totals: Dict<Totals>)
    requires i < |regions| == |sales| == |profits|
    requires TotalsUpTo(regions, sales, profits, i, totals) && regions[i] == ""
    ensures TotalsUpTo(regions, sales, profits, i + 1, totals)
  {
    TotalStep(regions, sales, i);
    TotalStep(regions, profits, i);
    FirstOccurrencesStep(regions, i);
  }

  /** Adding a record's sales and profit to its region, after creating the
      region's totals at zero when it is new, gives the totals over one more
      record. */
  lemma AddRecord(regions: seq<string>, sales: seq<real>, profits: seq<real>, i: nat,
                  region: string, s: real, p: real,
                  before: Dict<Totals>, created: Dict<Totals>, t: Totals, after: Dict<Totals>)
    requires i < |regions| == |sales| == |profits|
    requires region == regions[i] && s == sales[i] && p == profits[i]
    requires TotalsUpTo(regions, sales, profits, i, before) && region != ""
    requires created == if region in before.entries then before else before.Set(region, Totals(0.0, 0.0))
    requires region in created.entries && t == created.entries[region]
    requires after == created.Set(region, Totals(t.sales + s, t.profit + p))
    ensures TotalsUpTo(regions, sales, profits, i + 1, after)
  {
    FirstOccurrencesStep(regions, i);
    assert after.keys == FirstOccurrences(regions[..i + 1]);
    AddRecordTotals(regions, sales, profits, i, region, s, p, before, created, t, after);
  }

  lemma AddRecordTotals(regions: seq<string>, sales: seq<real>, profits: seq<real>, i: nat,
                        region: string, s: real, p: real,
                        before: Dict<Totals>, created: Dict<Totals>, t: Totals, after: Dict<Totals>)
    requires i < |regions| == |sales| == |profits|
    requires region == regions[i] && s == sales[i] && p == profits[i]
    requires TotalsUpTo(regions, sales, profits, i, before) && region != ""
    requires created == if region in before.entries then before else before.Set(region, Totals(0.0, 0.0))
    requires region in created.entries && t == created.entries[region]
    requires after == created.Set(region, Totals(t.sales + s, t.profit + p))
    ensures forall k :: k in after.entries ==>
      after.entries[k] == Totals(Total(regions[..i + 1], sales[..i + 1], k), Total(regions[..i + 1], profits[..i + 1], k))
  {
    TotalStep(regions, sales, i);
    TotalStep(regions, profits, i);
    if region !in before.entries {
      Absent(regions[..i], sales[..i], region);
      Absent(regions[..i], profits[..i], region);
    }
  }

  /** The first loop: adds each record's sales and profit to its region,
      creating the region's totals at its first record. */
  method AccumulateTotals(data: seq<Record>) returns (totals: Dict<Totals>)
    ensures AccumulatedTotals(data, totals)
  {
    ghost var regions := KeyColumn(data, REGION);
    ghost var salesColumn := NumberColumn(data, SALES);
    ghost var profitColumn := NumberColumn(data, PROFIT);
    totals := Empty();
    for i := 0 to |data|
      invariant TotalsUpTo(regions, salesColumn, profitColumn, i, totals)
    {
      var row := data[i];
      var region := KeyOf(row, REGION);
      var sales := NumberOf(row, SALES);
      var profit := NumberOf(row, PROFIT);
      assert regions[i] == region && salesColumn[i] == sales && profitColumn[i] == profit;
      if region == "" {
        SkipRecord(regions, salesColumn, profitColumn, i, totals);
        continue;
      }
      ghost var before := totals;
      if region !in totals.entries {
        totals := totals.Set(region, Totals(0.0, 0.0));
      }
      ghost var created := totals;
      var t := totals.entries[region];
      totals := totals.Set(region, Totals(t.sales + sales, t.profit + profit));
      AddRecord(regions, salesColumn, profitColumn, i, region, sales, profit, before, created, t, totals);
    }
  }

  /** The margins of the first `j` regions of `totals`, in the same order. */
  ghost predicate MarginsUpTo(totals: Dict<Totals>, j: nat, result: Dict<real>)
    requires j <= |totals.keys|
  {
    && result.Valid()
    && result.keys == totals.keys[..j]
    && forall k :: k in result.entries ==>
         k in totals.entries && result.entries[k] == Margin(totals.entries[k].sales, totals.entries[k].profit)
  }

  /** Recording the margin of the next region extends the margins by one. */
  lemma AddMargin(totals: Dict<Totals>, j: nat, region: string, m: real, result: Dict<real>, after: Dict<real>)
    requires totals.Valid() && j < |totals.keys| && region == totals.keys[j]
    requires MarginsUpTo(totals, j, result)
    requires m == Margin(totals.entries[region].sales, totals.entries[region].profit)
    requires after == result.Set(region, m)
    ensures MarginsUpTo(totals, j + 1, after)
  {
    InsertNext(totals, j, result, m);
  }

  /** Once every region has its margin, the margins are those of the input. */
  lemma MarginsComplete(data: seq<Record>, totals: Dict<Totals>, result: Dict<real>)
    requires AccumulatedTotals(data, totals) && MarginsUpTo(totals, |totals.keys|, result)
    ensures result.Valid()
    ensures result.keys == FirstKeys(data, REGION)
    ensures forall k :: k in result.entries ==>
      result.entries[k] == MarginOf(data, k)
  {
    var regions := KeyColumn(data, REGION);
    var salesColumn, profitColumn := NumberColumn(data, SALES), NumberColumn(data, PROFIT);
    assert regions[..|data|] == regions;
    assert salesColumn[..|data|] == salesColumn;
    assert profitColumn[..|data|] == profitColumn;
    assert totals.keys[..|totals.keys|] == totals.keys;
    forall k | k in result.entries
      ensures result.entries[k] == MarginOf(data, k)
    {
      assert totals.entries[k] == Totals(SumWhere(data, REGION, k, SALES), SumWhere(data, REGION, k, PROFIT));
    }
  }

  /** The second loop: the margin of every region, in the order of the
      totals' keys. */
  method ComputeMargins(totals: Dict<Totals>) returns (result: Dict<real>)
    requires totals.Valid()
    ensures MarginsUpTo(totals, |totals.keys|, result)
  {
    result := Empty();
    for j := 0 to |totals.keys|
      invariant MarginsUpTo(totals, j, result)
    {
      var region := totals.keys[j];
      var t := totals.entries[region];
      var margin;
      if t.sales <= 0.0 {
        margin := 0.0;
      } else {
        margin := Round2((t.profit / t.sales) * 100.0);
      }
      AddMargin(totals, j, region, margin, result, result.Set(region, margin));
      result := result.Set(region, margin);
    }
  }

  /** The region margins: one entry per non-blank region, in the order in
      which the regions first occur, each the margin of the region's total
      sales and profit over all of its records. */
  method CalculateAvgProfitMarginByRegion(data: seq<Record>) returns (result: Dict<real>)
    ensures result.Valid()
    ensures result.keys == FirstKeys(data, REGION)
    ensures forall k :: k in result.entries ==>
      result.entries[k] == MarginOf(data, k)
  {
    var totals := AccumulateTotals(data);
    result := ComputeMargins(totals);
    MarginsComplete(data, totals, result);
  }

  /** The result of the aggregation is determined by the input alone: two
      results that both meet its contract are equal, so calling it twice on
      the same records gives equal dictionaries. */
  lemma ResultDetermined(data: seq<Record>, r1: Dict<real>, r2: Dict<real>)
    requires r1.Valid() && r1.keys == FirstKeys(data, REGION)
    requires forall k :: k in r1.entries ==>
      r1.entries[k] == MarginOf(data, k)
    requires r2.Valid() && r2.keys == FirstKeys(data, REGION)
    requires forall k :: k in r2.entries ==>
      r2.entries[k] == MarginOf(data, k)
    ensures r1 == r2
  {
    DictEqual(r1, r2);
  }
}
