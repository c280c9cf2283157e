/** The page as a whole: `filtered_df` and everything derived from it. */
module Dashboard {
  import opened Orders
  import opened Masks
  import opened Filtering
  import opened GroupBy
  import opened Pivot

  /** The data behind the page's tables: `filtered_df`, `category_df`, the region
      roll-up, `linechart` and `sub_category_year`. */
  datatype Views = Views(
    filtered: seq<Record>,
    categorySales: seq<Group>,
    regionSales: seq<Group>,
    timeSeries: seq<Group>,
    subCategoryByMonth: PivotTable)

  function RollUps(filtered: seq<Record>, monthKey: Column): (v: Views)
    ensures v.filtered == filtered
    ensures Total(v.categorySales) == SumSales(filtered)
    ensures Total(v.regionSales) == SumSales(filtered)
    ensures Total(v.timeSeries) == SumSales(filtered)
    ensures SumRows(v.subCategoryByMonth.cells) == SumSales(filtered)
  {
    PivotGrandTotal(filtered);
    Views(filtered, GroupSum(filtered, Category), GroupSum(filtered, Region),
          GroupSum(filtered, monthKey), SubCategoryByMonth(filtered))
  }

  /** The script as written: the eight-way ladder and a time series keyed by `"%Y : %b"`. */
  function Compute(t: seq<Record>, c: Criteria): (v: Views)
    ensures IsSubsequence(v.filtered, t)
    ensures Total(v.categorySales) == SumSales(v.filtered)
    ensures Total(v.regionSales) == SumSales(v.filtered)
    ensures Total(v.timeSeries) == SumSales(v.filtered)
    ensures SumRows(v.subCategoryByMonth.cells) == SumSales(v.filtered)
  {
    FilteredIsSubsequence(t, c);
    RollUps(FilteredTable(t, c), MonthYear)
  }

  /** The corrected page: the conjunctive filter (the script's own `df4`) and a
      time series keyed by the monthly period. */
  function Intended(t: seq<Record>, c: Criteria): (v: Views)
    ensures v.filtered == Matching(t, c)
    ensures Total(v.timeSeries) == SumSales(v.filtered)
  {
    ChainIsConjunction(t, c);
    RollUps(ChainedTable(t, c), Period)
  }

  /** The corrected page's time series runs in calendar order. */
  lemma IntendedSeriesChronological(t: seq<Record>, c: Criteria, x: Record, y: Record)
    requires x in t && Wanted(c, x) && y in t && Wanted(c, y)
    ensures var ts := Intended(t, c).timeSeries;
      forall i, j :: 0 <= i < j < |ts| && ts[i].key == KeyOf(Period, x) && ts[j].key == KeyOf(Period, y) ==>
        Months.Before(x.orderDate.year, x.orderDate.month, y.orderDate.year, y.orderDate.month)
  {
    var v := Intended(t, c);
    assert v.filtered == Matching(t, c);
    assert x in v.filtered && y in v.filtered;
    assert v.timeSeries == GroupSum(v.filtered, Period);
    PeriodRowsChronological(v.filtered, x, y);
  }

  /** The page as written and the corrected page give the same category, region
      and pivot tables unless all three location selections are non-empty. */
  lemma ComputeAgreesWithIntended(t: seq<Record>, c: Criteria)
    requires |c.regions| == 0 || |c.states| == 0 || |c.cities| == 0
    ensures var (v, w) := (Compute(t, c), Intended(t, c));
      && v.filtered == w.filtered
      && v.categorySales == w.categorySales
      && v.regionSales == w.regionSales
      && v.subCategoryByMonth == w.subCategoryByMonth
  {
    DispatchIsConjunction(t, c);
    ChainIsConjunction(t, c);
  }

  // ----- Worked examples -----

  const January := Record(Date(2023, 1, 15), "East", "New York", "New York City", "Furniture", "Chairs", "Consumer", 100)
  const February := Record(Date(2023, 2, 1), "West", "California", "Los Angeles", "Technology", "Phones", "Corporate", 50)

  /** A January date range keeps only the January order; its roll-ups total 100. */
  lemma JanuaryExample()
    ensures var v := Compute([January, February], Criteria(Date(2023, 1, 1), Date(2023, 1, 31), [], [], []));
      && v.filtered == [January]
      && Total(v.categorySales) == 100
      && Total(v.regionSales) == 100
  {
    var t := [January, February];
    var c := Criteria(Date(2023, 1, 1), Date(2023, 1, 31), [], [], []);
    assert t[1..] == [February] && t[1..][1..] == [];
    assert Where(t, DateMask(c.date1, c.date2)) == [January];
    assert SumSales([January]) == 100;
  }

  /** Selecting the East region over a range that covers both orders keeps the East order. */
  lemma EastExample()
    ensures Compute([January, February], Criteria(Date(2023, 1, 1), Date(2023, 12, 31), ["East"], [], [])).filtered == [January]
  {
    var t := [January, February];
    var c := Criteria(Date(2023, 1, 1), Date(2023, 12, 31), ["East"], [], []);
    assert t[1..] == [February] && t[1..][1..] == [];
    var m := DateMask(c.date1, c.date2);
    assert Holds(m, January) && Holds(m, February);
    assert Where([February], m) == [February];
    assert Where(t, m) == [January] + [February];
    assert Where(t, RegionIn(["East"])) == [January];
  }

  /** Region West with state New York and city New York City: the ladder shows the
      East order anyway, while the conjunction (and `df4`) shows nothing. */
  lemma RegionIgnoredExample()
    ensures var c := Criteria(Date(2023, 1, 1), Date(2023, 12, 31), ["West"], ["New York"], ["New York City"]);
      && FilteredTable([January], c) == [January]
      && Matching([January], c) == []
      && ChainedTable([January], c) == []
  {
    var c := Criteria(Date(2023, 1, 1), Date(2023, 12, 31), ["West"], ["New York"], ["New York City"]);
    assert [January][1..] == [];
    assert DateFilter([January], c.date1, c.date2) == [January];
    ChainIsConjunction([January], c);
  }
}
