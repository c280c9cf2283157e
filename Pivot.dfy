/** `pd.pivot_table(values='Sales', index=['Sub-Category'], columns='month',
    aggfunc='sum', fill_value=0)`. */
module Pivot {
  import opened Orders
  import opened Text
  import opened GroupBy

  /** Sum of `Sales` over the rows of sub-category `sub` in month `period`
      (0 when there are none: `fill_value=0`). */
  function Cell(t: seq<Record>, sub: string, period: string): int
  {
    if t == [] then 0
    else (if KeyOf(SubCategory, t[0]) == sub && KeyOf(Period, t[0]) == period then t[0].sales else 0)
         + Cell(t[1..], sub, period)
  }

  /** The cells of one sub-category, one per column. */
  function Row(t: seq<Record>, sub: string, columns: seq<string>): (r: seq<int>)
    ensures |r| == |columns|
    ensures forall j :: 0 <= j < |columns| ==> r[j] == Cell(t, sub, columns[j])
  {
    if columns == [] then [] else [Cell(t, sub, columns[0])] + Row(t, sub, columns[1..])
  }

  function Rows(t: seq<Record>, index: seq<string>, columns: seq<string>): (rs: seq<seq<int>>)
    ensures |rs| == |index|
    ensures forall i :: 0 <= i < |index| ==> rs[i] == Row(t, index[i], columns)
  {
    if index == [] then [] else [Row(t, index[0], columns)] + Rows(t, index[1..], columns)
  }

  /** Rows are the sorted sub-categories, columns the months in calendar order. */
  datatype PivotTable = PivotTable(index: seq<string>, columns: seq<string>, cells: seq<seq<int>>)

  function SubCategoryByMonth(t: seq<Record>): PivotTable
  {
    var index := Keys(GroupSum(t, SubCategory));
    var columns := Keys(GroupSum(t, Period));
    PivotTable(index, columns, Rows(t, index, columns))
  }

  function Sum(s: seq<int>): int
  {
    if s == [] then 0 else s[0] + Sum(s[1..])
  }

  function SumRows(rs: seq<seq<int>>): int
  {
    if rs == [] then 0 else Sum(rs[0]) + SumRows(rs[1..])
  }

  lemma {:induction false} KeysOfKeySet(gs: seq<Group>)
    ensures forall k :: k in KeySet(gs) <==> k in Keys(gs)
  {
    if gs != [] {
      KeysOfKeySet(gs[1..]);
      assert Keys(gs) == [gs[0].key] + Keys(gs[1..]);
    }
  }

  lemma {:induction false} InPresentKeys(t: seq<Record>, col: Column, x: Record)
    requires x in t
    ensures KeyOf(col, x) in PresentKeys(t, col)
  {
    if x != t[0] {
      InPresentKeys(t[1..], col, x);
    }
  }

  /** The keys of a roll-up are distinct and cover every row of the table. */
  lemma RollupKeys(t: seq<Record>, col: Column)
    ensures var ks := Keys(GroupSum(t, col));
      && (forall a, b :: 0 <= a < b < |ks| ==> ks[a] != ks[b])
      && (forall x :: x in t ==> KeyOf(col, x) in ks)
  {
    var gs := GroupSum(t, col);
    AscendingIsStrict(gs);
    forall a, b | 0 <= a < b < |gs|
      ensures gs[a].key != gs[b].key
    {
      LessIrreflexive(gs[a].key);
    }
    KeysOfKeySet(gs);
    forall x | x in t
      ensures KeyOf(col, x) in Keys(gs)
    {
      InPresentKeys(t, col, x);
    }
  }

  /** What row `x` contributes to the cells of sub-category `sub`, summed over the columns. */
  function Hits(x: Record, sub: string, columns: seq<string>): int
  {
    if columns == [] then 0
    else (if KeyOf(SubCategory, x) == sub && KeyOf(Period, x) == columns[0] then x.sales else 0)
         + Hits(x, sub, columns[1..])
  }

  lemma {:induction false} RowSplit(t: seq<Record>, sub: string, columns: seq<string>)
    requires t != []
    ensures Sum(Row(t, sub, columns)) == Hits(t[0], sub, columns) + Sum(Row(t[1..], sub, columns))
  {
    if columns != [] {
      RowSplit(t, sub, columns[1..]);
    }
  }

  lemma {:induction false} HitsAbsent(x: Record, sub: string, columns: seq<string>)
    requires KeyOf(Period, x) !in columns
    ensures Hits(x, sub, columns) == 0
  {
    if columns != [] {
      HitsAbsent(x, sub, columns[1..]);
    }
  }

  /** A row lands in exactly one column of distinct columns that include its month. */
  lemma {:induction false} HitsOnce(x: Record, sub: string, columns: seq<string>)
    requires forall a, b :: 0 <= a < b < |columns| ==> columns[a] != columns[b]
    requires KeyOf(Period, x) in columns
    ensures Hits(x, sub, columns) == if KeyOf(SubCategory, x) == sub then x.sales else 0
  {
    if KeyOf(Period, x) == columns[0] {
      assert forall b :: 0 <= b < |columns[1..]| ==> columns[1..][b] == columns[b + 1];
      HitsAbsent(x, sub, columns[1..]);
    } else {
      HitsOnce(x, sub, columns[1..]);
    }
  }

  lemma {:induction false} EmptyRow(sub: string, columns: seq<string>)
    ensures Sum(Row([], sub, columns)) == 0
  {
    if columns != [] {
      EmptyRow(sub, columns[1..]);
    }
  }

  /** Over distinct columns covering every month of `t`, a sub-category's cells add up
      to its total. */
  lemma {:induction false} RowSum(t: seq<Record>, sub: string, columns: seq<string>)
    requires forall a, b :: 0 <= a < b < |columns| ==> columns[a] != columns[b]
    requires forall x :: x in t ==> KeyOf(Period, x) in columns
    ensures Sum(Row(t, sub, columns)) == SalesOf(t, SubCategory, sub)
  {
    if t == [] {
      EmptyRow(sub, columns);
    } else {
      RowSplit(t, sub, columns);
      HitsOnce(t[0], sub, columns);
      RowSum(t[1..], sub, columns);
    }
  }

  /** The pivot's shape: one row per distinct sub-category in ascending order, one
      column per distinct month, every cell the sum for its pair. */
  lemma PivotShape(t: seq<Record>)
    ensures var p := SubCategoryByMonth(t);
      && |p.index| == |PresentKeys(t, SubCategory)| && |p.columns| == |PresentKeys(t, Period)|
      && (forall i, j :: 0 <= i < j < |p.index| ==> Less(p.index[i], p.index[j]))
      && (forall i, j :: 0 <= i < j < |p.columns| ==> Less(p.columns[i], p.columns[j]))
      && (forall x :: x in t ==> KeyOf(SubCategory, x) in p.index && KeyOf(Period, x) in p.columns)
      && |p.cells| == |p.index|
      && (forall i :: 0 <= i < |p.cells| ==> |p.cells[i]| == |p.columns|)
      && (forall i, j :: 0 <= i < |p.index| && 0 <= j < |p.columns| ==>
            p.cells[i][j] == Cell(t, p.index[i], p.columns[j]))
  {
    GroupSumRows(t, SubCategory);
    GroupSumRows(t, Period);
    AscendingIsStrict(GroupSum(t, Period));
    RollupKeys(t, SubCategory);
    RollupKeys(t, Period);
  }

  lemma {:induction false} CellZero(t: seq<Record>, sub: string, period: string)
    requires forall x :: x in t ==> KeyOf(SubCategory, x) != sub || KeyOf(Period, x) != period
    ensures Cell(t, sub, period) == 0
  {
    if t != [] {
      assert forall x :: x in t[1..] ==> x in t;
      CellZero(t[1..], sub, period);
    }
  }

  /** `fill_value=0`: a pair with no sales rows holds 0. */
  lemma PivotFillsZero(t: seq<Record>, sub: string, period: string)
    requires forall x :: x in t ==> KeyOf(SubCategory, x) != sub || KeyOf(Period, x) != period
    ensures var p := SubCategoryByMonth(t);
      forall i, j :: 0 <= i < |p.index| && 0 <= j < |p.columns| && p.index[i] == sub && p.columns[j] == period ==>
        p.cells[i][j] == 0
  {
    CellZero(t, sub, period);
  }

  /** Each pivot row adds up to that sub-category's total, the same value as the
      sub-category roll-up. */
  lemma PivotRowTotals(t: seq<Record>, i: nat)
    requires i < |SubCategoryByMonth(t).index|
    ensures var p := SubCategoryByMonth(t);
      && Sum(p.cells[i]) == SalesOf(t, SubCategory, p.index[i])
      && Sum(p.cells[i]) == GroupSum(t, SubCategory)[i].total
  {
    var p := SubCategoryByMonth(t);
    RollupKeys(t, Period);
    RowSum(t, p.index[i], p.columns);
    GroupSumRows(t, SubCategory);
  }

  lemma {:induction false} SumOfRows(t: seq<Record>, gs: seq<Group>, columns: seq<string>)
    requires forall a, b :: 0 <= a < b < |columns| ==> columns[a] != columns[b]
    requires forall x :: x in t ==> KeyOf(Period, x) in columns
    requires forall i :: 0 <= i < |gs| ==> gs[i].total == SalesOf(t, SubCategory, gs[i].key)
    ensures SumRows(Rows(t, Keys(gs), columns)) == Total(gs)
  {
    if gs != [] {
      assert Keys(gs)[1..] == Keys(gs[1..]);
      RowSum(t, gs[0].key, columns);
      SumOfRows(t, gs[1..], columns);
    }
  }

  /** All cells together add up to the total sales of the table. */
  lemma PivotGrandTotal(t: seq<Record>)
    ensures SumRows(SubCategoryByMonth(t).cells) == SumSales(t)
  {
    RollupKeys(t, Period);
    GroupSumRows(t, SubCategory);
    SumOfRows(t, GroupSum(t, SubCategory), Keys(GroupSum(t, Period)));
  }

  lemma {:induction false} CellNonNegative(t: seq<Record>, sub: string, period: string)
    requires forall x :: x in t ==> x.sales >= 0
    ensures Cell(t, sub, period) >= 0
  {
    if t != [] {
      assert forall x :: x in t[1..] ==> x in t;
      CellNonNegative(t[1..], sub, period);
    }
  }

  /** With non-negative sales every cell is non-negative. */
  lemma PivotNonNegative(t: seq<Record>)
    requires forall x :: x in t ==> x.sales >= 0
    ensures var p := SubCategoryByMonth(t);
      forall i, j :: 0 <= i < |p.cells| && 0 <= j < |p.cells[i]| ==> p.cells[i][j] >= 0
  {
    var p := SubCategoryByMonth(t);
    forall i, j | 0 <= i < |p.cells| && 0 <= j < |p.cells[i]|
      ensures p.cells[i][j] >= 0
    {
      CellNonNegative(t, p.index[i], p.columns[j]);
    }
  }
}
