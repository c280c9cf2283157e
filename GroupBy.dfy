/** `groupby(key)['Sales'].sum()`: one row per distinct key, keys sorted, sales summed. */
module GroupBy {
  import opened Orders
  import opened Text
  import opened Months

  /** The keys the dashboard groups by. `MonthYear` is the `"%Y : %b"` text of the
      time series; `Period` is the monthly period that heads the pivot's columns. */
  datatype Column = Category | Region | SubCategory | MonthYear | Period

  function KeyOf(col: Column, x: Record): string
  {
    match col
    case Category => x.category
    case Region => x.region
    case SubCategory => x.subCategory
    case MonthYear => MonthLabel(x.orderDate.year, x.orderDate.month)
    case Period => PeriodText(x.orderDate.year, x.orderDate.month)
  }

  /** One row of a roll-up: the key and its summed `Sales`. */
  datatype Group = Group(key: string, total: int)

  /** The key column of a roll-up, in row order. */
  function Keys(gs: seq<Group>): (ks: seq<string>)
    ensures |ks| == |gs|
    ensures forall i :: 0 <= i < |gs| ==> ks[i] == gs[i].key
  {
    if gs == [] then [] else [gs[0].key] + Keys(gs[1..])
  }

  function KeySet(gs: seq<Group>): set<string>
  {
    if gs == [] then {} else {gs[0].key} + KeySet(gs[1..])
  }

  /** Each key sorts strictly before the next. */
  predicate Ascending(gs: seq<Group>)
  {
    |gs| <= 1 || (Less(gs[0].key, gs[1].key) && Ascending(gs[1..]))
  }

  /** Sum of the `Sales` column of a roll-up. */
  function Total(gs: seq<Group>): int
  {
    if gs == [] then 0 else gs[0].total + Total(gs[1..])
  }

  /** What a roll-up says about key `k` (0 when `k` has no row). */
  function TotalFor(gs: seq<Group>, k: string): int
  {
    if gs == [] then 0 else (if gs[0].key == k then gs[0].total else 0) + TotalFor(gs[1..], k)
  }

  /** The distinct keys of the rows of `t`. */
  function PresentKeys(t: seq<Record>, col: Column): set<string>
  {
    if t == [] then {} else {KeyOf(col, t[0])} + PresentKeys(t[1..], col)
  }

  /** Sum of `Sales` over the rows of `t` whose key is `k`. */
  function SalesOf(t: seq<Record>, col: Column, k: string): int
  {
    if t == [] then 0
    else (if KeyOf(col, t[0]) == k then t[0].sales else 0) + SalesOf(t[1..], col, k)
  }

  /** Adds `v` to the row of `k`, creating the row in sorted position if needed. */
  function Insert(gs: seq<Group>, k: string, v: int): (r: seq<Group>)
    requires Ascending(gs)
    ensures Ascending(r)
    ensures r != [] && (r[0].key == k || (gs != [] && r[0].key == gs[0].key))
    ensures KeySet(r) == KeySet(gs) + {k}
    ensures Total(r) == Total(gs) + v
    ensures forall k' :: TotalFor(r, k') == TotalFor(gs, k') + (if k' == k then v else 0)
  {
    if gs == [] then [Group(k, v)]
    else if k == gs[0].key then
      assert ([Group(k, gs[0].total + v)] + gs[1..])[1..] == gs[1..];
      [Group(k, gs[0].total + v)] + gs[1..]
    else if Less(k, gs[0].key) then
      assert ([Group(k, v)] + gs)[1..] == gs;
      [Group(k, v)] + gs
    else
      LessTotal(k, gs[0].key);
      var rest := Insert(gs[1..], k, v);
      assert ([gs[0]] + rest)[1..] == rest;
      [gs[0]] + rest
  }

  /** The roll-up, built row by row of `t`. */
  function GroupSum(t: seq<Record>, col: Column): (gs: seq<Group>)
    ensures Ascending(gs)
    ensures KeySet(gs) == PresentKeys(t, col)
    ensures Total(gs) == SumSales(t)
    ensures forall k :: TotalFor(gs, k) == SalesOf(t, col, k)
  {
    if t == [] then [] else Insert(GroupSum(t[1..], col), KeyOf(col, t[0]), t[0].sales)
  }

  /** In an ascending roll-up the first key is below every later key. */
  lemma {:induction false} HeadBelowRest(gs: seq<Group>)
    requires Ascending(gs) && gs != []
    ensures forall k :: k in KeySet(gs[1..]) ==> Less(gs[0].key, k)
  {
    if |gs| > 1 {
      HeadBelowRest(gs[1..]);
      forall k | k in KeySet(gs[1..][1..])
        ensures Less(gs[0].key, k)
      {
        LessTransitive(gs[0].key, gs[1].key, k);
      }
    }
  }

  /** An ascending roll-up has one row per key, in strictly increasing key order. */
  lemma {:induction false} AscendingIsStrict(gs: seq<Group>)
    requires Ascending(gs)
    ensures forall i, j :: 0 <= i < j < |gs| ==> Less(gs[i].key, gs[j].key)
    ensures |KeySet(gs)| == |gs|
  {
    if gs != [] {
      AscendingIsStrict(gs[1..]);
      HeadBelowRest(gs);
      LessIrreflexive(gs[0].key);
      assert gs[0].key !in KeySet(gs[1..]);
      forall j | 0 < j < |gs|
        ensures Less(gs[0].key, gs[j].key)
      {
        KeyInKeySet(gs[1..], j - 1);
      }
    }
  }

  lemma {:induction false} KeyInKeySet(gs: seq<Group>, i: nat)
    requires i < |gs|
    ensures gs[i].key in KeySet(gs)
  {
    if i > 0 {
      KeyInKeySet(gs[1..], i - 1);
    }
  }

  /** In an ascending roll-up a row's total is all the roll-up says about its key. */
  lemma {:induction false} RowTotal(gs: seq<Group>, i: nat)
    requires Ascending(gs) && i < |gs|
    ensures gs[i].total == TotalFor(gs, gs[i].key)
  {
    HeadBelowRest(gs);
    if i == 0 {
      LessIrreflexive(gs[0].key);
      AbsentKey(gs[1..], gs[0].key);
    } else {
      RowTotal(gs[1..], i - 1);
      KeyInKeySet(gs[1..], i - 1);
      LessIrreflexive(gs[0].key);
    }
  }

  lemma {:induction false} AbsentKey(gs: seq<Group>, k: string)
    requires k !in KeySet(gs)
    ensures TotalFor(gs, k) == 0
  {
    if gs != [] {
      AbsentKey(gs[1..], k);
    }
  }

  /** What `groupby(...)['Sales'].sum()` returns: one row per distinct key present,
      keys strictly ascending, each row the sum over its rows, all rows summing
      to the table's total. */
  lemma GroupSumRows(t: seq<Record>, col: Column)
    ensures var gs := GroupSum(t, col);
      && (forall i, j :: 0 <= i < j < |gs| ==> Less(gs[i].key, gs[j].key))
      && KeySet(gs) == PresentKeys(t, col)
      && |gs| == |PresentKeys(t, col)|
      && (forall i :: 0 <= i < |gs| ==> gs[i].total == SalesOf(t, col, gs[i].key))
      && Total(gs) == SumSales(t)
  {
    var gs := GroupSum(t, col);
    AscendingIsStrict(gs);
    forall i | 0 <= i < |gs|
      ensures gs[i].total == SalesOf(t, col, gs[i].key)
    {
      RowTotal(gs, i);
    }
  }

  /** Time-series rows correspond one to one with calendar months of the table. */
  lemma LabelRowsAreMonths(t: seq<Record>, i: nat, j: nat, x: Record, y: Record)
    requires var gs := GroupSum(t, MonthYear); i < |gs| && j < |gs|
    requires x in t && y in t
    requires KeyOf(MonthYear, x) == GroupSum(t, MonthYear)[i].key
    requires KeyOf(MonthYear, y) == GroupSum(t, MonthYear)[j].key
    ensures i == j <==> (x.orderDate.year == y.orderDate.year && x.orderDate.month == y.orderDate.month)
  {
    var gs := GroupSum(t, MonthYear);
    AscendingIsStrict(gs);
    if i != j {
      if i < j { LessIrreflexive(gs[i].key); } else { LessIrreflexive(gs[j].key); }
    } else {
      LabelInjective(x.orderDate.year, x.orderDate.month, y.orderDate.year, y.orderDate.month);
    }
  }

  /** Rows keyed by monthly period come out in calendar order. */
  lemma PeriodRowsChronological(t: seq<Record>, x: Record, y: Record)
    requires x in t && y in t
    ensures var gs := GroupSum(t, Period);
      forall i, j :: 0 <= i < j < |gs| && gs[i].key == KeyOf(Period, x) && gs[j].key == KeyOf(Period, y) ==>
        Before(x.orderDate.year, x.orderDate.month, y.orderDate.year, y.orderDate.month)
  {
    AscendingIsStrict(GroupSum(t, Period));
    PeriodTextOrder(x.orderDate.year, x.orderDate.month, y.orderDate.year, y.orderDate.month);
  }

  /** Grouping by the `"%Y : %b"` text puts April 2014 before February 2014. */
  lemma LabelSeriesExample(feb: Record, apr: Record)
    requires feb.orderDate.year == 2014 && feb.orderDate.month == 2
    requires apr.orderDate.year == 2014 && apr.orderDate.month == 4
    ensures Keys(GroupSum([feb, apr], MonthYear)) == [MonthLabel(2014, 4), MonthLabel(2014, 2)]
    ensures Before(2014, 2, 2014, 4)
  {
    var kf, ka := MonthLabel(2014, 2), MonthLabel(2014, 4);
    LabelOrderIsNotCalendar();
    LessAsymmetric(ka, kf);
    if kf == ka {
      LabelInjective(2014, 2, 2014, 4);
    }
    assert [feb, apr][1..] == [apr];
    assert GroupSum([apr], MonthYear) == [Group(ka, apr.sales)];
    assert GroupSum([feb, apr], MonthYear) == Insert([Group(ka, apr.sales)], kf, feb.sales);
  }
}
