/** The date filter and the two location filters of the dashboard: the
    unused `df2`/`df3`/`df4` chain and the eight-way `filtered_df` ladder. */
module Filtering {
  import opened Orders
  import opened Masks

  /** The user's selections: the two date inputs and the three multiselects. */
  datatype Criteria = Criteria(
    date1: Date,
    date2: Date,
    regions: seq<string>,
    states: seq<string>,
    cities: seq<string>)

  function DateMask(date1: Date, date2: Date): (m: Mask)
    ensures forall x :: Holds(m, x) <==> DateLeq(date1, x.orderDate) && DateLeq(x.orderDate, date2)
  {
    And(DateAtLeast(date1), DateAtMost(date2))
  }

  /** `df[(df['Order Date'] >= date1) & (df['Order Date'] <= date2)]`. */
  function DateFilter(t: seq<Record>, date1: Date, date2: Date): (r: seq<Record>)
    ensures IsSubsequence(r, t)
    ensures forall x :: x in r <==> x in t && DateLeq(date1, x.orderDate) && DateLeq(x.orderDate, date2)
  {
    Where(t, DateMask(date1, date2))
  }

  /** A start date after the end date selects nothing. */
  lemma DateFilterReversed(t: seq<Record>, date1: Date, date2: Date)
    requires !DateLeq(date1, date2)
    ensures DateFilter(t, date1, date2) == []
  {
    var r := DateFilter(t, date1, date2);
    if r != [] {
      assert r[0] in r;
      DateLeqTransitive(date1, r[0].orderDate, date2);
    }
  }

  // ----- The reference: every non-empty selection must match (a conjunction) -----

  /** An empty multiselect imposes no constraint. */
  predicate Selected(sel: seq<string>, v: string)
  {
    |sel| == 0 || v in sel
  }

  predicate Wanted(c: Criteria, x: Record)
  {
    && DateLeq(c.date1, x.orderDate) && DateLeq(x.orderDate, c.date2)
    && Selected(c.regions, x.region)
    && Selected(c.states, x.state)
    && Selected(c.cities, x.city)
  }

  /** The rows a conjunctive filter keeps, in table order. */
  function Matching(t: seq<Record>, c: Criteria): (r: seq<Record>)
    ensures forall x :: x in r <==> x in t && Wanted(c, x)
  {
    if t == [] then []
    else (if Wanted(c, t[0]) then [t[0]] else []) + Matching(t[1..], c)
  }

  /** A mask that agrees with the reference on every row selects the reference rows. */
  lemma {:induction false} WhereIsMatching(t: seq<Record>, m: Mask, c: Criteria)
    requires forall x :: x in t ==> (Holds(m, x) <==> Wanted(c, x))
    ensures Where(t, m) == Matching(t, c)
  {
    if t != [] {
      assert forall x :: x in t[1..] ==> x in t;
      WhereIsMatching(t[1..], m, c);
    }
  }

  /** Masking the date-filtered table with `m` is masking the whole table once. */
  lemma AfterDateFilter(t: seq<Record>, c: Criteria, m: Mask)
    requires forall x :: x in t ==> (Holds(m, x) && Holds(DateMask(c.date1, c.date2), x) <==> Wanted(c, x))
    ensures Where(DateFilter(t, c.date1, c.date2), m) == Matching(t, c)
  {
    WhereAnd(t, DateMask(c.date1, c.date2), m);
    WhereIsMatching(t, And(DateMask(c.date1, c.date2), m), c);
  }

  // ----- The chain df2 -> df3 -> df4 -----

  /** `df2`, `df3`, `df4`: one stage per multiselect, an empty one copies its input. */
  function Chain(df: seq<Record>, regions: seq<string>, states: seq<string>, cities: seq<string>): seq<Record>
  {
    var df2 := if |regions| == 0 then df else Where(df, RegionIn(regions));
    var df3 := if |states| == 0 then df2 else Where(df2, StateIn(states));
    if |cities| == 0 then df3 else Where(df3, CityIn(cities))
  }

  /** `df4` computed from the date-filtered table. */
  function ChainedTable(t: seq<Record>, c: Criteria): seq<Record>
  {
    Chain(DateFilter(t, c.date1, c.date2), c.regions, c.states, c.cities)
  }

  /** The chain is exactly the conjunction of the date range and the non-empty selections. */
  lemma ChainIsConjunction(t: seq<Record>, c: Criteria)
    ensures ChainedTable(t, c) == Matching(t, c)
  {
    var m1 := DateMask(c.date1, c.date2);
    var m2 := if |c.regions| == 0 then m1 else And(m1, RegionIn(c.regions));
    var df2 := if |c.regions| == 0 then Where(t, m1) else Where(Where(t, m1), RegionIn(c.regions));
    assert df2 == Where(t, m2) by {
      if |c.regions| > 0 { WhereAnd(t, m1, RegionIn(c.regions)); }
    }
    var m3 := if |c.states| == 0 then m2 else And(m2, StateIn(c.states));
    var df3 := if |c.states| == 0 then df2 else Where(df2, StateIn(c.states));
    assert df3 == Where(t, m3) by {
      if |c.states| > 0 { WhereAnd(t, m2, StateIn(c.states)); }
    }
    var m4 := if |c.cities| == 0 then m3 else And(m3, CityIn(c.cities));
    var df4 := if |c.cities| == 0 then df3 else Where(df3, CityIn(c.cities));
    assert df4 == Where(t, m4) by {
      if |c.cities| > 0 { WhereAnd(t, m3, CityIn(c.cities)); }
    }
    assert ChainedTable(t, c) == df4;
    WhereIsMatching(t, m4, c);
  }

  // ----- The eight-way ladder that builds filtered_df -----

  /** The arms of the `if/elif/else` ladder, in source order. */
  datatype Branch =
    | NoSelection     // not region and not state and not city
    | RegionOnly      // not state and not city
    | StateOnly       // not region and not city
    | StateAndCity    // state and city
    | RegionAndCity   // region and city
    | RegionAndState  // region and state
    | CityOnly        // city
    | Otherwise       // else

  /** Which arm runs for the given emptiness of the three selections. */
  function BranchTaken(regions: seq<string>, states: seq<string>, cities: seq<string>): (b: Branch)
    ensures b != Otherwise
    ensures |regions| > 0 && |states| > 0 && |cities| > 0 ==> b == StateAndCity
  {
    var r, s, c := |regions| > 0, |states| > 0, |cities| > 0;
    if !r && !s && !c then NoSelection
    else if !s && !c then RegionOnly
    else if !r && !c then StateOnly
    else if s && c then StateAndCity
    else if r && c then RegionAndCity
    else if r && s then RegionAndState
    else if c then CityOnly
    else Otherwise
  }

  /** `filtered_df`, given the date-filtered `df`. */
  function Dispatch(df: seq<Record>, regions: seq<string>, states: seq<string>, cities: seq<string>): seq<Record>
  {
    match BranchTaken(regions, states, cities)
    case NoSelection => df
    case RegionOnly => Where(df, RegionIn(regions))
    case StateOnly => Where(df, StateIn(states))
    case StateAndCity => Where(df, And(StateIn(states), CityIn(cities)))
    case RegionAndCity => Where(df, And(RegionIn(regions), CityIn(cities)))
    case RegionAndState => Where(df, And(RegionIn(regions), StateIn(states)))
    case CityOnly => Where(df, CityIn(cities))
    case Otherwise => Where(df, And(And(RegionIn(regions), StateIn(states)), CityIn(cities)))
  }

  /** `filtered_df` computed from the loaded table. */
  function FilteredTable(t: seq<Record>, c: Criteria): seq<Record>
  {
    Dispatch(DateFilter(t, c.date1, c.date2), c.regions, c.states, c.cities)
  }

  /** With nothing selected, `filtered_df` is the date-filtered table itself. */
  lemma NoSelectionKeepsAll(t: seq<Record>, c: Criteria)
    requires |c.regions| == 0 && |c.states| == 0 && |c.cities| == 0
    ensures FilteredTable(t, c) == DateFilter(t, c.date1, c.date2)
    ensures FilteredTable(t, c) == Matching(t, c)
  {
    WhereIsMatching(t, DateMask(c.date1, c.date2), c);
  }

  /** A date range that covers every order and no location selection show the
      loaded table unchanged (the page as first opened, with the date inputs at the
      table's earliest and latest dates). */
  lemma FullRangeKeepsAll(t: seq<Record>, c: Criteria)
    requires forall x :: x in t ==> DateLeq(c.date1, x.orderDate) && DateLeq(x.orderDate, c.date2)
    requires |c.regions| == 0 && |c.states| == 0 && |c.cities| == 0
    ensures FilteredTable(t, c) == t
  {
    WhereAll(t, DateMask(c.date1, c.date2));
  }

  /** Unless all three selections are non-empty, the ladder computes the conjunction. */
  lemma DispatchIsConjunction(t: seq<Record>, c: Criteria)
    requires |c.regions| == 0 || |c.states| == 0 || |c.cities| == 0
    ensures FilteredTable(t, c) == Matching(t, c)
  {
    var df := DateFilter(t, c.date1, c.date2);
    var (regions, states, cities) := (c.regions, c.states, c.cities);
    match BranchTaken(regions, states, cities)
    case NoSelection => NoSelectionKeepsAll(t, c);
    case RegionOnly => AfterDateFilter(t, c, RegionIn(regions));
    case StateOnly => AfterDateFilter(t, c, StateIn(states));
    case StateAndCity => AfterDateFilter(t, c, And(StateIn(states), CityIn(cities)));
    case RegionAndCity => AfterDateFilter(t, c, And(RegionIn(regions), CityIn(cities)));
    case RegionAndState => AfterDateFilter(t, c, And(RegionIn(regions), StateIn(states)));
    case CityOnly => AfterDateFilter(t, c, CityIn(cities));
  }

  /** With all three selections non-empty, the `state and city` arm runs and the
      region selection has no effect. */
  lemma DispatchIgnoresRegion(t: seq<Record>, c: Criteria)
    requires |c.regions| > 0 && |c.states| > 0 && |c.cities| > 0
    ensures FilteredTable(t, c) == Matching(t, c.(regions := []))
  {
    var c' := c.(regions := []);
    var m := And(StateIn(c.states), CityIn(c.cities));
    forall x | x in t
      ensures Holds(m, x) && Holds(DateMask(c'.date1, c'.date2), x) <==> Wanted(c', x)
    {
    }
    AfterDateFilter(t, c', m);
  }

  /** `df4` and `filtered_df` agree except when all three selections are non-empty. */
  lemma ChainAgreesWithDispatch(t: seq<Record>, c: Criteria)
    requires |c.regions| == 0 || |c.states| == 0 || |c.cities| == 0
    ensures ChainedTable(t, c) == FilteredTable(t, c)
  {
    ChainIsConjunction(t, c);
    DispatchIsConjunction(t, c);
  }

  /** `filtered_df` is rows of `df`, which are rows of the loaded table, in order. */
  lemma FilteredIsSubsequence(t: seq<Record>, c: Criteria)
    ensures IsSubsequence(FilteredTable(t, c), DateFilter(t, c.date1, c.date2))
    ensures IsSubsequence(FilteredTable(t, c), t)
  {
    var df := DateFilter(t, c.date1, c.date2);
    if BranchTaken(c.regions, c.states, c.cities) == NoSelection {
      SubsequenceReflexive(df);
    }
    SubsequenceTransitive(FilteredTable(t, c), df, t);
  }
}
