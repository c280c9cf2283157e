/** Boolean masks over the order table and `df[mask]` selection. */
module Masks {
  import opened Orders

  /** The mask expressions the dashboard builds: date comparisons, `isin`, and `&`. */
  datatype Mask =
    | DateAtLeast(lo: Date)          // df['Order Date'] >= lo
    | DateAtMost(hi: Date)           // df['Order Date'] <= hi
    | RegionIn(regions: seq<string>) // df['Region'].isin(regions)
    | StateIn(states: seq<string>)   // df['State'].isin(states)
    | CityIn(cities: seq<string>)    // df['City'].isin(cities)
    | And(left: Mask, right: Mask)   // left & right

  predicate Holds(m: Mask, x: Record)
  {
    match m
    case DateAtLeast(lo) => DateLeq(lo, x.orderDate)
    case DateAtMost(hi) => DateLeq(x.orderDate, hi)
    case RegionIn(regions) => x.region in regions
    case StateIn(states) => x.state in states
    case CityIn(cities) => x.city in cities
    case And(l, r) => Holds(l, x) && Holds(r, x)
  }

  /** `a` is `b` with some rows deleted: same rows, same order, no field changed. */
  predicate IsSubsequence(a: seq<Record>, b: seq<Record>)
    decreases |b|
  {
    a == []
    || (b != [] && ((a[0] == b[0] && IsSubsequence(a[1..], b[1..])) || IsSubsequence(a, b[1..])))
  }

  lemma {:induction false} SubsequenceReflexive(a: seq<Record>)
    ensures IsSubsequence(a, a)
  {
    if a != [] {
      SubsequenceReflexive(a[1..]);
    }
  }

  lemma {:induction false} SubsequenceTransitive(a: seq<Record>, b: seq<Record>, c: seq<Record>)
    requires IsSubsequence(a, b) && IsSubsequence(b, c)
    ensures IsSubsequence(a, c)
    decreases |c|
  {
    if a != [] {
      if IsSubsequence(b, c[1..]) {
        SubsequenceTransitive(a, b, c[1..]);
      } else if a[0] == b[0] && IsSubsequence(a[1..], b[1..]) {
        SubsequenceTransitive(a[1..], b[1..], c[1..]);
      } else {
        SubsequenceTransitive(a, b[1..], c[1..]);
      }
    }
  }

  /** `df[m]`: the rows on which the mask is true, in table order. */
  function Where(t: seq<Record>, m: Mask): (r: seq<Record>)
    ensures IsSubsequence(r, t)
    ensures forall x :: x in r <==> x in t && Holds(m, x)
  {
    if t == [] then []
    else
      var rest := Where(t[1..], m);
      if Holds(m, t[0]) then
        assert ([t[0]] + rest)[1..] == rest;
        [t[0]] + rest
      else
        rest
  }

  /** `df[m]` keeps every occurrence of a row the mask accepts, and none of the others. */
  lemma {:induction false} WhereCounts(t: seq<Record>, m: Mask, x: Record)
    ensures multiset(Where(t, m))[x] == if Holds(m, x) then multiset(t)[x] else 0
  {
    if t != [] {
      assert t == [t[0]] + t[1..];
      WhereCounts(t[1..], m, x);
    }
  }

  /** A mask that accepts every row selects the whole table. */
  lemma {:induction false} WhereAll(t: seq<Record>, m: Mask)
    requires forall x :: x in t ==> Holds(m, x)
    ensures Where(t, m) == t
  {
    if t != [] {
      assert forall x :: x in t[1..] ==> x in t;
      WhereAll(t[1..], m);
      assert t == [t[0]] + t[1..];
    }
  }

  /** Masking twice is masking once with `&`. */
  lemma {:induction false} WhereAnd(t: seq<Record>, m1: Mask, m2: Mask)
    ensures Where(Where(t, m1), m2) == Where(t, And(m1, m2))
  {
    if t != [] {
      WhereAnd(t[1..], m1, m2);
      var w := Where(t[1..], m1);
      if Holds(m1, t[0]) {
        assert Where(t, m1) == [t[0]] + w;
        assert ([t[0]] + w)[1..] == w;
      } else {
        assert Where(t, m1) == w;
      }
    }
  }
}
