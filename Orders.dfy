/** The rows of the Superstore table that the dashboard filters and rolls up. */
module Orders {

  /** `%Y` prints four digits; pandas timestamps lie well inside this range. */
  type Year = y: int | 1000 <= y <= 9999 witness 2014
  type Month = m: int | 1 <= m <= 12 witness 1
  type Day = d: int | 1 <= d <= 31 witness 1

  /** An already-parsed `Order Date` (the time of day is always midnight). */
  datatype Date = Date(year: Year, month: Month, day: Day)

  /** Timestamp comparison `a <= b`: year, then month, then day. */
  predicate DateLeq(a: Date, b: Date)
  {
    a.year < b.year
    || (a.year == b.year && (a.month < b.month || (a.month == b.month && a.day <= b.day)))
  }

  lemma DateLeqTransitive(a: Date, b: Date, c: Date)
    requires DateLeq(a, b) && DateLeq(b, c)
    ensures DateLeq(a, c)
  {
  }

  /** One order line. `sales` is in cents so that totals are exact. */
  datatype Record = Record(
    orderDate: Date,
    region: string,
    state: string,
    city: string,
    category: string,
    subCategory: string,
    segment: string,
    sales: int)

  /** `df['Sales'].sum()`. */
  function SumSales(t: seq<Record>): int
  {
    if t == [] then 0 else t[0].sales + SumSales(t[1..])
  }
}
