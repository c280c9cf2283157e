/** The two month keys the dashboard derives from `Order Date`: the text
    `"%Y : %b"` of the time series and the monthly period of the pivot. */
module Months {
  import opened Orders
  import opened Text

  /** `%b` in the C locale. */
  function Abbrev(m: Month): (s: string)
    ensures |s| == 3
  {
    ["Jan", "Feb", "Mar", "Apr", "May", "Jun", "Jul", "Aug", "Sep", "Oct", "Nov", "Dec"][m - 1]
  }

  /** `to_period('M').strftime('%Y : %b')`. */
  function MonthLabel(y: Year, m: Month): string
  {
    Decimal(y, 4) + (" : " + Abbrev(m))
  }

  /** The text of a monthly period, `YYYY-MM`; pandas orders periods by time. */
  function PeriodText(y: Year, m: Month): string
  {
    Decimal(y, 4) + ("-" + Decimal(m, 2))
  }

  /** Calendar order of months. */
  predicate Before(y1: Year, m1: Month, y2: Year, m2: Month)
  {
    y1 < y2 || (y1 == y2 && m1 < m2)
  }

  lemma YearTextOrder(y1: Year, y2: Year)
    requires y1 < y2
    ensures Less(Decimal(y1, 4), Decimal(y2, 4))
  {
    assert Pow10(4) == 10000;
    DecimalOrder(y1, y2, 4);
  }

  /** Period text sorts chronologically, in both directions. */
  lemma PeriodTextOrder(y1: Year, m1: Month, y2: Year, m2: Month)
    ensures Less(PeriodText(y1, m1), PeriodText(y2, m2)) <==> Before(y1, m1, y2, m2)
  {
    if y1 < y2 {
      YearTextOrder(y1, y2);
      LessExtend(Decimal(y1, 4), Decimal(y2, 4), "-" + Decimal(m1, 2), "-" + Decimal(m2, 2));
    } else if y2 < y1 {
      YearTextOrder(y2, y1);
      LessExtend(Decimal(y2, 4), Decimal(y1, 4), "-" + Decimal(m2, 2), "-" + Decimal(m1, 2));
      LessAsymmetric(PeriodText(y2, m2), PeriodText(y1, m1));
    } else {
      var p := Decimal(y1, 4) + "-";
      assert PeriodText(y1, m1) == p + Decimal(m1, 2);
      assert PeriodText(y2, m2) == p + Decimal(m2, 2);
      LessCommonPrefix(p, Decimal(m1, 2), Decimal(m2, 2));
      assert Pow10(2) == 100;
      if m1 < m2 {
        DecimalOrder(m1, m2, 2);
      } else if m2 < m1 {
        DecimalOrder(m2, m1, 2);
        LessAsymmetric(Decimal(m2, 2), Decimal(m1, 2));
      } else {
        LessIrreflexive(Decimal(m1, 2));
      }
    }
  }

  /** Period texts of different months differ. */
  lemma PeriodTextInjective(y1: Year, m1: Month, y2: Year, m2: Month)
    requires PeriodText(y1, m1) == PeriodText(y2, m2)
    ensures y1 == y2 && m1 == m2
  {
    LessIrreflexive(PeriodText(y1, m1));
    PeriodTextOrder(y1, m1, y2, m2);
    PeriodTextOrder(y2, m2, y1, m1);
  }

  /** Labels of different years sort by year. */
  lemma LabelYearFirst(y1: Year, m1: Month, y2: Year, m2: Month)
    requires y1 < y2
    ensures Less(MonthLabel(y1, m1), MonthLabel(y2, m2))
  {
    YearTextOrder(y1, y2);
    LessExtend(Decimal(y1, 4), Decimal(y2, 4), " : " + Abbrev(m1), " : " + Abbrev(m2));
  }

  /** Within a year, labels sort by the alphabetical order of the abbreviations. */
  lemma LabelWithinYear(y: Year, m1: Month, m2: Month)
    ensures Less(MonthLabel(y, m1), MonthLabel(y, m2)) <==> Less(Abbrev(m1), Abbrev(m2))
  {
    var p := Decimal(y, 4) + " : ";
    assert MonthLabel(y, m1) == p + Abbrev(m1);
    assert MonthLabel(y, m2) == p + Abbrev(m2);
    LessCommonPrefix(p, Abbrev(m1), Abbrev(m2));
  }

  /** Inverse of `Abbrev`. */
  function MonthOfAbbrev(s: string): int
  {
    if s == "Jan" then 1 else if s == "Feb" then 2 else if s == "Mar" then 3
    else if s == "Apr" then 4 else if s == "May" then 5 else if s == "Jun" then 6
    else if s == "Jul" then 7 else if s == "Aug" then 8 else if s == "Sep" then 9
    else if s == "Oct" then 10 else if s == "Nov" then 11 else if s == "Dec" then 12
    else 0
  }

  lemma AbbrevInverse(m: Month)
    ensures MonthOfAbbrev(Abbrev(m)) == m
  {
  }

  /** One label per month: `"%Y : %b"` loses nothing. */
  lemma LabelInjective(y1: Year, m1: Month, y2: Year, m2: Month)
    requires MonthLabel(y1, m1) == MonthLabel(y2, m2)
    ensures y1 == y2 && m1 == m2
  {
    LessIrreflexive(MonthLabel(y1, m1));
    if y1 < y2 {
      LabelYearFirst(y1, m1, y2, m2);
    } else if y2 < y1 {
      LabelYearFirst(y2, m2, y1, m1);
    } else {
      var p := Decimal(y1, 4) + " : ";
      assert MonthLabel(y1, m1) == p + Abbrev(m1);
      assert MonthLabel(y2, m2) == p + Abbrev(m2);
      assert Abbrev(m1) == (p + Abbrev(m1))[|p|..];
      assert Abbrev(m2) == (p + Abbrev(m2))[|p|..];
      AbbrevInverse(m1);
      AbbrevInverse(m2);
    }
  }

  /** Label order is not calendar order: April 2014 sorts before February 2014. */
  lemma LabelOrderIsNotCalendar()
    ensures Before(2014, 2, 2014, 4)
    ensures Less(MonthLabel(2014, 4), MonthLabel(2014, 2))
  {
    LabelWithinYear(2014, 4, 2);
    assert Abbrev(4) == "Apr" && Abbrev(2) == "Feb";
    assert Less("Apr", "Feb");
  }
}
