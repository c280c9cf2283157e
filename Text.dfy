/** Python's ordering of `str` values, which pandas uses to sort group keys,
    and zero-padded decimal text as printed by `strftime`. */
module Text {

  /** `a < b` on Python strings: code point by code point, a proper prefix first. */
  predicate Less(a: string, b: string)
    decreases |a|
  {
    if |a| == 0 then |b| > 0
    else if |b| == 0 then false
    else if a[0] != b[0] then a[0] < b[0]
    else Less(a[1..], b[1..])
  }

  lemma {:induction false} LessIrreflexive(a: string)
    ensures !Less(a, a)
  {
    if |a| > 0 {
      LessIrreflexive(a[1..]);
    }
  }

  lemma {:induction false} LessTransitive(a: string, b: string, c: string)
    requires Less(a, b) && Less(b, c)
    ensures Less(a, c)
  {
    if |a| > 0 && a[0] == b[0] && b[0] == c[0] {
      LessTransitive(a[1..], b[1..], c[1..]);
    }
  }

  lemma {:induction false} LessTotal(a: string, b: string)
    requires a != b
    ensures Less(a, b) || Less(b, a)
  {
    if |a| > 0 && |b| > 0 && a[0] == b[0] {
      assert a == [a[0]] + a[1..] && b == [b[0]] + b[1..];
      LessTotal(a[1..], b[1..]);
    }
  }

  lemma LessAsymmetric(a: string, b: string)
    requires Less(a, b)
    ensures !Less(b, a)
  {
    if Less(b, a) {
      LessTransitive(a, b, a);
      LessIrreflexive(a);
    }
  }

  /** A common prefix does not change the comparison. */
  lemma {:induction false} LessCommonPrefix(p: string, a: string, b: string)
    ensures Less(p + a, p + b) <==> Less(a, b)
  {
    if p != [] {
      assert (p + a)[1..] == p[1..] + a;
      assert (p + b)[1..] == p[1..] + b;
      LessCommonPrefix(p[1..], a, b);
    } else {
      assert p + a == a && p + b == b;
    }
  }

  /** Between equal-length strings the first difference decides, whatever follows. */
  lemma {:induction false} LessExtend(a: string, b: string, x: string, y: string)
    requires |a| == |b| && Less(a, b)
    ensures Less(a + x, b + y)
  {
    if a[0] == b[0] {
      assert (a + x)[1..] == a[1..] + x;
      assert (b + y)[1..] == b[1..] + y;
      LessExtend(a[1..], b[1..], x, y);
    }
  }

  function Digit(d: int): (c: char)
    requires 0 <= d <= 9
  {
    ('0' as int + d) as char
  }

  function Pow10(w: nat): (p: nat)
    ensures p >= 1
  {
    if w == 0 then 1 else 10 * Pow10(w - 1)
  }

  /** The last `width` decimal digits of `n`, zero-padded (`%04d`, `%02d`). */
  function Decimal(n: nat, width: nat): (s: string)
    ensures |s| == width
    ensures forall i :: 0 <= i < |s| ==> '0' <= s[i] <= '9'
  {
    if width == 0 then [] else Decimal(n / 10, width - 1) + [Digit(n % 10)]
  }

  /** Padded decimals of numbers that fit the width sort as the numbers do. */
  lemma {:induction false} DecimalOrder(n1: nat, n2: nat, w: nat)
    requires n1 < n2 < Pow10(w)
    ensures Less(Decimal(n1, w), Decimal(n2, w))
  {
    var q1, q2 := n1 / 10, n2 / 10;
    assert q2 < Pow10(w - 1);
    if q1 < q2 {
      DecimalOrder(q1, q2, w - 1);
      LessExtend(Decimal(q1, w - 1), Decimal(q2, w - 1), [Digit(n1 % 10)], [Digit(n2 % 10)]);
    } else {
      assert Less([Digit(n1 % 10)], [Digit(n2 % 10)]);
      LessCommonPrefix(Decimal(q1, w - 1), [Digit(n1 % 10)], [Digit(n2 % 10)]);
    }
  }
}
