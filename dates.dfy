/** Calendar dates as the forms hold them: the `YYYY-MM-DD` text produced by
    `toISOString().split("T")[0]` and by date inputs, compared with JavaScript's
    string `<`/`>`. The point of this module is that, for well-formed dates,
    that string comparison is exactly chronological order. */
module IsoDates {
  import opened Common

  predicate IsDigit(c: char) {
    '0' <= c <= '9'
  }

  predicate AllDigits(s: string) {
    forall i :: 0 <= i < |s| ==> IsDigit(s[i])
  }

  /** Ten characters: four year digits, '-', two month digits, '-', two day digits. */
  predicate IsIsoDate(s: string) {
    |s| == 10 && s[4] == '-' && s[7] == '-' &&
    AllDigits(s[0..4]) && AllDigits(s[5..7]) && AllDigits(s[8..10])
  }

  function Pow10(n: nat): (r: nat)
    ensures r >= 1
  {
    if n == 0 then 1 else 10 * Pow10(n - 1)
  }

  function DigitValue(c: char): nat
    requires IsDigit(c)
  {
    c as int - '0' as int
  }

  /** A digit in front of a smaller number stays below the next power. */
  lemma PlaceBound(d: nat, p: nat, rest: nat)
    requires d <= 9 && rest < p
    ensures d * p + rest < 10 * p
  {
    assert d * p <= 9 * p;
  }

  /** The number a string of decimal digits denotes, most significant first. */
  function Value(s: string): (r: nat)
    requires AllDigits(s)
    ensures r < Pow10(|s|)
  {
    if s == [] then 0
    else
      var rest := Value(s[1..]);
      var d := DigitValue(s[0]);
      var p := Pow10(|s| - 1);
      PlaceBound(d, p, rest);
      assert Pow10(|s|) == 10 * p;
      d * p + rest
  }

  function Year(s: string): nat
    requires IsIsoDate(s)
  {
    Value(s[0..4])
  }

  function Month(s: string): nat
    requires IsIsoDate(s)
  {
    Value(s[5..7])
  }

  function Day(s: string): nat
    requires IsIsoDate(s)
  {
    Value(s[8..10])
  }

  /** Chronological "earlier than": by year, then month, then day. */
  predicate Earlier(a: string, b: string)
    requires IsIsoDate(a) && IsIsoDate(b)
  {
    Year(a) < Year(b) ||
    (Year(a) == Year(b) && (Month(a) < Month(b) || (Month(a) == Month(b) && Day(a) < Day(b))))
  }

  /** Comparing two strings that start with prefixes of the same length: the
      prefixes decide unless they are equal, in which case the rest decides. */
  lemma {:induction false} StringLessConcat(p: string, x: string, q: string, y: string)
    requires |p| == |q|
    ensures StringLess(p + x, q + y) == if p != q then StringLess(p, q) else StringLess(x, y)
    decreases |p|
  {
    if p == [] {
      assert p + x == x && q + y == y;
    } else {
      assert (p + x)[0] == p[0] && (q + y)[0] == q[0];
      assert (p + x)[1..] == p[1..] + x && (q + y)[1..] == q[1..] + y;
      StringLessConcat(p[1..], x, q[1..], y);
      if p[0] == q[0] {
        assert p != q <==> p[1..] != q[1..] by {
          if p[1..] == q[1..] { assert p == [p[0]] + p[1..] && q == [q[0]] + q[1..]; }
        }
      }
    }
  }

  /** A smaller leading digit outweighs any lower-order remainder. */
  lemma PlaceOrder(d: nat, e: nat, p: nat, r: nat, t: nat)
    requires d < e && r < p
    ensures d * p + r < e * p + t
  {
    calc {
      d * p + r;
    <
      d * p + p;
    ==
      (d + 1) * p;
    <=  { MulMono(d + 1, e, p); }
      e * p;
    }
  }

  lemma MulMono(x: nat, y: nat, p: nat)
    requires x <= y
    ensures x * p <= y * p
  {
  }

  /** For digit strings of equal length, string order is numeric order, and
      equal text is equal value. */
  lemma {:induction false} DigitsOrder(a: string, b: string)
    requires |a| == |b| && AllDigits(a) && AllDigits(b)
    ensures StringLess(a, b) <==> Value(a) < Value(b)
    ensures a == b <==> Value(a) == Value(b)
    decreases |a|
  {
    if a != [] {
      DigitsOrder(a[1..], b[1..]);
      if a[0] == b[0] {
        assert a == b <==> a[1..] == b[1..] by {
          if a[1..] == b[1..] { assert a == [a[0]] + a[1..] && b == [b[0]] + b[1..]; }
        }
      } else if a[0] < b[0] {
        PlaceOrder(DigitValue(a[0]), DigitValue(b[0]), Pow10(|a| - 1), Value(a[1..]), Value(b[1..]));
      } else {
        PlaceOrder(DigitValue(b[0]), DigitValue(a[0]), Pow10(|a| - 1), Value(b[1..]), Value(a[1..]));
      }
    }
  }

  /** The guard `date > today` in the forms means "date is chronologically
      after today" whenever both are well-formed ISO calendar dates. */
  lemma IsoOrderIsChronological(a: string, b: string)
    requires IsIsoDate(a) && IsIsoDate(b)
    ensures StringLess(a, b) <==> Earlier(a, b)
  {
    DigitsOrder(a[0..4], b[0..4]);
    DigitsOrder(a[5..7], b[5..7]);
    DigitsOrder(a[8..10], b[8..10]);
    assert a == a[0..4] + ([a[4]] + (a[5..7] + ([a[7]] + a[8..10])));
    assert b == b[0..4] + ([b[4]] + (b[5..7] + ([b[7]] + b[8..10])));
    StringLessConcat(a[0..4], [a[4]] + (a[5..7] + ([a[7]] + a[8..10])),
                     b[0..4], [b[4]] + (b[5..7] + ([b[7]] + b[8..10])));
    StringLessConcat([a[4]], a[5..7] + ([a[7]] + a[8..10]), [b[4]], b[5..7] + ([b[7]] + b[8..10]));
    StringLessConcat(a[5..7], [a[7]] + a[8..10], b[5..7], [b[7]] + b[8..10]);
    StringLessConcat([a[7]], a[8..10], [b[7]], b[8..10]);
  }

  /** `date > today`, as the forms write it. */
  predicate After(date: string, today: string) {
    StringLess(today, date)
  }
}
