/**
 * The values the two date inputs yield (`YYYY-MM-DD`, or "" while no date is
 * picked) and the comparison `new Date(start) > new Date(end)` the button
 * handler makes on them.
 */
module Dates {

  predicate IsDigit(c: char) {
    '0' <= c <= '9'
  }

  predicate IsDigits(s: string) {
    forall i :: 0 <= i < |s| ==> IsDigit(s[i])
  }

  function Digit(c: char): (d: nat)
    requires IsDigit(c)
    ensures d <= 9
  {
    (c as int) - ('0' as int)
  }

  function Pow10(n: nat): (r: nat)
    ensures r >= 1
  {
    if n == 0 then 1 else 10 * Pow10(n - 1)
  }

  /** The decimal value of a digit string, most significant digit first. */
  function Num(s: string): (n: nat)
    requires IsDigits(s)
    ensures n < Pow10(|s|)
  {
    if s == [] then 0
    else
      var p := Pow10(|s| - 1);
      var rest := Num(s[1..]);
      assert Digit(s[0]) * p <= 9 * p;
      Digit(s[0]) * p + rest
  }

  /** A calendar date as year, month and day. */
  datatype Date = Date(year: nat, month: nat, day: nat)

  /** The shape of a date input's value, with month and day in range. */
  predicate IsIsoDate(s: string) {
    && |s| == 10
    && s[4] == '-' && s[7] == '-'
    && IsDigits(s[..4]) && IsDigits(s[5..7]) && IsDigits(s[8..])
    && 1 <= Num(s[5..7]) <= 12
    && 1 <= Num(s[8..]) <= 31
  }

  function Parse(s: string): Date
    requires IsIsoDate(s)
  {
    Date(Num(s[..4]), Num(s[5..7]), Num(s[8..]))
  }

  /** Calendar order: year first, then month, then day. */
  predicate Before(a: Date, b: Date) {
    || a.year < b.year
    || (a.year == b.year && a.month < b.month)
    || (a.year == b.year && a.month == b.month && a.day < b.day)
  }

  /**
   * `new Date(start) > new Date(end)`. A value that does not parse is an
   * invalid Date, and every comparison with it is false.
   */
  predicate StartAfterEnd(start: string, end: string) {
    IsIsoDate(start) && IsIsoDate(end) && Before(Parse(end), Parse(start))
  }

  /** JavaScript's `<` on strings: lexicographic by code unit, a proper prefix first. */
  predicate LexLess(x: string, y: string) {
    if x == [] then y != []
    else y != [] && (x[0] < y[0] || (x[0] == y[0] && LexLess(x[1..], y[1..])))
  }

  /** A smaller leading digit decides both orders, whatever follows it. */
  lemma LeadingDigitDecides(x: string, y: string)
    requires IsDigits(x) && IsDigits(y) && |x| == |y| > 0
    requires x[0] < y[0]
    ensures Num(x) < Num(y) && LexLess(x, y)
  {
    var p := Pow10(|x| - 1);
    assert Num(x) == Digit(x[0]) * p + Num(x[1..]);
    assert Num(y) == Digit(y[0]) * p + Num(y[1..]);
    PlaceValue(Digit(x[0]), Digit(y[0]), p, Num(x[1..]), Num(y[1..]));
  }

  lemma PlaceValue(dx: nat, dy: nat, p: nat, rx: nat, ry: nat)
    requires dx < dy && rx < p
    ensures dx * p + rx < dy * p + ry
  {
    assert dy * p == (dx + 1) * p + (dy - dx - 1) * p;
  }

  /** On digit strings of one length, numeric order is string order. */
  lemma {:induction false} DigitsOrder(x: string, y: string)
    requires IsDigits(x) && IsDigits(y) && |x| == |y|
    ensures Num(x) < Num(y) <==> LexLess(x, y)
    ensures Num(x) == Num(y) <==> x == y
  {
    if x == [] {
    } else if x[0] < y[0] {
      LeadingDigitDecides(x, y);
    } else if y[0] < x[0] {
      LeadingDigitDecides(y, x);
    } else {
      DigitsOrder(x[1..], y[1..]);
      assert x == [x[0]] + x[1..] && y == [y[0]] + y[1..];
    }
  }

  /** String order over two aligned pieces: the first piece decides unless it ties. */
  lemma {:induction false} LexLessConcat(x1: string, x2: string, y1: string, y2: string)
    requires |x1| == |y1|
    ensures LexLess(x1 + x2, y1 + y2) <==> LexLess(x1, y1) || (x1 == y1 && LexLess(x2, y2))
  {
    if x1 == [] {
      assert x1 + x2 == x2 && y1 + y2 == y2;
    } else {
      assert (x1 + x2)[1..] == x1[1..] + x2;
      assert (y1 + y2)[1..] == y1[1..] + y2;
      LexLessConcat(x1[1..], x2, y1[1..], y2);
      assert x1 == [x1[0]] + x1[1..] && y1 == [y1[0]] + y1[1..];
    }
  }

  /**
   * On well-formed input values, "start is after end" is plain string order:
   * the end value sorts before the start value.
   */
  lemma StartAfterEndIsStringOrder(start: string, end: string)
    requires IsIsoDate(start) && IsIsoDate(end)
    ensures StartAfterEnd(start, end) <==> LexLess(end, start)
  {
    var a, b := end, start;
    DigitsOrder(a[..4], b[..4]);
    DigitsOrder(a[5..7], b[5..7]);
    DigitsOrder(a[8..], b[8..]);
    assert a == a[..4] + ([a[4]] + (a[5..7] + ([a[7]] + a[8..])));
    assert b == b[..4] + ([b[4]] + (b[5..7] + ([b[7]] + b[8..])));
    LexLessConcat(a[..4], [a[4]] + (a[5..7] + ([a[7]] + a[8..])), b[..4], [b[4]] + (b[5..7] + ([b[7]] + b[8..])));
    LexLessConcat([a[4]], a[5..7] + ([a[7]] + a[8..]), [b[4]], b[5..7] + ([b[7]] + b[8..]));
    LexLessConcat(a[5..7], [a[7]] + a[8..], b[5..7], [b[7]] + b[8..]);
    LexLessConcat([a[7]], a[8..], [b[7]], b[8..]);
    assert !LexLess([a[4]], [b[4]]) && !LexLess([a[7]], [b[7]]);
  }
}
