/**
 Timestamps and the text they are stored as.

 The store keeps every time as RFC 3339 text in UTC and lets SQLite compare that
 text byte by byte (`MIN(started_at)`, `ORDER BY received_at`, `failed_at >= ?`).
 A time is a number of nanoseconds; its text is nineteen characters for the whole
 second, then the fraction without trailing zeros (nothing at all when it is
 zero), then `Z`.
 */
module Timestamp {
  type Time = int

  const NANOS: int := 1_000_000_000
  const MILLISECOND: int := 1_000_000
  const SECOND: int := NANOS
  const MINUTE: int := 60 * SECOND
  const HOUR: int := 60 * MINUTE
  const DAY: int := 24 * HOUR

  function WholeSecond(t: Time): int { t / NANOS }

  function Fraction(t: Time): nat { t % NANOS }

  // -- Byte-wise comparison of text ------------------------------------------

  predicate LexLess(a: string, b: string) {
    if b == [] then false
    else if a == [] then true
    else a[0] < b[0] || (a[0] == b[0] && LexLess(a[1..], b[1..]))
  }

  lemma {:induction false} LexTotal(a: string, b: string)
    ensures a == b || LexLess(a, b) || LexLess(b, a)
    ensures !(LexLess(a, b) && LexLess(b, a))
    ensures !LexLess(a, a)
  {
    if a != [] {
      LexTotal(a[1..], a[1..]);
    }
    if a != [] && b != [] {
      LexTotal(a[1..], b[1..]);
      assert a == [a[0]] + a[1..] && b == [b[0]] + b[1..];
    }
  }

  lemma {:induction false} LexTransitive(a: string, b: string, c: string)
    requires LexLess(a, b) && LexLess(b, c)
    ensures LexLess(a, c)
  {
    if a != [] && a[0] == b[0] == c[0] {
      LexTransitive(a[1..], b[1..], c[1..]);
    }
  }

  lemma {:induction false} LexCommonPrefix(p: string, a: string, b: string)
    ensures LexLess(p + a, p + b) <==> LexLess(a, b)
  {
    if p == [] {
      assert p + a == a && p + b == b;
    } else {
      assert (p + a)[1..] == p[1..] + a && (p + b)[1..] == p[1..] + b;
      LexCommonPrefix(p[1..], a, b);
    }
  }

  lemma {:induction false} LexSameLength(a: string, b: string, x: string, y: string)
    requires |a| == |b| && a != b
    ensures LexLess(a + x, b + y) <==> LexLess(a, b)
  {
    assert (a + x)[1..] == a[1..] + x && (b + y)[1..] == b[1..] + y;
    if a[0] == b[0] {
      assert a == [a[0]] + a[1..] && b == [b[0]] + b[1..];
      LexSameLength(a[1..], b[1..], x, y);
    }
  }

  // -- The fraction of a second ----------------------------------------------

  function Pow10(k: nat): (p: nat)
    ensures p >= 1
  {
    if k == 0 then 1 else 10 * Pow10(k - 1)
  }

  function DigitChar(d: nat): char
    requires d < 10
  {
    '0' + d as char
  }

  lemma DivMod(f: nat, p: nat)
    requires 1 <= p && f < 10 * p
    ensures 0 <= f / p < 10 && 0 <= f % p < p && f == (f / p) * p + f % p
  {
  }

  /** The `k`-digit fraction `f` without its trailing zeros. */
  function Digits(f: nat, k: nat): (s: string)
    requires f < Pow10(k)
  {
    if f == 0 then ""
    else
      DivMod(f, Pow10(k - 1));
      [DigitChar(f / Pow10(k - 1))] + Digits(f % Pow10(k - 1), k - 1)
  }

  function Suffix(f: nat): string
    requires f < Pow10(9)
  {
    if f == 0 then "Z" else "." + Digits(f, 9) + "Z"
  }

  /** How two texts compare when each is a first character and a rest. */
  lemma ConsOrder(c: char, x: string, d: char, y: string)
    ensures LexLess([c] + x, [d] + y) <==> c < d || (c == d && LexLess(x, y))
    ensures [c] + x <= [d] + y <==> c == d && x <= y
  {
    assert ([c] + x)[1..] == x && ([d] + y)[1..] == y;
    if [c] + x <= [d] + y {
      assert y[..|x|] == ([d] + y)[1..|x| + 1] == ([c] + x)[1..];
    }
  }

  lemma {:induction false} DigitsOrder(f: nat, g: nat, k: nat)
    requires f < g < Pow10(k)
    ensures LexLess(Digits(f, k) + "Z", Digits(g, k) + "Z") <==> !(Digits(f, k) <= Digits(g, k))
    decreases k, 1
  {
    var p := Pow10(k - 1);
    DivMod(g, p);
    var h, y := g / p, Digits(g % p, k - 1);
    assert Digits(g, k) + "Z" == [DigitChar(h)] + (y + "Z");
    if f == 0 {
      assert Digits(f, k) + "Z" == ['Z'] + "";
      ConsOrder('Z', "", DigitChar(h), y + "Z");
    } else {
      DivMod(f, p);
      QuotientMonotone(f, g, p);
      DigitsOrderStep(f / p, f % p, h, g % p, k - 1);
      assert Digits(f, k) == [DigitChar(f / p)] + Digits(f % p, k - 1);
    }
  }

  lemma DigitsOrderStep(c: nat, f: nat, d: nat, g: nat, k: nat)
    requires c <= d < 10 && f < Pow10(k) && g < Pow10(k) && (c == d ==> f < g)
    ensures var a, b := [DigitChar(c)] + Digits(f, k), [DigitChar(d)] + Digits(g, k);
            LexLess(a + "Z", b + "Z") <==> !(a <= b)
    decreases k, 2
  {
    var x, y := Digits(f, k), Digits(g, k);
    assert [DigitChar(c)] + x + "Z" == [DigitChar(c)] + (x + "Z");
    assert [DigitChar(d)] + y + "Z" == [DigitChar(d)] + (y + "Z");
    ConsOrder(DigitChar(c), x + "Z", DigitChar(d), y + "Z");
    ConsOrder(DigitChar(c), x, DigitChar(d), y);
    if c == d {
      DigitsOrder(f, g, k);
    }
  }

  lemma QuotientMonotone(f: nat, g: nat, p: nat)
    requires 1 <= p && f <= g
    ensures f / p <= g / p
    ensures f < g && f / p == g / p ==> f % p < g % p
  {
    var q, r := f / p, g / p;
    assert f == q * p + f % p && g == r * p + g % p;
    LeadingDigit(q, f % p, r, g % p, p);
  }

  lemma LeadingDigit(q: int, a: int, r: int, b: int, p: int)
    requires 0 <= a < p && 0 <= b < p && q * p + a <= r * p + b
    ensures q <= r
  {
    var n := q - r - 1;
    assert n * p == q * p - r * p - p;
    assert n * p < 0;
  }

  /**
   Within one second the text orders two fractions like time exactly when the
   earlier fraction's digits are not a prefix of the later one's. (`.2` sorts
   after `.25`, and a whole second sorts after every fraction of it.)
   */
  lemma FractionOrder(f: nat, g: nat)
    requires f < g < Pow10(9)
    ensures LexLess(Suffix(f), Suffix(g)) <==> !(Digits(f, 9) <= Digits(g, 9))
  {
    if f == 0 {
      assert Suffix(g)[0] == '.';
    } else {
      var a, b := Digits(f, 9) + "Z", Digits(g, 9) + "Z";
      assert Suffix(f) == "." + a && Suffix(g) == "." + b;
      LexCommonPrefix(".", a, b);
      DigitsOrder(f, g, 9);
    }
  }

  // -- The whole second ------------------------------------------------------

  /** The calendar fields of a whole second, as the formatter prints them. */
  datatype Civil = Civil(year: nat, month: nat, day: nat, hour: nat, minute: nat, second: nat) {
    predicate Printable() {
      year < 10_000 && month < 100 && day < 100 && hour < 100 && minute < 100 && second < 100
    }

    predicate Before(that: Civil) {
      || year < that.year
      || (year == that.year && (month < that.month
      || (month == that.month && (day < that.day
      || (day == that.day && (hour < that.hour
      || (hour == that.hour && (minute < that.minute
      || (minute == that.minute && second < that.second)))))))))
    }

    function Text(): string
      requires Printable()
    {
      Padded(year, 4) + "-" + Padded(month, 2) + "-" + Padded(day, 2) + "T" +
      Padded(hour, 2) + ":" + Padded(minute, 2) + ":" + Padded(second, 2)
    }
  }

  /** `n` in exactly `k` decimal digits. */
  function Padded(n: nat, k: nat): (s: string)
    requires n < Pow10(k)
    ensures |s| == k
  {
    if k == 0 then ""
    else
      DivMod(n, Pow10(k - 1));
      [DigitChar(n / Pow10(k - 1))] + Padded(n % Pow10(k - 1), k - 1)
  }

  lemma {:induction false} PaddedOrder(m: nat, n: nat, k: nat)
    requires m < n < Pow10(k)
    ensures LexLess(Padded(m, k), Padded(n, k))
  {
    var p := Pow10(k - 1);
    DivMod(m, p);
    DivMod(n, p);
    QuotientMonotone(m, n, p);
    assert Padded(m, k)[1..] == Padded(m % p, k - 1);
    assert Padded(n, k)[1..] == Padded(n % p, k - 1);
    if m / p == n / p {
      PaddedOrder(m % p, n % p, k - 1);
    }
  }

  /** One fixed-width field followed by anything decides the order unless it ties. */
  lemma FieldOrder(m: nat, n: nat, k: nat, x: string, y: string)
    requires m < Pow10(k) && n < Pow10(k)
    ensures LexLess(Padded(m, k) + x, Padded(n, k) + y) <==> m < n || (m == n && LexLess(x, y))
  {
    if m == n {
      LexCommonPrefix(Padded(m, k), x, y);
    } else if m < n {
      PaddedOrder(m, n, k);
      LexTotal(Padded(m, k), Padded(n, k));
      LexSameLength(Padded(m, k), Padded(n, k), x, y);
    } else {
      PaddedOrder(n, m, k);
      LexTotal(Padded(n, k), Padded(m, k));
      LexSameLength(Padded(m, k), Padded(n, k), x, y);
    }
  }

  lemma SeparatorOrder(c: char, x: string, y: string)
    ensures LexLess([c] + x, [c] + y) <==> LexLess(x, y)
  {
    LexCommonPrefix([c], x, y);
  }

  /** The text order of two stored times: calendar first, then the fraction's text. */
  lemma TextOrder(a: Civil, x: string, b: Civil, y: string)
    requires a.Printable() && b.Printable()
    ensures LexLess(a.Text() + x, b.Text() + y) <==> a.Before(b) || (a == b && LexLess(x, y))
  {
    assert Pow10(2) == 100 && Pow10(4) == 10_000 by {
      assert Pow10(1) == 10;
      assert Pow10(3) == 1000;
    }
    var a6, b6 := Padded(a.second, 2) + x, Padded(b.second, 2) + y;
    var a5, b5 := Padded(a.minute, 2) + ([':'] + a6), Padded(b.minute, 2) + ([':'] + b6);
    var a4, b4 := Padded(a.hour, 2) + ([':'] + a5), Padded(b.hour, 2) + ([':'] + b5);
    var a3, b3 := Padded(a.day, 2) + (['T'] + a4), Padded(b.day, 2) + (['T'] + b4);
    var a2, b2 := Padded(a.month, 2) + (['-'] + a3), Padded(b.month, 2) + (['-'] + b3);
    assert a.Text() + x == Padded(a.year, 4) + (['-'] + a2);
    assert b.Text() + y == Padded(b.year, 4) + (['-'] + b2);
    FieldOrder(a.second, b.second, 2, x, y);
    SeparatorOrder(':', a6, b6);
    FieldOrder(a.minute, b.minute, 2, [':'] + a6, [':'] + b6);
    SeparatorOrder(':', a5, b5);
    FieldOrder(a.hour, b.hour, 2, [':'] + a5, [':'] + b5);
    SeparatorOrder('T', a4, b4);
    FieldOrder(a.day, b.day, 2, ['T'] + a4, ['T'] + b4);
    SeparatorOrder('-', a3, b3);
    FieldOrder(a.month, b.month, 2, ['-'] + a3, ['-'] + b3);
    SeparatorOrder('-', a2, b2);
    FieldOrder(a.year, b.year, 4, ['-'] + a2, ['-'] + b2);
  }

  // -- The order SQLite sees -------------------------------------------------

  lemma NanosIsPow()
    ensures Pow10(9) == NANOS
  {
    assert Pow10(3) == 1000;
    assert Pow10(6) == 1_000_000;
  }

  /**
   Whether the text of `a` sorts strictly before the text of `b`: the calendar
   keeps the order of whole seconds, and within one the fractions' texts decide.
   `Calendar.StoredOrder` proves that this is what comparing the texts gives.
   */
  predicate TextBefore(a: Time, b: Time) {
    NanosIsPow();
    || WholeSecond(a) < WholeSecond(b)
    || (WholeSecond(a) == WholeSecond(b) && LexLess(Suffix(Fraction(a)), Suffix(Fraction(b))))
  }

  /** What a pair of times needs for its text to be misordered. */
  predicate Misordered(a: Time, b: Time) {
    NanosIsPow();
    && WholeSecond(a) == WholeSecond(b)
    && Digits(Fraction(a), 9) <= Digits(Fraction(b), 9)
  }

  /** Text orders an earlier and a later time correctly exactly when they are not misordered. */
  lemma TextBeforeExactly(a: Time, b: Time)
    requires a < b
    ensures TextBefore(a, b) <==> !Misordered(a, b)
  {
    NanosIsPow();
    assert a == WholeSecond(a) * NANOS + Fraction(a);
    assert b == WholeSecond(b) * NANOS + Fraction(b);
    if WholeSecond(a) == WholeSecond(b) {
      FractionOrder(Fraction(a), Fraction(b));
    }
  }

  /** Times in different whole seconds are always ordered correctly. */
  lemma TextBeforeAcrossSeconds(a: Time, b: Time)
    requires a + NANOS <= b
    ensures TextBefore(a, b) && !TextBefore(b, a)
  {
    assert a == WholeSecond(a) * NANOS + Fraction(a);
    assert b == WholeSecond(b) * NANOS + Fraction(b);
  }

  lemma TextBeforeIsStrict(a: Time, b: Time)
    ensures !(TextBefore(a, b) && TextBefore(b, a))
  {
    NanosIsPow();
    LexTotal(Suffix(Fraction(a)), Suffix(Fraction(b)));
  }

  lemma TextBeforeTransitive(a: Time, b: Time, c: Time)
    requires !TextBefore(b, a) && !TextBefore(c, b)
    ensures !TextBefore(c, a)
  {
    NanosIsPow();
    var x, y, z := Suffix(Fraction(a)), Suffix(Fraction(b)), Suffix(Fraction(c));
    LexTotal(x, y);
    LexTotal(y, z);
    if TextBefore(c, a) {
      assert WholeSecond(a) == WholeSecond(b) == WholeSecond(c);
      assert x == y || LexLess(x, y);
      assert y == z || LexLess(y, z);
      if x != y {
        LexTransitive(z, x, y);
        LexTotal(z, y);
      }
      assert false;
    }
  }

  lemma {:induction false} DigitsDiffer(f: nat, g: nat, k: nat)
    requires f < Pow10(k) && g < Pow10(k) && Digits(f, k) == Digits(g, k)
    ensures f == g
    decreases k
  {
    if f != 0 && g != 0 {
      var p := Pow10(k - 1);
      DivMod(f, p);
      DivMod(g, p);
      var a, b := Digits(f, k), Digits(g, k);
      assert a[0] == DigitChar(f / p) && b[0] == DigitChar(g / p) && f / p == g / p;
      assert a[1..] == Digits(f % p, k - 1) && b[1..] == Digits(g % p, k - 1);
      DigitsDiffer(f % p, g % p, k - 1);
    }
  }

  /** Different times have different texts, so exactly one of the two sorts first. */
  lemma TextIsTotal(a: Time, b: Time)
    requires a != b
    ensures TextBefore(a, b) <==> !TextBefore(b, a)
  {
    NanosIsPow();
    var f, g := Fraction(a), Fraction(b);
    assert a == WholeSecond(a) * NANOS + f && b == WholeSecond(b) * NANOS + g;
    if WholeSecond(a) == WholeSecond(b) {
      LexTotal(Suffix(f), Suffix(g));
      if Suffix(f) == Suffix(g) {
        assert Suffix(f)[0] == Suffix(g)[0];
        if f != 0 && g != 0 {
          assert Digits(f, 9) == Suffix(f)[1..|Suffix(f)| - 1] == Digits(g, 9);
          DigitsDiffer(f, g, 9);
        }
      }
    }
  }
}
