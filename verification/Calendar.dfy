/**
 From a number of nanoseconds to the stored text, so that comparing texts is
 comparing times as `Timestamp.TextBefore` says. Times count from the start of
 the year 0 of the proleptic Gregorian calendar, in UTC.
 */
module Calendar {
  import opened Strings
  import opened Timestamp

  predicate IsLeap(year: nat) {
    year % 4 == 0 && (year % 100 != 0 || year % 400 == 0)
  }

  function MonthDays(year: nat, month: nat): nat {
    if month == 2 then (if IsLeap(year) then 29 else 28)
    else if month in {4, 6, 9, 11} then 30
    else 31
  }

  /** The fields name a second of some day. */
  predicate Exists(c: Civil) {
    1 <= c.month <= 12 && 1 <= c.day <= MonthDays(c.year, c.month) && c.hour < 24 && c.minute < 60 && c.second < 60
  }

  function Tomorrow(c: Civil): (d: Civil)
    requires Exists(c)
    ensures Exists(d) && c.Before(d)
  {
    if c.day < MonthDays(c.year, c.month) then Civil(c.year, c.month, c.day + 1, 0, 0, 0)
    else if c.month < 12 then Civil(c.year, c.month + 1, 1, 0, 0, 0)
    else Civil(c.year + 1, 1, 1, 0, 0, 0)
  }

  function NextSecond(c: Civil): (d: Civil)
    requires Exists(c)
    ensures Exists(d) && c.Before(d)
  {
    if c.second < 59 then c.(second := c.second + 1)
    else if c.minute < 59 then c.(minute := c.minute + 1, second := 0)
    else if c.hour < 23 then c.(hour := c.hour + 1, minute := 0, second := 0)
    else Tomorrow(c)
  }

  /** The calendar fields `s` seconds after the start of the year 0. */
  ghost function CivilOf(s: nat): (c: Civil)
    ensures Exists(c)
  {
    if s == 0 then Civil(0, 1, 1, 0, 0, 0) else NextSecond(CivilOf(s - 1))
  }

  lemma {:induction false} LaterCivil(s: nat, u: nat)
    requires s < u
    ensures CivilOf(s).Before(CivilOf(u))
    decreases u
  {
    if s < u - 1 {
      LaterCivil(s, u - 1);
    }
  }

  /** RFC 3339 has four digits for the year. */
  ghost predicate Storable(t: Time) {
    0 <= t && CivilOf(WholeSecond(t)).year < 10_000
  }

  /** The text a time is stored as. */
  ghost function Text(t: Time): string
    requires Storable(t)
  {
    NanosIsPow();
    CivilOf(WholeSecond(t)).Text() + Suffix(Fraction(t))
  }

  /** Comparing the stored texts byte by byte is `TextBefore`. */
  lemma StoredOrder(a: Time, b: Time)
    requires Storable(a) && Storable(b)
    ensures LexLess(Text(a), Text(b)) <==> TextBefore(a, b)
  {
    NanosIsPow();
    var s, u := WholeSecond(a), WholeSecond(b);
    TextOrder(CivilOf(s), Suffix(Fraction(a)), CivilOf(u), Suffix(Fraction(b)));
    if s < u {
      LaterCivil(s, u);
    } else if u < s {
      LaterCivil(u, s);
    }
  }

  /** The text of an earlier time sorts first, except for the pairs within one second that are misordered. */
  lemma StoredExactly(a: Time, b: Time)
    requires Storable(a) && Storable(b) && a < b
    ensures LexLess(Text(a), Text(b)) <==> !Misordered(a, b)
    ensures a + NANOS <= b ==> LexLess(Text(a), Text(b))
  {
    StoredOrder(a, b);
    TextBeforeExactly(a, b);
    if a + NANOS <= b {
      TextBeforeAcrossSeconds(a, b);
    }
  }

  // -- What the text says ------------------------------------------------------------------

  lemma {:induction false} ValueOfFront(d: nat, s: string)
    requires d < 10 && AllDigits(s)
    ensures AllDigits([DigitChar(d)] + s)
    ensures Value([DigitChar(d)] + s) == d * Pow10(|s|) + Value(s)
    decreases |s|
  {
    var t := [DigitChar(d)] + s;
    if s == "" {
      assert t[..0] == "" && t == [DigitChar(d)];
    } else {
      var init := s[..|s| - 1];
      ValueOfFront(d, init);
      assert t[..|t| - 1] == [DigitChar(d)] + init;
      assert 10 * (d * Pow10(|init|)) == d * Pow10(|s|);
    }
  }

  /** A padded field reads as the number that was written. */
  lemma {:induction false} PaddedIsRead(n: nat, k: nat)
    requires n < Pow10(k)
    ensures AllDigits(Padded(n, k)) && Value(Padded(n, k)) == n
    decreases k
  {
    if k > 0 {
      var p := Pow10(k - 1);
      DivMod(n, p);
      PaddedIsRead(n % p, k - 1);
      ValueOfFront(n / p, Padded(n % p, k - 1));
    }
  }

  /** The part of `t` from `i` up to `j` is the number `n` in digits. */
  predicate ReadsAs(t: string, i: nat, j: nat, n: nat) {
    i <= j <= |t| && AllDigits(t[i..j]) && Value(t[i..j]) == n
  }

  /** The text up to the second: six fields in digits, each behind its separator. */
  lemma CivilIsRead(c: Civil)
    requires c.Printable()
    ensures var t := c.Text();
            && |t| == 19
            && t[4] == '-' && t[7] == '-' && t[10] == 'T' && t[13] == ':' && t[16] == ':'
            && ReadsAs(t, 0, 4, c.year) && ReadsAs(t, 5, 7, c.month) && ReadsAs(t, 8, 10, c.day)
            && ReadsAs(t, 11, 13, c.hour) && ReadsAs(t, 14, 16, c.minute) && ReadsAs(t, 17, 19, c.second)
  {
    assert Pow10(2) == 100 && Pow10(4) == 10_000 by {
      assert Pow10(1) == 10;
      assert Pow10(3) == 1000;
    }
    PaddedIsRead(c.year, 4);
    PaddedIsRead(c.month, 2);
    PaddedIsRead(c.day, 2);
    PaddedIsRead(c.hour, 2);
    PaddedIsRead(c.minute, 2);
    PaddedIsRead(c.second, 2);
    Fields(Padded(c.year, 4), Padded(c.month, 2), Padded(c.day, 2),
           Padded(c.hour, 2), Padded(c.minute, 2), Padded(c.second, 2));
  }

  lemma Fields(year: string, month: string, day: string, hour: string, minute: string, second: string)
    requires |year| == 4 && |month| == |day| == |hour| == |minute| == |second| == 2
    ensures var t := year + "-" + month + "-" + day + "T" + hour + ":" + minute + ":" + second;
            && |t| == 19 && t[4] == '-' && t[7] == '-' && t[10] == 'T' && t[13] == ':' && t[16] == ':'
            && t[0..4] == year && t[5..7] == month && t[8..10] == day
            && t[11..13] == hour && t[14..16] == minute && t[17..19] == second
  {
    var t := year + "-" + month + "-" + day + "T" + hour + ":" + minute + ":" + second;
    assert t[0..4] == year && t[4] == '-';
    assert t[5..7] == month && t[7] == '-';
    assert t[8..10] == day && t[10] == 'T';
    assert t[11..13] == hour && t[13] == ':';
    assert t[14..16] == minute && t[16] == ':';
    assert t[17..19] == second;
  }

  lemma {:induction false} DigitsAreRead(f: nat, k: nat)
    requires f < Pow10(k)
    ensures var d := Digits(f, k);
            && |d| <= k && AllDigits(d) && Value(d) * Pow10(k - |d|) == f
            && (d != "" ==> d[|d| - 1] != '0')
    decreases k
  {
    if f > 0 {
      var p := Pow10(k - 1);
      DivMod(f, p);
      var (q, rest) := (f / p, Digits(f % p, k - 1));
      DigitsAreRead(f % p, k - 1);
      ValueOfFront(q, rest);
      PowersMultiply(|rest|, k - 1 - |rest|);
      Shifted(q, Pow10(|rest|), Value(rest), Pow10(k - 1 - |rest|));
      var d := Digits(f, k);
      assert d == [DigitChar(q)] + rest && d[|d| - 1] == if rest == "" then DigitChar(q) else rest[|rest| - 1];
      assert rest == "" ==> f % p == 0 && q > 0;
      assert k - |d| == k - 1 - |rest|;
    }
  }

  lemma Shifted(q: int, m: int, v: int, n: int)
    ensures (q * m + v) * n == q * (m * n) + v * n
  {
  }

  lemma {:induction false} PowersMultiply(i: nat, j: nat)
    ensures Pow10(i) * Pow10(j) == Pow10(i + j)
  {
    if i > 0 {
      PowersMultiply(i - 1, j);
      assert 10 * Pow10(i - 1) * Pow10(j) == 10 * (Pow10(i - 1) * Pow10(j));
    }
  }

  /** The rest of the text: `Z`, or the nanoseconds as decimals without trailing zeros, then `Z`. */
  lemma FractionIsRead(f: nat)
    requires f < Pow10(9)
    ensures f == 0 ==> Suffix(f) == "Z"
    ensures f > 0 ==>
              exists d ::
                && Suffix(f) == "." + d + "Z" && 1 <= |d| <= 9 && AllDigits(d)
                && Value(d) * Pow10(9 - |d|) == f && d[|d| - 1] != '0'
  {
    DigitsAreRead(f, 9);
  }
}
