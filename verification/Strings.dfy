/** White space, trimming and decimal numerals. */
module Strings {
  /** The Unicode property White_Space. */
  predicate IsSpace(c: char) {
    var n := c as int;
    || 0x9 <= n <= 0xD || n == 0x20 || n == 0x85 || n == 0xA0 || n == 0x1680
    || 0x2000 <= n <= 0x200A || n == 0x2028 || n == 0x2029 || n == 0x202F || n == 0x205F || n == 0x3000
  }

  function TrimStart(s: string): string {
    if s != [] && IsSpace(s[0]) then TrimStart(s[1..]) else s
  }

  function TrimEnd(s: string): string {
    if s != [] && IsSpace(s[|s| - 1]) then TrimEnd(s[..|s| - 1]) else s
  }

  function Trim(s: string): string {
    TrimEnd(TrimStart(s))
  }

  predicate AllDigits(s: string) {
    forall i | 0 <= i < |s| :: '0' <= s[i] <= '9'
  }

  function Decimal(n: nat): (s: string)
    ensures s != "" && AllDigits(s)
  {
    var digit := ['0' + (n % 10) as char];
    if n < 10 then digit else Decimal(n / 10) + digit
  }

  lemma {:induction false} DecimalsDiffer(m: nat, n: nat)
    requires Decimal(m) == Decimal(n)
    ensures m == n
  {
    var s := Decimal(m);
    assert s[|s| - 1] == '0' + (m % 10) as char == '0' + (n % 10) as char;
    if m >= 10 {
      assert s[..|s| - 1] == Decimal(m / 10);
    }
    if n >= 10 {
      assert s[..|s| - 1] == Decimal(n / 10);
    }
    if m >= 10 && n >= 10 {
      DecimalsDiffer(m / 10, n / 10);
    }
  }

  /** The number a row of digits stands for. */
  function Value(s: string): nat
    requires AllDigits(s)
  {
    if s == "" then 0 else 10 * Value(s[..|s| - 1]) + (s[|s| - 1] as int - '0' as int)
  }

  /** `s` is how `n` is written: its digits, none of them a leading zero. */
  predicate IsNumeral(s: string, n: nat) {
    s != "" && AllDigits(s) && Value(s) == n && (s[0] == '0' ==> s == "0")
  }

  lemma {:induction false} DecimalIsNumeral(n: nat)
    ensures IsNumeral(Decimal(n), n)
  {
    var s := Decimal(n);
    if n < 10 {
      assert s[..0] == "" && s == ['0' + n as char];
    } else {
      DecimalIsNumeral(n / 10);
      var high := Decimal(n / 10);
      assert s[..|s| - 1] == high && s[0] == high[0];
      assert high != "0";
    }
  }

  /** `s[i..j]` lacks exactly the white space at both ends of `s`. */
  ghost predicate CutsSpace(s: string, i: nat, j: nat) {
    && i <= j <= |s|
    && (forall k | 0 <= k < i || j <= k < |s| :: IsSpace(s[k]))
    && (i < j ==> !IsSpace(s[i]) && !IsSpace(s[j - 1]))
  }

  /** Trimming cuts white space off both ends, all of it, and nothing else. */
  lemma TrimCutsSpace(s: string)
    ensures exists i: nat, j: nat :: CutsSpace(s, i, j) && Trim(s) == s[i..j]
  {
    var i := TrimStartCuts(s);
    var t := s[i..];
    var n := TrimEndCuts(t);
    var j := i + n;
    assert t[..n] == s[i..j];
    forall k | j <= k < |s| ensures IsSpace(s[k]) {
      assert s[k] == t[k - i];
    }
    assert i < j ==> s[i] == t[0] && s[j - 1] == t[n - 1];
    assert CutsSpace(s, i, j) && Trim(s) == s[i..j];
  }

  lemma {:induction false} TrimStartCuts(s: string) returns (i: nat)
    ensures i <= |s| && TrimStart(s) == s[i..]
    ensures forall k | 0 <= k < i :: IsSpace(s[k])
    ensures i < |s| ==> !IsSpace(s[i])
  {
    i := 0;
    if s != [] && IsSpace(s[0]) {
      var m := TrimStartCuts(s[1..]);
      i := m + 1;
      assert s[1..][m..] == s[i..];
      forall k | 0 <= k < i ensures IsSpace(s[k]) {
        assert k > 0 ==> s[k] == s[1..][k - 1];
      }
    }
  }

  lemma {:induction false} TrimEndCuts(s: string) returns (n: nat)
    ensures n <= |s| && TrimEnd(s) == s[..n]
    ensures forall k | n <= k < |s| :: IsSpace(s[k])
    ensures n > 0 ==> !IsSpace(s[n - 1])
    decreases |s|
  {
    n := |s|;
    if s != [] && IsSpace(s[|s| - 1]) {
      n := TrimEndCuts(s[..|s| - 1]);
      assert s[..|s| - 1][..n] == s[..n];
    }
  }
}
