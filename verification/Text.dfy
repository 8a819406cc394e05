/** Decimal numerals, as `int(...)` reads them and string formatting writes them. */
module Text {

  predicate IsDigit(c: char) {
    '0' <= c <= '9'
  }

  predicate AllDigits(s: string) {
    forall i :: 0 <= i < |s| ==> IsDigit(s[i])
  }

  function DigitValue(c: char): nat
    requires IsDigit(c)
  {
    c as int - '0' as int
  }

  function ReadDigits(s: string): nat
    requires AllDigits(s)
  {
    if |s| == 0 then 0
    else 10 * ReadDigits(s[..|s| - 1]) + DigitValue(s[|s| - 1])
  }

  /** Digits are read by place, in tens. */
  lemma AppendedDigit(s: string, digit: nat)
    requires AllDigits(s) && digit < 10
    ensures AllDigits(s + ["0123456789"[digit]])
    ensures ReadDigits(s + ["0123456789"[digit]]) == 10 * ReadDigits(s) + digit
  {
    assert (s + ["0123456789"[digit]])[..|s|] == s;
  }

  function Digits(n: nat): (s: string)
    ensures |s| >= 1 && AllDigits(s)
  {
    var last := [('0' as int + n % 10) as char];
    if n < 10 then last else Digits(n / 10) + last
  }

  function Numeral(n: int): string {
    if n < 0 then "-" + Digits(-n) else Digits(n)
  }

  lemma {:induction false} DigitsReadBack(n: nat)
    ensures ReadDigits(Digits(n)) == n
  {
    var s := Digits(n);
    if n >= 10 {
      DigitsReadBack(n / 10);
      assert s[..|s| - 1] == Digits(n / 10);
    } else {
      assert s[..0] == "";
    }
  }

  function Zeros(n: nat): (s: string)
    ensures |s| == n && AllDigits(s)
  {
    if n == 0 then "" else Zeros(n - 1) + ['0']
  }

  lemma {:induction false} LeadingZeros(n: nat, s: string)
    requires AllDigits(s)
    ensures AllDigits(Zeros(n) + s) && ReadDigits(Zeros(n) + s) == ReadDigits(s)
  {
    if |s| > 0 {
      LeadingZeros(n, s[..|s| - 1]);
      assert (Zeros(n) + s)[..n + |s| - 1] == Zeros(n) + s[..|s| - 1];
    } else if n > 0 {
      LeadingZeros(n - 1, s);
      assert Zeros(n) + s == Zeros(n);
      assert Zeros(n)[..n - 1] == Zeros(n - 1) == Zeros(n - 1) + s;
    } else {
      assert Zeros(n) + s == s;
    }
  }

  /** Digits that denote a positive number are its numeral after some zeros. */
  lemma {:induction false} ZerosBefore(s: string) returns (n: nat)
    requires AllDigits(s) && ReadDigits(s) >= 1
    ensures s == Zeros(n) + Digits(ReadDigits(s))
  {
    var init, last := s[..|s| - 1], s[|s| - 1];
    assert s == init + [last];
    if ReadDigits(init) >= 1 {
      n := ZerosBefore(init);
      assert ReadDigits(s) / 10 == ReadDigits(init) && ReadDigits(s) % 10 == DigitValue(last);
      assert s == Zeros(n) + (Digits(ReadDigits(init)) + [last]);
    } else {
      n := |init|;
      AllZeros(init);
      assert Digits(ReadDigits(s)) == [last];
    }
  }

  lemma {:induction false} AllZeros(s: string)
    requires AllDigits(s) && ReadDigits(s) == 0
    ensures s == Zeros(|s|)
  {
    if |s| > 0 {
      AllZeros(s[..|s| - 1]);
      assert s == s[..|s| - 1] + ['0'];
    }
  }

  lemma NumeralInjective(m: int, n: int)
    requires Numeral(m) == Numeral(n)
    ensures m == n
  {
    assert IsDigit(Digits(if m < 0 then -m else m)[0]) && IsDigit(Digits(if n < 0 then -n else n)[0]);
    if m < 0 && n < 0 {
      assert Digits(-m) == Numeral(m)[1..] == Numeral(n)[1..] == Digits(-n);
    }
    DigitsReadBack(if m < 0 then -m else m);
    DigitsReadBack(if n < 0 then -n else n);
  }

  /** Position of the first dash, or the length when there is none. */
  function FirstDash(s: string): nat {
    if |s| == 0 || s[0] == '-' then 0 else 1 + FirstDash(s[1..])
  }

  lemma {:induction false} FirstDashFollows(a: string, x: string)
    requires '-' !in a
    ensures FirstDash(a + "-" + x) == |a|
  {
    if |a| > 0 {
      FirstDashFollows(a[1..], x);
      assert (a + "-" + x)[1..] == a[1..] + "-" + x;
    }
  }

  /** Text up to the first dash is determined by the whole. */
  lemma FirstDashSplits(a: string, x: string, b: string, y: string)
    requires '-' !in a && '-' !in b
    requires a + "-" + x == b + "-" + y
    ensures a == b && x == y
  {
    var s := a + "-" + x;
    FirstDashFollows(a, x);
    FirstDashFollows(b, y);
    assert a == s[..|a|] == b;
    assert x == s[|a| + 1..] == y;
  }
}
