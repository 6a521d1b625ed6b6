/** Decimal numerals and separators in generated names. */
module Text {

  predicate IsDigit(c: char) { '0' <= c <= '9' }

  function DigitOf(n: nat): (c: char)
    requires n < 10
    ensures IsDigit(c) && c as int == '0' as int + n
  {
    ('0' as int + n) as char
  }

  function Decimal(n: nat): (s: string)
    ensures s != "" && forall i :: 0 <= i < |s| ==> IsDigit(s[i])
  {
    if n < 10 then [DigitOf(n)] else Decimal(n / 10) + [DigitOf(n % 10)]
  }

  lemma {:induction false} DecimalIsInjective(a: nat, b: nat)
    requires Decimal(a) == Decimal(b)
    ensures a == b
  {
    var s, t := Decimal(a), Decimal(b);
    assert s[|s| - 1] == DigitOf(a % 10) && t[|t| - 1] == DigitOf(b % 10);
    assert (a >= 10 ==> |s| == |Decimal(a / 10)| + 1) && (b >= 10 ==> |t| == |Decimal(b / 10)| + 1);
    if a >= 10 && b >= 10 {
      assert Decimal(a / 10) == s[..|s| - 1] && Decimal(b / 10) == t[..|t| - 1];
      DecimalIsInjective(a / 10, b / 10);
    }
  }

  /** Ten to the n. */
  function Power(n: nat): nat { if n == 0 then 1 else 10 * Power(n - 1) }

  /** A numeral has at most n digits exactly when its number is below ten to the n. */
  lemma {:induction false} DecimalLength(a: nat, n: nat)
    requires n >= 1
    ensures |Decimal(a)| <= n <==> a < Power(n)
  {
    if a < 10 {
      PowerGrows(n);
    } else if n == 1 {
      assert Power(1) == 10;
      assert |Decimal(a)| == |Decimal(a / 10)| + 1;
    } else {
      DecimalLength(a / 10, n - 1);
      assert |Decimal(a)| == |Decimal(a / 10)| + 1;
      assert a / 10 < Power(n - 1) <==> a < 10 * Power(n - 1);
    }
  }

  lemma {:induction false} PowerGrows(n: nat)
    requires n >= 1
    ensures Power(n) >= 10
  {
    if n > 1 {
      PowerGrows(n - 1);
    }
  }

  function LastIndex(x: string, sep: char): int {
    if x == "" then -1
    else if x[|x| - 1] == sep then |x| - 1
    else LastIndex(x[..|x| - 1], sep)
  }

  lemma {:induction false} LastIndexOfSeparator(a: string, sep: char, s: string)
    requires sep !in s
    ensures LastIndex(a + [sep] + s, sep) == |a|
  {
    var x := a + [sep] + s;
    if s != "" {
      assert x[..|x| - 1] == a + [sep] + s[..|s| - 1];
      LastIndexOfSeparator(a, sep, s[..|s| - 1]);
    }
  }

  /** A separator that the tails do not contain splits a text in one way only. */
  lemma LastSeparatorSplits(a: string, b: string, sep: char, s: string, t: string)
    requires a + [sep] + s == b + [sep] + t && sep !in s && sep !in t
    ensures a == b && s == t
  {
    var x, y := a + [sep] + s, b + [sep] + t;
    LastIndexOfSeparator(a, sep, s);
    LastIndexOfSeparator(b, sep, t);
    assert a == x[..|a|] && b == y[..|b|] && s == x[|a| + 1..] && t == y[|b| + 1..];
  }
}
