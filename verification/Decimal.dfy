/**
 Decimal numerals as Python's str() and int() produce and read them.
 */
module Decimal {

  predicate IsDigit(c: char) {
    '0' <= c <= '9'
  }

  function Digit(d: nat): (c: char)
    requires d < 10
    ensures IsDigit(c) && DigitValue(c) == d
  {
    "0123456789"[d]
  }

  function DigitValue(c: char): (d: nat)
    requires IsDigit(c)
    ensures d < 10
  {
    c as int - '0' as int
  }

  predicate AllDigits(s: string) {
    forall i :: 0 <= i < |s| ==> IsDigit(s[i])
  }

  /** str(n) */
  function ToDecimal(n: nat): (s: string)
    ensures s != [] && AllDigits(s)
  {
    if n < 10 then [Digit(n)] else ToDecimal(n / 10) + [Digit(n % 10)]
  }

  /** int(s) */
  function FromDecimal(s: string): nat
    requires AllDigits(s)
  {
    if s == [] then 0 else FromDecimal(s[..|s| - 1]) * 10 + DigitValue(s[|s| - 1])
  }

  /** Reading a printed number gives the number back, so printing is injective. */
  lemma {:induction false} RoundTrip(n: nat)
    ensures FromDecimal(ToDecimal(n)) == n
  {
    if n >= 10 {
      RoundTrip(n / 10);
      var s := ToDecimal(n);
      assert s[..|s| - 1] == ToDecimal(n / 10);
    } else {
      var s := ToDecimal(n);
      assert s[..|s| - 1] == [];
    }
  }

  /** No numeral but "0" begins with '0'. */
  predicate IsNumeral(s: string) {
    s != [] && AllDigits(s) && (s[0] == '0' ==> |s| == 1)
  }

  lemma {:induction false} NumeralSize(s: string)
    requires IsNumeral(s)
    ensures |s| > 1 ==> FromDecimal(s) >= 10
  {
    if |s| > 1 {
      var front := s[..|s| - 1];
      assert front[0] == s[0];
      if |front| == 1 {
        assert front[..0] == [];
        assert FromDecimal(front) == DigitValue(front[0]);
      } else {
        NumeralSize(front);
      }
    }
  }

  lemma DigitOfValue(c: char)
    requires IsDigit(c)
    ensures Digit(DigitValue(c)) == c
  {
  }

  lemma {:induction false} NumeralIsPrinted(s: string)
    requires IsNumeral(s)
    ensures ToDecimal(FromDecimal(s)) == s
  {
    var k := |s| - 1;
    DigitOfValue(s[k]);
    NumeralSize(s);
    if k == 0 {
      assert s[..0] == [];
      assert FromDecimal(s) == DigitValue(s[0]);
    } else {
      var front := s[..k];
      assert front[0] == s[0];
      NumeralIsPrinted(front);
      var n, d := FromDecimal(front), DigitValue(s[k]);
      assert FromDecimal(s) == n * 10 + d;
      assert (n * 10 + d) / 10 == n && (n * 10 + d) % 10 == d;
      assert s == front + [s[k]];
    }
  }

  lemma {:induction false} PrintedIsNumeral(n: nat)
    ensures IsNumeral(ToDecimal(n)) && (n > 0 ==> ToDecimal(n)[0] != '0')
  {
    if n >= 10 {
      PrintedIsNumeral(n / 10);
      assert ToDecimal(n)[0] == ToDecimal(n / 10)[0];
    }
  }

  /** The printed number is the only numeral that reads as it. */
  lemma NumeralExactly(n: nat, s: string)
    ensures s == ToDecimal(n) <==> IsNumeral(s) && FromDecimal(s) == n
  {
    RoundTrip(n);
    PrintedIsNumeral(n);
    if IsNumeral(s) {
      NumeralIsPrinted(s);
    }
  }
}
