/** Decimal numerals for row numbers: how a natural number is rendered when it
    is appended to a cell label, and how a run of ASCII digits is read back. */
module Decimal {

  predicate IsDigit(c: char) {
    '0' <= c <= '9'
  }

  predicate AllDigits(s: string) {
    forall i :: 0 <= i < |s| ==> IsDigit(s[i])
  }

  /** A numeral without superfluous leading zeros: "0", "7", "120", but not "" or "012". */
  predicate IsCanonical(s: string) {
    && |s| > 0
    && AllDigits(s)
    && (s[0] == '0' ==> |s| == 1)
  }

  function DigitChar(d: nat): (c: char)
    requires d < 10
    ensures IsDigit(c)
  {
    ('0' as int + d) as char
  }

  function DigitValue(c: char): (d: nat)
    requires IsDigit(c)
    ensures d < 10
    ensures DigitChar(d) == c
  {
    c as int - '0' as int
  }

  /** The shortest decimal numeral of n, most significant digit first. */
  function Render(n: nat): (s: string)
    ensures IsCanonical(s)
    ensures s[0] == '0' <==> n == 0
  {
    if n < 10 then [DigitChar(n)] else Render(n / 10) + [DigitChar(n % 10)]
  }

  /** The number a run of digits denotes; leading zeros contribute nothing. */
  function Value(s: string): (n: nat)
    requires AllDigits(s)
  {
    if |s| == 0 then 0 else Value(s[..|s| - 1]) * 10 + DigitValue(s[|s| - 1])
  }

  lemma {:induction false} ValueOfAppend(s: string, c: char)
    requires AllDigits(s) && IsDigit(c)
    ensures AllDigits(s + [c])
    ensures Value(s + [c]) == Value(s) * 10 + DigitValue(c)
  {
    assert (s + [c])[..|s|] == s;
  }

  /** Reads a digit run left to right, ten times the value so far plus the next
      digit; stops with ok false at the first character that is not a digit. */
  method ScanValue(s: string) returns (ok: bool, n: nat)
    ensures ok <==> AllDigits(s)
    ensures ok ==> n == Value(s)
  {
    var j := 0;
    n := 0;
    while j < |s|
      invariant j <= |s|
      invariant AllDigits(s[..j])
      invariant n == Value(s[..j])
    {
      if !IsDigit(s[j]) {
        return false, 0;
      }
      assert s[..j + 1] == s[..j] + [s[j]];
      ValueOfAppend(s[..j], s[j]);
      n := n * 10 + DigitValue(s[j]);
      j := j + 1;
    }
    assert s[..j] == s;
    ok := true;
  }

  /** Reading a rendered number gives the number back. */
  lemma {:induction false} ValueOfRender(n: nat)
    ensures Value(Render(n)) == n
  {
    if n < 10 {
      assert Render(n)[..0] == [];
    } else {
      ValueOfRender(n / 10);
      ValueOfAppend(Render(n / 10), DigitChar(n % 10));
    }
  }

  /** A numeral that does not start with '0' denotes a positive number. */
  lemma {:induction false} ValuePositive(s: string)
    requires |s| > 0 && AllDigits(s) && s[0] != '0'
    ensures Value(s) > 0
  {
    if |s| > 1 {
      ValuePositive(s[..|s| - 1]);
    }
  }

  /** Rendering the number a canonical numeral denotes gives the numeral back,
      so Render is a bijection between naturals and canonical numerals. */
  lemma {:induction false} RenderOfValue(s: string)
    requires IsCanonical(s)
    ensures Render(Value(s)) == s
  {
    var n := |s|;
    if n == 1 {
      assert s[..0] == [];
      assert Render(Value(s)) == [s[0]];
    } else {
      var p := s[..n - 1];
      var d := DigitValue(s[n - 1]);
      assert p[0] == s[0];
      ValuePositive(p);
      RenderOfValue(p);
      var v := Value(s);
      assert v == Value(p) * 10 + d;
      assert v / 10 == Value(p) && v % 10 == d;
      assert s == p + [s[n - 1]];
    }
  }
}
