/** Column names: a zero-based column index written as a bijective base-26
    numeral. The letters A..Z are the digits 1..26 and there is no zero digit,
    so column 0 is "A", 25 is "Z", 26 is "AA", 701 is "ZZ" and 702 is "AAA". */
module Columns {

  predicate IsUpper(c: char) {
    'A' <= c <= 'Z'
  }

  predicate IsLower(c: char) {
    'a' <= c <= 'z'
  }

  predicate IsLetter(c: char) {
    IsUpper(c) || IsLower(c)
  }

  predicate AllUpper(s: string) {
    forall i :: 0 <= i < |s| ==> IsUpper(s[i])
  }

  predicate AllLetters(s: string) {
    forall i :: 0 <= i < |s| ==> IsLetter(s[i])
  }

  /** ASCII upper-casing of one character; every other character is kept. */
  function UpperChar(c: char): (u: char)
    ensures IsLetter(c) ==> IsUpper(u)
    ensures !IsLower(c) ==> u == c
  {
    if IsLower(c) then (c as int - 'a' as int + 'A' as int) as char else c
  }

  function Upper(s: string): (u: string)
    ensures |u| == |s|
    ensures forall i :: 0 <= i < |s| ==> u[i] == UpperChar(s[i])
  {
    seq(|s|, i requires 0 <= i < |s| => UpperChar(s[i]))
  }

  /** The letter for bijective digit d: 1 is 'A', 26 is 'Z'. */
  function Letter(d: nat): (c: char)
    requires 1 <= d <= 26
    ensures IsUpper(c)
  {
    ('A' as int + d - 1) as char
  }

  /** The bijective digit of a letter, ignoring case: 'A' and 'a' are 1, 'Z' and 'z' are 26. */
  function LetterValue(c: char): (d: nat)
    requires IsLetter(c)
    ensures 1 <= d <= 26
    ensures Letter(d) == UpperChar(c)
  {
    if IsUpper(c) then c as int - 'A' as int + 1 else c as int - 'a' as int + 1
  }

  /** The name of zero-based column col: its last letter is digit col % 26 + 1,
      and the letters before it name column col / 26 - 1, if that is a column. */
  function Name(col: nat): (s: string)
    ensures |s| > 0
    ensures AllUpper(s)
  {
    if col < 26 then [Letter(col + 1)] else Name(col / 26 - 1) + [Letter(col % 26 + 1)]
  }

  /** The value of a letter run read as a bijective base-26 numeral, last letter least significant. */
  function Numeral(s: string): (n: nat)
    requires AllLetters(s)
    ensures n > 0 <==> |s| > 0
  {
    if |s| == 0 then 0 else Numeral(s[..|s| - 1]) * 26 + LetterValue(s[|s| - 1])
  }

  /** The zero-based column a non-empty letter run names. */
  function Index(s: string): (col: nat)
    requires |s| > 0 && AllLetters(s)
  {
    Numeral(s) - 1
  }

  lemma DivModDigit(q: nat, d: nat)
    requires d < 26
    ensures (q * 26 + d) / 26 == q
    ensures (q * 26 + d) % 26 == d
  {
  }

  /** Name peels off its last letter: the letters before it name column m / 26 - 1
      when m / 26 is positive, and there are none otherwise. */
  lemma NameStep(m: nat)
    ensures Name(m) == (if m / 26 > 0 then Name(m / 26 - 1) else "") + [Letter(m % 26 + 1)]
  {
  }

  /** Decoding a column name gives the column back. */
  lemma {:induction false} IndexOfName(col: nat)
    ensures Index(Name(col)) == col
  {
    var s := Name(col);
    if col < 26 {
      assert s[..0] == [];
    } else {
      var q := col / 26 - 1;
      IndexOfName(q);
      assert s[..|s| - 1] == Name(q);
      assert Numeral(s) == (q + 1) * 26 + col % 26 + 1;
    }
  }

  /** Encoding the column a letter run names gives that run back, upper-cased:
      every upper-case letter run is the name of exactly one column. */
  lemma {:induction false} NameOfIndex(s: string)
    requires |s| > 0 && AllLetters(s)
    ensures Name(Index(s)) == Upper(s)
  {
    var n := |s|;
    var d := LetterValue(s[n - 1]);
    if n == 1 {
      assert s[..0] == [];
      assert Name(Index(s)) == [Letter(d)];
    } else {
      var p := s[..n - 1];
      NameOfIndex(p);
      var col := Index(s);
      assert col == (Numeral(p) - 1 + 1) * 26 + (d - 1);
      DivModDigit(Numeral(p), d - 1);
      assert col / 26 - 1 == Index(p);
      assert Name(col) == Upper(p) + [Letter(d)];
      assert Upper(s) == Upper(p) + [UpperChar(s[n - 1])];
    }
  }

  /** Upper-casing leaves an upper-case run as it is. */
  lemma UpperOfAllUpper(s: string)
    requires AllUpper(s)
    ensures Upper(s) == s
  {
    forall i | 0 <= i < |s|
      ensures Upper(s)[i] == s[i]
    {
      assert IsUpper(s[i]);
    }
  }

  /** The same column is named by a letter run and by its upper-cased form. */
  lemma IndexIgnoresCase(s: string)
    requires |s| > 0 && AllLetters(s)
    ensures AllLetters(Upper(s))
    ensures Index(Upper(s)) == Index(s)
  {
    NameOfIndex(s);
    IndexOfName(Index(s));
  }

  /** Distinct columns have distinct names. */
  lemma NameInjective(c1: nat, c2: nat)
    ensures Name(c1) == Name(c2) <==> c1 == c2
  {
    IndexOfName(c1);
    IndexOfName(c2);
  }

  /** The first column whose name has k letters: 0, 26, 702, 18278, ... */
  function FirstOfWidth(k: nat): (first: nat)
    requires k >= 1
  {
    if k == 1 then 0 else 26 * (FirstOfWidth(k - 1) + 1)
  }

  function Pow26(k: nat): (p: nat) {
    if k == 0 then 1 else 26 * Pow26(k - 1)
  }

  /** There are 26^k names of k letters, so the next width starts 26^k later. */
  lemma {:induction false} FirstOfWidthStep(k: nat)
    requires k >= 1
    ensures FirstOfWidth(k + 1) == FirstOfWidth(k) + Pow26(k)
  {
    if k > 1 {
      FirstOfWidthStep(k - 1);
    }
  }

  lemma {:induction false} FirstOfWidthGrows(k: nat)
    requires k >= 2
    ensures FirstOfWidth(k) >= 26
  {
  }

  /** A name has exactly k letters precisely for the columns from
      FirstOfWidth(k) up to, but not including, FirstOfWidth(k + 1). */
  lemma {:induction false} NameWidth(col: nat, k: nat)
    requires k >= 1
    ensures |Name(col)| == k <==> FirstOfWidth(k) <= col < FirstOfWidth(k + 1)
  {
    if col < 26 {
      if k >= 2 {
        FirstOfWidthGrows(k);
      }
    } else {
      var q := col / 26 - 1;
      assert |Name(col)| == |Name(q)| + 1;
      if k >= 2 {
        NameWidth(q, k - 1);
        var lo := FirstOfWidth(k - 1);
        var hi := FirstOfWidth(k);
        assert FirstOfWidth(k) == 26 * (lo + 1);
        assert FirstOfWidth(k + 1) == 26 * (hi + 1);
        assert 26 * (lo + 1) <= col <==> lo <= q;
        assert col < 26 * (hi + 1) <==> q < hi;
      }
    }
  }
}
