/** The cell address codec: a zero-based (column, row) pair and its
    spreadsheet label, the column name followed by the one-based row number. */
module CellAddress {
  import opened Decimal
  import opened Columns

  datatype Address = Address(col: nat, row: nat)

  datatype Error = InvalidAddress

  datatype Result<T> = Ok(value: T) | Err(error: Error)

  /** Label s splits at k into a non-empty letter run s[..k] and a non-empty digit run s[k..]. */
  predicate SplitsAt(s: string, k: nat) {
    && 0 < k < |s|
    && AllLetters(s[..k])
    && AllDigits(s[k..])
  }

  /** A label the decoder accepts: letters, then digits denoting a row number of at least 1. */
  ghost predicate IsLabel(s: string) {
    exists k: nat :: SplitsAt(s, k) && Value(s[k..]) > 0
  }

  /** A label as the encoder writes it: upper-case letters, then a row number without leading zeros. */
  ghost predicate IsCanonicalLabel(s: string) {
    exists k: nat :: SplitsAt(s, k) && AllUpper(s[..k]) && IsCanonical(s[k..]) && s[k] != '0'
  }

  /** The label of the cell in zero-based column col and zero-based row row. */
  function CellName(col: nat, row: nat): (s: string)
    ensures IsCanonicalLabel(s)
    ensures |s| > |Name(col)| && s[..|Name(col)|] == Name(col)
  {
    var letters := Name(col);
    var digits := Render(row + 1);
    var s := letters + digits;
    assert s[..|letters|] == letters && s[|letters|..] == digits;
    assert SplitsAt(s, |letters|);
    s
  }

  /** The length of the letter run at the start of s. */
  function LetterRun(s: string): (k: nat)
    ensures k <= |s|
    ensures AllLetters(s[..k])
    ensures k < |s| ==> !IsLetter(s[k])
  {
    if |s| == 0 || !IsLetter(s[0]) then 0
    else
      var k := 1 + LetterRun(s[1..]);
      assert s[..k] == [s[0]] + s[1..][..k - 1];
      k
  }

  /** The letter run ends at k exactly when the first k characters are letters and the next is not. */
  lemma {:induction false} LetterRunExact(s: string, k: nat)
    requires k <= |s|
    requires AllLetters(s[..k])
    requires k < |s| ==> !IsLetter(s[k])
    ensures LetterRun(s) == k
  {
    if k > 0 {
      assert IsLetter(s[..k][0]);
      var t := s[1..];
      assert t[..k - 1] == s[..k][1..];
      LetterRunExact(t, k - 1);
    }
  }

  /** A label splits into letters and digits in at most one place: at the end of its letter run. */
  lemma SplitIsLetterRun(s: string, k: nat)
    requires SplitsAt(s, k)
    ensures k == LetterRun(s)
  {
    assert IsDigit(s[k..][0]);
    LetterRunExact(s, k);
  }

  /** The (column, row) a label names. Letters are read without regard to case,
      the digit run is read as a one-based row number, and anything other than
      letters followed by digits denoting a row of at least 1 is InvalidAddress. */
  function CellIndex(s: string): (r: Result<Address>)
    ensures r.Ok? ==> IsLabel(s)
    ensures r.Ok? ==> IsLetter(s[0]) && IsDigit(s[|s| - 1])
  {
    var k := LetterRun(s);
    if k == 0 || k == |s| || !AllDigits(s[k..]) then Err(InvalidAddress)
    else if Value(s[k..]) == 0 then Err(InvalidAddress)
    else
      assert SplitsAt(s, k) && s[..k][0] == s[0] && s[k..][|s| - k - 1] == s[|s| - 1];
      Ok(Address(Index(s[..k]), Value(s[k..]) - 1))
  }

  /** What CellIndex decides, stated without its scan: a string is decoded exactly
      when it is a label, and then to the column its letters name and the row
      before the one its digits denote. */
  lemma CellIndexSpec(s: string)
    ensures CellIndex(s).Ok? <==> IsLabel(s)
    ensures forall k: nat :: SplitsAt(s, k) && Value(s[k..]) > 0 ==>
              CellIndex(s) == Ok(Address(Index(s[..k]), Value(s[k..]) - 1))
  {
    forall j: nat | SplitsAt(s, j) {
      SplitIsLetterRun(s, j);
    }
  }

  /** Decoding the label of a cell gives back that cell. */
  lemma CellIndexOfCellName(col: nat, row: nat)
    ensures CellIndex(CellName(col, row)) == Ok(Address(col, row))
  {
    var letters := Name(col);
    var digits := Render(row + 1);
    var s := CellName(col, row);
    assert s[..|letters|] == letters && s[|letters|..] == digits;
    ValueOfRender(row + 1);
    IndexOfName(col);
    assert SplitsAt(s, |letters|) && Value(s[|letters|..]) > 0;
    CellIndexSpec(s);
  }

  /** Encoding the cell a canonical label names gives back that label:
      together with CellIndexOfCellName, CellName is a bijection between
      cells and canonical labels. */
  lemma CellNameOfCellIndex(s: string)
    requires IsCanonicalLabel(s)
    ensures CellIndex(s).Ok?
    ensures CellName(CellIndex(s).value.col, CellIndex(s).value.row) == s
  {
    var k: nat :| SplitsAt(s, k) && AllUpper(s[..k]) && IsCanonical(s[k..]) && s[k] != '0';
    var letters, digits := s[..k], s[k..];
    assert digits[0] == s[k];
    ValuePositive(digits);
    SplitIsLetterRun(s, k);
    assert CellIndex(s) == Ok(Address(Index(letters), Value(digits) - 1));
    CellNameOfParts(letters, digits);
    assert s == letters + digits;
  }

  /** An upper-case letter run followed by a canonical row number is the label
      of the cell the two runs denote. */
  lemma CellNameOfParts(letters: string, digits: string)
    requires |letters| > 0 && AllUpper(letters)
    requires IsCanonical(digits) && digits[0] != '0'
    ensures AllLetters(letters) && AllDigits(digits) && Value(digits) > 0
    ensures CellName(Index(letters), Value(digits) - 1) == letters + digits
  {
    ValuePositive(digits);
    NameOfIndex(letters);
    UpperOfAllUpper(letters);
    RenderOfValue(digits);
  }

  /** Distinct cells have distinct labels. */
  lemma CellNameInjective(a: Address, b: Address)
    ensures CellName(a.col, a.row) == CellName(b.col, b.row) <==> a == b
  {
    CellIndexOfCellName(a.col, a.row);
    CellIndexOfCellName(b.col, b.row);
  }

  /** Upper-casing moves no split point: letters stay letters, digits stay digits. */
  lemma SplitsAtUpper(s: string, k: nat)
    ensures SplitsAt(Upper(s), k) <==> SplitsAt(s, k)
  {
    var u := Upper(s);
    if 0 < k < |s| {
      assert forall i :: 0 <= i < k ==> (IsLetter(u[..k][i]) <==> IsLetter(s[..k][i]));
      assert forall i :: 0 <= i < |s| - k ==> (IsDigit(u[k..][i]) <==> IsDigit(s[k..][i]));
    }
  }

  /** Letter case does not matter: a label and its upper-cased form name the same cell,
      or are both invalid. */
  lemma CellIndexIgnoresCase(s: string)
    ensures CellIndex(Upper(s)) == CellIndex(s)
  {
    var u := Upper(s);
    forall k: nat | k <= |s|
      ensures u[..k] == Upper(s[..k])
      ensures AllDigits(s[k..]) ==> u[k..] == s[k..]
    {
    }
    forall k: nat
      ensures SplitsAt(u, k) <==> SplitsAt(s, k)
    {
      SplitsAtUpper(s, k);
    }
    forall k: nat | SplitsAt(s, k)
      ensures Index(u[..k]) == Index(s[..k])
    {
      IndexIgnoresCase(s[..k]);
    }
    CellIndexSpec(s);
    CellIndexSpec(u);
  }

  /** One step of EncodeCellName: the last letter of Name(n - 1) moves to the front
      of the letters already written, and n becomes the column count of what is left. */
  lemma EncodeStep(col: nat, n: nat, letters: string)
    requires n > 0 && Name(col) == Name(n - 1) + letters
    ensures (n - 1) / 26 < n
    ensures var q := (n - 1) / 26;
      var rest := [Letter((n - 1) % 26 + 1)] + letters;
      && (q > 0 ==> Name(col) == Name(q - 1) + rest)
      && (q == 0 ==> Name(col) == rest)
  {
    NameStep(n - 1);
  }

  /** The encoding of CellName as a loop over the column digits: starting from
      n = col + 1, the letter for (n - 1) % 26 is prepended and n becomes
      (n - 1) / 26 until n is 0; then the row number row + 1 is appended. */
  method EncodeCellName(col: nat, row: nat) returns (s: string)
    ensures s == Name(col) + Render(row + 1)
  {
    var n: nat := col + 1;
    var letters := "";
    while n > 0
      invariant n > 0 ==> Name(col) == Name(n - 1) + letters
      invariant n == 0 ==> Name(col) == letters
      decreases n
    {
      EncodeStep(col, n, letters);
      letters := [Letter((n - 1) % 26 + 1)] + letters;
      n := (n - 1) / 26;
    }
    s := letters + Render(row + 1);
  }

  /** The decoding of CellIndex as a single left-to-right scan: the letters are
      accumulated as a bijective base-26 numeral and the digits as a decimal one. */
  method DecodeCellName(s: string) returns (r: Result<Address>)
    ensures r == CellIndex(s)
  {
    var i := 0;
    var numeral := 0;
    while i < |s| && IsLetter(s[i])
      invariant i <= |s|
      invariant AllLetters(s[..i])
      invariant numeral == Numeral(s[..i])
    {
      assert s[..i + 1][..i] == s[..i];
      numeral := numeral * 26 + LetterValue(s[i]);
      i := i + 1;
    }
    LetterRunExact(s, i);
    if i == 0 || i == |s| {
      return Err(InvalidAddress);
    }
    var ok, number := ScanValue(s[i..]);
    if !ok || number == 0 {
      return Err(InvalidAddress);
    }
    r := Ok(Address(numeral - 1, number - 1));
  }
}
