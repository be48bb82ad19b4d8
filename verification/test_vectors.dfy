/** The concrete labels and indices the test suite pins, stated about the model. */
module TestVectors {
  import opened Decimal
  import opened Columns
  import opened CellAddress
  import opened Sheets

  /** Single-letter columns. */
  lemma SingleLetterNames()
    ensures CellName(0, 0) == "A1"
    ensures CellName(1, 0) == "B1"
    ensures CellName(2, 0) == "C1"
  {
  }

  /** The same column in the next row keeps the letters of "C1" and gets the next row number. */
  lemma RowSuffixNames()
    ensures CellName(2, 1) == "C2"
  {
  }

  /** Around the Z/AA boundary: there is no zero digit, so the column after Z is AA. */
  lemma BoundaryNames()
    ensures CellName(25, 1) == "Z2"
    ensures CellName(26, 1) == "AA2"
    ensures CellName(27, 1) == "AB2"
  {
  }

  /** Multi-letter names, including the first three-letter column and the last
      column of the 16384-column sheet format. */
  lemma MultiLetterNames()
    ensures CellName(255, 1) == "IV2"
    ensures CellName(702, 1) == "AAA2"
    ensures CellName(16383, 1) == "XFD2"
  {
  }

  /** The widths at the bijective boundaries: columns 0..25 have one letter,
      26..701 two, 702..18277 three. */
  lemma NameWidths()
    ensures FirstOfWidth(1) == 0 && FirstOfWidth(2) == 26
    ensures FirstOfWidth(3) == 702 && FirstOfWidth(4) == 18278
    ensures |Name(25)| == 1 && |Name(26)| == 2 && |Name(701)| == 2 && |Name(702)| == 3
    ensures |Name(16383)| == 3
  {
    NameWidth(25, 1);
    NameWidth(26, 2);
    NameWidth(701, 2);
    NameWidth(702, 3);
    NameWidth(16383, 3);
  }

  /** A label the encoder produces for (col, row) reads the cell at (col, row). */
  lemma LabelOf<V>(sheet: Sheet<V>, col: nat, row: nat, name: string)
    requires CellName(col, row) == name
    ensures AtLabel(sheet, name) == Ok(At(sheet, col, row))
  {
    AtLabelAgreesWithAt(sheet, col, row);
  }

  /** The label-read test and the index-read test look at the same four cells: B2 and C3 ... */
  lemma LabelAndIndexReadVectors<V>(sheet: Sheet<V>)
    ensures AtLabel(sheet, "B2") == Ok(At(sheet, 1, 1))
    ensures AtLabel(sheet, "C3") == Ok(At(sheet, 2, 2))
  {
    LabelOf(sheet, 1, 1, "B2");
    LabelOf(sheet, 2, 2, "C3");
  }

  /** ... and D4 and C2. */
  lemma LabelAndIndexReadMoreVectors<V>(sheet: Sheet<V>)
    ensures AtLabel(sheet, "D4") == Ok(At(sheet, 3, 3))
    ensures AtLabel(sheet, "C2") == Ok(At(sheet, 2, 1))
  {
    LabelOf(sheet, 3, 3, "D4");
    LabelOf(sheet, 2, 1, "C2");
  }

  /** Accessing one cell twice, by label and by index, reaches the same cell. */
  lemma SameCellTwiceVectors<V>(sheet: Sheet<V>)
    ensures AtLabel(sheet, "B2") == Ok(At(sheet, 1, 1))
    ensures AtLabel(sheet, "G2") == Ok(At(sheet, 6, 1))
  {
    LabelOf(sheet, 1, 1, "B2");
    LabelOf(sheet, 6, 1, "G2");
  }

  /** String-read test: the text cell. */
  lemma StringReadTextVectors<V>(sheet: Sheet<V>)
    ensures AtLabel(sheet, "B2") == Ok(At(sheet, 1, 1))
  {
    LabelOf(sheet, 1, 1, "B2");
  }

  /** String-read test: the integer cells. */
  lemma StringReadIntegerVectors<V>(sheet: Sheet<V>)
    ensures AtLabel(sheet, "C2") == Ok(At(sheet, 2, 1))
    ensures AtLabel(sheet, "C3") == Ok(At(sheet, 2, 2))
  {
    LabelOf(sheet, 2, 1, "C2");
    LabelOf(sheet, 2, 2, "C3");
  }

  /** String-read test: the decimal cells. */
  lemma StringReadDecimalVectors<V>(sheet: Sheet<V>)
    ensures AtLabel(sheet, "D2") == Ok(At(sheet, 3, 1))
    ensures AtLabel(sheet, "D3") == Ok(At(sheet, 3, 2))
  {
    LabelOf(sheet, 3, 1, "D2");
    LabelOf(sheet, 3, 2, "D3");
  }

  /** String-read test: the date and boolean cells. */
  lemma StringReadDateBoolVectors<V>(sheet: Sheet<V>)
    ensures AtLabel(sheet, "E2") == Ok(At(sheet, 4, 1))
    ensures AtLabel(sheet, "F2") == Ok(At(sheet, 5, 1))
  {
    LabelOf(sheet, 4, 1, "E2");
    LabelOf(sheet, 5, 1, "F2");
  }

  /** String-read test: the cells in column G. */
  lemma StringReadColumnGVectors<V>(sheet: Sheet<V>)
    ensures AtLabel(sheet, "G2") == Ok(At(sheet, 6, 1))
    ensures AtLabel(sheet, "G3") == Ok(At(sheet, 6, 2))
    ensures AtLabel(sheet, "G5") == Ok(At(sheet, 6, 4))
  {
    LabelOf(sheet, 6, 1, "G2");
    LabelOf(sheet, 6, 2, "G3");
    LabelOf(sheet, 6, 4, "G5");
  }

  /** String-read test: the blank cells. */
  lemma StringReadBlankVectors<V>(sheet: Sheet<V>)
    ensures AtLabel(sheet, "H2") == Ok(At(sheet, 7, 1))
    ensures AtLabel(sheet, "I2") == Ok(At(sheet, 8, 1))
  {
    LabelOf(sheet, 7, 1, "H2");
    LabelOf(sheet, 8, 1, "I2");
  }

  /** Integer-read test. */
  lemma IntReadVectors<V>(sheet: Sheet<V>)
    ensures AtLabel(sheet, "C3") == Ok(At(sheet, 2, 2))
    ensures AtLabel(sheet, "D3") == Ok(At(sheet, 3, 2))
    ensures AtLabel(sheet, "G3") == Ok(At(sheet, 6, 2))
  {
    LabelOf(sheet, 2, 2, "C3");
    LabelOf(sheet, 3, 2, "D3");
    LabelOf(sheet, 6, 2, "G3");
  }

  /** Double-read test. */
  lemma DoubleReadVectors<V>(sheet: Sheet<V>)
    ensures AtLabel(sheet, "C4") == Ok(At(sheet, 2, 3))
    ensures AtLabel(sheet, "D4") == Ok(At(sheet, 3, 3))
    ensures AtLabel(sheet, "G4") == Ok(At(sheet, 6, 3))
  {
    LabelOf(sheet, 2, 3, "C4");
    LabelOf(sheet, 3, 3, "D4");
    LabelOf(sheet, 6, 3, "G4");
  }

  /** Boolean-read test. */
  lemma BooleanReadVectors<V>(sheet: Sheet<V>)
    ensures AtLabel(sheet, "F5") == Ok(At(sheet, 5, 4))
    ensures AtLabel(sheet, "G5") == Ok(At(sheet, 6, 4))
  {
    LabelOf(sheet, 5, 4, "F5");
    LabelOf(sheet, 6, 4, "G5");
  }

  /** Date-read test: the dates in row 6. */
  lemma DateReadVectors<V>(sheet: Sheet<V>)
    ensures AtLabel(sheet, "E6") == Ok(At(sheet, 4, 5))
    ensures AtLabel(sheet, "G6") == Ok(At(sheet, 6, 5))
  {
    LabelOf(sheet, 4, 5, "E6");
    LabelOf(sheet, 6, 5, "G6");
  }

  /** Date-read test: the times on the epoch day, in row 7. */
  lemma TimeReadVectors<V>(sheet: Sheet<V>)
    ensures AtLabel(sheet, "E7") == Ok(At(sheet, 4, 6))
    ensures AtLabel(sheet, "G7") == Ok(At(sheet, 6, 6))
  {
    LabelOf(sheet, 4, 6, "E7");
    LabelOf(sheet, 6, 6, "G7");
  }

  /** A label the encoder produces for (col, row) writes the cell at (col, row). */
  lemma PutLabelOf<V>(sheet: Sheet<V>, col: nat, row: nat, name: string, v: V)
    requires CellName(col, row) == name
    ensures PutLabel(sheet, name, v) == Ok(Put(sheet, col, row, v))
  {
    PutLabelAgreesWithPut(sheet, col, row, v);
  }

  /** Writing A1 and A2 by label is writing (0,0) and (0,1) by index, on any sheet ... */
  lemma WriteByLabelVectors<V>(sheet: Sheet<V>, v: V)
    ensures PutLabel(sheet, "A1", v) == Ok(Put(sheet, 0, 0, v))
    ensures PutLabel(sheet, "A2", v) == Ok(Put(sheet, 0, 1, v))
  {
    PutLabelOf(sheet, 0, 0, "A1", v);
    PutLabelOf(sheet, 0, 1, "A2", v);
  }

  /** ... and writing A3 and A4 is writing (0,2) and (0,3). */
  lemma WriteByLabelMoreVectors<V>(sheet: Sheet<V>, v: V)
    ensures PutLabel(sheet, "A3", v) == Ok(Put(sheet, 0, 2, v))
    ensures PutLabel(sheet, "A4", v) == Ok(Put(sheet, 0, 3, v))
  {
    PutLabelOf(sheet, 0, 2, "A3", v);
    PutLabelOf(sheet, 0, 3, "A4", v);
  }

  /** The four writes by label down column A of a new sheet each succeed and build
      the same sheet as the four writes by index. */
  lemma WriteByLabelChain<V>(a: V, b: V, c: V, d: V)
    ensures PutLabel(Empty(), "A1", a) == Ok(Put(Empty(), 0, 0, a))
    ensures PutLabel(Put(Empty(), 0, 0, a), "A2", b) == Ok(Put(Put(Empty(), 0, 0, a), 0, 1, b))
    ensures PutLabel(Put(Put(Empty(), 0, 0, a), 0, 1, b), "A3", c)
              == Ok(Put(Put(Put(Empty(), 0, 0, a), 0, 1, b), 0, 2, c))
    ensures PutLabel(Put(Put(Put(Empty(), 0, 0, a), 0, 1, b), 0, 2, c), "A4", d)
              == Ok(Put(Put(Put(Put(Empty(), 0, 0, a), 0, 1, b), 0, 2, c), 0, 3, d))
  {
    WriteByLabelVectors(Empty(), a);
    WriteByLabelVectors(Put(Empty(), 0, 0, a), b);
    WriteByLabelMoreVectors(Put(Put(Empty(), 0, 0, a), 0, 1, b), c);
    WriteByLabelMoreVectors(Put(Put(Put(Empty(), 0, 0, a), 0, 1, b), 0, 2, c), d);
  }

  /** After writing four values down column A of a fresh sheet, each is read back
      at its index: none of the writes overwrote another. */
  lemma WriteThenReadByIndex<V>(a: V, b: V, c: V, d: V)
    ensures var s := Put(Put(Put(Put(Empty(), 0, 0, a), 0, 1, b), 0, 2, c), 0, 3, d);
      && At(s, 0, 0) == Filled(a) && At(s, 0, 1) == Filled(b)
      && At(s, 0, 2) == Filled(c) && At(s, 0, 3) == Filled(d)
  {
  }

  /** ... and at its label: A1 and A2 ... */
  lemma WriteThenReadByLabel<V>(a: V, b: V, c: V, d: V)
    ensures var s := Put(Put(Put(Put(Empty(), 0, 0, a), 0, 1, b), 0, 2, c), 0, 3, d);
      AtLabel(s, "A1") == Ok(Filled(a)) && AtLabel(s, "A2") == Ok(Filled(b))
  {
    var s := Put(Put(Put(Put(Empty(), 0, 0, a), 0, 1, b), 0, 2, c), 0, 3, d);
    WriteThenReadByIndex(a, b, c, d);
    LabelOf(s, 0, 0, "A1");
    LabelOf(s, 0, 1, "A2");
  }

  /** ... A3 and A4. */
  lemma WriteThenReadByLabelMore<V>(a: V, b: V, c: V, d: V)
    ensures var s := Put(Put(Put(Put(Empty(), 0, 0, a), 0, 1, b), 0, 2, c), 0, 3, d);
      AtLabel(s, "A3") == Ok(Filled(c)) && AtLabel(s, "A4") == Ok(Filled(d))
  {
    var s := Put(Put(Put(Put(Empty(), 0, 0, a), 0, 1, b), 0, 2, c), 0, 3, d);
    WriteThenReadByIndex(a, b, c, d);
    LabelOf(s, 0, 2, "A3");
    LabelOf(s, 0, 3, "A4");
  }

  /** Strings that are not labels: digits before letters, nothing at all,
      no digits ... */
  lemma MalformedLabelVectors()
    ensures CellIndex("1A") == Err(InvalidAddress)
    ensures CellIndex("") == Err(InvalidAddress)
    ensures CellIndex("A") == Err(InvalidAddress)
  {
  }

  /** ... row 0, and letters after the digits. */
  lemma MalformedRowVectors()
    ensures CellIndex("A0") == Err(InvalidAddress)
    ensures CellIndex("A1B") == Err(InvalidAddress)
  {
  }

  /** A lower-case label with a leading zero in its row names the same cell as "A1". */
  lemma LowerCaseLeadingZeroVector()
    ensures CellIndex("a01") == Ok(Address(0, 0))
  {
    var s := "a01";
    LetterRunExact(s, 1);
    assert s[..1] == "a" && s[1..] == "01";
    assert "01"[..1] == "0" && "0"[..0] == [];
    assert Value("01") == 1;
    assert "a"[..0] == [];
    assert Index("a") == 0;
  }
}
