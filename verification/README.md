# KExcelAPI cell address codec, in Dafny

KExcelAPI is a Kotlin convenience layer over Apache POI spreadsheets. A cell can be
addressed by a zero-based index pair, `sheet[col, row]`, or by a spreadsheet label,
`sheet["B2"]`. `KExcel.cellIndexToCellName(col, row)` turns an index pair into a
label. This project models that address codec and proves what it promises:

- **Encoding** (`CellAddress.CellName`). The column is written in bijective
  base 26: the letters A..Z are the digits 1..26 and there is no zero digit, so
  0 is "A", 25 is "Z", 26 is "AA" and 702 is "AAA". The decimal numeral of
  `row + 1` follows the letters.
- **Decoding** (`CellAddress.CellIndex`). This is the label-to-cell resolution
  behind `sheet["…"]`. A label is a non-empty run of letters followed by a
  non-empty run of digits. The letters are read in either case. The digits give
  a one-based row, which must be at least 1. Anything else is the value
  `Err(InvalidAddress)`; see below for which of these rules are modelling choices.
- **Loop versions**. `EncodeCellName` repeatedly prepends the letter for
  `(n - 1) % 26`. `DecodeCellName` scans the label once, left to right. Each is
  proved equal to its functional definition.
- **An abstract sheet** (`Sheets`). The sheet is an immutable map from
  (column, row) to a cell value. Lookup and update by label go through the
  decoder. Lookup by label is proved to agree with lookup by index.

Modules:

- `Decimal` (decimal.dfy): row numerals, `Render` and `Value`.
- `Columns` (columns.dfy): column names, `Name` and `Index`.
- `CellAddress` (cell_address.dfy): the codec.
- `Sheets` (sheet.dfy): the sheet.
- `TestVectors` (test_vectors.dfy): the concrete labels and indices that the test
  suite pins.

The implementation file `KExcel.kt` is not part of this model. The encoder is
pinned by the vectors of `src/test/kotlin/link/arata/kexcelapi/KExcelTest.kt`,
and the decoder agrees with every label/index pair in that file. That file
only ever passes well-formed upper-case labels without leading zeros, and never
a string that fails, so these decoder details are modelling choices it does not
pin:

- letters are read in either case;
- a row with leading zeros, such as "A01", is read as its number;
- a row of 0 is rejected;
- every string that is not a letter run followed by a digit run is rejected,
  among them "1A", "", "A", "A1B", "A1 " and "$A$1";
- a rejection is returned as the value `Err(InvalidAddress)`, not thrown as an
  exception, and a write with a rejected label changes nothing.

## Model

| member | source | states |
|---|---|---|
| Columns.IndexOfName | src/test/kotlin/link/arata/kexcelapi/KExcelTest.kt:206-215 | decoding the letters of column `col` (bijective base 26, A=1..Z=26) gives back `col`, for every column |
| Columns.NameOfIndex | src/test/kotlin/link/arata/kexcelapi/KExcelTest.kt:206-215 | for every non-empty letter run, encoding the column it denotes gives back the run in upper case, so every upper-case run names exactly one column |
| Columns.NameInjective | src/test/kotlin/link/arata/kexcelapi/KExcelTest.kt:210-215 | two columns have the same name if and only if they are the same column |
| Columns.Name | src/test/kotlin/link/arata/kexcelapi/KExcelTest.kt:206-215 | the name of every column is a non-empty run of upper-case letters |
| Columns.NameWidth | src/test/kotlin/link/arata/kexcelapi/KExcelTest.kt:210-215 | a name has exactly k letters if and only if the column lies in [FirstOfWidth(k), FirstOfWidth(k+1)): 0..25 one letter, 26..701 two, 702..18277 three |
| Columns.FirstOfWidthStep | src/test/kotlin/link/arata/kexcelapi/KExcelTest.kt:210-215 | the first column of width k+1 lies 26^k after the first of width k: there are 26^k names of k letters |
| Columns.IndexIgnoresCase | src/test/kotlin/link/arata/kexcelapi/KExcelTest.kt:46-49 | a letter run and its upper-cased form denote the same column (the decoder's modelling choice to read letters in either case) |
| Decimal.Render | src/test/kotlin/link/arata/kexcelapi/KExcelTest.kt:206-215 | the row suffix is a non-empty digit run with no leading zero, and starts with '0' only for the number 0 |
| Decimal.ValueOfRender | src/test/kotlin/link/arata/kexcelapi/KExcelTest.kt:208-209 | reading back the decimal row suffix gives the number that was rendered |
| Decimal.ScanValue | src/test/kotlin/link/arata/kexcelapi/KExcelTest.kt:46-49 | the left-to-right digit scan of the decoder succeeds exactly on a digit run, and then returns the number the run denotes |
| Decimal.RenderOfValue | src/test/kotlin/link/arata/kexcelapi/KExcelTest.kt:208-209 | rendering the value of a numeral with no leading zero gives the numeral back, so the row suffix is a bijection |
| CellAddress.CellName | src/test/kotlin/link/arata/kexcelapi/KExcelTest.kt:206-215 | every label the encoder produces is a non-empty upper-case letter run followed by a non-empty digit run with no leading zero |
| CellAddress.CellIndex | src/test/kotlin/link/arata/kexcelapi/KExcelTest.kt:46-49 | a string that decodes is a label (letters then digits denoting a row of at least 1), starting with a letter and ending with a digit; CellIndexSpec gives the converse and the decoded cell, read through `Columns.Index` (the letters as a bijective base-26 numeral, minus 1) and `Decimal.Value` (the digits as a decimal number) |
| CellAddress.CellIndexSpec | src/test/kotlin/link/arata/kexcelapi/KExcelTest.kt:46-49 | decoding succeeds exactly on labels (letters then digits denoting a row of at least 1). It then yields the column the letters name and the row before the one the digits denote. Every other string is InvalidAddress |
| CellAddress.CellIndexOfCellName | src/test/kotlin/link/arata/kexcelapi/KExcelTest.kt:175-201 | round trip: decoding the label of (col, row) gives Ok((col, row)), for every column and row |
| CellAddress.CellNameOfCellIndex | src/test/kotlin/link/arata/kexcelapi/KExcelTest.kt:206-215 | reverse round trip: a canonical label (upper-case letters, row without leading zero) decodes, and encoding the result gives back the label |
| CellAddress.CellNameInjective | src/test/kotlin/link/arata/kexcelapi/KExcelTest.kt:206-215 | two cells have the same label if and only if they are the same cell |
| CellAddress.CellIndexIgnoresCase | src/test/kotlin/link/arata/kexcelapi/KExcelTest.kt:46-49 | a string and its upper-cased form decode to the same result, whether a cell or InvalidAddress |
| CellAddress.EncodeCellName | src/test/kotlin/link/arata/kexcelapi/KExcelTest.kt:206-215 | the loop that starts from n = col + 1, prepends the letter for (n-1) % 26 and steps n to (n-1) / 26 computes the column name followed by the row number |
| CellAddress.DecodeCellName | src/test/kotlin/link/arata/kexcelapi/KExcelTest.kt:46-49 | the one-pass scan (letters accumulated in base 26, then digits in base 10) returns exactly what the decoder specifies, error cases included; the digit half is ScanValue |
| Sheets.Empty | src/test/kotlin/link/arata/kexcelapi/KExcelTest.kt:173 | the sheet `createSheet("test")` returns: every cell reads Blank |
| Sheets.At | src/test/kotlin/link/arata/kexcelapi/KExcelTest.kt:58-61 | `sheet[col, row]` reads a value exactly when a value was stored at (col, row), and Blank otherwise |
| Sheets.Put | src/test/kotlin/link/arata/kexcelapi/KExcelTest.kt:193-196 | after `sheet[col, row].setValue(v)`, (col, row) reads v and the stored cells are the old ones plus (col, row) |
| Sheets.AtLabel | src/test/kotlin/link/arata/kexcelapi/KExcelTest.kt:46-49 | `sheet[name]` succeeds exactly when the decoder accepts name, and otherwise fails with InvalidAddress |
| Sheets.PutLabel | src/test/kotlin/link/arata/kexcelapi/KExcelTest.kt:175-178 | `sheet[name].setValue(v)` succeeds exactly when the decoder accepts name, and then `sheet[name]` reads v |
| Sheets.LabelAccessFailsOnlyOnInvalid | src/test/kotlin/link/arata/kexcelapi/KExcelTest.kt:44-49 | reading or writing by label fails with InvalidAddress if and only if the string is not a label (the failing side is a modelling choice; the cited reads all succeed) |
| Sheets.ReadAfterPut | src/test/kotlin/link/arata/kexcelapi/KExcelTest.kt:193-201 | after writing v at (col, row), that cell reads v and every other cell reads as before |
| Sheets.AtLabelAgreesWithAt | src/test/kotlin/link/arata/kexcelapi/KExcelTest.kt:70-73 | `sheet[label of (col, row)]` and `sheet[col, row]` are the same cell, on every sheet |
| Sheets.PutLabelAgreesWithPut | src/test/kotlin/link/arata/kexcelapi/KExcelTest.kt:175-178 | writing at the label of (col, row) is writing at (col, row) |
| Sheets.ReadLabelAfterPutLabel | src/test/kotlin/link/arata/kexcelapi/KExcelTest.kt:175-181 | after writing v at a valid label, reading that label, or its upper-cased form, gives v |
| Sheets.PutLabelKeepsOtherLabels | src/test/kotlin/link/arata/kexcelapi/KExcelTest.kt:175-183 | writing at one label leaves the reading of every string that does not name the written cell unchanged, valid label or not |
| TestVectors.SingleLetterNames | src/test/kotlin/link/arata/kexcelapi/KExcelTest.kt:206-208 | (0,0), (1,0), (2,0) encode to "A1", "B1", "C1" |
| TestVectors.RowSuffixNames | src/test/kotlin/link/arata/kexcelapi/KExcelTest.kt:208-209 | (2,1) encodes to "C2": the letters of "C1" (SingleLetterNames), next row number |
| TestVectors.BoundaryNames | src/test/kotlin/link/arata/kexcelapi/KExcelTest.kt:210-212 | (25,1), (26,1), (27,1) encode to "Z2", "AA2", "AB2" |
| TestVectors.MultiLetterNames | src/test/kotlin/link/arata/kexcelapi/KExcelTest.kt:213-215 | (255,1), (702,1), (16383,1) encode to "IV2", "AAA2", "XFD2" |
| TestVectors.NameWidths | src/test/kotlin/link/arata/kexcelapi/KExcelTest.kt:210-215 | the width boundaries are 26, 702 and 18278. Columns 25, 26, 701, 702 and 16383 have 1, 2, 2, 3 and 3 letters |
| TestVectors.MalformedLabelVectors | src/test/kotlin/link/arata/kexcelapi/KExcelTest.kt:46-49 | the model's decoder rejects "1A", "" and "A" with InvalidAddress, a modelling choice: the cited reads use only well-formed labels |
| TestVectors.MalformedRowVectors | src/test/kotlin/link/arata/kexcelapi/KExcelTest.kt:46-49 | the model's decoder rejects "A0" (row 0) and "A1B" (letters after the digits) with InvalidAddress, a modelling choice: the cited reads use only well-formed labels |
| TestVectors.LowerCaseLeadingZeroVector | src/test/kotlin/link/arata/kexcelapi/KExcelTest.kt:46-49 | "a01" decodes to (0, 0), the cell of "A1": the case and leading-zero choices of the decoder |
| TestVectors.LabelAndIndexReadVectors | src/test/kotlin/link/arata/kexcelapi/KExcelTest.kt:46-61 | "B2" and "C3" read the same cells as [1,1] and [2,2] |
| TestVectors.LabelAndIndexReadMoreVectors | src/test/kotlin/link/arata/kexcelapi/KExcelTest.kt:48-61 | "D4" and "C2" read the same cells as [3,3] and [2,1] |
| TestVectors.SameCellTwiceVectors | src/test/kotlin/link/arata/kexcelapi/KExcelTest.kt:70-73 | "B2" is [1,1] and "G2" is [6,1] |
| TestVectors.StringReadTextVectors | src/test/kotlin/link/arata/kexcelapi/KExcelTest.kt:82-83 | "B2" is [1,1], as read by the string-read test (the same pair as in LabelAndIndexReadVectors, kept to mirror that test) |
| TestVectors.StringReadIntegerVectors | src/test/kotlin/link/arata/kexcelapi/KExcelTest.kt:84-87 | "C2" is [2,1] and "C3" is [2,2] |
| TestVectors.StringReadDecimalVectors | src/test/kotlin/link/arata/kexcelapi/KExcelTest.kt:88-91 | "D2" is [3,1] and "D3" is [3,2] |
| TestVectors.StringReadDateBoolVectors | src/test/kotlin/link/arata/kexcelapi/KExcelTest.kt:92-95 | "E2" is [4,1] and "F2" is [5,1] |
| TestVectors.StringReadColumnGVectors | src/test/kotlin/link/arata/kexcelapi/KExcelTest.kt:96-101 | "G2", "G3", "G5" are [6,1], [6,2], [6,4] |
| TestVectors.StringReadBlankVectors | src/test/kotlin/link/arata/kexcelapi/KExcelTest.kt:102-105 | "H2" is [7,1] and "I2" is [8,1] |
| TestVectors.IntReadVectors | src/test/kotlin/link/arata/kexcelapi/KExcelTest.kt:114-119 | "C3", "D3", "G3" are [2,2], [3,2], [6,2] |
| TestVectors.DoubleReadVectors | src/test/kotlin/link/arata/kexcelapi/KExcelTest.kt:128-133 | "C4", "D4", "G4" are [2,3], [3,3], [6,3] |
| TestVectors.BooleanReadVectors | src/test/kotlin/link/arata/kexcelapi/KExcelTest.kt:142-145 | "F5" is [5,4] and "G5" is [6,4] |
| TestVectors.DateReadVectors | src/test/kotlin/link/arata/kexcelapi/KExcelTest.kt:155-158 | "E6" is [4,5] and "G6" is [6,5] |
| TestVectors.TimeReadVectors | src/test/kotlin/link/arata/kexcelapi/KExcelTest.kt:160-163 | "E7" is [4,6] and "G7" is [6,6] |
| TestVectors.WriteByLabelVectors | src/test/kotlin/link/arata/kexcelapi/KExcelTest.kt:175-176 | on any sheet, writing at "A1" and "A2" is writing at [0,0] and [0,1] (the index writes at 193-194) |
| TestVectors.WriteByLabelMoreVectors | src/test/kotlin/link/arata/kexcelapi/KExcelTest.kt:177-178 | on any sheet, writing at "A3" and "A4" is writing at [0,2] and [0,3] (the index writes at 195-196) |
| TestVectors.WriteByLabelChain | src/test/kotlin/link/arata/kexcelapi/KExcelTest.kt:173-178 | the four label writes "A1".."A4" on a new sheet all succeed and build the same sheet as the index writes [0,0]..[0,3], the sheet the WriteThenReadByLabel lemmas read |
| TestVectors.WriteThenReadByIndex | src/test/kotlin/link/arata/kexcelapi/KExcelTest.kt:193-201 | after four writes down column A of a new sheet, [0,0]..[0,3] read back the four values, none overwritten |
| TestVectors.WriteThenReadByLabel | src/test/kotlin/link/arata/kexcelapi/KExcelTest.kt:175-181 | after the same four writes, "A1" and "A2" read back the first two values |
| TestVectors.WriteThenReadByLabelMore | src/test/kotlin/link/arata/kexcelapi/KExcelTest.kt:177-183 | ... and "A3" and "A4" read back the last two |

## Left out

- Opening a workbook, `use {}` cleanup, and creating or selecting sheets by index
  or name. These are file I/O and calls into Apache POI, whose code is not part of
  this model.
- The typed accessors `toStr`, `toInt`, `toDouble`, `toBoolean` and `toDate`, and
  the `setValue` overloads beyond storing a value. These involve floating-point
  rendering and parsing, and date conversion inside Apache POI. The
  sheet is generic in its value type `V` and only stores and returns values.
- Cell styles, date display formats, formulas, and how rows and cells come into
  being inside Apache POI. The sheet is a map, so an unwritten cell reads `Blank`.
- Kotlin's 32-bit `Int` and any upper bound on columns or rows: the model puts no
  limit on either, a modelling choice; `KExcelTest.kt` tests columns only up to
  16383 (XFD).
- The implementation file `KExcel.kt`, whose code is not part of this model. The
  decoder's case-insensitivity, its acceptance of leading zeros, its rejection of
  row 0 and of every string that is not letters then digits, and its reporting of
  a rejection as an `Err(InvalidAddress)` value rather than a Kotlin exception are
  modelling choices that `KExcelTest.kt` does not pin: every label it passes is
  well formed.
