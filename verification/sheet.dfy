/** An abstract sheet: the cells that hold a value, keyed by zero-based
    (column, row). A cell can be reached by index, sheet[col, row], or by
    label, sheet["B2"]; access by label goes through the address codec. */
module Sheets {
  import Columns
  import opened CellAddress

  /** What a lookup yields: reading a cell that was never written is not an error, it is blank. */
  datatype Cell<V> = Blank | Filled(value: V)

  datatype Sheet<V> = Sheet(cells: map<Address, V>)

  /** A new sheet, as createSheet gives it: nothing has been written. */
  function Empty<V>(): (e: Sheet<V>)
    ensures forall col: nat, row: nat :: At(e, col, row) == Blank
  {
    Sheet(map[])
  }

  /** sheet[col, row] */
  function At<V>(sheet: Sheet<V>, col: nat, row: nat): (c: Cell<V>)
    ensures c.Filled? <==> Address(col, row) in sheet.cells
  {
    var a := Address(col, row);
    if a in sheet.cells then Filled(sheet.cells[a]) else Blank
  }

  /** sheet[col, row].setValue(v) */
  function Put<V>(sheet: Sheet<V>, col: nat, row: nat, v: V): (r: Sheet<V>)
    ensures r.cells.Keys == sheet.cells.Keys + {Address(col, row)}
    ensures At(r, col, row) == Filled(v)
  {
    Sheet(sheet.cells[Address(col, row) := v])
  }

  /** sheet[name]: the cell the label name stands for, or InvalidAddress. */
  function AtLabel<V>(sheet: Sheet<V>, name: string): (r: Result<Cell<V>>)
    ensures r.Ok? <==> CellIndex(name).Ok?
    ensures r.Err? ==> r.error == InvalidAddress
  {
    match CellIndex(name)
    case Ok(a) => Ok(At(sheet, a.col, a.row))
    case Err(e) => Err(e)
  }

  /** sheet[name].setValue(v): the updated sheet, or InvalidAddress and no update. */
  function PutLabel<V>(sheet: Sheet<V>, name: string, v: V): (r: Result<Sheet<V>>)
    ensures r.Ok? <==> CellIndex(name).Ok?
    ensures r.Ok? ==> AtLabel(r.value, name) == Ok(Filled(v))
  {
    match CellIndex(name)
    case Ok(a) => Ok(Put(sheet, a.col, a.row, v))
    case Err(e) => Err(e)
  }

  /** Access by label fails, and writes nothing, exactly when the string is not a label. */
  lemma LabelAccessFailsOnlyOnInvalid<V>(sheet: Sheet<V>, name: string, v: V)
    ensures AtLabel(sheet, name) == Err(InvalidAddress) <==> !IsLabel(name)
    ensures PutLabel(sheet, name, v) == Err(InvalidAddress) <==> !IsLabel(name)
  {
    CellIndexSpec(name);
  }

  /** A value written at a cell is read back at that cell, and every other cell reads as before. */
  lemma ReadAfterPut<V>(sheet: Sheet<V>, col: nat, row: nat, v: V, col': nat, row': nat)
    ensures At(Put(sheet, col, row, v), col', row') ==
              if col' == col && row' == row then Filled(v) else At(sheet, col', row')
  {
  }

  /** Reading by label is reading at the cell the label stands for: sheet[CellName(col, row)]
      and sheet[col, row] are the same cell. */
  lemma AtLabelAgreesWithAt<V>(sheet: Sheet<V>, col: nat, row: nat)
    ensures AtLabel(sheet, CellName(col, row)) == Ok(At(sheet, col, row))
  {
    CellIndexOfCellName(col, row);
  }

  /** Writing by label is writing at the cell the label stands for. */
  lemma PutLabelAgreesWithPut<V>(sheet: Sheet<V>, col: nat, row: nat, v: V)
    ensures PutLabel(sheet, CellName(col, row), v) == Ok(Put(sheet, col, row, v))
  {
    CellIndexOfCellName(col, row);
  }

  /** A value written at a valid label is read back at that label, and at the label
      spelt in upper case. */
  lemma ReadLabelAfterPutLabel<V>(sheet: Sheet<V>, name: string, v: V)
    requires IsLabel(name)
    ensures PutLabel(sheet, name, v).Ok?
    ensures AtLabel(PutLabel(sheet, name, v).value, name) == Ok(Filled(v))
    ensures AtLabel(PutLabel(sheet, name, v).value, Columns.Upper(name)) == Ok(Filled(v))
  {
    CellIndexSpec(name);
    CellIndexIgnoresCase(name);
  }

  /** Writing at one label leaves every other string reading as it did: a label of
      another cell reads that cell, and a string that is no label still fails. */
  lemma PutLabelKeepsOtherLabels<V>(sheet: Sheet<V>, name: string, v: V, other: string)
    requires IsLabel(name)
    requires CellIndex(name) != CellIndex(other)
    ensures PutLabel(sheet, name, v).Ok?
    ensures AtLabel(PutLabel(sheet, name, v).value, other) == AtLabel(sheet, other)
  {
    CellIndexSpec(name);
    CellIndexSpec(other);
  }
}
