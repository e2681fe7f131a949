/** The layout of one report table (ThisDocument.PrintRecords) with the
    word processor's formatting left out: which cells of the table receive
    text, a key icon, shading, a border or a merge, by (row, column) index.
    Rows and columns are numbered from 1, as the table's `Cell(row, col)`. */
module Layout {
  import opened Results
  import opened DocObjects

  /** The table always has five columns: object, key icon, field name, type, description. */
  const NumCols: nat := 5
  /** Rows 1 and 2 are the header; the first record starts on row 3. */
  const FirstRecordRow: nat := 3

  datatype LineStyle = Single | Dot
  datatype Edge = Bottom | Top | Left | Right

  /** One cell operation, at the index the report code passes to `Cell`. */
  datatype CellOp =
    | Text(row: int, col: int, text: string)
    | Picture(row: int, col: int)
    | Shade(row: int, col: int)
    | Border(row: int, col: int, style: LineStyle, edge: Edge)
    | Merge(row: int, col: int, toRow: int, toCol: int)

  /** The table's dimensions and the cell operations, in the order they are issued. */
  datatype TableLayout = TableLayout(numRows: nat, numCols: nat, ops: seq<CellOp>)

  function Max(a: int, b: int): int { if a > b then a else b }

  /** The rows a record occupies: one per field, and never fewer than two. */
  function Height(r: DocObject): nat { Max(2, |r.columns|) }

  /** The closing border style: solid under the last record, dotted between records. */
  function Closing(isLast: bool): LineStyle { if isLast then Single else Dot }

  /** The sum of the blocks' heights. */
  function SumHeights(rs: seq<DocObject>): nat
    decreases |rs|
  {
    if rs == [] then 0 else Height(rs[0]) + SumHeights(rs[1..])
  }

  /** Two header rows plus each record's block. */
  function NumRows(rs: seq<DocObject>): nat { 2 + SumHeights(rs) }

  /** The first row of record `k`: row 3, advanced by each earlier block's height. */
  function StartRow(rs: seq<DocObject>, k: nat): nat
    requires k <= |rs|
  {
    if k == 0 then FirstRecordRow else StartRow(rs, k - 1) + Height(rs[k - 1])
  }

  /** The first row of the last record's block (0 when there is none). */
  function LastStart(rs: seq<DocObject>): nat {
    if rs == [] then 0 else StartRow(rs, |rs| - 1)
  }

  /** Padding rows of a record with fewer than two fields. */
  function PadCount(r: DocObject): nat { if |r.columns| < 2 then 2 - |r.columns| else 0 }

  /** The column shift in effect after a record's field loop: 1 in table mode
      once a field has been written, otherwise 0. */
  function DataOffset(r: DocObject, isTable: bool): nat {
    if isTable && |r.columns| > 0 then 1 else 0
  }

  function HeaderOps(isTable: bool): seq<CellOp> {
    [Text(1, 2, if isTable then "CAMPOS" else "PARÁMETROS"), Merge(1, 2, 1, 5),
     Border(1, 2, Single, Bottom), Border(1, 2, Single, Top),
     Border(1, 2, Single, Left), Border(1, 2, Single, Right),
     Text(2, 2, "Nombre"), Merge(2, 2, 2, 3), Shade(2, 2),
     Border(2, 2, Single, Bottom), Border(2, 2, Single, Left),
     Text(2, 3, "Tipo"), Shade(2, 3), Border(2, 3, Single, Bottom),
     Text(2, 4, "Descripción"), Shade(2, 4), Border(2, 4, Single, Bottom), Border(2, 4, Single, Right)]
  }

  /** The record's name on its first row and its description, merged down its block, below. */
  function HeadOps(r: DocObject, row: int, isLast: bool): seq<CellOp> {
    [Text(row, 1, r.name), Border(row, 1, Single, Right), Text(row + 1, 1, r.description)]
    + (if Height(r) > 2 then [Merge(row + 1, 1, row + Height(r) - 1, 1)] else [])
    + [Border(row + 1, 1, Closing(isLast), Bottom)]
  }

  /** The cells of one field row `x`: the key-icon column, then the name, type
      and description cells, shifted one column right in table mode. */
  function FieldOps(f: Field, x: int, isTable: bool, isLastField: bool, isLast: bool): seq<CellOp> {
    var h := if isTable then 1 else 0;
    var st := Closing(isLast);
    KeyColumnOps(f, x, isTable, isLastField, st)
    + NameCellOps(f, x, isTable, h, isLastField, st)
    + TypeCellOps(f, x, h, isLastField, st)
    + DescriptionCellOps(f, x, h, isLastField, st)
  }

  /** Table mode: key icon, shading and left edge in column 2; otherwise columns 2 and 3 are merged. */
  function KeyColumnOps(f: Field, x: int, isTable: bool, isLastField: bool, st: LineStyle): seq<CellOp> {
    if isTable then
      (if f.isPK then [Picture(x, 2)] else []) + [Shade(x, 2), Border(x, 2, Single, Left)]
      + (if isLastField then [Border(x, 2, st, Bottom)] else [])
    else [Merge(x, 2, x, 3)]
  }

  function NameCellOps(f: Field, x: int, isTable: bool, h: int, isLastField: bool, st: LineStyle): seq<CellOp> {
    [Text(x, 2 + h, f.name), Shade(x, 2 + h)]
    + (if !isTable then [Border(x, 2, Single, Left)] else [])
    + (if isLastField then [Border(x, 2 + h, st, Bottom)] else [])
  }

  function TypeCellOps(f: Field, x: int, h: int, isLastField: bool, st: LineStyle): seq<CellOp> {
    [Text(x, 3 + h, f.typeName)] + (if isLastField then [Border(x, 3 + h, st, Bottom)] else [])
  }

  function DescriptionCellOps(f: Field, x: int, h: int, isLastField: bool, st: LineStyle): seq<CellOp> {
    [Text(x, 4 + h, f.description), Border(x, 4 + h, Single, Right)]
    + (if isLastField then [Border(x, 4 + h, st, Bottom)] else [])
  }

  /** The cells of one padding row `x`, with column shift `h`. */
  function PadOps(x: int, isTable: bool, h: nat, isLastPad: bool, isLast: bool): seq<CellOp> {
    var st := Closing(isLast);
    (if !isTable then [Merge(x, 2, x, 3)] else [])
    + [Shade(x, 2), Border(x, 2, Single, Left), Shade(x, 2 + h), Border(x, 4 + h, Single, Right)]
    + (if isLastPad then [Border(x, 2, st, Bottom), Border(x, 2 + h, st, Bottom),
                          Border(x, 3 + h, st, Bottom), Border(x, 4 + h, st, Bottom)] else [])
  }

  /** Field `v` of a record is written on row `row + v`; the last row of the block closes it. */
  function FieldRow(r: DocObject, row: int, isTable: bool, isLast: bool, v: nat): seq<CellOp>
    requires v < |r.columns|
  {
    FieldOps(r.columns[v], row + v, isTable, v == Height(r) - 1, isLast)
  }

  /** The field rows of a record whose block starts at `row`, by field index. */
  function FieldRows(r: DocObject, row: int, isTable: bool, isLast: bool): nat -> seq<CellOp> {
    (v: nat) => if v < |r.columns| then FieldRow(r, row, isTable, isLast, v) else []
  }

  /** Padding row `i` follows the field rows; the last one closes the block. */
  function PadRow(r: DocObject, row: int, isTable: bool, isLast: bool, i: nat): seq<CellOp> {
    PadOps(row + i + |r.columns|, isTable, DataOffset(r, isTable), PadCount(r) == 1 || i == 1, isLast)
  }

  function PadRows(r: DocObject, row: int, isTable: bool, isLast: bool): nat -> seq<CellOp> {
    (i: nat) => PadRow(r, row, isTable, isLast, i)
  }

  /** The block of a record: its head, then its field rows, then its padding rows. */
  function RecordOps(r: DocObject, row: int, isTable: bool, isLast: bool): seq<CellOp> {
    HeadOps(r, row, isLast) + Concat(|r.columns|, FieldRows(r, row, isTable, isLast))
    + Concat(PadCount(r), PadRows(r, row, isTable, isLast))
  }

  /** The block of record `k`, at its start row; the last record's block is closed solid. */
  function Blocks(rs: seq<DocObject>, isTable: bool): nat -> seq<CellOp> {
    (k: nat) => if k < |rs| then RecordOps(rs[k], StartRow(rs, k), isTable, k == |rs| - 1) else []
  }

  /** Every cell operation of the table, header first. */
  function Plan(rs: seq<DocObject>, isTable: bool): seq<CellOp> {
    HeaderOps(isTable) + Concat(|rs|, Blocks(rs, isTable))
  }

  function LayoutOf(rs: seq<DocObject>, isTable: bool): TableLayout {
    TableLayout(NumRows(rs), NumCols, Plan(rs, isTable))
  }

  /** The operation stays within rows `lo..hi` and the table's columns. */
  predicate Within(op: CellOp, lo: int, hi: int) {
    lo <= op.row <= hi && 1 <= op.col <= NumCols &&
    (op.Merge? ==> lo <= op.toRow <= hi && 1 <= op.toCol <= NumCols)
  }

  /** A bottom border, if the operation is one, has style `st`. */
  predicate ClosesWith(op: CellOp, st: LineStyle) {
    op.Border? && op.edge == Bottom ==> op.style == st
  }

  /** What every operation of a record block satisfies. */
  predicate InBlock(op: CellOp, lo: int, hi: int, st: LineStyle, isTable: bool) {
    Within(op, lo, hi) && ClosesWith(op, st) && (op.Picture? ==> isTable)
  }

  /* ---------------- the imperative layout ---------------- */

  /** Sizes the table and lays out its header and its records, one block per
      record, advancing a row cursor by each block's height. */
  method PrintRecords(records: seq<DocObject>, isTable: bool) returns (layout: TableLayout)
    ensures layout == LayoutOf(records, isTable)
  {
    var numCols := NumCols;
    var numRows := CountRows(records);
    var header := HeaderOps(isTable);
    var body := LayOutRecords(records, isTable);
    layout := TableLayout(numRows, numCols, header + body);
  }

  /** The sizing loop: two header rows plus each record's height. */
  method CountRows(records: seq<DocObject>) returns (numRows: nat)
    ensures numRows == NumRows(records)
  {
    numRows := 2;
    for k := 0 to |records|
      invariant numRows + 1 == StartRow(records, k)
    {
      numRows := numRows + Max(2, |records[k].columns|);
    }
    BlocksSpanTable(records);
  }

  /** The record loop: each record's block at the row cursor, which then
      advances by the block's height. */
  method LayOutRecords(records: seq<DocObject>, isTable: bool) returns (body: seq<CellOp>)
    ensures body == Concat(|records|, Blocks(records, isTable))
  {
    body := [];
    var row := FirstRecordRow;
    for k := 0 to |records|
      invariant row == StartRow(records, k)
      invariant body == Concat(k, Blocks(records, isTable))
    {
      var recOps, cellHeight := LayOutBlock(records, isTable, k, row);
      ConcatSnoc(k, Blocks(records, isTable), body, recOps);
      body := body + recOps;
      row := row + cellHeight;
    }
  }

  /** The body of the record loop for record `k`, whose block starts at `row`. */
  method LayOutBlock(records: seq<DocObject>, isTable: bool, k: nat, row: nat)
    returns (recOps: seq<CellOp>, cellHeight: nat)
    requires k < |records| && row == StartRow(records, k)
    ensures recOps == Blocks(records, isTable)(k)
    ensures row + cellHeight == StartRow(records, k + 1)
  {
    var record := records[k];
    var isLastRecord := k == |records| - 1;
    cellHeight := Max(2, |record.columns|);
    recOps := LayOutRecord(record, row, isTable, isLastRecord);
  }

  /** The body of the record loop: the record's name and description cells,
      then one row per field, then the padding rows. */
  method LayOutRecord(record: DocObject, row: int, isTable: bool, isLastRecord: bool)
    returns (recOps: seq<CellOp>)
    ensures recOps == RecordOps(record, row, isTable, isLastRecord)
  {
    var cellHeight := Max(2, |record.columns|);
    var st := Closing(isLastRecord);
    var headOps := [Text(row, 1, record.name), Border(row, 1, Single, Right),
                    Text(row + 1, 1, record.description)];
    if cellHeight > 2 {
      headOps := headOps + [Merge(row + 1, 1, row + cellHeight - 1, 1)];
    }
    headOps := headOps + [Border(row + 1, 1, st, Bottom)];
    assert headOps == HeadOps(record, row, isLastRecord);

    var fieldOps, hOffset := LayOutFields(record, row, isTable, isLastRecord);
    var padOps := [];
    if |record.columns| < 2 {
      padOps := LayOutPads(record, row, isTable, isLastRecord, hOffset);
    }
    recOps := headOps + fieldOps + padOps;
  }

  /** The field loop: one row per field, starting on the block's first row.
      The column shift is 1 after the loop in table mode once a field was written. */
  method LayOutFields(record: DocObject, row: int, isTable: bool, isLastRecord: bool)
    returns (fieldOps: seq<CellOp>, hOffset: nat)
    ensures fieldOps == Concat(|record.columns|, FieldRows(record, row, isTable, isLastRecord))
    ensures hOffset == DataOffset(record, isTable)
  {
    hOffset := 0;
    fieldOps := [];
    ghost var rows := FieldRows(record, row, isTable, isLastRecord);
    for vOffset := 0 to |record.columns|
      invariant hOffset == if isTable && vOffset > 0 then 1 else 0
      invariant fieldOps == Concat(vOffset, rows)
    {
      var step := LayOutFieldRow(record, row, isTable, isLastRecord, vOffset);
      ConcatSnoc(vOffset, rows, fieldOps, step);
      if isTable {
        hOffset := 1;
      }
      fieldOps := fieldOps + step;
    }
  }

  /** The body of the field loop for field `vOffset`, written on row `row + vOffset`. */
  method LayOutFieldRow(record: DocObject, row: int, isTable: bool, isLastRecord: bool, vOffset: nat)
    returns (step: seq<CellOp>)
    requires vOffset < |record.columns|
    ensures step == FieldRows(record, row, isTable, isLastRecord)(vOffset)
  {
    var cellHeight := Max(2, |record.columns|);
    step := LayOutField(record.columns[vOffset], row + vOffset, isTable, vOffset == cellHeight - 1, isLastRecord);
  }

  /** The padding loop of a record with fewer than two fields: the rows of the
      block below its fields, the last of which closes the block. */
  method LayOutPads(record: DocObject, row: int, isTable: bool, isLastRecord: bool, hOffset: nat)
    returns (padOps: seq<CellOp>)
    requires |record.columns| < 2 && hOffset == DataOffset(record, isTable)
    ensures padOps == Concat(PadCount(record), PadRows(record, row, isTable, isLastRecord))
  {
    var vOffset := |record.columns|;
    var numRowsToFormat := 2 - |record.columns|;
    padOps := [];
    for i := 0 to numRowsToFormat
      invariant padOps == Concat(i, PadRows(record, row, isTable, isLastRecord))
    {
      var step := LayOutPadding(row + i + vOffset, isTable, hOffset,
                                numRowsToFormat == 1 || i == 1, isLastRecord);
      ConcatSnoc(i, PadRows(record, row, isTable, isLastRecord), padOps, step);
      padOps := padOps + step;
    }
  }

  /** The body of the field loop for the field written on row `x`. */
  method LayOutField(field: Field, x: int, isTable: bool, isLastField: bool, isLastRecord: bool)
    returns (step: seq<CellOp>)
    ensures step == FieldOps(field, x, isTable, isLastField, isLastRecord)
  {
    var st := Closing(isLastRecord);
    var hOffset := 0;
    step := [];
    if isTable {
      if field.isPK {
        step := step + [Picture(x, 2)];
      }
      step := step + [Shade(x, 2), Border(x, 2, Single, Left)];
      hOffset := 1;
      if isLastField {
        step := step + [Border(x, 2, st, Bottom)];
      }
    } else {
      step := step + [Merge(x, 2, x, 3)];
    }
    assert step == KeyColumnOps(field, x, isTable, isLastField, st);
    ghost var done := step;
    step := step + [Text(x, 2 + hOffset, field.name), Shade(x, 2 + hOffset)];
    if !isTable {
      step := step + [Border(x, 2, Single, Left)];
    }
    if isLastField {
      step := step + [Border(x, 2 + hOffset, st, Bottom)];
    }
    assert step == done + NameCellOps(field, x, isTable, hOffset, isLastField, st);
    done := step;
    step := step + [Text(x, 3 + hOffset, field.typeName)];
    if isLastField {
      step := step + [Border(x, 3 + hOffset, st, Bottom)];
    }
    assert step == done + TypeCellOps(field, x, hOffset, isLastField, st);
    done := step;
    step := step + [Text(x, 4 + hOffset, field.description), Border(x, 4 + hOffset, Single, Right)];
    if isLastField {
      step := step + [Border(x, 4 + hOffset, st, Bottom)];
    }
    assert step == done + DescriptionCellOps(field, x, hOffset, isLastField, st);
  }

  /** The body of the padding loop for the padding row `x`. */
  method LayOutPadding(x: int, isTable: bool, hOffset: nat, isLastPad: bool, isLastRecord: bool)
    returns (step: seq<CellOp>)
    ensures step == PadOps(x, isTable, hOffset, isLastPad, isLastRecord)
  {
    var st := Closing(isLastRecord);
    step := [];
    if !isTable {
      step := step + [Merge(x, 2, x, 3)];
    }
    step := step + [Shade(x, 2), Border(x, 2, Single, Left),
                    Shade(x, 2 + hOffset), Border(x, 4 + hOffset, Single, Right)];
    if isLastPad {
      step := step + [Border(x, 2, st, Bottom), Border(x, 2 + hOffset, st, Bottom),
                      Border(x, 3 + hOffset, st, Bottom), Border(x, 4 + hOffset, st, Bottom)];
    }
  }

  /* ---------------- row arithmetic: the blocks tile the table ---------------- */

  lemma {:induction false} SumHeightsAppend(rs: seq<DocObject>, r: DocObject)
    ensures SumHeights(rs + [r]) == SumHeights(rs) + Height(r)
    decreases |rs|
  {
    if rs != [] {
      assert (rs + [r])[1..] == rs[1..] + [r];
      SumHeightsAppend(rs[1..], r);
    }
  }

  /** Record `k` starts on row 3 plus the heights of the records before it. */
  lemma {:induction false} StartRowIsSum(rs: seq<DocObject>, k: nat)
    requires k <= |rs|
    ensures StartRow(rs, k) == FirstRecordRow + SumHeights(rs[..k])
    decreases k
  {
    if k > 0 {
      StartRowIsSum(rs, k - 1);
      assert rs[..k] == rs[..k - 1] + [rs[k - 1]];
      SumHeightsAppend(rs[..k - 1], rs[k - 1]);
    }
  }

  /** The first block starts on row 3 and the last one ends on the table's last row. */
  lemma BlocksSpanTable(rs: seq<DocObject>)
    ensures StartRow(rs, 0) == FirstRecordRow
    ensures StartRow(rs, |rs|) == NumRows(rs) + 1
  {
    StartRowIsSum(rs, |rs|);
    assert rs[..|rs|] == rs;
  }

  /** Block starts never decrease, and never lie above row 3. */
  lemma {:induction false} StartRowMonotone(rs: seq<DocObject>, j: nat, k: nat)
    requires j <= k <= |rs|
    ensures FirstRecordRow <= StartRow(rs, j) <= StartRow(rs, k)
    decreases k
  {
    if j < k {
      StartRowMonotone(rs, j, k - 1);
    } else if k > 0 {
      StartRowMonotone(rs, k - 1, k - 1);
    }
  }

  /** An earlier block ends before a later one starts: blocks do not overlap. */
  lemma {:induction false} BlocksDisjoint(rs: seq<DocObject>, j: nat, k: nat)
    requires j < k <= |rs|
    ensures StartRow(rs, j) + Height(rs[j]) <= StartRow(rs, k)
    decreases k
  {
    if j + 1 < k {
      BlocksDisjoint(rs, j, k - 1);
    }
  }

  /** The record whose block holds row `x` of the record area. */
  function BlockOf(rs: seq<DocObject>, x: int, n: nat): (k: nat)
    requires n <= |rs| && FirstRecordRow <= x < StartRow(rs, n)
    ensures k < n && StartRow(rs, k) <= x < StartRow(rs, k) + Height(rs[k])
    decreases n
  {
    if x >= StartRow(rs, n - 1) then n - 1 else BlockOf(rs, x, n - 1)
  }

  /** Every row 3..numRows lies in exactly one record's block. */
  lemma RowInOneBlock(rs: seq<DocObject>, x: int)
    requires FirstRecordRow <= x <= NumRows(rs)
    ensures exists k :: 0 <= k < |rs| && StartRow(rs, k) <= x < StartRow(rs, k) + Height(rs[k])
    ensures forall j, k ::
              (0 <= j < |rs| && 0 <= k < |rs| &&
               StartRow(rs, j) <= x < StartRow(rs, j) + Height(rs[j]) &&
               StartRow(rs, k) <= x < StartRow(rs, k) + Height(rs[k])) ==> j == k
  {
    BlocksSpanTable(rs);
    var b := BlockOf(rs, x, |rs|);
    forall j, k | 0 <= j < |rs| && 0 <= k < |rs| &&
                  StartRow(rs, j) <= x < StartRow(rs, j) + Height(rs[j]) &&
                  StartRow(rs, k) <= x < StartRow(rs, k) + Height(rs[k])
      ensures j == k
    {
      if j < k {
        BlocksDisjoint(rs, j, k);
      } else if k < j {
        BlocksDisjoint(rs, k, j);
      }
    }
  }

  /** A record's field rows and padding rows together fill its block. */
  lemma FieldsAndPadsFillBlock(r: DocObject)
    ensures |r.columns| + PadCount(r) == Height(r)
    ensures PadCount(r) > 0 <==> |r.columns| < 2
  {
  }

  /* ---------------- every operation stays inside the table ---------------- */

  /** A field row touches only row `x`. */
  lemma FieldOpsInBlock(f: Field, x: int, isTable: bool, isLastField: bool, isLast: bool, op: CellOp)
    requires op in FieldOps(f, x, isTable, isLastField, isLast)
    ensures InBlock(op, x, x, Closing(isLast), isTable)
  {
  }

  /** A padding row touches only row `x`. */
  lemma PadOpsInBlock(x: int, isTable: bool, h: nat, isLastPad: bool, isLast: bool, op: CellOp)
    requires h <= 1 && op in PadOps(x, isTable, h, isLastPad, isLast)
    ensures InBlock(op, x, x, Closing(isLast), isTable)
  {
  }

  lemma FieldRowInBlock(r: DocObject, row: int, isTable: bool, isLast: bool, v: nat, op: CellOp)
    requires v < |r.columns| && op in FieldRow(r, row, isTable, isLast, v)
    ensures InBlock(op, row + v, row + v, Closing(isLast), isTable)
  {
    FieldOpsInBlock(r.columns[v], row + v, isTable, v == Height(r) - 1, isLast, op);
  }

  lemma PadRowInBlock(r: DocObject, row: int, isTable: bool, isLast: bool, i: nat, op: CellOp)
    requires i < PadCount(r) && op in PadRow(r, row, isTable, isLast, i)
    ensures InBlock(op, row + i + |r.columns|, row + i + |r.columns|, Closing(isLast), isTable)
  {
    PadOpsInBlock(row + i + |r.columns|, isTable, DataOffset(r, isTable), PadCount(r) == 1 || i == 1, isLast, op);
  }

  lemma InBlockWiden(op: CellOp, lo: int, hi: int, lo': int, hi': int, st: LineStyle, isTable: bool)
    requires InBlock(op, lo, hi, st, isTable) && lo' <= lo && hi <= hi'
    ensures InBlock(op, lo', hi', st, isTable)
  {
  }

  /** A record's block touches only its own rows and the table's columns, its
      bottom borders all have the record's closing style, and it places a key
      icon only in table mode. */
  lemma RecordOpInBlock(r: DocObject, row: int, isTable: bool, isLast: bool, op: CellOp)
    requires op in RecordOps(r, row, isTable, isLast)
    ensures InBlock(op, row, row + Height(r) - 1, Closing(isLast), isTable)
  {
    if op in HeadOps(r, row, isLast) {
      HeadOpInBlock(r, row, isTable, isLast, op);
    } else if op in Concat(|r.columns|, FieldRows(r, row, isTable, isLast)) {
      FieldsOpInBlock(r, row, isTable, isLast, op);
    } else {
      PadsOpInBlock(r, row, isTable, isLast, op);
    }
  }

  lemma HeadOpInBlock(r: DocObject, row: int, isTable: bool, isLast: bool, op: CellOp)
    requires op in HeadOps(r, row, isLast)
    ensures InBlock(op, row, row + Height(r) - 1, Closing(isLast), isTable)
  {
  }

  lemma FieldsOpInBlock(r: DocObject, row: int, isTable: bool, isLast: bool, op: CellOp)
    requires op in Concat(|r.columns|, FieldRows(r, row, isTable, isLast))
    ensures InBlock(op, row, row + Height(r) - 1, Closing(isLast), isTable)
  {
    var v := ConcatIndex(|r.columns|, FieldRows(r, row, isTable, isLast), op);
    FieldRowInBlock(r, row, isTable, isLast, v, op);
    InBlockWiden(op, row + v, row + v, row, row + Height(r) - 1, Closing(isLast), isTable);
  }

  lemma PadsOpInBlock(r: DocObject, row: int, isTable: bool, isLast: bool, op: CellOp)
    requires op in Concat(PadCount(r), PadRows(r, row, isTable, isLast))
    ensures InBlock(op, row, row + Height(r) - 1, Closing(isLast), isTable)
  {
    var i := ConcatIndex(PadCount(r), PadRows(r, row, isTable, isLast), op);
    PadRowInBlock(r, row, isTable, isLast, i, op);
    var x := row + i + |r.columns|;
    InBlockWiden(op, x, x, row, row + Height(r) - 1, Closing(isLast), isTable);
  }

  /** What every operation of the record area satisfies: inside rows 3..`hi`,
      closing borders solid from the last block's first row on and dotted above. */
  predicate InArea(op: CellOp, hi: int, lastStart: int, isTable: bool) {
    Within(op, FirstRecordRow, hi) && ClosesWith(op, Closing(op.row >= lastStart)) && (op.Picture? ==> isTable)
  }

  /** Every operation of record `k`'s block lies in the record area, with the
      closing style of its position. */
  lemma BlockOpInArea(rs: seq<DocObject>, isTable: bool, k: nat, op: CellOp)
    requires k < |rs| && op in Blocks(rs, isTable)(k)
    ensures InArea(op, NumRows(rs), LastStart(rs), isTable)
  {
    var row := StartRow(rs, k);
    var isLast := k == |rs| - 1;
    RecordOpInBlock(rs[k], row, isTable, isLast, op);
    BlockInArea(rs, k);
    InBlockInArea(op, row, row + Height(rs[k]) - 1, Closing(isLast), isTable, NumRows(rs), LastStart(rs));
  }

  /** Block `k` lies in rows 3..numRows; the last block starts at the last
      start row and every earlier one ends above it. */
  lemma BlockInArea(rs: seq<DocObject>, k: nat)
    requires k < |rs|
    ensures FirstRecordRow <= StartRow(rs, k) && StartRow(rs, k) + Height(rs[k]) - 1 <= NumRows(rs)
    ensures k == |rs| - 1 ==> LastStart(rs) == StartRow(rs, k)
    ensures k < |rs| - 1 ==> StartRow(rs, k) + Height(rs[k]) - 1 < LastStart(rs)
  {
    StartRowMonotone(rs, 0, k);
    BlocksDisjoint(rs, k, |rs|);
    BlocksSpanTable(rs);
    if k < |rs| - 1 {
      BlocksDisjoint(rs, k, |rs| - 1);
    }
  }

  /** A block's operation is in the record area when the block lies in rows
      3..hi and either starts at the last record's row or ends above it. */
  lemma InBlockInArea(op: CellOp, lo: int, hi: int, st: LineStyle, isTable: bool, numRows: int, lastStart: int)
    requires InBlock(op, lo, hi, st, isTable)
    requires FirstRecordRow <= lo && hi <= numRows
    requires (st == Single && lastStart <= lo) || (st == Dot && hi < lastStart)
    ensures InArea(op, numRows, lastStart, isTable)
  {
  }

  lemma HeaderOpInTable(isTable: bool, op: CellOp)
    requires op in HeaderOps(isTable)
    ensures Within(op, 1, 2) && !op.Picture?
  {
  }

  /** Every operation lies inside the allocated table, rows 1..numRows and
      columns 1..5; closing borders in the record area are solid exactly in the
      last record's block and dotted above it; a key icon only in table mode. */
  lemma PlanOpInTable(rs: seq<DocObject>, isTable: bool, op: CellOp)
    requires op in Plan(rs, isTable)
    ensures Within(op, 1, NumRows(rs))
    ensures op.Border? && op.edge == Bottom && op.row >= FirstRecordRow ==>
              op.style == if op.row >= LastStart(rs) then Single else Dot
    ensures op.Picture? ==> isTable
  {
    if op in HeaderOps(isTable) {
      HeaderOpInTable(isTable, op);
    } else {
      var k := ConcatIndex(|rs|, Blocks(rs, isTable), op);
      BlockOpInArea(rs, isTable, k, op);
    }
  }

  lemma PlanInsideTable(rs: seq<DocObject>, isTable: bool)
    ensures forall op :: op in Plan(rs, isTable) ==> Within(op, 1, NumRows(rs))
  {
    forall op | op in Plan(rs, isTable)
      ensures Within(op, 1, NumRows(rs))
    {
      PlanOpInTable(rs, isTable, op);
    }
  }

  /** Closing borders in the record area are solid exactly in the last record's
      block and dotted everywhere above it. */
  lemma PlanClosingBorders(rs: seq<DocObject>, isTable: bool)
    ensures forall op :: op in Plan(rs, isTable) && op.Border? && op.edge == Bottom && op.row >= FirstRecordRow ==>
              op.style == if op.row >= LastStart(rs) then Single else Dot
  {
    forall op | op in Plan(rs, isTable) && op.Border? && op.edge == Bottom && op.row >= FirstRecordRow
      ensures op.style == if op.row >= LastStart(rs) then Single else Dot
    {
      PlanOpInTable(rs, isTable, op);
    }
  }

  /** The key icon is placed only in table mode. */
  lemma PicturesOnlyForTables(rs: seq<DocObject>, isTable: bool)
    ensures forall op :: op in Plan(rs, isTable) && op.Picture? ==> isTable
  {
    forall op | op in Plan(rs, isTable) && op.Picture?
      ensures isTable
    {
      PlanOpInTable(rs, isTable, op);
    }
  }

  /* ---------------- what each record's block contains ---------------- */

  /** An operation of the block of record `k`, which starts on `row`, appears in the plan. */
  lemma RecordInPlan(rs: seq<DocObject>, isTable: bool, k: nat, row: int, op: CellOp)
    requires k < |rs| && row == StartRow(rs, k)
    requires op in RecordOps(rs[k], row, isTable, k == |rs| - 1)
    ensures op in Plan(rs, isTable)
  {
    ConcatMember(|rs|, Blocks(rs, isTable), k, op);
  }

  lemma HeadInRecord(r: DocObject, row: int, isTable: bool, isLast: bool, op: CellOp)
    requires op in HeadOps(r, row, isLast)
    ensures op in RecordOps(r, row, isTable, isLast)
  {
  }

  lemma FieldInRecord(r: DocObject, row: int, isTable: bool, isLast: bool, v: nat, op: CellOp)
    requires v < |r.columns| && op in FieldRow(r, row, isTable, isLast, v)
    ensures op in RecordOps(r, row, isTable, isLast)
  {
    ConcatMember(|r.columns|, FieldRows(r, row, isTable, isLast), v, op);
  }

  lemma PadInRecord(r: DocObject, row: int, isTable: bool, isLast: bool, i: nat, op: CellOp)
    requires i < PadCount(r) && op in PadRow(r, row, isTable, isLast, i)
    ensures op in RecordOps(r, row, isTable, isLast)
  {
    ConcatMember(PadCount(r), PadRows(r, row, isTable, isLast), i, op);
  }

  /** A record's name is written in column 1 of its first row and its description
      in column 1 of its second row, closed by a bottom border of the record's style. */
  lemma RecordHeadCells(r: DocObject, row: int, isTable: bool, isLast: bool)
    ensures Text(row, 1, r.name) in RecordOps(r, row, isTable, isLast)
    ensures Text(row + 1, 1, r.description) in RecordOps(r, row, isTable, isLast)
    ensures Border(row + 1, 1, Closing(isLast), Bottom) in RecordOps(r, row, isTable, isLast)
  {
    HeadInRecord(r, row, isTable, isLast, Text(row, 1, r.name));
    HeadInRecord(r, row, isTable, isLast, Text(row + 1, 1, r.description));
    HeadInRecord(r, row, isTable, isLast, Border(row + 1, 1, Closing(isLast), Bottom));
  }

  /** A block higher than two rows has its description cell merged down to its last row. */
  lemma DescriptionMerged(r: DocObject, row: int, isTable: bool, isLast: bool)
    requires Height(r) > 2
    ensures Merge(row + 1, 1, row + Height(r) - 1, 1) in RecordOps(r, row, isTable, isLast)
  {
    HeadInRecord(r, row, isTable, isLast, Merge(row + 1, 1, row + Height(r) - 1, 1));
  }

  /** Field `v` of a record is written on row `row + v`: name, type and
      description in columns 3, 4, 5 in table mode (with the key icon in column 2
      for a primary-key field), and in columns 2, 3, 4 after merging columns 2
      and 3 otherwise. */
  lemma FieldRowCells(r: DocObject, row: int, isTable: bool, isLast: bool, v: nat)
    requires v < |r.columns|
    ensures Text(row + v, 2 + DataOffset(r, isTable), r.columns[v].name) in FieldRow(r, row, isTable, isLast, v)
    ensures Text(row + v, 3 + DataOffset(r, isTable), r.columns[v].typeName) in FieldRow(r, row, isTable, isLast, v)
    ensures Text(row + v, 4 + DataOffset(r, isTable), r.columns[v].description) in FieldRow(r, row, isTable, isLast, v)
    ensures isTable && r.columns[v].isPK ==> Picture(row + v, 2) in FieldRow(r, row, isTable, isLast, v)
    ensures !isTable ==> Merge(row + v, 2, row + v, 3) in FieldRow(r, row, isTable, isLast, v)
  {
  }

  /** The same cells, as part of the record's block. */
  lemma FieldCells(r: DocObject, row: int, isTable: bool, isLast: bool, v: nat)
    requires v < |r.columns|
    ensures Text(row + v, 2 + DataOffset(r, isTable), r.columns[v].name) in RecordOps(r, row, isTable, isLast)
    ensures Text(row + v, 3 + DataOffset(r, isTable), r.columns[v].typeName) in RecordOps(r, row, isTable, isLast)
    ensures Text(row + v, 4 + DataOffset(r, isTable), r.columns[v].description) in RecordOps(r, row, isTable, isLast)
    ensures isTable && r.columns[v].isPK ==> Picture(row + v, 2) in RecordOps(r, row, isTable, isLast)
    ensures !isTable ==> Merge(row + v, 2, row + v, 3) in RecordOps(r, row, isTable, isLast)
  {
    FieldRowCells(r, row, isTable, isLast, v);
    FieldRowInRecord(r, row, isTable, isLast, v);
  }

  /** Every operation of field row `v` belongs to the record's block. */
  lemma FieldRowInRecord(r: DocObject, row: int, isTable: bool, isLast: bool, v: nat)
    requires v < |r.columns|
    ensures forall op :: op in FieldRow(r, row, isTable, isLast, v) ==> op in RecordOps(r, row, isTable, isLast)
  {
    forall op | op in FieldRow(r, row, isTable, isLast, v)
      ensures op in RecordOps(r, row, isTable, isLast)
    {
      FieldInRecord(r, row, isTable, isLast, v, op);
    }
  }

  /** A field row is shaded in column 2 and gets its right edge in column 4 + DataOffset. */
  lemma FieldRowFrame(r: DocObject, row: int, isTable: bool, isLast: bool, v: nat)
    requires v < |r.columns|
    ensures Shade(row + v, 2) in FieldRow(r, row, isTable, isLast, v)
    ensures Border(row + v, 4 + DataOffset(r, isTable), Single, Right) in FieldRow(r, row, isTable, isLast, v)
  {
  }

  /** A padding row is shaded in column 2 and gets its right edge in column 4 + DataOffset. */
  lemma PadRowCells(r: DocObject, row: int, isTable: bool, isLast: bool, i: nat)
    ensures Shade(row + i + |r.columns|, 2) in PadRow(r, row, isTable, isLast, i)
    ensures Border(row + i + |r.columns|, 4 + DataOffset(r, isTable), Single, Right) in PadRow(r, row, isTable, isLast, i)
  {
  }

  lemma FieldRowFormatted(r: DocObject, row: int, isTable: bool, isLast: bool, v: nat, x: int)
    requires v < |r.columns| && x == row + v
    ensures Shade(x, 2) in RecordOps(r, row, isTable, isLast)
    ensures Border(x, 4 + DataOffset(r, isTable), Single, Right) in RecordOps(r, row, isTable, isLast)
  {
    var shade := Shade(x, 2);
    var edge := Border(x, 4 + DataOffset(r, isTable), Single, Right);
    FieldRowFrame(r, row, isTable, isLast, v);
    assert shade == Shade(row + v, 2);
    assert edge == Border(row + v, 4 + DataOffset(r, isTable), Single, Right);
    FieldInRecord(r, row, isTable, isLast, v, shade);
    FieldInRecord(r, row, isTable, isLast, v, edge);
  }

  lemma PadRowFormatted(r: DocObject, row: int, isTable: bool, isLast: bool, i: nat, x: int)
    requires i < PadCount(r) && x == row + i + |r.columns|
    ensures Shade(x, 2) in RecordOps(r, row, isTable, isLast)
    ensures Border(x, 4 + DataOffset(r, isTable), Single, Right) in RecordOps(r, row, isTable, isLast)
  {
    var shade := Shade(x, 2);
    var edge := Border(x, 4 + DataOffset(r, isTable), Single, Right);
    PadRowCells(r, row, isTable, isLast, i);
    assert shade == Shade(row + i + |r.columns|, 2);
    assert edge == Border(row + i + |r.columns|, 4 + DataOffset(r, isTable), Single, Right);
    PadInRecord(r, row, isTable, isLast, i, shade);
    PadInRecord(r, row, isTable, isLast, i, edge);
  }

  /** Every row of a block is shaded in column 2 and gets its right edge in
      column 4 + DataOffset: each block row is a field row or a padding row. */
  lemma BlockRowFormatted(r: DocObject, row: int, isTable: bool, isLast: bool, x: int)
    requires row <= x < row + Height(r)
    ensures Shade(x, 2) in RecordOps(r, row, isTable, isLast)
    ensures Border(x, 4 + DataOffset(r, isTable), Single, Right) in RecordOps(r, row, isTable, isLast)
  {
    if x < row + |r.columns| {
      FieldRowFormatted(r, row, isTable, isLast, x - row, x);
    } else {
      PadRowFormatted(r, row, isTable, isLast, x - row - |r.columns|, x);
    }
  }

  /** Every row of the record area, 3..numRows, is shaded in column 2 by the
      block that holds it. */
  lemma EveryRecordRowShaded(rs: seq<DocObject>, isTable: bool, x: int)
    requires FirstRecordRow <= x <= NumRows(rs)
    ensures Shade(x, 2) in Plan(rs, isTable)
  {
    BlocksSpanTable(rs);
    var k := BlockOf(rs, x, |rs|);
    BlockRowFormatted(rs[k], StartRow(rs, k), isTable, k == |rs| - 1, x);
    RecordInPlan(rs, isTable, k, StartRow(rs, k), Shade(x, 2));
  }

  /** The last field row of a record with two or more fields closes the block. */
  lemma LastFieldCloses(r: DocObject, row: int, isTable: bool, isLast: bool, col: int)
    requires |r.columns| >= 2 && col in {2, 3, 4}
    ensures Border(row + Height(r) - 1, col + DataOffset(r, isTable), Closing(isLast), Bottom)
              in FieldRow(r, row, isTable, isLast, |r.columns| - 1)
  {
  }

  /** The last padding row of a record with fewer than two fields closes the block. */
  lemma LastPadCloses(r: DocObject, row: int, isTable: bool, isLast: bool, col: int)
    requires |r.columns| < 2 && col in {2, 3, 4}
    ensures Border(row + Height(r) - 1, col + DataOffset(r, isTable), Closing(isLast), Bottom)
              in PadRow(r, row, isTable, isLast, PadCount(r) - 1)
  {
  }

  /** The last row of each block is closed by bottom borders of the record's
      style in columns 2, 3 and 4, shifted by DataOffset. */
  lemma BlockClosed(r: DocObject, row: int, isTable: bool, isLast: bool, col: int)
    requires col in {2, 3, 4}
    ensures Border(row + Height(r) - 1, col + DataOffset(r, isTable), Closing(isLast), Bottom)
              in RecordOps(r, row, isTable, isLast)
  {
    var op := Border(row + Height(r) - 1, col + DataOffset(r, isTable), Closing(isLast), Bottom);
    if |r.columns| >= 2 {
      LastFieldCloses(r, row, isTable, isLast, col);
      FieldInRecord(r, row, isTable, isLast, |r.columns| - 1, op);
    } else {
      LastPadCloses(r, row, isTable, isLast, col);
      PadInRecord(r, row, isTable, isLast, PadCount(r) - 1, op);
    }
  }
}
