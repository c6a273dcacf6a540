/** The export block: the sheet "Percepciones ARCA" that pandas and xlsxwriter
    fill, modelled as a worksheet object with a cell map, a list of merged
    ranges and a per-column setting, changed call by call as the source does. */
module Export {
  import opened Results
  import opened Strings
  import Dates
  import Schema
  import opened Records

  /** (row, column), zero-based, as xlsxwriter addresses cells. */
  type Pos = (nat, nat)

  datatype Cell = Text(s: string) | Number(cents: int) | Formula(f: string) | Blank

  /** A rectangle of cells from its top-left to its bottom-right corner. */
  datatype Range = Range(firstRow: nat, firstCol: nat, lastRow: nat, lastCol: nat)

  datatype Width = DefaultWidth | Chars(n: nat)

  datatype ColumnFormat = NoFormat | CurrencyFormat | DateFormat

  datatype Column = Column(width: Width, format: ColumnFormat)

  predicate InRange(rg: Range, p: Pos) {
    rg.firstRow <= p.0 <= rg.lastRow && rg.firstCol <= p.1 <= rg.lastCol
  }

  predicate Overlap(a: Range, b: Range) {
    a.firstRow <= b.lastRow && b.firstRow <= a.lastRow && a.firstCol <= b.lastCol && b.firstCol <= a.lastCol
  }

  predicate SingleCell(rg: Range) {
    rg.firstRow == rg.lastRow && rg.firstCol == rg.lastCol
  }

  /** What merge_range writes: the value in the top-left cell and a formatted
      blank in every other cell of the range. */
  function MergedCells(rg: Range, v: Cell): map<Pos, Cell> {
    map r: nat, c: nat | rg.firstRow <= r <= rg.lastRow && rg.firstCol <= c <= rg.lastCol
      :: (r, c) := (if (r, c) == (rg.firstRow, rg.firstCol) then v else Blank)
  }

  // ---- what to_excel writes (app.py line 108) ---------------------------------

  /** `startrow=4`: the header row; the data rows follow it. */
  const HeaderRow: nat := 4

  /** The text columns of a row, in canonical order; None is the NaN of a
      row without a date. */
  function Field(row: Row, col: nat): Option<string>
    requires col < 5
  {
    if col == 0 then Some(row.cuit)
    else if col == 1 then Some(row.razonSocial)
    else if col == 2 then row.fecha
    else if col == 3 then Some(row.nroComprobante)
    else Some(row.comprobante)
  }

  /** A data cell as pandas hands it to xlsxwriter: a NaN date or amount is
      written as the empty `na_rep`, and every cell carries a format, so an
      empty string is stored as a formatted blank. */
  function BodyCell(row: Row, col: nat): Cell
    requires col < 6
  {
    if col == 5 then
      match row.importe
      case Some(c) => Number(c)
      case None => Blank
    else match Field(row, col)
      case None => Blank
      case Some(t) => if t == "" then Blank else Text(t)
  }

  function FrameCell(table: seq<Row>, r: nat, c: nat): Cell
    requires HeaderRow <= r <= HeaderRow + |table| && c < 6
  {
    if r == HeaderRow then Text(Schema.Canonical[c]) else BodyCell(table[r - HeaderRow - 1], c)
  }

  /** df.to_excel(writer, startrow=4, index=False): the canonical header at
      row 4 and table row i at row 5 + i, one cell per canonical column. */
  function FrameCells(table: seq<Row>): map<Pos, Cell> {
    map r: nat, c: nat | HeaderRow <= r <= HeaderRow + |table| && c < 6 :: (r, c) := FrameCell(table, r, c)
  }

  // ---- the rest of the layout (app.py lines 160-188) -------------------------

  function TitleRange(): Range { Range(0, 0, 1, 5) }

  function SubtitleRange(): Range { Range(3, 0, 3, 5) }

  function Subtitle(period: string): string {
    "PERCEPCIONES IVA - " + period
  }

  /** `ultima_fila = len(df) + 5`: the zero-based row right below the last data row. */
  function TotalRowIndex(n: nat): nat {
    n + 5
  }

  function TotalRange(n: nat): Range {
    Range(TotalRowIndex(n), 0, TotalRowIndex(n), 4)
  }

  function SumFormula(n: nat): string {
    "=SUM(F5:F" + NatToString(TotalRowIndex(n)) + ")"
  }

  /** The cells of the finished sheet for taxpayer `name`, label `period` and
      the sorted table: every write of the export block, later writes winning. */
  function SheetCells(name: string, period: string, table: seq<Row>): map<Pos, Cell> {
    var n := |table|;
    FrameCells(table)
    + MergedCells(TitleRange(), Text(Upper(name)))
    + MergedCells(SubtitleRange(), Text(Subtitle(period)))
    + MergedCells(TotalRange(n), Text("TOTAL"))
    + map[(TotalRowIndex(n), 5) := Formula(SumFormula(n))]
  }

  // ---- column widths (app.py lines 168-176) -----------------------------------

  /** Python's str() of an int holding `cents / 100` (cents a whole multiple
      of 100): "123456", "-5". */
  function IntegerText(cents: int): string {
    var a: nat := if cents < 0 then -cents else cents;
    (if cents < 0 then "-" else "") + NatToString(a / 100)
  }

  /** Python's str() of a float holding `cents` hundredths (repr of a value
      with at most two decimals): "100.0", "250.5", "-0.75". */
  function FloatText(cents: int): string {
    var a: nat := if cents < 0 then -cents else cents;
    var f := a % 100;
    IntegerText(cents) + "." + (if f % 10 == 0 then [DigitChar(f / 10)] else PadDigits(f, 2))
  }

  /** A whole amount written from an int column is the float text without its
      ".0": two characters shorter. */
  lemma WholeAmountText(cents: int)
    requires cents % 100 == 0
    ensures FloatText(cents) == IntegerText(cents) + ".0"
    ensures |FloatText(cents)| == |IntegerText(cents)| + 2
  {
  }

  /** Whether the `Importe` column holds int64 after line 55: the reader gives
      whole numbers as ints, and to_numeric and round(2) keep that type unless
      a value is fractional or NaN. */
  predicate WholeAmounts(table: seq<Row>) {
    forall i :: 0 <= i < |table| ==> table[i].importe.Some? && table[i].importe.value % 100 == 0
  }

  /** df[col].astype(str) on one cell: "nan" for a missing date or amount,
      and an amount written as an int or a float by the column's type `whole`. */
  function CellText(row: Row, col: nat, whole: bool): string
    requires col < 6
  {
    if col < 5 then
      match Field(row, col)
      case Some(t) => t
      case None => "nan"
    else match row.importe
      case Some(c) => if whole then IntegerText(c) else FloatText(c)
      case None => "nan"
  }

  /** df[col].astype(str).apply(len).max(), taken as 0 on an empty table. */
  function MaxTextLen(table: seq<Row>, col: nat, whole: bool): nat
    requires col < 6
  {
    if table == [] then 0
    else
      var rest := MaxTextLen(table[1..], col, whole);
      var here := |CellText(table[0], col, whole)|;
      if here >= rest then here else rest
  }

  /** MaxTextLen is the length of a longest cell text of the column. */
  lemma {:induction false} MaxTextLenIsMax(table: seq<Row>, col: nat, whole: bool)
    requires col < 6
    ensures forall i :: 0 <= i < |table| ==> |CellText(table[i], col, whole)| <= MaxTextLen(table, col, whole)
    ensures table != [] ==> exists i :: 0 <= i < |table| && |CellText(table[i], col, whole)| == MaxTextLen(table, col, whole)
    ensures table == [] ==> MaxTextLen(table, col, whole) == 0
  {
    if table != [] {
      MaxTextLenIsMax(table[1..], col, whole);
      assert forall i :: 1 <= i < |table| ==> table[i] == table[1..][i - 1];
      if |CellText(table[0], col, whole)| < MaxTextLen(table[1..], col, whole) {
        var j :| 0 <= j < |table[1..]| && |CellText(table[1..][j], col, whole)| == MaxTextLen(table[1..], col, whole);
        assert table[j + 1] == table[1..][j];
      }
    }
  }

  /** `max(longest cell text, len(header)) + 2`: the narrowest width that
      leaves two characters beside the header and beside every cell text. */
  function AutoWidth(table: seq<Row>, col: nat): nat
    requires col < 6
  {
    var longest := MaxTextLen(table, col, WholeAmounts(table));
    var header := |Schema.Canonical[col]|;
    (if longest >= header then longest else header) + 2
  }

  /** The fitted width leaves two characters beside the header and beside
      every cell text of the column, and is the narrowest such width. */
  lemma AutoWidthFits(table: seq<Row>, col: nat)
    requires col < 6
    ensures var whole := WholeAmounts(table);
      && AutoWidth(table, col) >= |Schema.Canonical[col]| + 2
      && (forall i :: 0 <= i < |table| ==> AutoWidth(table, col) >= |CellText(table[i], col, whole)| + 2)
      && (AutoWidth(table, col) == |Schema.Canonical[col]| + 2
          || exists i :: 0 <= i < |table| && AutoWidth(table, col) == |CellText(table[i], col, whole)| + 2)
  {
    MaxTextLenIsMax(table, col, WholeAmounts(table));
  }

  const Unformatted: seq<ColumnFormat> := [NoFormat, NoFormat, NoFormat, NoFormat, NoFormat, NoFormat]

  /** The formats the block means to give: dates in column C, currency in F. */
  const ColumnFormats: seq<ColumnFormat> := [NoFormat, NoFormat, DateFormat, NoFormat, NoFormat, CurrencyFormat]

  /** The settings of columns 0 .. k-1 after set_column(i, i, AutoWidth, formats[i]). */
  function FittedColumns(table: seq<Row>, formats: seq<ColumnFormat>, k: nat): (m: map<nat, Column>)
    requires k <= 6 && |formats| == 6
    ensures forall c: nat :: c in m <==> c < k
  {
    if k == 0 then map[]
    else FittedColumns(table, formats, k - 1)[k - 1 := Column(Chars(AutoWidth(table, k - 1)), formats[k - 1])]
  }

  /** The column settings the block leaves as written: fitted widths, then the
      width of columns F and C replaced by the default with `width=None`. */
  function ColumnsAsWritten(table: seq<Row>): map<nat, Column> {
    FittedColumns(table, Unformatted, 6)[5 := Column(DefaultWidth, CurrencyFormat)][2 := Column(DefaultWidth, DateFormat)]
  }

  /** The column settings of the corrected layout: fitted width and format together. */
  function ColumnsFitted(table: seq<Row>): map<nat, Column> {
    FittedColumns(table, ColumnFormats, 6)
  }

  /** xlsxwriter's default column width, in hundredths of a character. */
  const DefaultWidthHundredths: nat := 843

  /** Whether a column of width `w` shows `len` characters. */
  predicate Shows(w: Width, len: nat) {
    match w
    case DefaultWidth => 100 * len <= DefaultWidthHundredths
    case Chars(n) => len <= n
  }

  // ---- the worksheet --------------------------------------------------------

  /** The part of an xlsxwriter worksheet the export block changes. */
  class Worksheet {
    var cells: map<Pos, Cell>
    var merges: seq<Range>
    var columns: map<nat, Column>

    constructor ()
      ensures cells == map[] && merges == [] && columns == map[]
    {
      cells, merges, columns := map[], [], map[];
    }

    /** df.to_excel(writer, startrow=4, index=False) on this sheet. */
    method WriteFrame(table: seq<Row>)
      modifies this
      ensures cells == old(cells) + FrameCells(table)
      ensures merges == old(merges) && columns == old(columns)
    {
      cells := cells + FrameCells(table);
    }

    /** merge_range: raises (ok is false, nothing changes) for a single cell
        or for a range that overlaps an earlier merge. */
    method MergeRange(rg: Range, v: Cell) returns (ok: bool)
      requires rg.firstRow <= rg.lastRow && rg.firstCol <= rg.lastCol
      modifies this
      ensures ok <==> !SingleCell(rg) && forall m :: m in old(merges) ==> !Overlap(m, rg)
      ensures ok ==> cells == old(cells) + MergedCells(rg, v) && merges == old(merges) + [rg]
      ensures !ok ==> cells == old(cells) && merges == old(merges)
      ensures columns == old(columns)
    {
      ok := !SingleCell(rg) && forall m | m in merges :: !Overlap(m, rg);
      if ok {
        cells := cells + MergedCells(rg, v);
        merges := merges + [rg];
      }
    }

    /** set_column(col, col, width, format): replaces the column's whole setting. */
    method SetColumn(col: nat, width: Width, format: ColumnFormat)
      modifies this
      ensures columns == old(columns)[col := Column(width, format)]
      ensures cells == old(cells) && merges == old(merges)
    {
      columns := columns[col := Column(width, format)];
    }

    method WriteFormula(row: nat, col: nat, formula: string)
      modifies this
      ensures cells == old(cells)[(row, col) := Formula(formula)]
      ensures merges == old(merges) && columns == old(columns)
    {
      cells := cells[(row, col) := Formula(formula)];
    }
  }

  /** Lines 108-110 and 160-165: the table, then the title over rows 0-1 and
      the subtitle over row 3, both across the six columns. */
  method WriteHeading(sheet: Worksheet, name: string, period: string, table: seq<Row>)
    requires sheet.merges == []
    modifies sheet
    ensures sheet.cells == old(sheet.cells) + FrameCells(table)
                           + MergedCells(TitleRange(), Text(Upper(name)))
                           + MergedCells(SubtitleRange(), Text(Subtitle(period)))
    ensures sheet.merges == [TitleRange(), SubtitleRange()]
    ensures sheet.columns == old(sheet.columns)
  {
    sheet.WriteFrame(table);
    var ok := sheet.MergeRange(TitleRange(), Text(Upper(name)));
    assert ok;
    ok := sheet.MergeRange(SubtitleRange(), Text(Subtitle(period)));
    assert ok;
  }

  /** Lines 168-170: for each column, set_column(i, i, AutoWidth), here with
      the format `formats[i]` given in the same call. */
  method FitColumns(sheet: Worksheet, table: seq<Row>, formats: seq<ColumnFormat>)
    requires |formats| == 6
    modifies sheet
    ensures sheet.columns == old(sheet.columns) + FittedColumns(table, formats, 6)
    ensures sheet.cells == old(sheet.cells) && sheet.merges == old(sheet.merges)
  {
    for i := 0 to 6
      invariant sheet.columns == old(sheet.columns) + FittedColumns(table, formats, i)
      invariant sheet.cells == old(sheet.cells) && sheet.merges == old(sheet.merges)
    {
      var width := AutoWidth(table, i);
      sheet.SetColumn(i, Chars(width), formats[i]);
    }
  }

  /** Lines 173 and 176 as written: set_column with `width=None` and a format. */
  method FormatColumnsAsWritten(sheet: Worksheet)
    modifies sheet
    ensures sheet.columns == old(sheet.columns)[5 := Column(DefaultWidth, CurrencyFormat)][2 := Column(DefaultWidth, DateFormat)]
    ensures sheet.cells == old(sheet.cells) && sheet.merges == old(sheet.merges)
  {
    sheet.SetColumn(5, DefaultWidth, CurrencyFormat);
    sheet.SetColumn(2, DefaultWidth, DateFormat);
  }

  /** Lines 179-188: "TOTAL" merged over columns A-E of row n + 5 and the SUM
      formula in column F of that row. */
  method WriteTotal(sheet: Worksheet, n: nat)
    requires forall m :: m in sheet.merges ==> m.lastRow < TotalRowIndex(n)
    modifies sheet
    ensures sheet.cells == old(sheet.cells) + MergedCells(TotalRange(n), Text("TOTAL"))
                           + map[(TotalRowIndex(n), 5) := Formula(SumFormula(n))]
    ensures sheet.merges == old(sheet.merges) + [TotalRange(n)]
    ensures sheet.columns == old(sheet.columns)
  {
    var last := TotalRowIndex(n);
    var ok := sheet.MergeRange(TotalRange(n), Text("TOTAL"));
    assert ok;
    sheet.WriteFormula(last, 5, SumFormula(n));
  }

  lemma EmptyUnion<K, V>(m: map<K, V>)
    ensures map[] + m == m
  {
  }

  /** The export block exactly as written, width resets included. */
  method ExportSheetAsWritten(name: string, period: string, table: seq<Row>) returns (sheet: Worksheet)
    ensures fresh(sheet)
    ensures sheet.cells == SheetCells(name, period, table)
    ensures sheet.merges == [TitleRange(), SubtitleRange(), TotalRange(|table|)]
    ensures sheet.columns == ColumnsAsWritten(table)
  {
    sheet := new Worksheet();
    WriteHeading(sheet, name, period, table);
    FitColumns(sheet, table, Unformatted);
    FormatColumnsAsWritten(sheet);
    WriteTotal(sheet, |table|);
    EmptyUnion(FrameCells(table));
    EmptyUnion(FittedColumns(table, Unformatted, 6));
  }

  /** The export block with the formats set together with the fitted widths. */
  method ExportSheet(name: string, period: string, table: seq<Row>) returns (sheet: Worksheet)
    ensures fresh(sheet)
    ensures sheet.cells == SheetCells(name, period, table)
    ensures sheet.merges == [TitleRange(), SubtitleRange(), TotalRange(|table|)]
    ensures sheet.columns == ColumnsFitted(table)
  {
    sheet := new Worksheet();
    WriteHeading(sheet, name, period, table);
    FitColumns(sheet, table, ColumnFormats);
    WriteTotal(sheet, |table|);
    EmptyUnion(FrameCells(table));
    EmptyUnion(ColumnsFitted(table));
  }

  // ---- reading the SUM formula back (line 187) ------------------------------

  /** An A1 reference such as "F5": a column letter and the one-based row. */
  function CellRef(p: Pos): string
    requires p.1 < 26
  {
    [ColumnLetter(p.1)] + NatToString(p.0 + 1)
  }

  /** The letter naming column `c`: A for 0, B for 1, ... */
  function ColumnLetter(c: nat): (l: char)
    requires c < 26
    ensures 'A' <= l <= 'Z' && l as int - 'A' as int == c
  {
    ('A' as int + c) as char
  }

  function ParseCellRef(s: string): Option<Pos> {
    if |s| < 2 then None else ParseColumnRow(s[0], s[1..])
  }

  /** A column letter and a row number without leading zeros. */
  function ParseColumnRow(letter: char, digits: string): Option<Pos> {
    if !('A' <= letter <= 'Z') || digits == [] || !AllDigits(digits) || digits[0] == '0' then None
    else
      ParseNatPositive(digits);
      Some((ParseNat(digits) - 1, letter as int - 'A' as int))
  }

  /** A reference that parses is exactly how CellRef writes that cell. */
  lemma ParsedCellRef(s: string)
    requires ParseCellRef(s).Some?
    ensures ParseCellRef(s).value.1 < 26 && CellRef(ParseCellRef(s).value) == s
  {
    NatToStringParse(s[1..]);
    assert CellRef(ParseCellRef(s).value) == [s[0]] + s[1..];
  }

  /** The corner references of `<ref>:<ref>`. */
  function ParseRange(body: string): Option<(Pos, Pos)> {
    match IndexOf(body, ':')
    case None => None
    case Some(k) =>
      match (ParseCellRef(body[..k]), ParseCellRef(body[k + 1..]))
      case (Some(a), Some(b)) => Some((a, b))
      case _ => None
  }

  /** The corner references of `=SUM(<ref>:<ref>)`. */
  function ParseSum(f: string): Option<(Pos, Pos)> {
    if |f| < 6 || f[..5] != "=SUM(" || f[|f| - 1] != ')' then None
    else ParseRange(f[5..|f| - 1])
  }

  /** What SUM adds for one cell: a number counts, text, formulas and blanks do not. */
  function NumberAt(cells: map<Pos, Cell>, p: Pos): int {
    if p in cells && cells[p].Number? then cells[p].cents else 0
  }

  /** SUM over `count` cells of column `col` from row `first` down. */
  function SumColumn(cells: map<Pos, Cell>, col: nat, first: nat, count: nat): int {
    if count == 0 then 0
    else SumColumn(cells, col, first, count - 1) + NumberAt(cells, (first + count - 1, col))
  }

  /** The value a spreadsheet gives `=SUM(X:Y)` over one column, top to bottom. */
  function EvalSum(cells: map<Pos, Cell>, f: string): Option<int> {
    match ParseSum(f)
    case None => None
    case Some((a, b)) =>
      if a.1 == b.1 && a.0 <= b.0 then Some(SumColumn(cells, a.1, a.0, b.0 - a.0 + 1)) else None
  }

  lemma NoColonInDigits(digits: string)
    requires AllDigits(digits)
    ensures ':' !in digits
  {
  }

  lemma ColumnRowParses(letter: char, digits: string)
    requires 'A' <= letter <= 'Z' && digits != [] && AllDigits(digits) && digits[0] != '0'
    ensures ParseNat(digits) >= 1
    ensures ParseCellRef([letter] + digits) == Some((ParseNat(digits) - 1, letter as int - 'A' as int))
    ensures ':' !in [letter] + digits
  {
    ParseNatPositive(digits);
    NoColonInDigits(digits);
    var s := [letter] + digits;
    assert s[0] == letter && s[1..] == digits;
  }

  lemma CellRefParses(letter: char, n: nat)
    requires 'A' <= letter <= 'Z' && n >= 1
    ensures ParseCellRef([letter] + NatToString(n)) == Some((n - 1, letter as int - 'A' as int))
    ensures ':' !in [letter] + NatToString(n)
  {
    ParseNatToString(n);
    NatToStringLead(n);
    ColumnRowParses(letter, NatToString(n));
  }

  /** Reading a reference back gives the cell it was written for. */
  lemma ParseCellRefOf(p: Pos)
    requires p.1 < 26
    ensures ParseCellRef(CellRef(p)) == Some(p)
    ensures ':' !in CellRef(p)
  {
    CellRefParses(ColumnLetter(p.1), p.0 + 1);
  }

  lemma IndexOfSeparator(u: string, c: char, v: string)
    requires c !in u
    ensures IndexOf(u + [c] + v, c) == Some(|u|)
  {
    var s := u + [c] + v;
    assert s[|u|] == c;
    assert s[..|u|] == u;
  }

  lemma ParseRangeOf(x: string, y: string)
    requires ':' !in x
    ensures ParseRange(x + [':'] + y) == match (ParseCellRef(x), ParseCellRef(y))
      case (Some(a), Some(b)) => Some((a, b))
      case _ => None
  {
    var body := x + [':'] + y;
    IndexOfSeparator(x, ':', y);
    assert body[..|x|] == x;
    assert body[|x| + 1..] == y;
  }

  lemma ParseSumOf(x: string, y: string)
    ensures ParseSum("=SUM(" + x + ":" + y + ")") == ParseRange(x + [':'] + y)
  {
    var f := "=SUM(" + x + ":" + y + ")";
    assert f[..5] == "=SUM(";
    assert f[5..|f| - 1] == x + [':'] + y;
  }

  /** The formula of line 187 names the column of amounts from the header row
      (row 4, "F5") down to the last data row, the row right above it. */
  lemma SumFormulaRange(n: nat)
    ensures ParseSum(SumFormula(n)) == Some(((HeaderRow, 5), (HeaderRow + n, 5)))
    ensures HeaderRow + n + 1 == TotalRowIndex(n)
  {
    assert NatToString(5) == "5";
    assert CellRef((HeaderRow, 5)) == "F5";
    var first, last := CellRef((HeaderRow, 5)), CellRef((HeaderRow + n, 5));
    assert SumFormula(n) == "=SUM(" + first + ":" + last + ")";
    ParseSumOf(first, last);
    ParseCellRefOf((HeaderRow, 5));
    ParseCellRefOf((HeaderRow + n, 5));
    ParseRangeOf(first, last);
  }

  // ---- what lands where -----------------------------------------------------

  lemma MergedCellsAt(rg: Range, v: Cell, p: Pos)
    ensures p in MergedCells(rg, v) <==> InRange(rg, p)
    ensures p in MergedCells(rg, v) ==> MergedCells(rg, v)[p] == (if p == (rg.firstRow, rg.firstCol) then v else Blank)
  {
    if InRange(rg, p) {
      assert p == (p.0, p.1);
    }
  }

  lemma FrameCellsAt(table: seq<Row>, p: Pos)
    ensures p in FrameCells(table) <==> HeaderRow <= p.0 <= HeaderRow + |table| && p.1 < 6
    ensures p in FrameCells(table) ==> FrameCells(table)[p] == FrameCell(table, p.0, p.1)
  {
    if HeaderRow <= p.0 <= HeaderRow + |table| && p.1 < 6 {
      assert p == (p.0, p.1);
    }
  }

  /** The header and data frame that to_excel writes survives every later
      write: no merge and no formula touches zero-based rows 4 .. n + 4. */
  lemma SheetFrame(name: string, period: string, table: seq<Row>, p: Pos)
    requires HeaderRow <= p.0 <= HeaderRow + |table|
    ensures p in SheetCells(name, period, table) <==> p.1 < 6
    ensures p in SheetCells(name, period, table) ==> SheetCells(name, period, table)[p] == FrameCell(table, p.0, p.1)
  {
    var n := |table|;
    var title := MergedCells(TitleRange(), Text(Upper(name)));
    var sub := MergedCells(SubtitleRange(), Text(Subtitle(period)));
    var total := MergedCells(TotalRange(n), Text("TOTAL"));
    var formula := map[(TotalRowIndex(n), 5) := Formula(SumFormula(n))];
    FrameCellsAt(table, p);
    MergedCellsAt(TitleRange(), Text(Upper(name)), p);
    MergedCellsAt(SubtitleRange(), Text(Subtitle(period)), p);
    MergedCellsAt(TotalRange(n), Text("TOTAL"), p);
    assert p !in title && p !in sub && p !in total && p !in formula;
    if p in FrameCells(table) {
      assert SheetCells(name, period, table)[p] == FrameCells(table)[p];
    }
  }

  /** Above the frame: the upper-cased name over zero-based rows 0-1, row 2
      empty, the subtitle with the period label over row 3, each across
      columns A-F. */
  lemma SheetHeading(name: string, period: string, table: seq<Row>, p: Pos)
    requires p.0 < HeaderRow
    ensures p in SheetCells(name, period, table) <==> p.1 < 6 && p.0 != 2
    ensures p == (0, 0) ==> SheetCells(name, period, table)[p] == Text(Upper(name))
    ensures p == (3, 0) ==> SheetCells(name, period, table)[p] == Text(Subtitle(period))
    ensures p in SheetCells(name, period, table) && p != (0, 0) && p != (3, 0) ==> SheetCells(name, period, table)[p] == Blank
  {
    var n := |table|;
    var title := MergedCells(TitleRange(), Text(Upper(name)));
    var sub := MergedCells(SubtitleRange(), Text(Subtitle(period)));
    var total := MergedCells(TotalRange(n), Text("TOTAL"));
    var formula := map[(TotalRowIndex(n), 5) := Formula(SumFormula(n))];
    var below := title + sub;
    FrameCellsAt(table, p);
    MergedCellsAt(TitleRange(), Text(Upper(name)), p);
    MergedCellsAt(SubtitleRange(), Text(Subtitle(period)), p);
    MergedCellsAt(TotalRange(n), Text("TOTAL"), p);
    assert p !in FrameCells(table) && p !in total && p !in formula;
    if p in below {
      assert SheetCells(name, period, table)[p] == below[p];
    }
  }

  /** Below the frame: "TOTAL" merged over columns A-E of zero-based row
      n + 5, the SUM formula in column F of that row, and nothing further
      down. */
  lemma SheetTotalRow(name: string, period: string, table: seq<Row>, p: Pos)
    requires p.0 > HeaderRow + |table|
    ensures p in SheetCells(name, period, table) <==> p.0 == TotalRowIndex(|table|) && p.1 < 6
    ensures p in SheetCells(name, period, table) ==>
              SheetCells(name, period, table)[p]
              == if p.1 == 0 then Text("TOTAL") else if p.1 == 5 then Formula(SumFormula(|table|)) else Blank
  {
    var n := |table|;
    var title := MergedCells(TitleRange(), Text(Upper(name)));
    var sub := MergedCells(SubtitleRange(), Text(Subtitle(period)));
    var total := MergedCells(TotalRange(n), Text("TOTAL"));
    var formula := map[(TotalRowIndex(n), 5) := Formula(SumFormula(n))];
    var row := total + formula;
    FrameCellsAt(table, p);
    MergedCellsAt(TitleRange(), Text(Upper(name)), p);
    MergedCellsAt(SubtitleRange(), Text(Subtitle(period)), p);
    MergedCellsAt(TotalRange(n), Text("TOTAL"), p);
    assert p !in FrameCells(table) && p !in title && p !in sub;
    if p == (TotalRowIndex(n), 5) {
      assert p in formula && SheetCells(name, period, table)[p] == formula[p];
    } else {
      assert p !in formula;
      if p in total {
        assert SheetCells(name, period, table)[p] == total[p];
      }
    }
  }

  /** SUM down column F over the header and the first k data rows. */
  lemma {:induction false} SumColumnIsTotal(cells: map<Pos, Cell>, table: seq<Row>, k: nat)
    requires k <= |table|
    requires NumberAt(cells, (HeaderRow, 5)) == 0
    requires forall i :: 0 <= i < |table| ==> NumberAt(cells, (HeaderRow + 1 + i, 5)) == AmountOf(table[i])
    ensures SumColumn(cells, 5, HeaderRow, k + 1) == Total(table[..k])
  {
    if k > 0 {
      SumColumnIsTotal(cells, table, k - 1);
      assert table[..k][..k - 1] == table[..k - 1];
      assert NumberAt(cells, (HeaderRow + k, 5)) == AmountOf(table[k - 1]);
    }
  }

  /** Column F of the frame: the header text, then each row's amount or a
      blank where the amount is missing. */
  lemma FrameAmounts(name: string, period: string, table: seq<Row>)
    ensures NumberAt(SheetCells(name, period, table), (HeaderRow, 5)) == 0
    ensures forall i :: 0 <= i < |table| ==> NumberAt(SheetCells(name, period, table), (HeaderRow + 1 + i, 5)) == AmountOf(table[i])
  {
    SheetFrame(name, period, table, (HeaderRow, 5));
    forall i | 0 <= i < |table|
      ensures NumberAt(SheetCells(name, period, table), (HeaderRow + 1 + i, 5)) == AmountOf(table[i])
    {
      FrameAmountAt(name, period, table, i);
    }
  }

  lemma FrameAmountAt(name: string, period: string, table: seq<Row>, i: nat)
    requires i < |table|
    ensures NumberAt(SheetCells(name, period, table), (HeaderRow + 1 + i, 5)) == AmountOf(table[i])
  {
    var p: Pos := (HeaderRow + 1 + i, 5);
    SheetFrame(name, period, table, p);
    assert FrameCell(table, p.0, p.1) == BodyCell(table[i], 5);
  }

  /** The SUM formula of the TOTAL row evaluates to the report's total: the
      header text in F5 adds nothing and neither does the blank of a missing
      amount. */
  lemma SumEqualsTotal(name: string, period: string, table: seq<Row>)
    ensures EvalSum(SheetCells(name, period, table), SumFormula(|table|)) == Some(Total(table))
  {
    var cells := SheetCells(name, period, table);
    SumFormulaRange(|table|);
    FrameAmounts(name, period, table);
    SumColumnIsTotal(cells, table, |table|);
    assert table[..|table|] == table;
  }

  // ---- column widths: as written and corrected ------------------------------

  lemma {:induction false} FittedColumnsAt(table: seq<Row>, formats: seq<ColumnFormat>, k: nat, c: nat)
    requires c < k <= 6 && |formats| == 6
    ensures c in FittedColumns(table, formats, k)
    ensures FittedColumns(table, formats, k)[c] == Column(Chars(AutoWidth(table, c)), formats[c])
  {
    if c < k - 1 {
      FittedColumnsAt(table, formats, k - 1, c);
    }
  }

  /** The first row of a successful run's table is dated, and every dated
      row carries its date as DD/MM/YYYY text. */
  lemma ProcessDateTexts(headers: seq<string>, records: seq<Record>)
    requires Process(headers, records).Ok?
    ensures var table := Process(headers, records).value.table;
      && table != [] && table[0].fecha.Some?
      && forall i :: 0 <= i < |table| && table[i].fecha.Some? ==> |CellText(table[i], 2, WholeAmounts(table))| == 10
  {
    ProcessReport(headers, records);
    var table := Process(headers, records).value.table;
    forall i | 0 <= i < |table| && table[i].fecha.Some?
      ensures |CellText(table[i], 2, WholeAmounts(table))| == 10
    {
      assert SortKey(table[i]).Some?;
    }
  }

  /** As written, lines 173 and 176 replace the fitted widths of columns C
      and F by the default width; the other four keep theirs, unformatted. */
  lemma AsWrittenColumns(table: seq<Row>, c: nat)
    requires c < 6
    ensures c in ColumnsAsWritten(table)
    ensures c == 2 ==> ColumnsAsWritten(table)[c] == Column(DefaultWidth, DateFormat)
    ensures c == 5 ==> ColumnsAsWritten(table)[c] == Column(DefaultWidth, CurrencyFormat)
    ensures c != 2 && c != 5 ==> ColumnsAsWritten(table)[c] == Column(Chars(AutoWidth(table, c)), NoFormat)
  {
    FittedColumnsAt(table, Unformatted, 6, c);
  }

  /** No date of a successful run fits the date column as written, and there
      is at least one. */
  lemma AsWrittenHidesDates(headers: seq<string>, records: seq<Record>)
    requires Process(headers, records).Ok?
    ensures var table := Process(headers, records).value.table;
      && table != [] && table[0].fecha.Some? && 2 in ColumnsAsWritten(table)
      && forall i :: 0 <= i < |table| && table[i].fecha.Some? ==>
           !Shows(ColumnsAsWritten(table)[2].width, |CellText(table[i], 2, WholeAmounts(table))|)
  {
    var table := Process(headers, records).value.table;
    ProcessReport(headers, records);
    ProcessDateTexts(headers, records);
    AsWrittenColumns(table, 2);
  }

  /** With the formats passed in the same call, every column keeps its fitted
      width: the narrowest one that shows the header and every cell text with
      two characters to spare, and it carries the format meant for it. */
  lemma FittedColumnsShowAll(table: seq<Row>, c: nat)
    requires c < 6
    ensures c in ColumnsFitted(table) && ColumnsFitted(table)[c].format == ColumnFormats[c]
    ensures Shows(ColumnsFitted(table)[c].width, |Schema.Canonical[c]| + 2)
    ensures var whole := WholeAmounts(table);
      forall i :: 0 <= i < |table| ==> Shows(ColumnsFitted(table)[c].width, |CellText(table[i], c, whole)| + 2)
    ensures var whole := WholeAmounts(table);
      exists w: nat :: ColumnsFitted(table)[c].width == Chars(w)
        && (w == |Schema.Canonical[c]| + 2 || exists i :: 0 <= i < |table| && w == |CellText(table[i], c, whole)| + 2)
  {
    FittedColumnsAt(table, ColumnFormats, 6, c);
    AutoWidthFits(table, c);
  }

  // ---- the whole run --------------------------------------------------------

  /** What the page ends with: a request for the taxpayer's name, the error
      message of a failed run, or the preview and the workbook to download. */
  datatype Outcome = AskForName | Failed(error: Error) | Exported(report: Report)

  /** Lines 20-212 for one uploaded export: nothing without a name; otherwise
      the pipeline, and on success the worksheet, laid out as corrected. */
  method Run(name: string, headers: seq<string>, records: seq<Record>) returns (outcome: Outcome, sheet: Worksheet?)
    ensures name == "" ==> outcome == AskForName && sheet == null
    ensures name != "" && Process(headers, records).Err? ==>
              outcome == Failed(Process(headers, records).error) && sheet == null
    ensures name != "" && Process(headers, records).Ok? ==>
              && outcome == Exported(Process(headers, records).value)
              && sheet != null && fresh(sheet)
              && sheet.cells == SheetCells(name, outcome.report.period, outcome.report.table)
              && sheet.merges == [TitleRange(), SubtitleRange(), TotalRange(|outcome.report.table|)]
              && sheet.columns == ColumnsFitted(outcome.report.table)
  {
    if name == "" {
      return AskForName, null;
    }
    match Process(headers, records)
    case Err(e) =>
      outcome, sheet := Failed(e), null;
    case Ok(report) =>
      var s := ExportSheet(name, report.period, report.table);
      outcome, sheet := Exported(report), s;
  }

  /** The SUM in the workbook and the TOTAL row of the on-screen preview give
      the same figure, the sum of the amounts as read. */
  lemma SheetTotalMatchesPreview(name: string, headers: seq<string>, records: seq<Record>)
    requires Process(headers, records).Ok?
    ensures var report := Process(headers, records).value;
      && EvalSum(SheetCells(name, report.period, report.table), SumFormula(|report.table|))
         == Some(Total(NormaliseRows(records)))
      && report.preview[|report.table|].importe == Some(Total(NormaliseRows(records)))
  {
    var report := Process(headers, records).value;
    ProcessReport(headers, records);
    ProcessTotal(headers, records);
    SumEqualsTotal(name, report.period, report.table);
  }
}
