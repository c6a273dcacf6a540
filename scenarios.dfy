/** A worked run of the pipeline on a small export. */
module Scenarios {
  import opened Results
  import opened Dates
  import Schema
  import opened Records
  import Export

  function March15(): Record { Record("30-1", "Agente A", Some(Date(15, 3, 2024)), "0001", "Factura", Numeric(10000)) }
  function March1(): Record { Record("30-2", "Agente B", Some(Date(1, 3, 2024)), "0002", "Factura", Numeric(25050)) }
  function February28(): Record { Record("30-3", "Agente C", Some(Date(28, 2, 2024)), "0003", "Factura", Numeric(7525)) }

  /** A row whose `Fecha` cell is blank. */
  function Undated(): Record { Record("30-4", "Agente D", None, "0004", "Factura", Numeric(5000)) }

  function Sample(): seq<Record> { [March15(), March1(), February28()] }

  lemma SampleValid()
    ensures DatesReadable(Sample()) && Dated(Sample())
  {
    assert ValidDate(Date(15, 3, 2024)) && ValidDate(Date(1, 3, 2024)) && ValidDate(Date(28, 2, 2024));
    assert Sample()[0].fecha.Some?;
  }

  /** The sort keys of the three rows once cast: their own dates. */
  lemma SampleKeys()
    ensures SortKey(NormaliseRow(March15())) == Some(Date(15, 3, 2024))
    ensures SortKey(NormaliseRow(March1())) == Some(Date(1, 3, 2024))
    ensures SortKey(NormaliseRow(February28())) == Some(Date(28, 2, 2024))
  {
  }

  lemma InsertInFront<T>(x: T, s: seq<T>, key: T -> Option<Date>)
    requires s != [] && SortedBy(s, key) && KeyLe(key(x), key(s[0]))
    ensures InsertBy(x, s, key) == [x] + s
  {
  }

  lemma SortOne<T>(a: T, key: T -> Option<Date>)
    ensures SortBy([a], key) == [a]
  {
    assert [a][..0] == [];
  }

  lemma SortTwoDescending<T>(a: T, b: T, key: T -> Option<Date>)
    requires KeyLe(key(b), key(a))
    ensures SortBy([a, b], key) == [b, a]
  {
    SortOne(a, key);
    assert [a, b][..1] == [a];
    InsertInFront(b, [a], key);
  }

  /** Three elements given latest first come out reversed. */
  lemma SortDescendingThree<T>(a: T, b: T, c: T, key: T -> Option<Date>)
    requires KeyLe(key(b), key(a)) && KeyLe(key(c), key(b))
    ensures SortBy([a, b, c], key) == [c, b, a]
  {
    SortTwoDescending(a, b, key);
    assert [a, b, c][..2] == [a, b];
    InsertInFront(c, [b, a], key);
  }

  lemma SampleSorts()
    ensures DatesReadable(Sample())
    ensures Tabulate(Sample()) == [NormaliseRow(February28()), NormaliseRow(March1()), NormaliseRow(March15())]
  {
    SampleValid();
    SampleKeys();
    var rows := NormaliseRows(Sample());
    assert rows == [rows[0], rows[1], rows[2]];
    SortDescendingThree(rows[0], rows[1], rows[2], SortKey);
  }

  /** A row without a date sorts after a dated one, whatever the input order. */
  lemma BlankDateSortsLast()
    ensures DatesReadable([Undated(), February28()])
    ensures Tabulate([Undated(), February28()]) == [NormaliseRow(February28()), NormaliseRow(Undated())]
  {
    assert ValidDate(Date(28, 2, 2024));
    var rows := NormaliseRows([Undated(), February28()]);
    assert rows == [rows[0], rows[1]];
    assert SortKey(rows[1]) == Some(Date(28, 2, 2024));
    SortTwoDescending(rows[0], rows[1], SortKey);
  }

  /** An export whose only date cell is blank passes every cast and the sort,
      then fails on the period label. */
  lemma AllBlankDatesFail()
    ensures Process(Schema.Removed + Schema.Sources, [Undated()]) == Err(UndatedPeriod)
  {
    var headers := Schema.Removed + Schema.Sources;
    Schema.FullExportNormalises();
    ProcessErrors(headers, [Undated()]);
    ProcessSucceeds(headers, [Undated()]);
    var table := Tabulate([Undated()]);
    TabulateSorts([Undated()]);
    assert table[0].fecha.None?;
  }

  lemma SampleLabelAndTotal(table: seq<Row>)
    requires table == [NormaliseRow(February28()), NormaliseRow(March1()), NormaliseRow(March15())]
    ensures DatesParse(table) && PeriodLabel(table) == Ok("02-2024")
    ensures Total(table) == 42575
  {
    SampleValid();
    assert DateOf(table[0]) == Date(28, 2, 2024);
    assert FormatPeriod(Date(28, 2, 2024)) == "02-2024";
    assert AmountOf(table[0]) == 7525 && AmountOf(table[1]) == 25050 && AmountOf(table[2]) == 10000;
    assert table[..2] == [table[0], table[1]] && table[..2][..1] == [table[0]] && [table[0]][..0] == [];
    assert Total([table[0]]) == 7525;
    assert Total(table[..2]) == 7525 + 25050;
  }

  /** Three rows dated 15/03/2024, 01/03/2024 and 28/02/2024 with amounts
      100.00, 250.50 and 75.25, under the headers of a full export: the table
      comes out as 28/02, 01/03, 15/03, the label is "02-2024" and the total
      425.75. */
  lemma ThreeRowExport()
    ensures var result := Process(Schema.Removed + Schema.Sources, Sample());
      && result.Ok?
      && result.value.table == [NormaliseRow(February28()), NormaliseRow(March1()), NormaliseRow(March15())]
      && result.value.period == "02-2024"
      && result.value.total == 42575
  {
    var headers := Schema.Removed + Schema.Sources;
    Schema.FullExportNormalises();
    SampleSorts();
    ProcessSucceeds(headers, Sample());
    ProcessReport(headers, Sample());
    SampleLabelAndTotal(Tabulate(Sample()));
  }

  lemma FormulaOfThree()
    ensures Export.SumFormula(3) == "=SUM(F5:F8)"
  {
    assert Strings.NatToString(8) == "8";
  }

  /** The sheet of a three-row run totalling 425.75, such as the one above:
      the TOTAL row is row 9 ("=SUM(F5:F8)", zero-based row 8) and the
      formula evaluates to 425.75. */
  lemma ThreeRowSheet(name: string, table: seq<Row>)
    requires |table| == 3 && Total(table) == 42575
    ensures Export.TotalRowIndex(|table|) == 8
    ensures Export.SumFormula(|table|) == "=SUM(F5:F8)"
    ensures Export.EvalSum(Export.SheetCells(name, "02-2024", table), "=SUM(F5:F8)") == Some(42575)
  {
    FormulaOfThree();
    Export.SumEqualsTotal(name, "02-2024", table);
  }
}
