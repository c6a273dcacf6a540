/** The record pipeline inside the `try` block: cast and format the columns,
    sort by the re-parsed date, take the period label from the first row, sum
    the amounts and append the TOTAL row for the on-screen preview. */
module Records {
  import opened Results
  import opened Strings
  import opened Dates
  import Schema

  /** An `Importe` cell as read, before `pd.to_numeric(errors="coerce")`:
      a number (already rounded to cents) or anything pandas cannot read as one. */
  datatype RawAmount = Numeric(cents: int) | NonNumeric

  /** One input row, restricted to the six columns the pipeline keeps; `fecha`
      is the day/month/year the spreadsheet reader produced, or None for a
      blank cell. */
  datatype Record = Record(cuit: string, razonSocial: string, fecha: Option<Date>,
                           nroComprobante: string, comprobante: string, importe: RawAmount)

  /** One row of the normalised table: `fecha` holds the `DD/MM/YYYY` text, or
      None for the NaN that strftime gives a NaT, and `importe` the cents, or
      None for NaN. */
  datatype Row = Row(cuit: string, razonSocial: string, fecha: Option<string>,
                     nroComprobante: string, comprobante: string, importe: Option<int>)

  /** The exceptions the pipeline can raise, in the order it can raise them. */
  datatype Error =
    | MissingColumn(column: string)       // KeyError from df[label]
    | InvalidDate(date: Date)              // pd.to_datetime rejects a date
    | EmptyTable                           // IndexError from iloc[0]
    | UndatedPeriod                        // ValueError from NaT.strftime
    | MissingColumns(columns: seq<string>)  // KeyError from df[Canonical]

  /** What the pipeline hands to the preview and to the export. */
  datatype Report = Report(table: seq<Row>, period: string, total: int, preview: seq<Row>)

  /** pd.to_datetime accepts a cell: a blank one (it becomes NaT) or a real date. */
  predicate ReadableDate(f: Option<Date>) {
    f.None? || ValidDate(f.value)
  }

  predicate DatesReadable(records: seq<Record>) {
    forall i :: 0 <= i < |records| ==> ReadableDate(records[i].fecha)
  }

  /** Some row carries a date. */
  predicate Dated(records: seq<Record>) {
    exists i :: 0 <= i < |records| && records[i].fecha.Some?
  }

  /** pd.to_numeric(errors="coerce"): unreadable amounts become NaN, not an error. */
  function ToNumeric(a: RawAmount): (r: Option<int>)
    ensures r.Some? <==> a.Numeric?
    ensures a.Numeric? ==> r.value == a.cents
  {
    match a
    case Numeric(c) => Some(c)
    case NonNumeric => None
  }

  /** The casts of lines 53-58 applied to one row: its sort key is the date
      it was read with, NaT for a blank one. */
  function NormaliseRow(r: Record): (row: Row)
    requires ReadableDate(r.fecha)
    ensures row.cuit == r.cuit && row.razonSocial == r.razonSocial
    ensures row.nroComprobante == r.nroComprobante && row.comprobante == r.comprobante
    ensures row.importe == ToNumeric(r.importe)
    ensures SortKey(row) == r.fecha
  {
    var fecha := if r.fecha.Some? then Some(FormatDate(r.fecha.value)) else None;
    assert r.fecha.Some? ==> ParseDate(fecha.value) == r.fecha by {
      if r.fecha.Some? { ParseFormatDate(r.fecha.value); }
    }
    Row(r.cuit, r.razonSocial, fecha, r.nroComprobante, r.comprobante, ToNumeric(r.importe))
  }

  function NormaliseRows(records: seq<Record>): (rows: seq<Row>)
    requires DatesReadable(records)
    ensures |rows| == |records|
    ensures forall i :: 0 <= i < |rows| ==> rows[i] == NormaliseRow(records[i])
    ensures forall i :: 0 <= i < |rows| ==> SortKey(rows[i]) == records[i].fecha
  {
    seq(|records|, i requires 0 <= i < |records| => NormaliseRow(records[i]))
  }

  /** `d` is the date of the first row whose date is not a real one: the
      value pd.to_datetime, reading the column top to bottom, raises on. */
  predicate FirstInvalid(records: seq<Record>, d: Date) {
    exists i :: 0 <= i < |records| && records[i].fecha == Some(d) && !ValidDate(d)
                && forall j :: 0 <= j < i ==> ReadableDate(records[j].fecha)
  }

  /** The first date `pd.to_datetime` would reject, if any. */
  function FirstInvalidDate(records: seq<Record>): (r: Option<Date>)
    ensures r.None? <==> DatesReadable(records)
    ensures r.Some? ==> FirstInvalid(records, r.value)
  {
    if records == [] then None
    else if !ReadableDate(records[0].fecha) then Some(records[0].fecha.value)
    else
      var rest := FirstInvalidDate(records[1..]);
      assert forall i :: 1 <= i < |records| ==> records[i] == records[1..][i - 1];
      assert rest.Some? ==> FirstInvalid(records, rest.value) by {
        if rest.Some? {
          var i :| 0 <= i < |records[1..]| && records[1..][i].fecha == Some(rest.value) && !ValidDate(rest.value)
                   && forall j :: 0 <= j < i ==> ReadableDate(records[1..][j].fecha);
          assert records[i + 1].fecha == Some(rest.value);
        }
      }
      rest
  }

  /** The sort key of line 63: the `Fecha` text read back with `%d/%m/%Y`,
      which is the real date that text was written for, or NaT. */
  function SortKey(row: Row): (k: Option<Date>)
    ensures k.Some? ==> ValidDate(k.value) && row.fecha == Some(FormatDate(k.value))
  {
    match row.fecha
    case None => None
    case Some(t) =>
      var k := ParseDate(t);
      if k.Some? then FormatParseDate(t); k else k
  }

  /** Every `Fecha` text present reads back as a date under `%d/%m/%Y`. */
  predicate DatesParse(rows: seq<Row>) {
    forall i :: 0 <= i < |rows| && rows[i].fecha.Some? ==> SortKey(rows[i]).Some?
  }

  /** The date a row's `Fecha` text denotes. */
  function DateOf(row: Row): Date
    requires SortKey(row).Some?
  {
    SortKey(row).value
  }

  /** The order sort_values puts keys in: ascending dates, missing (NaT) last. */
  predicate KeyLe(a: Option<Date>, b: Option<Date>) {
    match a
    case None => b.None?
    case Some(x) => b.None? || DateLe(x, b.value)
  }

  predicate SortedBy<T>(s: seq<T>, key: T -> Option<Date>) {
    forall i, j :: 0 <= i < j < |s| ==> KeyLe(key(s[i]), key(s[j]))
  }

  function InsertBy<T>(x: T, s: seq<T>, key: T -> Option<Date>): (r: seq<T>)
    requires SortedBy(s, key)
    ensures multiset(r) == multiset(s) + multiset{x}
    ensures SortedBy(r, key)
    decreases |s|
  {
    if s == [] then [x]
    else if KeyLe(key(x), key(s[0])) then [x] + s
    else
      var rest := InsertBy(x, s[1..], key);
      assert s == [s[0]] + s[1..];
      assert forall y :: y in rest ==> KeyLe(key(s[0]), key(y)) by {
        forall y | y in rest ensures KeyLe(key(s[0]), key(y)) {
          assert y in multiset(rest);
          if y != x {
            var k :| 0 <= k < |s[1..]| && s[1..][k] == y;
            assert s[k + 1] == y;
          }
        }
      }
      [s[0]] + rest
  }

  /** A sort of `s` by `key`: a permutation of `s` whose keys ascend. Which of
      two equal keys comes first is left open. */
  function SortBy<T>(s: seq<T>, key: T -> Option<Date>): (r: seq<T>)
    ensures multiset(r) == multiset(s)
    ensures SortedBy(r, key)
  {
    if s == [] then []
    else
      var n := |s| - 1;
      assert s == s[..n] + [s[n]];
      InsertBy(s[n], SortBy(s[..n], key), key)
  }


  /** df.sort_values(by="Fecha", key=<re-parse with %d/%m/%Y>). */
  function SortByDate(rows: seq<Row>): (r: seq<Row>)
    ensures multiset(r) == multiset(rows)
    ensures SortedBy(r, SortKey)
  {
    SortBy(rows, SortKey)
  }

  /** Every `Fecha` text present is a date, the dated rows come first in
      ascending calendar order, and the rows without a date come last. */
  predicate SortedByDate(rows: seq<Row>) {
    && DatesParse(rows)
    && forall i, j :: 0 <= i < j < |rows| && SortKey(rows[j]).Some? ==>
         SortKey(rows[i]).Some? && DateLe(DateOf(rows[i]), DateOf(rows[j]))
  }

  /** Sorting a table whose date texts all parse gives a permutation of it in
      that order; the first row has the earliest date, and it has none only
      when no row has one. */
  lemma SortByDateSorts(rows: seq<Row>)
    requires DatesParse(rows)
    ensures multiset(SortByDate(rows)) == multiset(rows)
    ensures SortedByDate(SortByDate(rows))
    ensures SortByDate(rows) != [] ==>
              (SortKey(SortByDate(rows)[0]).None? <==> forall j :: 0 <= j < |rows| ==> SortKey(rows[j]).None?)
    ensures SortByDate(rows) != [] ==>
              forall j :: 0 <= j < |rows| && SortKey(rows[j]).Some? ==>
                SortKey(SortByDate(rows)[0]).Some? && DateLe(DateOf(SortByDate(rows)[0]), DateOf(rows[j]))
  {
    var r := SortByDate(rows);
    forall i | 0 <= i < |r| && r[i].fecha.Some? ensures SortKey(r[i]).Some? {
      assert r[i] in multiset(rows);
      var k :| 0 <= k < |rows| && rows[k] == r[i];
    }
    forall i, j | 0 <= i < j < |r| && SortKey(r[j]).Some?
      ensures SortKey(r[i]).Some? && DateLe(DateOf(r[i]), DateOf(r[j]))
    {
      assert KeyLe(SortKey(r[i]), SortKey(r[j]));
    }
    if r != [] {
      forall j | 0 <= j < |rows|
        ensures KeyLe(SortKey(r[0]), SortKey(rows[j]))
      {
        assert rows[j] in multiset(r);
        var i :| 0 <= i < |r| && r[i] == rows[j];
        if i > 0 {
          assert KeyLe(SortKey(r[0]), SortKey(r[i]));
        }
      }
      assert r[0] in multiset(rows);
    }
  }

  function AmountOf(row: Row): int {
    match row.importe
    case Some(c) => c
    case None => 0
  }

  /** df["Importe"].sum(): NaN amounts are skipped; all-NaN sums to 0. */
  function Total(rows: seq<Row>): int {
    if rows == [] then 0 else Total(rows[..|rows| - 1]) + AmountOf(rows[|rows| - 1])
  }

  lemma {:induction false} TotalAppend(a: seq<Row>, b: seq<Row>)
    ensures Total(a + b) == Total(a) + Total(b)
    decreases |b|
  {
    if b == [] {
      assert a + b == a;
    } else {
      var n := |b| - 1;
      assert (a + b)[..|a + b| - 1] == a + b[..n];
      TotalAppend(a, b[..n]);
    }
  }

  /** The total does not depend on the order of the rows, so summing the
      sorted table gives the sum of the rows as read. */
  lemma {:induction false} TotalPermutation(a: seq<Row>, b: seq<Row>)
    requires multiset(a) == multiset(b)
    ensures Total(a) == Total(b)
    decreases |a|
  {
    if a == [] {
      assert |b| == |multiset(b)| == 0;
    } else {
      var n := |a| - 1;
      var x := a[n];
      assert a == a[..n] + [x];
      assert x in multiset(b);
      var k :| 0 <= k < |b| && b[k] == x;
      assert b == b[..k] + [x] + b[k + 1..];
      var rest := b[..k] + b[k + 1..];
      assert multiset(rest) == multiset(b) - multiset{x};
      assert multiset(a[..n]) == multiset(a) - multiset{x};
      TotalPermutation(a[..n], rest);
      TotalAppend(b[..k] + [x], b[k + 1..]);
      TotalAppend(b[..k], [x]);
      TotalAppend(b[..k], b[k + 1..]);
      assert Total([x]) == AmountOf(x) by { assert [x][..0] == []; }
    }
  }

  /** A column of NaN amounts sums to 0: the fallback the pandas sum gives. */
  lemma {:induction false} TotalOfMissing(rows: seq<Row>)
    requires forall i :: 0 <= i < |rows| ==> rows[i].importe.None?
    ensures Total(rows) == 0
  {
    if rows != [] {
      TotalOfMissing(rows[..|rows| - 1]);
    }
  }


  /** strftime("%m-%Y") of the first row's re-parsed date: iloc[0] on an empty
      table raises, and so does strftime on the NaT of a first row without a
      date. */
  function PeriodLabel(table: seq<Row>): (r: Result<string, Error>)
    requires DatesParse(table)
    ensures r.Err? <==> table == [] || table[0].fecha.None?
    ensures table == [] ==> r == Err(EmptyTable)
    ensures table != [] && table[0].fecha.None? ==> r == Err(UndatedPeriod)
  {
    if table == [] then Err(EmptyTable)
    else match SortKey(table[0])
      case None => Err(UndatedPeriod)
      case Some(d) => Ok(FormatPeriod(d))
  }

  /** The row appended for display. */
  function TotalRow(total: int): Row {
    Row("", "TOTAL", Some(""), "", "", Some(total))
  }

  /** pd.concat([df, fila_total], ignore_index=True): the table unchanged,
      then one TOTAL row whose amount is the sum of the rows above it. */
  function Preview(table: seq<Row>): (p: seq<Row>)
    ensures |p| == |table| + 1 && p[..|table|] == table
    ensures p[|table|].razonSocial == "TOTAL" && p[|table|].fecha == Some("")
    ensures p[|table|].cuit == p[|table|].nroComprobante == p[|table|].comprobante == ""
    ensures p[|table|].importe == Some(Total(p[..|table|]))
  {
    assert (table + [TotalRow(Total(table))])[..|table|] == table;
    table + [TotalRow(Total(table))]
  }

  /** The columns lines 53-58 read, in the order they read them. */
  const CastColumns: seq<string> := ["Nro Comprobante", "CUIT", "Importe", "Fecha"]

  lemma CastColumnsAreCanonical()
    ensures forall c :: c in CastColumns ==> c in Schema.Canonical
  {
    assert CastColumns[0] == Schema.Canonical[3] && CastColumns[1] == Schema.Canonical[0];
    assert CastColumns[2] == Schema.Canonical[5] && CastColumns[3] == Schema.Canonical[2];
  }

  /** Lines 53-64 on the rows: cast, format the dates, sort by the re-parsed date. */
  function Tabulate(records: seq<Record>): (table: seq<Row>)
    requires DatesReadable(records)
    ensures DatesParse(table)
  {
    var rows := NormaliseRows(records);
    SortByDateSorts(rows);
    SortByDate(rows)
  }

  /** The whole pipeline from the column headers and rows of the export to the
      report, raising where the source raises and in the same order. */
  function Process(headers: seq<string>, records: seq<Record>): Result<Report, Error> {
    var columns := Schema.Prepare(headers);
    var unread := Schema.MissingFrom(CastColumns, columns);
    if unread != [] then Err(MissingColumn(unread[0]))
    else match FirstInvalidDate(records)
      case Some(d) => Err(InvalidDate(d))
      case None =>
        var table := Tabulate(records);
        match PeriodLabel(table)
        case Err(e) => Err(e)
        case Ok(period) =>
          match Schema.Project(columns)
          case Err(missing) => Err(MissingColumns(missing))
          case Ok(_) => Ok(Report(table, period, Total(table), Preview(table)))
  }

  /** Each error names what the source raises on first: the first of the
      columns read at lines 53-58 that is missing, the first invalid date, the
      empty table, a date column that is blank throughout, or exactly the
      canonical columns the projection lacks. */
  lemma ProcessErrors(headers: seq<string>, records: seq<Record>)
    ensures var r := Process(headers, records);
      var columns := Schema.Prepare(headers);
      var read := forall c :: c in CastColumns ==> c in columns;
      && (r.Err? && r.error.MissingColumn? ==> Schema.FirstMissing(CastColumns, columns, r.error.column))
      && (r.Err? && r.error.InvalidDate? ==> read && FirstInvalid(records, r.error.date))
      && (r.Err? && r.error.EmptyTable? ==> read && records == [])
      && (r.Err? && r.error.UndatedPeriod? ==>
            && read && records != [] && DatesReadable(records)
            && forall i :: 0 <= i < |records| ==> records[i].fecha.None?)
      && (r.Err? && r.error.MissingColumns? ==>
            && read && DatesReadable(records) && Dated(records)
            && r.error.columns != []
            && forall c :: c in r.error.columns <==> c in Schema.Canonical && c !in columns)
  {
    if DatesReadable(records) && records != [] {
      TabulateSorts(records);
      TabulateFirstDated(records);
    }
  }

  // ---- what the row stage promises ------------------------------------------

  /** The sorted table holds exactly the normalised input rows, as many as were
      read, the dated rows first and ascending, the undated ones last. */
  lemma TabulateSorts(records: seq<Record>)
    requires DatesReadable(records)
    ensures multiset(Tabulate(records)) == multiset(NormaliseRows(records))
    ensures |Tabulate(records)| == |records|
    ensures SortedByDate(Tabulate(records))
  {
    var table := Tabulate(records);
    SortByDateSorts(NormaliseRows(records));
    assert |table| == |multiset(table)| == |records|;
  }

  /** Every element of a sort is an element of its input. */
  lemma SortByFromInput<T>(s: seq<T>, key: T -> Option<Date>)
    ensures forall i :: 0 <= i < |SortBy(s, key)| ==> exists k :: 0 <= k < |s| && SortBy(s, key)[i] == s[k]
  {
    var r := SortBy(s, key);
    forall i | 0 <= i < |r|
      ensures exists k :: 0 <= k < |s| && r[i] == s[k]
    {
      assert r[i] in multiset(r);
      assert r[i] in multiset(s);
    }
  }

  /** Every row of the sorted table is an input row, written out, and its sort
      key is that input row's own date, or NaT where it had none. */
  lemma TabulateRowsFromInput(records: seq<Record>)
    requires DatesReadable(records)
    ensures var table := Tabulate(records);
      forall i :: 0 <= i < |table| ==>
        exists k :: 0 <= k < |records| && table[i] == NormaliseRow(records[k]) && SortKey(table[i]) == records[k].fecha
  {
    var table := Tabulate(records);
    var rows := NormaliseRows(records);
    SortByFromInput(rows, SortKey);
    forall i | 0 <= i < |table|
      ensures exists k :: 0 <= k < |records| && table[i] == NormaliseRow(records[k]) && SortKey(table[i]) == records[k].fecha
    {
      var k :| 0 <= k < |rows| && table[i] == rows[k];
      assert SortKey(rows[k]) == records[k].fecha;
    }
  }

  /** The first row of a non-empty sorted table has a date exactly when some
      input row has one. */
  lemma TabulateFirstDated(records: seq<Record>)
    requires DatesReadable(records)
    requires records != []
    ensures Tabulate(records) != []
    ensures Tabulate(records)[0].fecha.Some? <==> Dated(records)
  {
    var rows := NormaliseRows(records);
    SortByDateSorts(rows);
    TabulateSorts(records);
    var table := Tabulate(records);
    if Dated(records) {
      var k :| 0 <= k < |records| && records[k].fecha.Some?;
      assert SortKey(rows[k]).Some?;
    } else {
      forall j | 0 <= j < |rows| ensures SortKey(rows[j]).None? {
        assert SortKey(rows[j]) == records[j].fecha;
      }
    }
    assert table[0].fecha.Some? <==> SortKey(table[0]).Some?;
  }

  /** When some input row has a date, the first row of the sorted table
      carries an earliest input date. */
  lemma TabulateFirstIsEarliest(records: seq<Record>)
    requires DatesReadable(records)
    requires Dated(records)
    ensures Tabulate(records) != [] && SortKey(Tabulate(records)[0]).Some?
    ensures exists k :: 0 <= k < |records| && records[k].fecha == Some(DateOf(Tabulate(records)[0]))
    ensures forall j :: 0 <= j < |records| && records[j].fecha.Some? ==>
              DateLe(DateOf(Tabulate(records)[0]), records[j].fecha.value)
  {
    TabulateFirstDated(records);
    TabulateRowsFromInput(records);
    var rows := NormaliseRows(records);
    SortByDateSorts(rows);
    var table := Tabulate(records);
    assert SortKey(table[0]).Some?;
    forall j | 0 <= j < |records| && records[j].fecha.Some?
      ensures DateLe(DateOf(table[0]), records[j].fecha.value)
    {
      assert SortKey(rows[j]) == records[j].fecha;
    }
  }

  // ---- what the pipeline promises -------------------------------------------

  /** A successful run reports the sorted table, the label of its first row,
      its total and its preview. */
  lemma ProcessReport(headers: seq<string>, records: seq<Record>)
    requires Process(headers, records).Ok?
    ensures DatesReadable(records) && Dated(records)
    ensures var table := Tabulate(records);
      && table != [] && SortKey(table[0]).Some?
      && Process(headers, records).value
         == Report(table, FormatPeriod(DateOf(table[0])), Total(table), Preview(table))
  {
    TabulateSorts(records);
    TabulateFirstDated(records);
  }

  /** The pipeline succeeds exactly when the header normaliser does, every date
      cell is blank or a real date, and at least one is a date. */
  lemma ProcessSucceeds(headers: seq<string>, records: seq<Record>)
    ensures Process(headers, records).Ok? <==>
              Schema.Normalise(headers).Ok? && DatesReadable(records) && Dated(records)
  {
    var columns := Schema.Prepare(headers);
    CastColumnsAreCanonical();
    if Schema.Normalise(headers).Ok? {
      assert Schema.MissingFrom(CastColumns, columns) == [];
    }
    if DatesReadable(records) && records != [] {
      TabulateSorts(records);
      TabulateFirstDated(records);
    }
  }

  /** The table has one row per input row, holds exactly the input rows
      written out, and is in date order with the undated rows last. */
  lemma ProcessTable(headers: seq<string>, records: seq<Record>)
    requires Process(headers, records).Ok?
    ensures DatesReadable(records)
    ensures var table := Process(headers, records).value.table;
      && multiset(table) == multiset(NormaliseRows(records))
      && |table| == |records|
      && SortedByDate(table)
  {
    ProcessReport(headers, records);
    TabulateSorts(records);
  }

  /** The period label is the month and year of an earliest input date. */
  lemma ProcessPeriod(headers: seq<string>, records: seq<Record>)
    requires Process(headers, records).Ok?
    ensures exists k ::
      && 0 <= k < |records| && records[k].fecha.Some? && ValidDate(records[k].fecha.value)
      && Process(headers, records).value.period == FormatPeriod(records[k].fecha.value)
      && forall j :: 0 <= j < |records| && records[j].fecha.Some? ==>
           ValidDate(records[j].fecha.value) && DateLe(records[k].fecha.value, records[j].fecha.value)
  {
    ProcessReport(headers, records);
    var period := Process(headers, records).value.period;
    var table := Tabulate(records);
    assert period == FormatPeriod(DateOf(table[0]));
    EarliestLabel(records, period);
  }

  lemma EarliestLabel(records: seq<Record>, period: string)
    requires DatesReadable(records) && Dated(records)
    requires Tabulate(records) != [] && SortKey(Tabulate(records)[0]).Some?
    requires period == FormatPeriod(DateOf(Tabulate(records)[0]))
    ensures exists k ::
      && 0 <= k < |records| && records[k].fecha.Some? && ValidDate(records[k].fecha.value)
      && period == FormatPeriod(records[k].fecha.value)
      && forall j :: 0 <= j < |records| && records[j].fecha.Some? ==>
           ValidDate(records[j].fecha.value) && DateLe(records[k].fecha.value, records[j].fecha.value)
  {
    TabulateFirstIsEarliest(records);
    var first := DateOf(Tabulate(records)[0]);
    var k :| 0 <= k < |records| && records[k].fecha == Some(first);
  }

  /** The total is the sum of the amounts as read, whatever the sort does, and
      the preview is the table plus the one TOTAL row carrying that total. */
  lemma ProcessTotal(headers: seq<string>, records: seq<Record>)
    requires Process(headers, records).Ok?
    ensures DatesReadable(records)
    ensures var report := Process(headers, records).value;
      && report.total == Total(NormaliseRows(records))
      && report.preview == report.table + [TotalRow(report.total)]
  {
    ProcessReport(headers, records);
    TabulateSorts(records);
    TotalPermutation(Tabulate(records), NormaliseRows(records));
  }
}
