# streamlit-iva: the ARCA perception export, modelled in Dafny

`app.py` is a Streamlit page. A user uploads the retention and perception
spreadsheet downloaded from "Mis Retenciones" at ARCA and types the
taxpayer's name. The script then does the following, in order:

1. Drops eight columns it does not use.
2. Renames six columns to short labels.
3. Casts the voucher number and CUIT to text, the amount to a number
   (unreadable amounts become NaN), and the date to `DD/MM/YYYY` text.
4. Sorts the rows by the date read back from that text.
5. Takes the period label `MM-YYYY` from the first row.
6. Keeps the six columns in a fixed order.
7. Shows the table with an appended TOTAL row.
8. Writes the workbook sheet "Percepciones ARCA" (rows counted from 1, as the spreadsheet shows them):
   - the table from row 5 down;
   - the upper-cased name merged over rows 1-2;
   - the subtitle `PERCEPCIONES IVA - <period>` merged over row 4;
   - fitted column widths, currency and date formats;
   - a TOTAL row whose `=SUM(F5:F<n+5>)` formula adds up the amounts.

Any exception is shown as one error message. A missing name is shown as a
prompt.

The model has seven modules, one per stage:

| file | module | what it holds |
|---|---|---|
| `results.dfy` | `Results` | `Option` and `Result` |
| `strings.dfy` | `Strings` | decimal digits, zero padding, `str(int)`, `str.upper`, string order |
| `dates.dfy` | `Dates` | calendar dates, `%d/%m/%Y` written and read back, `%m-%Y` |
| `schema.dfy` | `Schema` | the drop list, the rename map, the column projection |
| `records.dfy` | `Records` | rows, the casts, the sort, the total, the period, the preview, the whole pipeline `Process` and its error cases |
| `export.dfy` | `Export` | a `Worksheet` class (cell map, merged ranges, column settings) changed call by call; the layout of the sheet; the SUM formula read back and evaluated; the page's outcome `Run` |
| `scenarios.dfy` | `Scenarios` | a three-row export worked through the pipeline and the sheet; rows with a blank date |

How the source's values are represented:

- **Amounts** are integer cents. The model takes `round(2)` as already
  applied, so an amount is exactly what pandas holds after line 55.
- **Dates** are day, month and year as the spreadsheet reader delivers
  them, or nothing for a blank cell. A date is valid when it is a real
  calendar day with a four-digit year. A blank cell passes line 58 as NaT
  and leaves NaN in the `Fecha` column. The sort puts such rows last.
- **Errors.** `Process` returns an error at the first point where the source
  raises, in the source's order:
  1. a `KeyError` for a column read at lines 53-58;
  2. an invalid date at line 58;
  3. an `IndexError` for an empty table at line 68;
  4. a `ValueError` at line 70 when the first row after the sort has no
     date, which happens exactly when every `Fecha` cell is blank;
  5. a `KeyError` from the projection at line 81.

## Model

| member | source | states |
|---|---|---|
| Strings.ParsePadDigits | app.py:58 | reading back a zero-padded field of width w gives the number that was written |
| Strings.PadParseDigits | app.py:63 | writing back a digit string read at its own width gives the same string |
| Strings.ParseNatToString | app.py:187 | `int(str(n)) == n` for the row number put into the formula |
| Strings.NatToStringParse | app.py:187 | `str(int(t)) == t` for every digit string without a leading zero, so the written row number is the only text for that row |
| Strings.Upper | app.py:160 | `contribuyente.upper()`: same length; each lower-case letter becomes its capital and every other character is kept |
| Strings.UpperIdempotent | app.py:160 | the title has no lower-case letter left, and upper-casing it again changes nothing |
| Strings.PadDigits | app.py:58-70 | the zero-padded `%d`, `%m` and `%Y` fields: exactly w decimal digits |
| Strings.NatToString | app.py:187 | `str()` of the row number: at least one character, all decimal digits; read back by `Strings.ParseNatToString` |
| Dates.ValidDate | app.py:58 | the dates `pd.to_datetime` accepts: a real calendar day with a four-digit year |
| Dates.DaysInMonth | app.py:58 | month lengths of the Gregorian calendar: 29 days exactly for February of a leap year |
| Dates.FormatDate | app.py:58 | `strftime("%d/%m/%Y")` gives ten characters: two digits, '/', two digits, '/', four digits |
| Dates.ParseDate | app.py:61-64 | the `%d/%m/%Y` reader only accepts a real calendar date |
| Dates.ParseFormatDate | app.py:58-64 | the sort key read from a written date is that date |
| Dates.FormatParseDate | app.py:58-64 | every text the reader accepts is exactly the text written for the date it denotes |
| Dates.FormatDateInjective | app.py:58 | two dates get the same `Fecha` text if and only if they are equal |
| Dates.FormatPeriod | app.py:70 | `strftime("%m-%Y")` gives seven characters with '-' at index 2 |
| Dates.PeriodOfFormattedDate | app.py:58-70 | the period label repeats the month and year fields of the date's `Fecha` text |
| Dates.SamePeriod | app.py:70 | two dates get the same label if and only if they fall in the same month of the same year |
| Dates.TextOrderIsNotCalendarOrder | app.py:60-64 | a pair of dates (28/02/2024, 01/03/2024) whose text order is the reverse of their calendar order, which is why the sort key re-parses the text |
| Schema.Drop | app.py:26-38 | a label survives the drop if and only if it was present and is not on the removal list |
| Schema.DropAppend | app.py:26-38 | the drop works label by label, so the surviving labels keep their input order |
| Schema.DropIgnoresAbsent | app.py:38 | removal labels that are not present do no harm: a header without them is left unchanged |
| Schema.RenameLabelTo | app.py:41-50 | the only labels renamed to a canonical label are that label itself and its source label |
| Schema.PreparedColumns | app.py:26-50 | after the drop and the rename, no removed or source label is left; a canonical column is present if and only if the input had it under its own name or its source label |
| Schema.Rename | app.py:41-50 | `df.rename`: same length; a label in the map becomes its new name, every other label is kept |
| Schema.Prepare | app.py:26-50 | the labels after the drop and then the rename; what is left is stated by `Schema.PreparedColumns` |
| Schema.MissingFrom | app.py:53-81 | the labels that are missing; empty if and only if every required label is present; otherwise its first element is the first required label that is missing, the one the reads in required order raise `KeyError` on |
| Schema.Project | app.py:73-81 | `df[columnas_ordenadas]`: succeeds if and only if all six columns are present, and then gives them in the fixed order; otherwise names exactly the missing ones |
| Schema.NormaliseSucceeds | app.py:26-81 | the header stage succeeds if and only if each canonical column is found under its own name or its source label, and then yields the canonical order |
| Schema.Normalise | app.py:26-81 | the header stage: drop, rename, project; when it succeeds is stated by `Schema.NormaliseSucceeds` |
| Schema.FullExportNormalises | app.py:26-81 | a full export header (the eight removed columns and the six source columns) normalises to the six canonical columns |
| Records.ToNumeric | app.py:55 | `to_numeric(errors="coerce")`: a number is kept as it is and anything else becomes NaN, never an error |
| Records.ReadableDate | app.py:58 | the cells `pd.to_datetime` accepts without raising: a blank one, which becomes NaT, or a valid date |
| Records.Dated | app.py:66-70 | some row has a date, so the sorted table's first row is not NaT |
| Records.NormaliseRow | app.py:53-58 | the text fields are copied, the amount is `to_numeric` of the cell, and the sort key of the row written out is the row's date, or NaT for a blank date |
| Records.NormaliseRows | app.py:53-58 | each row is cast independently, the count is kept, and every sort key is its input date or NaT |
| Records.FirstInvalidDate | app.py:58 | none if and only if every date cell is blank or valid; otherwise the date of the first row whose date is invalid, every earlier row being blank or valid: the value `pd.to_datetime` raises on |
| Records.CastColumnsAreCanonical | app.py:53-58 | every column the casts read is one of the six canonical columns |
| Records.SortKey | app.py:63 | the key of a row is NaT or a real date, and then exactly the date its `Fecha` text was written for; a NaN `Fecha` gives NaT |
| Records.KeyLe | app.py:61-64 | the order `sort_values` puts keys in: ascending dates, NaT after every date |
| Records.InsertBy | app.py:61-64 | inserting into a sorted sequence keeps it sorted and adds exactly the one element |
| Records.SortBy | app.py:61-64 | `sort_values` with a key: a permutation whose keys ascend |
| Records.SortByDate | app.py:61-64 | `df.sort_values(by="Fecha", key=...)`: a permutation of the rows whose keys ascend |
| Records.SortByFromInput | app.py:61-64 | every row of the sorted table is a row of its input |
| Records.SortByDateSorts | app.py:60-64 | sorting rows whose date texts parse gives a permutation with the dated rows first in ascending calendar order and the NaT rows last; the first row has the earliest date, and has none only when no row has one |
| Records.Total | app.py:95 | `df["Importe"].sum()`: the amounts added, NaN skipped; its properties are stated by `Records.TotalAppend`, `Records.TotalPermutation` and `Records.TotalOfMissing` |
| Records.TotalAppend | app.py:95 | the sum of two tables joined is the sum of their sums |
| Records.TotalPermutation | app.py:95 | the sum does not depend on the row order |
| Records.TotalOfMissing | app.py:55-95 | a column of NaN amounts sums to 0, as pandas' `sum` does |
| Records.PeriodLabel | app.py:66-70 | fails if and only if the table is empty (`iloc[0]`, the empty-table error) or its first row has no date (`NaT.strftime`, the undated-period error) |
| Records.TotalRow | app.py:88-97 | the `fila_total` row; `Records.Preview` states its fields |
| Records.Preview | app.py:86-98 | the table unchanged, then exactly one row: "TOTAL" under `Razón Social`, all other text fields empty, amount equal to the sum of the rows above |
| Records.Tabulate | app.py:53-64 | every `Fecha` text of the sorted table reads back as a date |
| Records.TabulateSorts | app.py:53-64 | the sorted table is a permutation of the cast input rows, has one row per input row, and has the dated rows first by calendar date and the undated rows last |
| Records.TabulateRowsFromInput | app.py:53-64 | each row of the sorted table is some input row written out, and its sort key is that input row's date or NaT |
| Records.TabulateFirstDated | app.py:60-70 | the first row of a non-empty sorted table has a date if and only if some input row has one |
| Records.TabulateFirstIsEarliest | app.py:60-69 | when some input row has a date, the first row's date is an input date no later than any other input date |
| Records.Process | app.py:23-98 | the whole pipeline from the header labels and rows to the report or the first error the source raises; stated by `Records.ProcessSucceeds`, `Records.ProcessErrors`, `Records.ProcessTable`, `Records.ProcessPeriod` and `Records.ProcessTotal` |
| Records.ProcessErrors | app.py:53-81 | each error is the one the source raises first: the first missing column among those read at lines 53-58; the first invalid date once those columns exist; the empty table once every date cell is blank or valid; an all-blank date column once the table is not empty; and, once all of that passed, exactly the canonical columns the projection lacks |
| Records.ProcessReport | app.py:23-98 | a successful run reports the sorted table, the label of its first row, its total and its preview |
| Records.ProcessSucceeds | app.py:23-81 | the pipeline succeeds if and only if the header stage succeeds, every date cell is blank or a real date, and at least one is a date |
| Records.ProcessTable | app.py:53-81 | the reported table is a permutation of the cast input rows, with one row per input row, in ascending date order with the undated rows last |
| Records.EarliestLabel | app.py:66-70 | the label of the sorted table's first row is the label of an earliest input date |
| Records.ProcessPeriod | app.py:60-70 | the period label is the month and year of an input date no later than any other input date; blank dates play no part |
| Records.ProcessTotal | app.py:86-98 | the total is the sum of the amounts as read, whatever the sort did, and the preview is the table plus one TOTAL row carrying it |
| Export.Worksheet.constructor | app.py:107-111 | a new sheet has no cells, no merges and no column settings |
| Export.Worksheet.WriteFrame | app.py:108-110 | `to_excel(startrow=4)`: the header and data cells are added; merges and columns are untouched |
| Export.Worksheet.MergeRange | app.py:160-165 | `merge_range` succeeds if and only if the range is not one cell and overlaps no earlier merge; on success it writes the value top-left and blanks elsewhere and records the range, otherwise nothing changes |
| Export.Worksheet.SetColumn | app.py:170 | `set_column` replaces the column's whole setting (width and format) and nothing else |
| Export.Worksheet.WriteFormula | app.py:188 | `write_formula` sets exactly one cell |
| Export.MergedCells | app.py:160-184 | what `merge_range` writes: the value in the top-left cell and blanks in the rest of the rectangle; stated pointwise by `Export.MergedCellsAt` |
| Export.BodyCell | app.py:108-110 | what `to_excel` writes for one data cell: a formatted blank for an empty string, a NaN date or a NaN amount, otherwise the text or the number |
| Export.MergedCellsAt | app.py:160-165 | a merge covers exactly the cells of its rectangle, with the value top-left and blanks elsewhere |
| Export.FrameCells | app.py:108-110 | the cells `to_excel(startrow=4, index=False)` writes; pointwise in `Export.FrameCellsAt` |
| Export.SheetCells | app.py:108-188 | the finished sheet's cells, later writes winning; region by region in `Export.SheetFrame`, `Export.SheetHeading` and `Export.SheetTotalRow` |
| Export.FrameCellsAt | app.py:108-110 | the frame has a cell at every position of the header row (zero-based row 4, spreadsheet row 5) and of one row per table row, across six columns: the header labels, then each row's cells |
| Export.WriteHeading | app.py:108-165 | the frame, then the title over A1:F2 and the subtitle over A4:F4; both merges succeed on a fresh sheet |
| Export.FitColumns | app.py:167-170 | after the loop each of the six columns holds its fitted width |
| Export.FormatColumnsAsWritten | app.py:172-176 | as written: columns F and C get their format with the default width |
| Export.WriteTotal | app.py:178-188 | "TOTAL" merged over A-E of zero-based row n+5 (spreadsheet row n+6) below every earlier merge, and the SUM formula in F of that row |
| Export.ExportSheetAsWritten | app.py:106-188 | the export block as written: the sheet's cells, its three merges, and the column settings as written (widths of C and F reset) |
| Export.ExportSheet | app.py:106-188 | the export block with format and width set together: same cells and merges, every column keeps its fitted width |
| Export.IntegerText | app.py:169 | `str()` of an int amount; related to the float text by `Export.WholeAmountText` |
| Export.FloatText | app.py:169 | `str()` of a float amount with at most two decimals |
| Export.WholeAmountText | app.py:169 | a whole amount's float text is its int text plus ".0", two characters longer |
| Export.CellText | app.py:169 | `astype(str)` of one cell: the text field, "nan" for a missing date or amount, the int or float text of an amount by the column's type |
| Export.WholeAmounts | app.py:55-169 | the amount column is int64 after line 55 (every amount present and whole) rather than float64, which decides the texts line 169 measures |
| Export.MaxTextLen | app.py:169 | the longest cell text of a column; stated by `Export.MaxTextLenIsMax` |
| Export.AutoWidth | app.py:169 | the fitted width of a column, with the amount column's type taken from the table; stated by `Export.AutoWidthFits` |
| Export.MaxTextLenIsMax | app.py:169 | the longest `astype(str)` length is an upper bound for the column and is reached by some cell |
| Export.AutoWidthFits | app.py:169 | the fitted width leaves two characters beside the header and every cell text, and is the narrowest width that does |
| Export.FittedColumns | app.py:168-170 | the loop sets exactly the columns 0 .. k-1 |
| Export.ColumnsAsWritten | app.py:168-176 | the column settings the block leaves as written; stated by `Export.AsWrittenColumns` |
| Export.ColumnsFitted | app.py:168-176 | the column settings with format and width set together; stated by `Export.FittedColumnsShowAll` |
| Export.FittedColumnsAt | app.py:168-170 | column c of the loop's result holds the fitted width of c with the format given for it |
| Export.AsWrittenColumns | app.py:168-176 | as written, C and F end with the default width and their format; the other four keep their fitted width, unformatted |
| Export.ProcessDateTexts | app.py:58-70 | a successful run's first row is dated, and every date text is ten characters long |
| Export.AsWrittenHidesDates | app.py:172-176 | as written, a successful run has a date and no date fits the width left to column C |
| Export.FittedColumnsShowAll | app.py:167-176 | with width and format set together, every column shows its header and every cell with two characters to spare, at the narrowest such width, and carries its intended format |
| Export.ColumnLetter | app.py:187 | the letter naming column c is the c-th capital letter |
| Export.ParsedCellRef | app.py:187 | every A1 reference that parses is exactly how that cell is written |
| Export.ParseCellRefOf | app.py:187 | reading back the A1 reference written for a cell gives that cell |
| Export.TotalRowIndex | app.py:179 | `ultima_fila = len(df) + 5`, a zero-based row (spreadsheet row n+6) |
| Export.SumFormula | app.py:187 | the formula text `=SUM(F5:F<n+5>)`; read back by `Export.SumFormulaRange` |
| Export.EvalSum | app.py:187 | the spreadsheet's value of `=SUM(F5:F<n>)`: the cells of the range added, text and blanks counting 0; stated by `Export.SumEqualsTotal` |
| Export.SumFormulaRange | app.py:179-187 | `=SUM(F5:F<n+5>)` covers column F from the header row down to the last data row, which is right above the TOTAL row |
| Export.SheetFrame | app.py:108-188 | no later merge or formula touches the header and data rows (zero-based rows 4 to n+4, spreadsheet rows 5 to n+5): each has all six frame cells |
| Export.SheetHeading | app.py:159-165 | above the frame: zero-based rows 0-1 and 3 (spreadsheet rows 1-2 and 4) are filled across A-F (the name top-left, the subtitle with the period in A4, blanks elsewhere), and zero-based row 2 (spreadsheet row 3) is empty |
| Export.SheetTotalRow | app.py:178-188 | below the frame only zero-based row n+5 (spreadsheet row n+6) is filled: "TOTAL" in A, blanks in B-E, the SUM formula in F |
| Export.SumColumnIsTotal | app.py:187 | SUM over the header cell and the first k data cells of F equals the total of the first k rows |
| Export.FrameAmounts | app.py:108-110 | column F of the sheet adds nothing at the header and each row's amount (0 for NaN) below it |
| Export.FrameAmountAt | app.py:108-110 | the amount cell of data row i adds exactly that row's amount |
| Export.SumEqualsTotal | app.py:178-188 | the SUM formula evaluates to the total of the table |
| Export.Run | app.py:20-214 | no name gives a prompt and no workbook; a failing pipeline gives its error and no workbook; otherwise the report and a new sheet laid out from it |
| Export.SheetTotalMatchesPreview | app.py:86-188 | the workbook's SUM and the preview's TOTAL row give the same figure, the sum of the amounts as read |
| Scenarios.SortDescendingThree | app.py:61-64 | three rows whose keys descend come out of the sort reversed |
| Scenarios.SampleSorts | app.py:60-64 | the three sample rows (15/03, 01/03, 28/02/2024) sort to 28/02, 01/03, 15/03 |
| Scenarios.BlankDateSortsLast | app.py:58-64 | a row with a blank `Fecha` given before a dated row comes out after it |
| Scenarios.AllBlankDatesFail | app.py:58-70 | a full export whose only row has a blank date passes the casts and the sort and fails on the period label |
| Scenarios.SampleLabelAndTotal | app.py:66-95 | the sorted sample has the label "02-2024" and the total 425.75 |
| Scenarios.ThreeRowExport | app.py:26-98 | under a full export header the sample passes the pipeline with that table, label and total |
| Scenarios.FormulaOfThree | app.py:187 | a three-row table gets the formula `=SUM(F5:F8)` |
| Scenarios.ThreeRowSheet | app.py:179-188 | on a three-row table totalling 425.75, the TOTAL row is zero-based row 8 and its formula evaluates to 425.75 |

## Left out

- The Streamlit page itself is not modelled: the title, text input, file uploader, `st.write`, `st.dataframe`, the download button and the informational lines 195-209. They are display only. `Run` returns what they would show.
- The state with no uploaded file (lines 215-218) is not modelled. `Run` starts from an uploaded export, so only the name guard of lines 20 and 213-214 is modelled.
- `pd.read_excel` (line 23) is not modelled. The header labels and the rows it yields are parameters, and an unreadable file is not represented.
- Floating point is not modelled. Amounts are integer cents after `round(2)`, and the sum is exact.
- `Records.SortBy`: which of two rows with the same date comes first is left open. `sort_values` uses quicksort by default, which is not stable. A stable sort would be a stronger claim than the source makes.
- `Dates.ValidDate`: the date range of pandas timestamps (1677-2262) is replaced by four-digit years.
- `dayfirst=True` parsing of the raw `Fecha` values is not modelled, because dates arrive as day, month and year. One-digit fields that `%d/%m/%Y` would also accept are not modelled either, because the model's reader only sees texts the script wrote itself.
- `astype(str)` of numeric CUIT and voucher values is not modelled. For example, "123.0" for a float column. These fields are taken as the text they hold.
- A blank CUIT or voucher cell is not modelled. Lines 53-54 turn it into the text "nan", where the model takes the text the cell holds.
- Duplicate column labels in the input are not modelled.
- `Schema.NormaliseSucceeds` and `Records.ProcessSucceeds` treat a header that holds both a canonical label and its source label, such as "Fecha" and "Fecha Ret./Perc.", as holding that column once, and succeed. Labels that collide after the rename are not modelled. `df.rename` at lines 41-50 keeps both columns under the same label. In the source a doubled "Fecha" then makes `pd.to_datetime` raise at line 58, and a doubled "Importe" makes `to_numeric` raise at line 55. A doubled text column passes the casts, and line 81 then yields seven columns, so column F holds text instead of the amounts.
- `locale` (imported, unused) and `pd.options.display.float_format` (line 84) are not modelled. They affect display only.
- The cell formats' fonts, borders and alignment are not modelled, beyond which column carries the currency or date format. Row heights (lines 190-193) are not modelled either. None of these changes a cell's content.
- xlsxwriter features are not modelled:
  - the automatic conversion of strings to formulas or URLs;
  - the 32767-character limit on strings;
  - the sheet size limits.
- The date format on column C does nothing to the text dates written there. The model records only the format setting, not how a spreadsheet would render it.
- `Strings.Upper`: only a-z and U+00E0..U+00FE except U+00F7 are upper-cased, each by subtracting 32 from its code point. Every other character is left unchanged, although Python's `str.upper` maps some of them too: ß (U+00DF) becomes "SS", ÿ (U+00FF) becomes Ÿ, µ (U+00B5) becomes Μ, and so do letters beyond Latin-1.
- `Export.WholeAmounts`: the type of the amount column after line 55 is taken as int exactly when every amount is present and whole. This rests on the spreadsheet reader returning whole-number cells as ints and on `to_numeric` and `round(2)` keeping int64. A column the reader returns as text is not distinguished.
- `Export.FloatText`: `repr` of an amount is modelled for amounts below 10^16, where Python writes no exponent.
- `Export.MaxTextLen`: the empty-table case gives 0, where pandas' `max` over an empty column gives NaN. That case never arises, because `Process` fails on an empty table first.
- `Export.EvalSum`: only single-column ranges listed top to bottom are evaluated, which is the only shape line 187 writes.
- `Export.Worksheet.MergeRange`: callers must give corners in order. xlsxwriter swaps reversed corners. Every call at lines 160-184 gives them in order.
- `Export.Run` lays the sheet out as corrected (see Findings), not with the width resets of lines 173 and 176. `Export.ExportSheetAsWritten` models those resets.

## Findings

| source | as written | input that shows it | evidently intended | confidence | as-written member | corrected member |
|---|---|---|---|---|---|---|
| app.py:173-176 | After the loop of lines 168-170 fits every column, `set_column(5, 5, None, fmt)` and `set_column(2, 2, None, fmt)` replace the settings of columns F and C. Width `None` means xlsxwriter's default of 8.43 characters, so the fitted widths are lost. | Any successful run. Every `Fecha` text is 10 characters (longer with the 2-character margin), and column C is left 8.43 characters wide. | Add the currency and date formats while keeping the fitted widths, by passing the width and the format in the same call. | not executed; depends on xlsxwriter keeping one setting per column and reading width `None` as its default | Export.AsWrittenHidesDates | Export.FittedColumnsShowAll |

The as-written layout is `Export.ExportSheetAsWritten`, and
`Export.AsWrittenColumns` gives its column settings. The corrected layout is
`Export.ExportSheet`, and `Export.Run` uses it.

The spreadsheet formula of line 187 starts at `F5`, the header row, not the
first data row. This does no harm: `Export.SumEqualsTotal` shows that the
header text adds nothing to the sum.
