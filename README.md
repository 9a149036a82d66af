# Cash-flow consolidation ("Monitoreo del Flujo de Caja"), modelled in Dafny

`app.py` is a Streamlit script that takes two spreadsheets. One lists
payables (*proveedores*, the suppliers) and the other receivables
(*clientes*, the clients). It produces:

- a one-row-per-role summary of the local-currency cash flow per day;
- an archive of the records dated before the chosen window;
- a ledger worksheet with one signed row per entity and a `TOTAL FLUJO` row.

This project models that pipeline as the script is written, including the
string order of the ledger's date columns (see "## Findings"), and proves
what it computes. The user's
choices are the parameters of the run: a `Request(start, end, rate)` holding
the date window and the USD rate. The two uploaded sheets are `Table` values,
and the worksheet is a `Sheet.Worksheet` object the run writes into.

Layout, one module per file:

- `Text`: string helpers.
  - Python's `in`, `lower` and `strip`.
  - The accent stripping, by a Latin-1 NFKD table.
  - Lexicographic string order.
- `Dates`: calendar days, their order, and the `DD-MM-YYYY` display form with its round trip.
- `Records`: the shared data model.
  - Cell values (`Text`, `Number`, `DateVal`, `Missing` for NaN/None/NaT).
  - Tables as headers plus rows.
  - The two roles and their column names.
  - Records (`Entry`) and the errors that stop a run.
- `Headers`: `normalize_columns`, both as a function and as the loop that builds `clean`.
- `Schema`: the required-column gate and the amount-column lookup.
- `Window`: date coercion, the inclusive window, the archive, and the three-way date partition.
- `Currency`: the USD labels, half-to-even rounding and `apply_rate`.
- `Conversion`: the rounding of the amount column and the new `monto_local` column, as table functions.
- `Summary`: the per-day pivot of both roles and the sorted union of their days.
- `Ledger`: the ledger report.
  - Prefixes, signs, the `(Entidad, Fecha)` pivot.
  - The PROV-then-CLI row order and the `TOTAL FLUJO` row.
- `Agreement`: how the ledger and the summary agree.
- `Sheet`: the pieces of the written worksheet.
  - The per-cell cleaning and the style rules.
  - The worksheet object and the loop that appends and styles each row.
- `Pipeline`: the run as a staged pure function.
  - `Check`: steps 2 to 4.
  - `Conversions`: steps 5 to 10: `SheetRange` (steps 5 and 6), then `Selected` (steps 7 to 10).
  - `Outcome`: steps 12 to 14.
  - `Consolidation`: all of them, one after another.
- `Frames`: the DataFrames the script updates in place, as a `Frame` class. Each method is proved to perform the table function of its statement.
- `Script`: the script's statements on frames and the worksheet, proved to compute exactly what `Pipeline.Consolidation` describes.
- `Wrappers`, `Sequences`, `Sorting`: `Option`/`Result`, filters and keyed sums, and sorted distinct sequences.

## Model

| member | source | states |
|---|---|---|
| Headers.NormalizeHeader | app.py:13-15 | a normalised header contains no space and neither starts nor ends with whitespace |
| Headers.NormalizeColumns | app.py:9-16 | the loop builds one cleaned header per input header, in the same order (count and order kept) |
| Headers.NormalizedIsSettled | app.py:13-15 | every character of a normalised header is already accent-free and lower-case |
| Headers.NormalizeHeaderIdempotent | app.py:13-15 | normalising a header a second time changes nothing |
| Headers.NormalizedColumnsIdempotent | app.py:9-16 | `normalize_columns` applied twice gives the same headers as once |
| Frames.Frame.NormalizeColumns | app.py:16 | `df.columns = clean` replaces the headers by their normalised forms and leaves every row untouched |
| Text.ContainsIffOccurs | app.py:97-98 | Python's `sub in s` holds exactly when `sub` occurs at some position of `s` |
| Text.StrLessIsStrictOrder | app.py:267-268 | the string order `sorted` uses is irreflexive, transitive and total |
| Frames.Frame.constructor | app.py:34-35 | a frame read from a sheet holds exactly that sheet's headers and rows |
| Frames.Frame.Copy | app.py:40-41 | `df.copy()` is a new frame, distinct from every existing one, with the same contents |
| Pipeline.Normalize | app.py:36-37 | normalising a sheet changes its headers only and keeps it rectangular |
| Pipeline.RawDateColumn | app.py:43-44 | the raw copy converts `vencimiento_real` when present, else `fecha_de_cobro`, and has no column to convert when both are absent |
| Pipeline.RawCopy | app.py:40-45 | the raw copy is the normalised sheet with that date column coerced; a sheet with neither date column raises |
| Schema.Gate | app.py:48-55 | the run continues exactly when the role's four required columns are all present; otherwise it stops with a message naming the whole required set |
| Pipeline.Check | app.py:36-55 | steps 2-4 succeed exactly when both sheets have a date column and pass the gate, and then return the two raw copies; otherwise they return the first stop |
| Pipeline.CheckErrorOrder | app.py:42-55 | the stops come in the script's order: a missing date column (suppliers, then clients) before a gate failure (suppliers, then clients); each stop happens exactly when the earlier checks passed |
| Pipeline.NoDateColumnFailsGate | app.py:43-55 | a sheet with neither date column would fail the gate of either role too |
| Pipeline.StopOrder | app.py:40-55 | when the first four steps stop, the whole run fails with exactly that stop |
| Pipeline.CheckStops | app.py:40-55 | a failed check is the run's result |
| Pipeline.CheckPassesGate | app.py:48-55 | a passed check means both normalised sheets pass the gate |
| Pipeline.CheckContinues | app.py:36-111 | after a passed check the run is the later stages on the normalised sheets and the raw copies |
| Window.CoerceCell | app.py:58-63 | coercion gives a valid calendar day within the pandas timestamp range, or a missing value |
| Window.CoerceCellIdempotent | app.py:58-63 | coercing an already coerced cell changes nothing |
| Window.CoerceColumn | app.py:58-63 | overwriting a date column coerces each of its cells and leaves every other column and the row count as they were |
| Window.CoerceColumnFixed | app.py:58-63 | a column whose cells coercion keeps is left exactly as it was |
| Window.CoerceColumnIdempotent | app.py:43-63 | converting a date column a second time changes nothing |
| Pipeline.CoercedCells | app.py:58-63 | after step 5 every cell of the date column is a day or NaT |
| Dates.Min | app.py:66-67 | Python's `min` of two days is one of them and is not after either |
| Dates.Max | app.py:68-69 | Python's `max` of two days is one of them and is not before either |
| Dates.Earliest | app.py:66-67 | the earliest of a non-empty list of days is one of them and is not after any of them |
| Dates.Latest | app.py:68-69 | the latest of a non-empty list of days is one of them and is not before any of them |
| Pipeline.ColumnMin | app.py:66-69 | `Series.min()` on the converted column raises exactly when it mixes NaT with days, is NaN exactly when it holds no day, and is a day exactly when the column has rows and none is NaT; that day is one of the column's and the earliest |
| Pipeline.DateRange | app.py:66-77 | the default range exists exactly when both converted columns have rows and no NaT; otherwise it stops, naming suppliers or clients in the order the `min` calls and the date widget meet the problem; its bounds are days of the columns and cover every day in both |
| Pipeline.SheetRange | app.py:58-77 | steps 5 and 6 give a range exactly when both sheets have rows and every date converts; otherwise they stop with `NoDateRange` |
| Pipeline.DefaultWindowKeepsAll | app.py:66-90 | with the default range as the window, the window keeps every row of both sheets and both archives are empty |
| Frames.Frame.CoerceDates | app.py:58-63 | the in-place overwrite of the date column leaves the frame equal to `CoerceColumn` of its old contents |
| Records.Assign | app.py:110-111 | `df[name] = vals` gives the column exactly `vals` (appending it when new) and leaves every other column unchanged |
| Frames.Frame.SetColumn | app.py:110-111 | the row-by-row assignment leaves the frame equal to `Assign` of its old contents |
| Window.KeepWindow | app.py:85-90 | a row is kept exactly when its date is present and `start <= date <= end` (inclusive at both ends; missing dates never pass) |
| Window.KeepWindowAll | app.py:85-90 | a table whose every row is in the window is kept whole |
| Frames.Frame.Between | app.py:85-90 | the filtering loop returns a new frame holding `KeepWindow` of the frame |
| Pipeline.Windowed | app.py:58-90 | after steps 5 and 7 every remaining row has a representable date inside the window |
| Window.Archive | app.py:158-163 | an archived row is exactly a row whose date is present and strictly before `start` |
| Window.ArchiveNone | app.py:158-163 | a table with no row before `start` has an empty archive |
| Window.DatedRowsAll | app.py:58-163 | a table whose every row is dated loses no row to the dated-rows filter |
| Frames.Frame.Before | app.py:158-163 | the filtering loop returns a new frame holding `Archive` of the frame |
| Window.ExactlyOnePlace | app.py:85-163 | given `start <= end`, a dated row is in exactly one of the archive, the window and after the window; an undated row is in neither export |
| Window.WindowPartition | app.py:85-163 | the dated rows are, as a multiset, the archive plus the window plus the rows after the window, so the counts add up |
| Currency.RoundHalfEvenIsNearest | app.py:93-94 | the rounded value is a nearest integer, and on a tie the even one |
| Currency.RoundHalfEvenOfInteger | app.py:108 | rounding an integer gives it back |
| Currency.RoundAmount | app.py:93-94 | a number rounds to its half-to-even integer; anything else makes the cast fail |
| Conversion.RoundValues | app.py:93-94 | the column rounds exactly when every value is a number, each to its nearest integer; otherwise the cast error |
| Conversion.NumericColumn | app.py:34-35 | the amount column read from the sheet has a numeric dtype exactly when each of its cells is a number or NaN, a column blank in every row included |
| Conversion.ObjectColumnCases | app.py:34-35 | a column has dtype `object` exactly when it holds a text somewhere, or numbers beside days |
| Conversion.RoundAmounts | app.py:93-94 | the canonical amount column is rounded in every row exactly when its dtype is numeric and every windowed cell is a number, keeping the table's shape; an `object` column raises in `round`, NaN raises in the cast |
| Conversion.ObjectColumnStopsRounding | app.py:34-94 | a text or a day anywhere in the sheet's amount column, even outside the window, makes the rounding raise |
| Conversion.RoundAmountsTouchesOnlyAmount | app.py:93-94 | rounding leaves every other column as it was |
| Conversion.RoundAmountsIdempotent | app.py:93-94 | a rounded amount column is numeric, and rounding it again succeeds and changes nothing |
| Frames.Frame.RoundedColumn | app.py:93-94 | the value-by-value loop gives the rounded column, or the cast error at the first non-number |
| Frames.Frame.RoundAmounts | app.py:93-94 | the in-place overwrite succeeds exactly when the rounding does, then leaves the rounded table; on the dtype or cast error the frame is unchanged |
| Schema.FindAmountIndex | app.py:97-98 | the lookup finds the first header that passes the role's test, and finds none exactly when no header passes |
| Schema.FindAmountColumn | app.py:97-101 | the found column is the first header containing `valor` (suppliers) or both `total` and `cobrar` (clients); nothing is found exactly when no header qualifies |
| Schema.AmountColumnIsAmountHeader | app.py:97-98 | the canonical amount column passes its role's lookup test |
| Schema.GatePassedFindsAmountColumn | app.py:97-101 | once the gate has passed, the lookup always finds a column, so the error at line 100 cannot happen |
| Schema.FoundColumnIsFirstOfItsName | app.py:97-111 | reading the found column by name reads the very column the lookup found |
| Pipeline.NeverAmountColumnsNotFound | app.py:97-101 | no run ever stops with the amount-column error |
| Currency.UsdLabels | app.py:104-106 | `USD`, `US$` and `Dólares` count as USD; a blank label (`nan`), `local` and `USD ` with a trailing space do not |
| Currency.NoUsdKeyHasSpace | app.py:104 | no USD synonym contains whitespace |
| Currency.PaddedLabelIsNotUsd | app.py:105-106 | the label is lower-cased but not stripped, so any label with whitespace at either end is not USD-class |
| Currency.UsdIgnoresCase | app.py:106 | a label and its lower-cased form are USD-class alike |
| Currency.NoUsdKeyHasDigit | app.py:104-106 | no USD synonym contains a digit, so a numeric or date `moneda` never matches |
| Currency.ApplyRate | app.py:105-108 | `apply_rate` fails exactly on an amount that is not a number |
| Currency.NonUsdIgnoresRate | app.py:108 | a label outside the USD set gives the rounded amount, the same for every rate |
| Currency.UsdIsScaled | app.py:106-108 | a USD-class amount converts to a nearest integer to the amount times the rate, the even one on a tie; at rate 1 it converts as a local amount does |
| Currency.LocalAmountNonNegative | app.py:79-108 | with the rate at least 0 (the widget's minimum), a non-negative amount gives a non-negative local amount |
| Currency.RoundedThenConverted | app.py:93-108 | a non-USD amount passed through step 8's rounding and then `apply_rate` ends as its rounded value |
| Conversion.LocalAmounts | app.py:110-111 | one local amount per row, each equal to `apply_rate` on that row, exactly when every amount is a number |
| Conversion.AmountCells | app.py:110-111 | the new column holds each local amount as a number |
| Conversion.AddLocalAmount | app.py:110-111 | the table gains `monto_local` holding `apply_rate` of each row, exactly when it has rows and every looked-up amount is a number; a table with no rows raises in the assignment |
| Conversion.NonUsdKeepsRoundedAmount | app.py:93-111 | a record whose label is not USD-class gets its rounded amount as `monto_local`, whatever the rate |
| Conversion.UsdAmountIsScaled | app.py:108-111 | a USD-class record gets its amount times the rate, rounded |
| Frames.Frame.LocalColumn | app.py:105-111 | the row-by-row loop gives exactly the amounts `LocalAmounts` describes |
| Frames.Frame.AddLocalAmount | app.py:110-111 | the frame gains `monto_local` exactly as `Conversion.AddLocalAmount` describes; on an error the frame is unchanged |
| Pipeline.RoundKeepsDates | app.py:93-94 | rounding keeps every record's date |
| Pipeline.Prepared | app.py:34-94 | steps 5, 7 and 8 give the windowed table with its amounts rounded, exactly when the sheet's amount column is numeric and every windowed amount is a number, and keep every windowed date; the error says which of the two failed |
| Pipeline.LocalKeepsDates | app.py:110-111 | adding `monto_local` keeps every record's date and the row count |
| Pipeline.Localized | app.py:97-111 | steps 9 and 10 succeed exactly when both lookups find a column, both tables have rows and every amount is a number; they keep the dates; the lookup error is reported exactly when a lookup fails |
| Pipeline.Selected | app.py:85-111 | steps 7 to 10 can fail only on an `object` amount column, a non-numeric amount or an empty window, and on success leave both roles with one amount per row, every row dated |
| Pipeline.Conversions | app.py:58-111 | after the gate, steps 5 to 10 stop with the range error exactly when step 6 does, and otherwise are steps 7 to 10; they can fail only on the range, an `object` amount column, a non-numeric amount or an empty window, and on success leave both roles with records, every one dated |
| Pipeline.ConversionsKeepDates | app.py:58-111 | the converted tables have the windowed rows' dates, row for row |
| Pipeline.Entries | app.py:131 | a record carries its row's date, its name cell and its local amount |
| Pipeline.Archived | app.py:158-163 | the archive of a raw copy is taken exactly when its converted date column is the role's own date column, or it has no rows; the raw `fecha_de_cobro` of a client copy that converted `vencimiento_real` cannot be compared with a day and raises |
| Summary.Columns | app.py:146-147 | the summary columns are ascending, without repeats, and are exactly the days of either role |
| Summary.RowCells | app.py:130-146 | a role's cell for a day holds that role's day sum when it has records that day, and is NaN otherwise |
| Summary.Consolidate | app.py:130-147 | both summary rows have one cell per column |
| Summary.CellIsDayTotal | app.py:130-146 | the `Proveedores` (`Clientes`) cell for a day is the total `monto_local` of exactly that role's records on that day, or NaN when there are none |
| Summary.DaySumIsTotalOfDay | app.py:131 | a day sum is the total of exactly the records dated that day |
| Summary.RowSumIsTotal | app.py:130-146 | each summary row sums (NaN counting as nothing) to the total `monto_local` of its role |
| Summary.Headings | app.py:149-152 | each column heading is its day written `DD-MM-YYYY` |
| Summary.HeadingsDistinct | app.py:149-152 | for representable days the written headings never repeat |
| Dates.BeforeIsStrictOrder | app.py:147 | calendar order is a strict total order, so sorting the days is well defined |
| Dates.FormatRoundTrip | app.py:150 | a valid day with a four-digit year is read back from its `DD-MM-YYYY` form |
| Dates.FormatInjective | app.py:150 | two representable days with the same `DD-MM-YYYY` form are the same day |
| Pipeline.EntriesInWindow | app.py:85-90 | records read from windowed rows are all dated inside the window |
| Pipeline.SummaryDaysInWindow | app.py:130-147 | every summary column day lies inside the window |
| Pipeline.RecordsInWindow | app.py:85-147 | in a finished run every record and every summary column is inside the window |
| Ledger.PrefixStarts | app.py:244 | a label built as prefix + name starts with that prefix |
| Ledger.Lines | app.py:243-254 | a role's lines are built exactly when every name in the windowed `object` name column is text or blank; every label starts with the role's prefix |
| Ledger.LinesAllNamed | app.py:243-254 | with every name text, each record gives one line: label `PROV - `/`CLI - ` + name, the same date, the amount negated for suppliers and kept for clients |
| Ledger.Index | app.py:258-259 | the pivot index is the distinct labels in ascending order |
| Ledger.HeadingsAsWritten | app.py:258-264 | as written, the pivot columns are the distinct `DD-MM-YYYY` strings in string order |
| Ledger.ColumnDays | app.py:258-264 | the ledger's column days are the distinct record days in calendar order |
| Ledger.Headings | app.py:258-264 | the corrected headings are those column days written `DD-MM-YYYY` |
| Ledger.HeadingsSameAsWritten | app.py:258-264 | the corrected headings are the same set of strings as the headings as written; only their order differs |
| Ledger.WrittenOrderIsDayOfMonth | app.py:258-264 | as written, two days early in different months are ordered by day of month, whatever their months |
| Ledger.HeadingsAsWrittenOutOfOrder | app.py:258-264 | for 2024-01-02 and 2024-02-01 the heading order as written puts 01-02-2024 first, against the calendar; the corrected order follows the calendar |
| Ledger.Pivot | app.py:258-264 | each cell `(label, heading)` is the sum of the amounts on the lines with that label and heading, and 0 when there are none |
| Ledger.ProvCliExclusive | app.py:267-268 | no label starts with both `PROV` and `CLI` |
| Ledger.NewOrder | app.py:267-268 | the new order lists only labels of the pivot |
| Ledger.NewOrderIsPermutation | app.py:267-269 | for role-prefixed labels, the new order is a permutation: all PROV labels ascending, then all CLI labels ascending; distinct labels stay distinct |
| Ledger.Loc | app.py:269 | `pivot.loc[order]` lists the rows in the given order, each the pivot row of its label |
| Ledger.LocOfPivot | app.py:258-269 | after the reorder, each cell is still the pivot cell of its label and heading |
| Ledger.Assemble | app.py:257-274 | on the given columns, the report lists the reordered labels, each cell the sum for its label and heading, and a total row holding the column sums |
| Ledger.Build | app.py:243-274 | the ledger is built exactly when every name of both roles is text or blank; otherwise it reports the first role (suppliers first) with a name that is not |
| Ledger.BuildFromSheets | app.py:243-274 | the ledger is built exactly when both name columns have dtype `object` and every name is text or blank; a float or all-blank name column makes `"PROV - " + col` (or `"CLI - " + col`) raise, the suppliers' first |
| Ledger.BuildInCalendarOrder | app.py:258-264 | the corrected ledger succeeds exactly when the script's does, with the same rows and the same set of column headings |
| Ledger.BuildLines | app.py:257-264 | the ledger is the report assembled from the suppliers' lines followed by the clients' lines, over the headings in string order (as written) or in calendar order (corrected) |
| Ledger.LabelsPrefixed | app.py:244-268 | every ledger row label starts with `PROV - ` or `CLI - ` and is never `TOTAL FLUJO` |
| Ledger.RowsArePermutation | app.py:267-269 | the ledger rows are a permutation of the pivot rows, without repeated labels |
| Ledger.CellIsSignedSum | app.py:243-264 | a cell is the signed sum of that entity's amounts on that date, over both roles |
| Ledger.EntityDaySumOtherRole | app.py:244-251 | an entity whose label lacks a role's prefix gets nothing from that role's records |
| Ledger.ReportCell | app.py:243-269 | every reordered ledger cell is the signed sum of its entity's amounts on its date |
| Ledger.SignConvention | app.py:243-264 | given non-negative amounts, every cell of a PROV row is at most 0 and every cell of a CLI row is at least 0 |
| Ledger.AssembledNetFlow | app.py:243-274 | on any columns, each `TOTAL FLUJO` cell is the clients' inflow minus the suppliers' outflow under that column's heading |
| Ledger.AssembledTotal | app.py:272-274 | each `TOTAL FLUJO` cell is the sum of the amounts of all lines under that heading |
| Ledger.TotalIsNetFlow | app.py:272-274 | each `TOTAL FLUJO` cell is the sum of its column and equals clients' inflow minus suppliers' outflow on that date |
| Agreement.SameColumns | app.py:146-264 | with every name text, the corrected ledger's columns are the summary columns, and so are their headings, in the same order |
| Agreement.WrittenColumns | app.py:146-264 | with every name text, a heading is a column of the ledger as written exactly when it is a summary heading |
| Agreement.NamedDayTotalIsDaySum | app.py:131-264 | the ledger's signed role total under a day's heading is that role's summary day sum, signed |
| Agreement.DayDifference | app.py:130-264 | the net flow under a summary column's heading is its `Clientes` cell minus its `Proveedores` cell, NaN counting as 0 |
| Agreement.TotalIsSummaryDifference | app.py:130-274 | each summary heading is a column of the ledger as written, and the `TOTAL FLUJO` cell under it is the `Clientes` summary cell minus the `Proveedores` summary cell for that day, NaN counting as 0 |
| Agreement.CorrectedTotalIsSummaryDifference | app.py:130-274 | in the corrected ledger, `TOTAL FLUJO` column j is summary column j's `Clientes` cell minus its `Proveedores` cell |
| Pipeline.Outcome | app.py:129-274 | steps 12 to 14 succeed exactly when both archives can be taken and the ledger is built; they fail only there, the supplier archive first; on success they give the records, the summary of them, the two archives and the ledger of the records |
| Pipeline.Continue | app.py:58-274 | after the gate the run can fail only on the date range, an `object` amount column, a non-numeric amount, an empty window, unconvertible raw dates or a name that is not text; on success both roles have records |
| Pipeline.LaterStops | app.py:58-274 | once the first four steps pass, a run can fail only on the date range, an `object` amount column, a non-numeric amount, an empty window, unconvertible raw dates or a name that is not text |
| Pipeline.Consolidation | app.py:32-309 | a failed check is the run's result; a finished run passed the check, has records of both roles, and its summary and ledger are those of its records |
| Pipeline.UndatedStops | app.py:58-77 | a sheet with no rows, or with a date that does not convert, stops the run, with the range error once the check passes |
| Pipeline.NameColumnDtypeStops | app.py:34-251 | a name column whose dtype is not `object` stops the run |
| Pipeline.ClientDueDateStops | app.py:43-161 | a client sheet with a `vencimiento_real` column stops the run; once the check and the conversions pass, with the raw-date error for the clients |
| Pipeline.EmptyWindowStops | app.py:85-111 | a window with no supplier record or no client record stops the run |
| Pipeline.SuccessStages | app.py:36-274 | a finished run passed the check and the conversions, and is the outcome of their results |
| Pipeline.SuccessDated | app.py:58-77 | in a finished run both converted date columns have rows and no NaT |
| Pipeline.SuccessRowsDated | app.py:58-163 | in a finished run every row of both converted sheets is dated |
| Pipeline.SupplierParts | app.py:85-131 | in a finished run the suppliers' records are the windowed rows, date for date |
| Pipeline.SupplierArchive | app.py:40-161 | in a finished run the supplier archive is taken from the raw copy with the coerced `vencimiento_real` |
| Pipeline.ClientParts | app.py:85-131 | in a finished run the clients' records are the windowed rows, date for date |
| Pipeline.ClientArchive | app.py:40-163 | a finished run's client sheet has no `vencimiento_real` column, and its archive is taken from the raw copy with the coerced `fecha_de_cobro` |
| Pipeline.SupplierRowsSplit | app.py:58-163 | given `start <= end`, the suppliers' converted rows are all dated and are exactly the archive, the window and the rows after it |
| Pipeline.ClientRowsSplit | app.py:58-163 | the same partition for the clients' converted rows |
| Pipeline.LedgerMatchesSummary | app.py:130-274 | in a finished run with text names, the ledger's headings are the summary's headings as a set, and the total under each summary heading is clients minus suppliers in the summary |
| Sheet.Clean | app.py:278-286 | NaN and None are written as `""`, a day as its 10-character `DD-MM-YYYY` form, strings and integers as themselves |
| Sheet.CleanDayRoundTrip | app.py:281-282 | a written day is read back as the same day |
| Sheet.Cleaned | app.py:277-286 | the cleaned row has one cleaned value per value |
| Sheet.CleanRow | app.py:277-286 | the cleaning loop gives exactly the cleaned row |
| Sheet.Widest | app.py:291 | the sheet's `max_column` is the widest row's width, at least 1 |
| Sheet.Extend | app.py:291 | reading `ws[r]` extends the row with empty cells up to `max_column` and keeps the cells it had |
| Sheet.StyledRow | app.py:291-309 | each cell of a row is restyled by its row and column position and whether the row is the total row |
| Sheet.Worksheet.constructor | app.py:226-227 | a new worksheet is empty |
| Sheet.Worksheet.Append | app.py:287 | `ws.append` adds one row of plain cells holding the cleaned values |
| Sheet.Worksheet.Touch | app.py:291 | reading `ws[r]` pads row `r` to `max_column` and changes no other row |
| Sheet.Worksheet.StyleRow | app.py:291-309 | the style loop restyles row `r` cell by cell and changes no other row |
| Sheet.AppendRow | app.py:287-289 | the cleaned row is appended, and the row counts as the total row exactly when its first written value is `TOTAL FLUJO` |
| Sheet.WriteRow | app.py:276-309 | one pass of the loop appends the written row and keeps `max_column` the widest row so far |
| Sheet.WriteRows | app.py:276-309 | the worksheet loop leaves exactly the written rows of its input |
| Sheet.WrittenCell | app.py:276-309 | each written cell is its cleaned value (empty past the row's end) styled by position and total-row status |
| Sheet.LedgerRows | app.py:276 | `dataframe_to_rows` gives the heading row, the index-names row, one row per entity, and the `TOTAL FLUJO` row last |
| Sheet.AssembledIsShaped | app.py:257-274 | an assembled report has one row per label and one cell per heading, in every row and in the total row |
| Sheet.SheetWidth | app.py:276-291 | every written row of the ledger sheet is as wide as the headings plus the label column |
| Sheet.OnlyTotalRowBold | app.py:289-309 | in the ledger sheet exactly the cells of the last (total) row are bold |
| Sheet.AmountCellsFormatted | app.py:291-309 | exactly the cells below the heading row and right of the label column get the `#,##0` format; headings are centred, amounts right-aligned |
| Sheet.SheetValues | app.py:276-287 | every written cell holds the value the ledger gives it: headings, labels, amounts, totals, or empty |
| Script.Admit | app.py:32-55 | frames normalised in place, raw copies taken and converted, the gate applied: the result is exactly what `Check` gives |
| Script.TakeRaw | app.py:40-45 | the copy with its date column converted is exactly `RawCopy` of the frame, or its error when the copy has neither date column |
| Script.Localize | app.py:97-111 | the lookups and the in-place `monto_local` columns give exactly `Localized` |
| Script.Convert | app.py:58-111 | the in-place date overwrites and the range, then the window, the in-place rounding and `monto_local`, give exactly `Conversions` of the frames' old contents |
| Script.Select | app.py:85-111 | the window, the in-place rounding and `monto_local` on the converted frames give exactly `Selected` |
| Script.TakeArchive | app.py:158-163 | the raw copy's archive is exactly `Archived`: a new frame of the rows before the window, or the raw-date error |
| Script.Finish | app.py:129-309 | the records, summary, archives and ledger (stopping on raw dates or names as `Outcome` does) are exactly `Outcome`; on success the worksheet holds the written ledger rows, and it stays empty on failure |
| Script.Start | app.py:32-55 | after the first steps the run is either stopped with their error or continues exactly as `Continue` on the frames |
| Script.Proceed | app.py:58-309 | steps 5 to 14 on the admitted frames give exactly `Continue` and write the ledger |
| Script.Run | app.py:32-309 | the whole run on the two sheets returns exactly `Consolidation`; the worksheet holds the written ledger exactly when the run finishes |

## Left out

- The Streamlit UI: `set_page_config`, titles, previews, `st.error`/`st.stop` as messages rather than error values, and the download buttons (app.py:25-30, 71-82, 113-127, 154-155, 176-179, 212-214, 315-332).
- The file I/O: `read_excel`, `ExcelWriter`, `to_excel`, `BytesIO` and `wb.save`. The sheets enter as `Table` values and the worksheet as an object in memory.
- `style_with_thousands` (app.py:18-22): a display formatter of the UI.
- Floating point: amounts and the rate are exact reals. `round` is modelled as exact half-to-even rounding, so binary rounding error in `val * rate` is not captured.
- Currency.IsUsd / Text.StripAccents / Text.Lower: Unicode is covered only for ASCII and Latin-1: NFKD decomposition, the combining marks U+0300 to U+036F, and lower-casing. Characters outside that range pass through unchanged.
- The window the user picks (app.py:71-77): it is a parameter of the run, and nothing requires `start <= end` except the partition lemmas. Only the default range is computed, because computing it can stop the run (`Pipeline.DateRange`).
- The second, duplicated pass over the pivot, the archive and the `ExcelWriter` (app.py:181-235): it recomputes the same values and writes nothing that is downloaded, so it is modelled once.
- The statement `git - -version` (app.py:310): it raises `NameError`, so that the workbook is never saved and the buttons never appear. The model ends with the written worksheet.
- Duplicate column names: `df[name]` reads the first column of that name. A DataFrame with repeated headers, which pandas would treat as a sub-frame, is not modelled.
- The `str(val)` branch of the cleaning (app.py:286) is not modelled, because every value the ledger produces is None, NaN, a string or an integer.
- The gate's error carries the whole required set, as the message does (app.py:51, 54). The model does not compute which columns are missing, because the script does not either.
- A summary cell for a day on which only the other role has records is NaN (`None`), not 0. The `fill_value=0` at app.py:134 and 142 applies only inside each single-row pivot.
- Nothing is left out of the lookup error branch (app.py:99-101). It stays in the model, and `Schema.GatePassedFindsAmountColumn` shows that it cannot be reached after the gate.
- Pandas date parsing: the model coerces a date cell, or an ISO `YYYY-MM-DD` text, within the pandas timestamp range. Every other value becomes missing, whether or not `to_datetime` would parse it.
- Conversion.RoundAmounts: an `object` amount column is modelled as raising in `round`, as current pandas does. pandas 2.0 and 2.1 return the values unrounded instead, and `astype(int)` then truncates the numbers and parses integer texts; that branch is not modelled.
- Conversion.NumericColumn: a column holding only days has dtype `datetime64`; the model stops it with the `object`-column error, since `round` raises on it too, and does not model `round(0).astype(int)` on such a column.
- Headers.NormalizeColumns: headers are strings. A non-string header (a number read from the sheet) makes `unicodedata.normalize` raise (app.py:13); that stop is not modelled.
- The comparisons and `min`/`max` follow pandas 2 and a current NumPy: `Series.min()` of an `object` column with NaT and days raises, of a column without days is NaN, and NaN passed to `min`, `max` or the date widget raises; a date column compared with a day, in `object` dtype, treats NaT as false; a raw column still `datetime64`, `str` or `float` raises when compared with a day.
- A sheet with headers and no rows reads every column as `object`; step 6 stops such a sheet before any dtype matters (`Pipeline.UndatedStops`).
- Conversion.AddLocalAmount: the empty-window error assumes a NumPy in which `round` of a NaN float raises. Under an older NumPy that returns NaN, the probe succeeds and an empty window converts to an empty column.
- `dataframe_to_rows` (app.py:276): it is modelled by the rows it yields for the ledger (`Sheet.LedgerRows`), not by its implementation.

## Findings

| source | as written | input that shows it | evidently intended | confidence | as-written member | corrected member |
|---|---|---|---|---|---|---|
| app.py:245-264 | The ledger's `Fecha` columns are `DD-MM-YYYY` strings, so `pivot_table` sorts them as strings, by day of month first. | Records dated 2024-01-02 and 2024-02-01: the columns come out as `01-02-2024`, `02-01-2024`, in the opposite of calendar order. | Columns in calendar order, as in the summary sheet (app.py:147-152). | high (not executed) | Ledger.HeadingsAsWritten, Ledger.HeadingsAsWrittenOutOfOrder, Ledger.Build | Ledger.Headings, Ledger.BuildInCalendarOrder, Agreement.SameColumns, Agreement.CorrectedTotalIsSummaryDifference |
