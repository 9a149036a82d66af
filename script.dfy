/**
 * The script's run from the two uploaded sheets to the styled ledger
 * worksheet, statement by statement on mutable frames: the headers
 * normalised in place, the raw copies taken and their date column
 * converted, the column gate, the date columns overwritten, the window
 * selected, the amounts rounded in place, the amount columns looked up,
 * `monto_local` added, the summary and the archives built, and the ledger
 * written row by row into the worksheet. Each stop of the script is an
 * early return carrying its error, and the run as a whole computes exactly
 * what the staged pipeline function describes.
 */
module Script {
  import opened Wrappers
  import opened Dates
  import opened Records
  import opened Schema
  import opened Window
  import opened Pipeline
  import opened Frames
  import Conversion
  import Sheet
  import Ledger
  import Summary

  /**
   * Steps 2 to 4: both sheets as frames with their headers normalised, the
   * raw copies with their date column converted, suppliers first, and the
   * column gate, suppliers first. The copies are what `Check` accepts.
   */
  method Admit(provIn: Table, cliIn: Table) returns (prov: Frame, cli: Frame, raws: Result<(Frame, Frame), Error>)
    requires Rectangular(provIn) && Rectangular(cliIn)
    ensures fresh(prov) && fresh(cli) && prov != cli
    ensures prov.Snapshot() == Normalize(provIn) && cli.Snapshot() == Normalize(cliIn)
    ensures raws.Success? ==> fresh(raws.value.0) && fresh(raws.value.1) && raws.value.0 != raws.value.1
    ensures raws.Success? ==> raws.value.0 !in {prov, cli} && raws.value.1 !in {prov, cli}
    ensures raws.Success? ==> Check(provIn, cliIn) == Success((raws.value.0.Snapshot(), raws.value.1.Snapshot()))
    ensures raws.Failure? ==> Check(provIn, cliIn) == Failure(raws.error)
  {
    // 2) the sheets as frames, their headers normalised in place
    prov := new Frame(provIn);
    cli := new Frame(cliIn);
    prov.NormalizeColumns();
    cli.NormalizeColumns();

    // 3) the raw copies, with the date column each one has converted
    var provRaw := TakeRaw(Suppliers, prov);
    if provRaw.Failure? {
      return prov, cli, Failure(provRaw.error);
    }
    var cliRaw := TakeRaw(Clients, cli);
    if cliRaw.Failure? {
      return prov, cli, Failure(cliRaw.error);
    }

    // 4) the required columns, suppliers first
    var provGate := Gate(Suppliers, prov.Snapshot());
    if provGate.Failure? {
      return prov, cli, Failure(provGate.error);
    }
    var cliGate := Gate(Clients, cli.Snapshot());
    if cliGate.Failure? {
      return prov, cli, Failure(cliGate.error);
    }
    raws := Success((provRaw.value, cliRaw.value));
  }

  /**
   * Step 3 for one sheet: `df.copy()`, then the date column the copy has
   * (`vencimiento_real` first) overwritten with its coerced values; a copy
   * with neither date column raises.
   */
  method TakeRaw(src: Source, f: Frame) returns (raw: Result<Frame, Error>)
    requires Rectangular(f.Snapshot())
    ensures raw.Success? ==> fresh(raw.value)
    ensures raw.Success? ==> RawCopy(src, f.Snapshot()) == Success(raw.value.Snapshot())
    ensures raw.Failure? ==> RawCopy(src, f.Snapshot()) == Failure(raw.error)
  {
    var copy := f.Copy();
    var date := RawDateColumn(copy.columns);
    if date.None? {
      return Failure(NoDateColumn(src));
    }
    copy.CoerceDates(date.value);
    raw := Success(copy);
  }

  /**
   * Steps 9 and 10 on both roles: the amount column looked up in each, then
   * `monto_local` added to each frame, suppliers first; as `Localized`
   * describes.
   */
  method Localize(req: Request, prov: Frame, cli: Frame) returns (r: Result<(seq<int>, seq<int>), Error>)
    requires prov != cli && Rectangular(prov.Snapshot()) && Rectangular(cli.Snapshot())
    modifies prov, cli
    ensures var l := Localized(req, old(prov.Snapshot()), old(cli.Snapshot()));
      (r.Success? <==> l.Success?) && (r.Failure? ==> l == Failure(r.error))
    ensures r.Success? ==> (Localized(req, old(prov.Snapshot()), old(cli.Snapshot()))
      == Success(((prov.Snapshot(), r.value.0), (cli.Snapshot(), r.value.1))))
  {
    var provCol := FindAmountColumn(Suppliers, prov.columns);
    var cliCol := FindAmountColumn(Clients, cli.columns);
    if provCol.None? || cliCol.None? {
      return Failure(AmountColumnsNotFound);
    }
    var provAmounts := prov.AddLocalAmount(Suppliers, provCol.value, req.rate);
    if provAmounts.Failure? {
      return Failure(provAmounts.error);
    }
    var cliAmounts := cli.AddLocalAmount(Clients, cliCol.value, req.rate);
    if cliAmounts.Failure? {
      return Failure(cliAmounts.error);
    }
    r := Success((provAmounts.value, cliAmounts.value));
  }

  /**
   * Steps 5 to 10 on both roles, on frames that passed the gate: the date
   * columns overwritten in place, their range, the rows in the window
   * selected into new frames, the canonical amount columns rounded in
   * place, suppliers first, and `monto_local` added; as `Conversions`
   * describes. The dtype of each amount column is `read_excel`'s, read off
   * the sheet before any step changes it.
   */
  method Convert(req: Request, prov: Frame, cli: Frame) returns (provW: Frame, cliW: Frame, r: Result<(seq<int>, seq<int>), Error>)
    requires prov != cli && Rectangular(prov.Snapshot()) && Rectangular(cli.Snapshot())
    requires Gate(Suppliers, prov.Snapshot()).Success? && Gate(Clients, cli.Snapshot()).Success?
    modifies prov, cli
    ensures fresh(provW) && fresh(cliW)
    ensures var c := Conversions(req, old(prov.Snapshot()), old(cli.Snapshot()));
      (r.Success? <==> c.Success?) && (r.Failure? ==> c == Failure(r.error))
    ensures r.Success? ==> (Conversions(req, old(prov.Snapshot()), old(cli.Snapshot()))
      == Success(((provW.Snapshot(), r.value.0), (cliW.Snapshot(), r.value.1))))
  {
    ghost var prov0, cli0 := prov.Snapshot(), cli.Snapshot();
    var provNumeric := Conversion.NumericColumn(prov.Snapshot(), Suppliers.AmountColumn());
    var cliNumeric := Conversion.NumericColumn(cli.Snapshot(), Clients.AmountColumn());

    // 5) the date columns overwritten in place
    prov.CoerceDates(Suppliers.DateColumn());
    cli.CoerceDates(Clients.DateColumn());

    // 6) the range the date picker starts from
    CoercedCells(prov0, Suppliers.DateColumn());
    CoercedCells(cli0, Clients.DateColumn());
    var range := DateRange(prov.Snapshot(), cli.Snapshot());
    assert range == SheetRange(prov0, cli0);
    if range.Failure? {
      provW := prov.Copy();
      cliW := cli.Copy();
      return provW, cliW, Failure(range.error);
    }

    // 7) and 8) the rows in the window, then their amounts rounded
    provW, cliW, r := Select(req, prov0, cli0, prov, cli, provNumeric, cliNumeric);
  }

  /**
   * Steps 7 to 10 on frames whose date columns step 5 has converted: the
   * rows in the window selected into new frames, the canonical amount
   * columns rounded in place, suppliers first, then `monto_local`; as
   * `Selected` describes for the sheets `prov0` and `cli0` before step 5.
   */
  method Select(req: Request, ghost prov0: Table, ghost cli0: Table, prov: Frame, cli: Frame, provNumeric: bool, cliNumeric: bool)
    returns (provW: Frame, cliW: Frame, r: Result<(seq<int>, seq<int>), Error>)
    requires Rectangular(prov0) && Rectangular(cli0)
    requires Gate(Suppliers, prov0).Success? && Gate(Clients, cli0).Success?
    requires prov.Snapshot() == CoerceColumn(prov0, Suppliers.DateColumn()) && cli.Snapshot() == CoerceColumn(cli0, Clients.DateColumn())
    requires provNumeric == Conversion.NumericColumn(prov0, Suppliers.AmountColumn())
    requires cliNumeric == Conversion.NumericColumn(cli0, Clients.AmountColumn())
    ensures fresh(provW) && fresh(cliW)
    ensures var c := Selected(req, prov0, cli0);
      (r.Success? <==> c.Success?) && (r.Failure? ==> c == Failure(r.error))
    ensures r.Success? ==> Selected(req, prov0, cli0) == Success(((provW.Snapshot(), r.value.0), (cliW.Snapshot(), r.value.1)))
  {
    // 7) the rows in the window, in new frames
    provW := prov.Between(Suppliers.DateColumn(), req.start, req.end);
    cliW := cli.Between(Clients.DateColumn(), req.start, req.end);
    assert provW.Snapshot() == Windowed(Suppliers, req, prov0);
    assert cliW.Snapshot() == Windowed(Clients, req, cli0);

    // 8) the canonical amount columns rounded in place, suppliers first
    var err := provW.RoundAmounts(Suppliers, provNumeric);
    if err.Some? {
      return provW, cliW, Failure(err.value);
    }
    assert provW.Snapshot() == Prepared(Suppliers, req, prov0).value;
    err := cliW.RoundAmounts(Clients, cliNumeric);
    if err.Some? {
      return provW, cliW, Failure(err.value);
    }
    assert cliW.Snapshot() == Prepared(Clients, req, cli0).value;

    // 9) and 10) the amount columns looked up, then `monto_local`
    GatePassedFindsAmountColumn(Suppliers, prov0);
    GatePassedFindsAmountColumn(Clients, cli0);
    r := Localize(req, provW, cliW);
  }

  /**
   * Step 13 for one role: the raw rows before the window, selected into a
   * new frame, when the raw copy's own date column can be compared with
   * the start day; as `Archived` describes.
   */
  method TakeArchive(src: Source, raw: Frame, start: Date) returns (r: Result<Frame, Error>)
    ensures r.Success? ==> fresh(r.value) && Archived(src, raw.Snapshot(), start) == Success(r.value.Snapshot())
    ensures r.Failure? ==> Archived(src, raw.Snapshot(), start) == Failure(r.error)
  {
    if RawDateColumn(raw.columns) != Some(src.DateColumn()) && |raw.rows| > 0 {
      return Failure(RawDatesNotComparable(src));
    }
    var archive := raw.Before(src.DateColumn(), start);
    r := Success(archive);
  }

  /**
   * Steps 12 to 14: the records and the summary, the archives of the raw
   * rows before the window, and the ledger written into the worksheet; as
   * `Outcome` describes, `names` saying whether each name column is
   * `object`.
   */
  method Finish(req: Request, names: (bool, bool), provRaw: Frame, cliRaw: Frame, provW: Frame, cliW: Frame, amounts: (seq<int>, seq<int>),
                ws: Sheet.Worksheet) returns (r: Result<Outputs, Error>)
    requires AllDated(provW.Snapshot(), Suppliers.DateColumn()) && |amounts.0| == |provW.rows|
    requires AllDated(cliW.Snapshot(), Clients.DateColumn()) && |amounts.1| == |cliW.rows|
    requires ws.rows == []
    modifies ws
    ensures r == Outcome(req, (provRaw.Snapshot(), cliRaw.Snapshot()), names, ((provW.Snapshot(), amounts.0), (cliW.Snapshot(), amounts.1)))
    ensures r.Success? ==> Sheet.Shaped(r.value.ledger) && ws.rows == Sheet.Written(Sheet.LedgerRows(r.value.ledger))
    ensures r.Failure? ==> ws.rows == []
  {
    // 12) the records and the summary matrix
    var provEs := Entries(Suppliers, provW.Snapshot(), amounts.0);
    var cliEs := Entries(Clients, cliW.Snapshot(), amounts.1);
    var summary := Summary.Consolidate(provEs, cliEs);

    // 13) the archives of the raw rows, suppliers first
    var provArchive := TakeArchive(Suppliers, provRaw, req.start);
    if provArchive.Failure? {
      return Failure(provArchive.error);
    }
    var cliArchive := TakeArchive(Clients, cliRaw, req.start);
    if cliArchive.Failure? {
      return Failure(cliArchive.error);
    }

    // 14) the ledger, written into the worksheet row by row
    var rep := Ledger.BuildFromSheets(names, provEs, cliEs);
    if rep.Failure? {
      return Failure(rep.error);
    }
    var lines := Ledger.BuildLines(provEs, cliEs);
    Sheet.AssembledIsShaped(lines, Ledger.HeadingsAsWritten(lines));
    Sheet.WriteRows(ws, Sheet.LedgerRows(rep.value));
    r := Success(Outputs(provW.Snapshot(), cliW.Snapshot(), provEs, cliEs, summary,
      provArchive.value.Snapshot(), cliArchive.value.Snapshot(), rep.value));
  }

  /**
   * Steps 2 to 14 of the script on sheets `provIn` (suppliers) and `cliIn`
   * (clients), writing the ledger into the fresh worksheet `ws`. The result
   * is the one `Consolidation` describes, and the worksheet holds the
   * styled ledger rows exactly when the run gets that far.
   */
  method Run(req: Request, provIn: Table, cliIn: Table, ws: Sheet.Worksheet) returns (r: Result<Outputs, Error>)
    requires Rectangular(provIn) && Rectangular(cliIn)
    requires ws.rows == []
    modifies ws
    ensures r == Consolidation(req, provIn, cliIn)
    ensures r.Success? ==> Sheet.Shaped(r.value.ledger) && ws.rows == Sheet.Written(Sheet.LedgerRows(r.value.ledger))
    ensures r.Failure? ==> ws.rows == []
  {
    var prov, cli, raws := Start(req, provIn, cliIn);
    if raws.Failure? {
      return Failure(raws.error);
    }
    r := Proceed(req, prov.Snapshot(), cli.Snapshot(), (raws.value.0.Snapshot(), raws.value.1.Snapshot()),
      prov, cli, raws.value.0, raws.value.1, ws);
  }

  /** `Admit`, with what its outcome means for the whole run. */
  method Start(req: Request, provIn: Table, cliIn: Table) returns (prov: Frame, cli: Frame, raws: Result<(Frame, Frame), Error>)
    requires Rectangular(provIn) && Rectangular(cliIn)
    ensures fresh(prov) && fresh(cli) && prov != cli
    ensures Rectangular(prov.Snapshot()) && Rectangular(cli.Snapshot())
    ensures raws.Success? ==> fresh(raws.value.0) && fresh(raws.value.1)
    ensures raws.Success? ==> raws.value.0 !in {prov, cli} && raws.value.1 !in {prov, cli}
    ensures raws.Success? ==> Gate(Suppliers, prov.Snapshot()).Success? && Gate(Clients, cli.Snapshot()).Success?
    ensures raws.Success? ==> (Consolidation(req, provIn, cliIn)
      == Continue(req, prov.Snapshot(), cli.Snapshot(), (raws.value.0.Snapshot(), raws.value.1.Snapshot())))
    ensures raws.Failure? ==> Consolidation(req, provIn, cliIn) == Failure(raws.error)
  {
    prov, cli, raws := Admit(provIn, cliIn);
    if raws.Failure? {
      CheckStops(req, provIn, cliIn);
    } else {
      CheckContinues(req, provIn, cliIn);
    }
  }

  /** Steps 5 to 14, on frames `Admit` let through with their raw copies; as `Continue` describes. */
  method Proceed(req: Request, ghost prov0: Table, ghost cli0: Table, ghost raws: (Table, Table),
                 prov: Frame, cli: Frame, provRaw: Frame, cliRaw: Frame, ws: Sheet.Worksheet)
    returns (r: Result<Outputs, Error>)
    requires prov != cli && provRaw !in {prov, cli} && cliRaw !in {prov, cli}
    requires prov.Snapshot() == prov0 && cli.Snapshot() == cli0 && (provRaw.Snapshot(), cliRaw.Snapshot()) == raws
    requires Rectangular(prov0) && Rectangular(cli0)
    requires Gate(Suppliers, prov0).Success? && Gate(Clients, cli0).Success?
    requires ws.rows == []
    modifies prov, cli, ws
    ensures r == Continue(req, prov0, cli0, raws)
    ensures r.Success? ==> Sheet.Shaped(r.value.ledger) && ws.rows == Sheet.Written(Sheet.LedgerRows(r.value.ledger))
    ensures r.Failure? ==> ws.rows == []
  {
    var names := ObjectNames(prov.Snapshot(), cli.Snapshot());
    var provW, cliW, amounts := Convert(req, prov, cli);
    if amounts.Failure? {
      return Failure(amounts.error);
    }
    r := Finish(req, names, provRaw, cliRaw, provW, cliW, amounts.value, ws);
  }
}
