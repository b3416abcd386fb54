/** The signal CSV as the scripts read it at start-up: rows already split
    into columns, the date column split into year, month and day, rows kept
    by their prediction flag and year, and one buy event scheduled per kept
    row.

    The CSV of a script that reads its symbol from the file has the columns
    symbol, date, prediction (plus expected, equal and correctbuysignal for
    qc_BuyStock.py), so that after the date and flag columns are dropped a
    kept row reads [symbol, year, month, day]. The CSV of the other scripts
    has only the date and prediction columns. */
module Signals {
  import opened Base

  /** One CSV row, already split into its columns. */
  datatype Row = Row(symbol: Symbol, date: string, prediction: int, expected: int)

  /** A kept row of a symbol CSV: [symbol, year, month, day], all cast to int. */
  datatype Signal = Signal(symbol: Symbol, year: int, month: int, day: int)

  /** A kept row of a date-only CSV: the year is cast; the month and day are
      still text (or missing) until the buy is scheduled. */
  datatype Kept = Kept(year: int, month: Option<string>, day: Option<string>)

  /** Where the pieces of the date column go. */
  datatype DateLayout = YearMonthDay | MonthDayYear

  function Separator(layout: DateLayout): char
  {
    match layout
    case YearMonthDay => '-'
    case MonthDayYear => '/'
  }

  /** The piece that holds the year, month and day. */
  function YearPiece(layout: DateLayout): nat { if layout == YearMonthDay then 0 else 2 }
  function MonthPiece(layout: DateLayout): nat { if layout == YearMonthDay then 1 else 0 }
  function DayPiece(layout: DateLayout): nat { if layout == YearMonthDay then 2 else 1 }

  /** Piece k of a row's split date; a row with fewer pieces has None there. */
  function DateField(r: Row, layout: DateLayout, k: nat): Option<string>
  {
    var parts := Split(r.date, Separator(layout));
    if k < |parts| then Some(parts[k]) else None
  }

  /** `str.split(sep, expand=True)` yields as many columns as the row with
      the most pieces, and assigning them to three named columns needs
      exactly three. With no rows pandas has no column to assign and raises
      ValueError; this model lets an empty file pass. The scripts that read a
      symbol column then fail on the empty array (IndexError); the date-only
      scripts schedule nothing and succeed. */
  predicate ThreeColumns(rows: seq<Row>, layout: DateLayout)
  {
    rows == [] ||
    ((forall i :: 0 <= i < |rows| ==> |Split(rows[i].date, Separator(layout))| <= 3) &&
     (exists i :: 0 <= i < |rows| && |Split(rows[i].date, Separator(layout))| == 3))
  }

  /** int() on one date field: a missing field raises TypeError, text that
      is not a number ValueError. */
  function CastField(f: Option<string>): (r: Result<int>)
    ensures r.Ok? <==> f.Some? && ParseInt(f.value).Some?
    ensures r.Ok? ==> r.value == ParseInt(f.value).value
  {
    match f
    case None => Err(TypeError)
    case Some(s) =>
      match ParseInt(s)
      case Some(n) => Ok(n)
      case None => Err(ValueError)
  }

  /** `astype(int)` on date piece k of every row, in row order. */
  function CastColumn(rows: seq<Row>, layout: DateLayout, k: nat): (r: Result<seq<int>>)
    ensures r.Ok? <==> forall i :: 0 <= i < |rows| ==> CastField(DateField(rows[i], layout, k)).Ok?
    ensures r.Ok? ==> (|r.value| == |rows| &&
      forall i :: 0 <= i < |rows| ==> r.value[i] == CastField(DateField(rows[i], layout, k)).value)
  {
    if rows == [] then Ok([])
    else
      var v :- CastField(DateField(rows[0], layout, k));
      var rest :- CastColumn(rows[1..], layout, k);
      assert forall i :: 0 < i < |rows| ==> rows[i] == rows[1..][i - 1];
      Ok([v] + rest)
  }

  /** The first year for which the host has option data. */
  const FirstOptionYear := 2010

  /** A row whose three date pieces all cast. */
  predicate Castable(r: Row)
  {
    && CastField(DateField(r, YearMonthDay, 0)).Ok?
    && CastField(DateField(r, YearMonthDay, 1)).Ok?
    && CastField(DateField(r, YearMonthDay, 2)).Ok?
  }

  function RowSignal(r: Row): Signal
    requires Castable(r)
  {
    Signal(r.symbol, CastField(DateField(r, YearMonthDay, 0)).value,
           CastField(DateField(r, YearMonthDay, 1)).value,
           CastField(DateField(r, YearMonthDay, 2)).value)
  }

  /** `to_numpy()` of the cast frame: one signal per row. */
  function MapSignals(rows: seq<Row>): (sigs: seq<Signal>)
    requires forall r :: r in rows ==> Castable(r)
    ensures |sigs| == |rows|
  {
    if rows == [] then [] else [RowSignal(rows[0])] + MapSignals(rows[1..])
  }

  /** The pipeline of a symbol CSV (Kevin/Archive/nn_call_underlyingTrailStop.py
      and Kevin/qc_BuyStock.py): split the date on '-', keep the flagged rows,
      cast the year, month and day columns in turn, keep the years from 2010 on. */
  function SymbolSignals(rows: seq<Row>, flagged: Row -> bool): Result<seq<Signal>>
  {
    if !ThreeColumns(rows, YearMonthDay) then Err(ValueError)
    else
      var kept := Filter(rows, flagged);
      var years :- CastColumn(kept, YearMonthDay, 0);
      var months :- CastColumn(kept, YearMonthDay, 1);
      var days :- CastColumn(kept, YearMonthDay, 2);
      assert forall r :: r in kept ==> Castable(r);
      Ok(Filter(MapSignals(kept), (s: Signal) => s.year >= FirstOptionYear))
  }

  /** The kept rows, one row at a time: a flagged row from 2010 on becomes
      its signal, every other row is dropped. */
  function KeptSignals(rows: seq<Row>, flagged: Row -> bool): (sigs: seq<Signal>)
    requires forall r :: r in rows && flagged(r) ==> Castable(r)
    ensures forall s :: s in sigs ==> s.year >= FirstOptionYear && exists r :: r in rows && flagged(r) && RowSignal(r) == s
    ensures forall r :: r in rows && flagged(r) && RowSignal(r).year >= FirstOptionYear ==> RowSignal(r) in sigs
  {
    if rows == [] then []
    else
      var rest := KeptSignals(rows[1..], flagged);
      if flagged(rows[0]) && RowSignal(rows[0]).year >= FirstOptionYear then [RowSignal(rows[0])] + rest
      else rest
  }

  lemma {:induction false} PipelineIsKept(rows: seq<Row>, flagged: Row -> bool)
    requires forall r :: r in rows && flagged(r) ==> Castable(r)
    ensures forall r :: r in Filter(rows, flagged) ==> Castable(r)
    ensures Filter(MapSignals(Filter(rows, flagged)), (s: Signal) => s.year >= FirstOptionYear)
         == KeptSignals(rows, flagged)
    decreases |rows|
  {
    var keep := (s: Signal) => s.year >= FirstOptionYear;
    if rows != [] {
      var tail := Filter(rows[1..], flagged);
      PipelineIsKept(rows[1..], flagged);
      if flagged(rows[0]) {
        var kept := [rows[0]] + tail;
        assert Filter(rows, flagged) == kept;
        assert kept[1..] == tail;
        var m := MapSignals(kept);
        assert m == [RowSignal(rows[0])] + MapSignals(tail);
        assert m[1..] == MapSignals(tail);
      } else {
        assert Filter(rows, flagged) == tail;
      }
    }
  }

  lemma ColumnsCastIffCastable(kept: seq<Row>)
    ensures (CastColumn(kept, YearMonthDay, 0).Ok? && CastColumn(kept, YearMonthDay, 1).Ok?
             && CastColumn(kept, YearMonthDay, 2).Ok?)
        <==> forall r :: r in kept ==> Castable(r)
  {
    if forall r :: r in kept ==> Castable(r) {
      forall i | 0 <= i < |kept| ensures Castable(kept[i]) {
        assert kept[i] in kept;
      }
    }
  }

  lemma FilterKeepsCastable(rows: seq<Row>, flagged: Row -> bool)
    ensures (forall r :: r in Filter(rows, flagged) ==> Castable(r))
        <==> (forall r :: r in rows && flagged(r) ==> Castable(r))
  {
    var kept := Filter(rows, flagged);
    if forall r :: r in kept ==> Castable(r) {
      forall r | r in rows && flagged(r) ensures Castable(r) {
        var i :| 0 <= i < |rows| && rows[i] == r;
      }
    }
    if forall r :: r in rows && flagged(r) ==> Castable(r) {
      forall r | r in kept ensures Castable(r) {
        var i :| 0 <= i < |kept| && kept[i] == r;
      }
    }
  }

  /** The pipeline either fails, because the date column does not split into
      three or some flagged row's date does not cast, or keeps exactly the
      flagged rows from 2010 on, in file order, cast to signals. */
  lemma SymbolSignalsSpec(rows: seq<Row>, flagged: Row -> bool)
    ensures SymbolSignals(rows, flagged).Ok? <==>
      ThreeColumns(rows, YearMonthDay) && forall r :: r in rows && flagged(r) ==> Castable(r)
    ensures SymbolSignals(rows, flagged).Ok? ==> SymbolSignals(rows, flagged).value == KeptSignals(rows, flagged)
  {
    ColumnsCastIffCastable(Filter(rows, flagged));
    FilterKeepsCastable(rows, flagged);
    if ThreeColumns(rows, YearMonthDay) && forall r :: r in rows && flagged(r) ==> Castable(r) {
      PipelineIsKept(rows, flagged);
    }
  }

  /** Start and end of the backtest and the symbol traded, read from the
      first and last kept rows. */
  datatype Backtest = Backtest(start: Signal, end: Signal, symbol: Symbol, events: seq<Scheduled>)

  /** One BuySignal event per kept row, on its date, at hour:minute. */
  function ScheduleSignals(sigs: seq<Signal>, hour: int, minute: int): (events: seq<Scheduled>)
    ensures |events| == |sigs|
    ensures forall i :: 0 <= i < |sigs| ==>
      events[i] == At(sigs[i].year, sigs[i].month, sigs[i].day, hour, minute)
  {
    seq(|sigs|, i requires 0 <= i < |sigs| => At(sigs[i].year, sigs[i].month, sigs[i].day, hour, minute))
  }

  /** The backtest starts on the first kept row's date, ends on the last
      one's and trades the first one's symbol, then the schedule is set up;
      reading the first row of an empty array raises IndexError. */
  function Setup(sigs: seq<Signal>, hour: int, minute: int): (r: Result<Backtest>)
    ensures r.Err? <==> sigs == []
    ensures r.Err? ==> r.error == IndexError
    ensures r.Ok? ==> (r.value.start == sigs[0] && r.value.end == sigs[|sigs| - 1]
                    && r.value.symbol == sigs[0].symbol
                    && r.value.events == ScheduleSignals(sigs, hour, minute))
  {
    if sigs == [] then Err(IndexError)
    else Ok(Backtest(sigs[0], sigs[|sigs| - 1], sigs[0].symbol, ScheduleSignals(sigs, hour, minute)))
  }

  /** A row whose year piece casts. */
  predicate YearCastable(r: Row, layout: DateLayout)
  {
    CastField(DateField(r, layout, YearPiece(layout))).Ok?
  }

  function RowKept(r: Row, layout: DateLayout): Kept
    requires YearCastable(r, layout)
  {
    Kept(CastField(DateField(r, layout, YearPiece(layout))).value,
         DateField(r, layout, MonthPiece(layout)), DateField(r, layout, DayPiece(layout)))
  }

  function MapKept(rows: seq<Row>, layout: DateLayout): (kept: seq<Kept>)
    requires forall r :: r in rows ==> YearCastable(r, layout)
    ensures |kept| == |rows|
  {
    if rows == [] then [] else [RowKept(rows[0], layout)] + MapKept(rows[1..], layout)
  }

  predicate Predicted(r: Row) { r.prediction == 1 }

  /** The pipeline of a date-only CSV: split the date by its layout, keep the
      rows with prediction 1, cast only the year, keep the years `yearOk`
      accepts. */
  function DateOnlySignals(rows: seq<Row>, layout: DateLayout, yearOk: int -> bool): Result<seq<Kept>>
  {
    if !ThreeColumns(rows, layout) then Err(ValueError)
    else
      var kept := Filter(rows, Predicted);
      var years :- CastColumn(kept, layout, YearPiece(layout));
      assert forall r :: r in kept ==> YearCastable(r, layout);
      Ok(Filter(MapKept(kept, layout), (k: Kept) => yearOk(k.year)))
  }

  /** The kept rows, one row at a time. */
  function KeptDates(rows: seq<Row>, layout: DateLayout, yearOk: int -> bool): (kept: seq<Kept>)
    requires forall r :: r in rows && Predicted(r) ==> YearCastable(r, layout)
    ensures forall k :: k in kept ==> yearOk(k.year) && exists r :: r in rows && Predicted(r) && RowKept(r, layout) == k
    ensures forall r :: r in rows && Predicted(r) && yearOk(RowKept(r, layout).year) ==> RowKept(r, layout) in kept
  {
    if rows == [] then []
    else
      var rest := KeptDates(rows[1..], layout, yearOk);
      if Predicted(rows[0]) && yearOk(RowKept(rows[0], layout).year) then [RowKept(rows[0], layout)] + rest
      else rest
  }

  lemma {:induction false} DatePipelineIsKept(rows: seq<Row>, layout: DateLayout, yearOk: int -> bool)
    requires forall r :: r in rows && Predicted(r) ==> YearCastable(r, layout)
    ensures forall r :: r in Filter(rows, Predicted) ==> YearCastable(r, layout)
    ensures Filter(MapKept(Filter(rows, Predicted), layout), (k: Kept) => yearOk(k.year))
         == KeptDates(rows, layout, yearOk)
    decreases |rows|
  {
    if rows != [] {
      var tail := Filter(rows[1..], Predicted);
      DatePipelineIsKept(rows[1..], layout, yearOk);
      if Predicted(rows[0]) {
        var kept := [rows[0]] + tail;
        assert Filter(rows, Predicted) == kept;
        assert kept[1..] == tail;
        var m := MapKept(kept, layout);
        assert m[1..] == MapKept(tail, layout);
      } else {
        assert Filter(rows, Predicted) == tail;
      }
    }
  }

  /** The date-only pipeline fails exactly when the date column does not
      split into three or the year of some row with prediction 1 does not
      cast; otherwise it keeps exactly those rows whose year `yearOk` accepts,
      in file order. */
  lemma DateOnlySignalsSpec(rows: seq<Row>, layout: DateLayout, yearOk: int -> bool)
    ensures DateOnlySignals(rows, layout, yearOk).Ok? <==>
      ThreeColumns(rows, layout) && forall r :: r in rows && Predicted(r) ==> YearCastable(r, layout)
    ensures DateOnlySignals(rows, layout, yearOk).Ok? ==>
      DateOnlySignals(rows, layout, yearOk).value == KeptDates(rows, layout, yearOk)
  {
    if ThreeColumns(rows, layout) && forall r :: r in rows && Predicted(r) ==> YearCastable(r, layout) {
      DateOnlyKeeps(rows, layout, yearOk);
    } else if ThreeColumns(rows, layout) {
      DateOnlyFails(rows, layout, yearOk);
    }
  }

  lemma DateOnlyKeeps(rows: seq<Row>, layout: DateLayout, yearOk: int -> bool)
    requires ThreeColumns(rows, layout) && forall r :: r in rows && Predicted(r) ==> YearCastable(r, layout)
    ensures DateOnlySignals(rows, layout, yearOk) == Ok(KeptDates(rows, layout, yearOk))
  {
    var kept := Filter(rows, Predicted);
    forall i | 0 <= i < |kept| ensures CastField(DateField(kept[i], layout, YearPiece(layout))).Ok? {
      assert kept[i] in rows && Predicted(kept[i]);
    }
    assert CastColumn(kept, layout, YearPiece(layout)).Ok?;
    DatePipelineIsKept(rows, layout, yearOk);
  }

  lemma DateOnlyFails(rows: seq<Row>, layout: DateLayout, yearOk: int -> bool)
    requires ThreeColumns(rows, layout) && !forall r :: r in rows && Predicted(r) ==> YearCastable(r, layout)
    ensures DateOnlySignals(rows, layout, yearOk).Err?
  {
    var kept := Filter(rows, Predicted);
    var r :| r in rows && Predicted(r) && !YearCastable(r, layout);
    assert r in kept;
    var i :| 0 <= i < |kept| && kept[i] == r;
    assert CastColumn(kept, layout, YearPiece(layout)).Err?;
  }

  /** Scheduling a kept date-only row casts its month and day; the year is
      already an int. */
  function ScheduleKept(kept: seq<Kept>, hour: int, minute: int): (r: Result<seq<Scheduled>>)
    ensures r.Ok? <==> forall i :: 0 <= i < |kept| ==> CastField(kept[i].month).Ok? && CastField(kept[i].day).Ok?
    ensures r.Ok? ==> (|r.value| == |kept| && forall i :: 0 <= i < |kept| ==>
      r.value[i] == At(kept[i].year, CastField(kept[i].month).value, CastField(kept[i].day).value, hour, minute))
  {
    if kept == [] then Ok([])
    else
      var month :- CastField(kept[0].month);
      var day :- CastField(kept[0].day);
      var rest :- ScheduleKept(kept[1..], hour, minute);
      assert forall i :: 0 < i < |kept| ==> kept[i] == kept[1..][i - 1];
      Ok([At(kept[0].year, month, day, hour, minute)] + rest)
  }
}
