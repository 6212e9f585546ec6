/** trading_bot/core/trade_data.py: the CSV trade history of `TradeData`,
    its header, the per-trade row, the daily loss over today's rows, and
    the guards of the data-frame operations. */
module CoreTradeData {
  import opened Common

  /** The header `ensure_file_exists` writes. */
  const TradeDataHeader: Row :=
    [Str("timestamp"), Str("pair"), Str("side"), Str("entry_price"), Str("exit_price"), Str("profit_loss")]

  /** The row `log_trade` writes, the numbers as their `str()` text: the
      profit read back is exit minus entry whatever the side (before
      rounding to 2 places). */
  function TradeRow(timestamp: string, pair: string, side: string, entryPrice: real, exitPrice: real): (row: Row)
    ensures |row| == |TradeDataHeader|
    ensures row[0] == Str(timestamp) && Floatable(row[|row| - 1])
    ensures FloatOf(row[|row| - 1]) == exitPrice - entryPrice
  {
    [Str(timestamp), Str(pair), Str(side), PyStr(Num(entryPrice)), PyStr(Num(exitPrice)), PyStr(Num(exitPrice - entryPrice))]
  }

  /** A non-empty row whose first cell starts with `today`. */
  predicate StampedToday(row: Row, today: string) {
    |row| > 0 && TextStartsWith(row[0], today)
  }

  /** Every row stamped today ends with a cell `float(row[-1])` accepts. */
  predicate DailyReadable(rows: seq<Row>, today: string) {
    forall i :: 0 <= i < |rows| ==> StampedToday(rows[i], today) ==> Floatable(rows[i][|rows[i]| - 1])
  }

  /** What one data row adds to the daily loss: |pnl| for a loss of today. */
  function LossOf(row: Row, today: string): (loss: real)
    requires StampedToday(row, today) ==> Floatable(row[|row| - 1])
    ensures loss >= 0.0
  {
    if StampedToday(row, today) && FloatOf(row[|row| - 1]) < 0.0 then Abs(FloatOf(row[|row| - 1])) else 0.0
  }

  /** The daily loss over the data rows: the sum of |pnl| over today's rows
      with a negative pnl. */
  function DailyLoss(rows: seq<Row>, today: string): (total: real)
    requires DailyReadable(rows, today)
    ensures total >= 0.0
  {
    if rows == [] then 0.0
    else
      assert DailyReadable(rows[..|rows| - 1], today) by {
        forall i | 0 <= i < |rows| - 1 ensures rows[..|rows| - 1][i] == rows[i] { }
      }
      DailyLoss(rows[..|rows| - 1], today) + LossOf(rows[|rows| - 1], today)
  }

  lemma DailyLossStep(rows: seq<Row>, i: nat, today: string)
    requires i < |rows| && DailyReadable(rows, today)
    ensures DailyReadable(rows[..i], today) && DailyReadable(rows[..i + 1], today)
    ensures DailyLoss(rows[..i + 1], today) == DailyLoss(rows[..i], today) + LossOf(rows[i], today)
  {
    assert forall j :: 0 <= j < i + 1 ==> rows[..i + 1][j] == rows[j];
    assert rows[..i + 1][..i] == rows[..i];
  }

  /** The negative pnl values of today's rows, in file order. */
  function TodayNegatives(rows: seq<Row>, today: string): (xs: seq<real>)
    requires DailyReadable(rows, today)
    ensures forall i :: 0 <= i < |xs| ==> xs[i] < 0.0
  {
    if rows == [] then []
    else
      var last := rows[|rows| - 1];
      assert DailyReadable(rows[..|rows| - 1], today) by {
        forall i | 0 <= i < |rows| - 1 ensures rows[..|rows| - 1][i] == rows[i] { }
      }
      TodayNegatives(rows[..|rows| - 1], today)
      + (if StampedToday(last, today) && FloatOf(last[|last| - 1]) < 0.0 then [FloatOf(last[|last| - 1])] else [])
  }

  /** The sum of the absolute losses is the absolute value of the summed
      losses: this breaker and the signed breakers measure the same losses. */
  lemma {:induction false} DailyLossIsAbsOfSum(rows: seq<Row>, today: string)
    requires DailyReadable(rows, today)
    ensures DailyLoss(rows, today) == -Sum(TodayNegatives(rows, today))
    ensures DailyLoss(rows, today) == Abs(Sum(TodayNegatives(rows, today)))
  {
    if rows != [] {
      var prefix := rows[..|rows| - 1];
      var last := rows[|rows| - 1];
      assert DailyReadable(prefix, today) by {
        forall i | 0 <= i < |prefix| ensures prefix[i] == rows[i] { }
      }
      DailyLossIsAbsOfSum(prefix, today);
      var neg := if StampedToday(last, today) && FloatOf(last[|last| - 1]) < 0.0 then [FloatOf(last[|last| - 1])] else [];
      SumAppend(TodayNegatives(prefix, today), neg);
      assert Sum(neg) == -LossOf(last, today) by {
        if neg != [] { assert neg[..0] == []; }
      }
    }
  }

  /** A row of another day, or one with a non-negative pnl, does not change
      the daily loss. */
  lemma IrrelevantRowNoEffect(rows: seq<Row>, row: Row, today: string)
    requires DailyReadable(rows, today)
    requires !StampedToday(row, today) || (Floatable(row[|row| - 1]) && FloatOf(row[|row| - 1]) >= 0.0)
    ensures DailyReadable(rows + [row], today)
    ensures DailyLoss(rows + [row], today) == DailyLoss(rows, today)
  {
    var extended := rows + [row];
    assert forall i :: 0 <= i < |rows| ==> extended[i] == rows[i];
    assert extended[..|extended| - 1] == rows;
  }

  /** `TradeData`: the history file at `file_path` and the loaded frame. */
  class TradeData {
    const file: CsvFile
    /** The loaded frame (header and rows), None until `load_data`. */
    var data: Option<seq<Row>>

    constructor(file: CsvFile)
      modifies file
      ensures this.file == file && data == None
      ensures file.rows == CreatedWithHeader(old(file.rows), TradeDataHeader)
    {
      this.file := file;
      data := None;
      new;
      EnsureFileExists();
    }

    /** `ensure_file_exists`: writes the header only when the file is absent. */
    method EnsureFileExists()
      modifies file
      ensures file.rows == CreatedWithHeader(old(file.rows), TradeDataHeader)
    {
      if file.rows.None? {
        file.rows := Some([TradeDataHeader]);
      }
    }

    /** `log_trade`: appends exactly one row, stamped `now`. */
    method LogTrade(pair: string, side: string, entryPrice: real, exitPrice: real, now: string)
      modifies file
      ensures file.rows == AppendRow(old(file.rows), TradeRow(now, pair, side, entryPrice, exitPrice))
    {
      var profitLoss := exitPrice - entryPrice;
      var row := [Str(now), Str(pair), Str(side), PyStr(Num(entryPrice)), PyStr(Num(exitPrice)), PyStr(Num(profitLoss))];
      if file.rows.None? {
        file.rows := Some([row]);
      } else {
        file.rows := Some(file.rows.value + [row]);
      }
    }

    /** `get_daily_loss`: skips the first row (the header), then sums |pnl|
        over today's non-empty rows with a negative pnl. A missing file
        raises FileNotFoundError, an empty one StopIteration. */
    method GetDailyLoss(today: string) returns (r: Outcome<real>)
      requires file.rows.Some? && |file.rows.value| > 0 ==> DailyReadable(file.rows.value[1..], today)
      ensures file.rows.None? ==> r == Raises(FileNotFoundError)
      ensures file.rows == Some([]) ==> r == Raises(StopIteration)
      ensures file.rows.Some? && |file.rows.value| > 0 ==> r == Returns(DailyLoss(file.rows.value[1..], today))
    {
      if file.rows.None? {
        return Raises(FileNotFoundError);
      }
      var rows := file.rows.value;
      if |rows| == 0 {
        return Raises(StopIteration);
      }
      var reader := rows[1..];
      var totalLoss := 0.0;
      var i := 0;
      while i < |reader|
        invariant 0 <= i <= |reader|
        invariant DailyReadable(reader[..i], today)
        invariant totalLoss == DailyLoss(reader[..i], today)
      {
        DailyLossStep(reader, i, today);
        var row := reader[i];
        if |row| > 0 && TextStartsWith(row[0], today) {
          var profitLoss := FloatOf(row[|row| - 1]);
          if profitLoss < 0.0 {
            totalLoss := totalLoss + Abs(profitLoss);
          }
        }
        i := i + 1;
      }
      assert reader[..i] == reader;
      r := Returns(totalLoss);
    }

    /** `load_data`: reads the file into the frame. `pd.read_csv` raises
        FileNotFoundError for a missing file and EmptyDataError for an
        existing empty one; either way the frame is not set. */
    method LoadData() returns (r: Outcome<seq<Row>>)
      modifies this`data
      ensures file.rows.None? ==> r == Raises(FileNotFoundError) && data == old(data)
      ensures file.rows == Some([]) ==> r == Raises(EmptyDataError) && data == old(data)
      ensures file.rows.Some? && file.rows.value != [] ==> r == Returns(file.rows.value) && data == file.rows
      ensures r.Returns? ==> ProcessData() == Returns(())
    {
      if file.rows.None? {
        return Raises(FileNotFoundError);
      }
      if file.rows.value == [] {
        return Raises(EmptyDataError);
      }
      data := file.rows;
      r := Returns(data.value);
    }

    /** `process_data`: refuses to run before the data is loaded. */
    function ProcessData(): (r: Outcome<()>)
      reads this
      ensures r.Raises? <==> data.None?
      ensures r.Raises? ==> r.error.ValueError?
    {
      if data.Some? then Returns(()) else Raises(ValueError("Data not loaded. Please load the data first."))
    }

    /** `save_data`: writes the frame to `output`, or raises ValueError,
        writing nothing, before the data is loaded. */
    method SaveData(output: CsvFile) returns (r: Outcome<()>)
      modifies output
      ensures data.None? ==> r.Raises? && r.error.ValueError? && output.rows == old(output.rows)
      ensures data.Some? ==> r == Returns(()) && output.rows == data
    {
      if data.None? {
        return Raises(ValueError("Data not loaded. Please load the data first."));
      }
      output.rows := data;
      r := Returns(());
    }
  
    /** Loading the file and saving the frame copies the file to `output`;
        when the load raises, nothing is written. */
    method LoadThenSave(output: CsvFile) returns (r: Outcome<()>)
      modifies this`data, output
      ensures old(file.rows).None? ==> r == Raises(FileNotFoundError) && output.rows == old(output.rows)
      ensures old(file.rows) == Some([]) ==> r == Raises(EmptyDataError) && output.rows == old(output.rows)
      ensures old(file.rows).Some? && old(file.rows).value != [] ==> r == Returns(()) && output.rows == old(file.rows)
    {
      var loaded := LoadData();
      if loaded.Raises? {
        return Raises(loaded.error);
      }
      r := SaveData(output);
    }
  }
}
