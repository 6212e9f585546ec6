/** trading_bot/data/trade_history.py: the JSON trade journal
    (trade_history.json) and the CSV trade journal (trade_history.csv)
    with its header, its append and its reading as one dictionary per row. */
module DataTradeHistory {
  import opened Common

  /** `log_trade_history`: stamps the record with `now` (the caller's dict
      is changed too, so `stamped` is returned), then appends it to the
      JSON journal, keeping every earlier record. A corrupted journal
      raises the decode error after the stamping, before any write. */
  method LogTradeHistory(journal: JsonLog, tradeData: Record, now: string) returns (stamped: Record, error: Option<PyError>)
    modifies journal
    ensures stamped == tradeData["timestamp" := Str(now)]
    ensures old(journal.state).NoFile? ==> journal.state == Stored([stamped]) && error == None
    ensures old(journal.state).Stored? ==> journal.state == Stored(old(journal.state).entries + [stamped]) && error == None
    ensures old(journal.state).Corrupt? ==> journal.state == old(journal.state) && error == Some(JsonDecodeError)
  {
    stamped := tradeData["timestamp" := Str(now)];
    if journal.state.Corrupt? {
      return stamped, Some(JsonDecodeError);
    }
    var tradeHistory := if journal.state.Stored? then journal.state.entries else [];
    tradeHistory := tradeHistory + [stamped];
    journal.state := Stored(tradeHistory);
    error := None;
  }

  /** The header `initialize_trade_history` writes. */
  const HistoryHeader: Row :=
    [Str("timestamp"), Str("pair"), Str("type"), Str("amount"), Str("price"), Str("profit/loss")]

  /** `initialize_trade_history`: writes the header only when the file is absent. */
  method InitializeTradeHistory(file: CsvFile)
    modifies file
    ensures file.rows == CreatedWithHeader(old(file.rows), HistoryHeader)
  {
    if file.rows.None? {
      file.rows := Some([HistoryHeader]);
    }
  }

  /** One trade as `log_trade` receives it. */
  datatype LoggedTrade = LoggedTrade(timestamp: string, pair: string, tradeType: string,
                                     amount: real, price: real, profitLoss: real)

  /** The row `log_trade` writes for a trade: the csv module writes the
      three numbers as their `str()` text. */
  function HistoryRow(t: LoggedTrade): (row: Row)
    ensures |row| == |HistoryHeader|
    ensures forall i :: 0 <= i < |row| ==> row[i].Str? || row[i].StrOf?
    ensures Floatable(row[3]) && Floatable(row[4]) && Floatable(row[5])
    ensures FloatOf(row[3]) == t.amount && FloatOf(row[4]) == t.price && FloatOf(row[5]) == t.profitLoss
  {
    [Str(t.timestamp), Str(t.pair), Str(t.tradeType), PyStr(Num(t.amount)), PyStr(Num(t.price)), PyStr(Num(t.profitLoss))]
  }

  /** `log_trade`: appends exactly one row after all existing rows; an
      absent file is created without a header. */
  method LogTrade(file: CsvFile, pair: string, tradeType: string, amount: real, price: real,
                  profitLoss: real, now: string)
    modifies file
    ensures file.rows == AppendRow(old(file.rows), HistoryRow(LoggedTrade(now, pair, tradeType, amount, price, profitLoss)))
  {
    var row := [Str(now), Str(pair), Str(tradeType), PyStr(Num(amount)), PyStr(Num(price)), PyStr(Num(profitLoss))];
    if file.rows.None? {
      file.rows := Some([row]);
    } else {
      file.rows := Some(file.rows.value + [row]);
    }
  }

  /** The field name `csv.DictReader` takes from a header cell: a string
      is itself, and the text of a number is `shown` of that number (float
      formatting is a parameter of the model). */
  function FieldName(cell: Scalar, shown: Scalar -> string): (name: string)
    ensures cell.Str? ==> name == cell.s
  {
    if cell.Str? then cell.s else if cell.StrOf? then shown(cell.shown) else shown(cell)
  }

  /** `dict(zip(fieldnames, row))` as `csv.DictReader` builds it from the
      first `n` field names: a missing cell reads as None, and a repeated
      field name keeps its last cell. */
  function RowToDict(header: Row, row: Row, n: nat, shown: Scalar -> string): (d: Record)
    requires n <= |header|
    ensures forall i :: 0 <= i < n ==> FieldName(header[i], shown) in d
  {
    if n == 0 then map[]
    else RowToDict(header, row, n - 1, shown)[FieldName(header[n - 1], shown) := if n - 1 < |row| then row[n - 1] else Null]
  }

  /** The dictionaries `csv.DictReader` yields for the data rows, skipping
      empty rows. */
  function DictsOf(header: Row, rows: seq<Row>, shown: Scalar -> string): (ds: seq<Record>)
    ensures |ds| <= |rows|
    ensures (forall i :: 0 <= i < |rows| ==> rows[i] != []) ==> |ds| == |rows|
  {
    if rows == [] then []
    else
      var last := rows[|rows| - 1];
      DictsOf(header, rows[..|rows| - 1], shown) + (if last == [] then [] else [RowToDict(header, last, |header|, shown)])
  }

  /** `get_trade_history`: no file reads as no trades; otherwise the first
      row gives the field names (whatever it holds) and each non-empty
      later row one record, in file order. */
  function GetTradeHistory(file: CsvFile, shown: Scalar -> string): (history: seq<Record>)
    reads file
    ensures file.rows.None? || file.rows == Some([]) ==> history == []
    ensures file.rows.Some? && |file.rows.value| > 0 ==> |history| <= |file.rows.value| - 1
    ensures file.rows.Some? && |file.rows.value| > 0 ==> history == DictsOf(file.rows.value[0], file.rows.value[1..], shown)
  {
    if file.rows.None? || file.rows.value == [] then []
    else DictsOf(file.rows.value[0], file.rows.value[1..], shown)
  }

  /** The record a logged trade reads back as: every field is text, the
      numbers as the text the csv module wrote for them. */
  function RecordOf(t: LoggedTrade): Record {
    map["timestamp" := Str(t.timestamp), "pair" := Str(t.pair), "type" := Str(t.tradeType),
        "amount" := PyStr(Num(t.amount)), "price" := PyStr(Num(t.price)), "profit/loss" := PyStr(Num(t.profitLoss))]
  }

  function RowsOf(trades: seq<LoggedTrade>): (rows: seq<Row>)
    ensures |rows| == |trades|
    ensures forall i :: 0 <= i < |trades| ==> rows[i] == HistoryRow(trades[i])
  {
    if trades == [] then [] else RowsOf(trades[..|trades| - 1]) + [HistoryRow(trades[|trades| - 1])]
  }

  /** A logged row, read back under the header, is the trade's record:
      each field holds the text written for it, and the numbers parse back
      to the logged values. */
  lemma RowReadsBack(t: LoggedTrade, shown: Scalar -> string)
    ensures RowToDict(HistoryHeader, HistoryRow(t), |HistoryHeader|, shown) == RecordOf(t)
    ensures forall k :: k in RecordOf(t) ==> RecordOf(t)[k].Str? || RecordOf(t)[k].StrOf?
    ensures FloatOf(RecordOf(t)["amount"]) == t.amount && FloatOf(RecordOf(t)["price"]) == t.price
    ensures FloatOf(RecordOf(t)["profit/loss"]) == t.profitLoss
  {
    var h, row := HistoryHeader, HistoryRow(t);
    var d0 := RowToDict(h, row, 0, shown);
    var d1 := RowToDict(h, row, 1, shown);
    var d2 := RowToDict(h, row, 2, shown);
    var d3 := RowToDict(h, row, 3, shown);
    var d4 := RowToDict(h, row, 4, shown);
    var d5 := RowToDict(h, row, 5, shown);
    var d6 := RowToDict(h, row, 6, shown);
    assert d0 == map[];
    assert d1 == map["timestamp" := Str(t.timestamp)];
    assert d2 == map["timestamp" := Str(t.timestamp), "pair" := Str(t.pair)];
    assert d3 == d2["type" := Str(t.tradeType)];
    assert d4 == d3["amount" := PyStr(Num(t.amount))];
    assert d5 == d4["price" := PyStr(Num(t.price))];
    assert d6 == d5["profit/loss" := PyStr(Num(t.profitLoss))];
  }

  /** Rows that each read back as a given record read back, together, as
      those records in file order. */
  lemma {:induction false} DictsOfAll(header: Row, rows: seq<Row>, records: seq<Record>, shown: Scalar -> string)
    requires |rows| == |records|
    requires forall i :: 0 <= i < |rows| ==> rows[i] != [] && RowToDict(header, rows[i], |header|, shown) == records[i]
    ensures DictsOf(header, rows, shown) == records
  {
    if rows != [] {
      var n := |rows| - 1;
      DictsOfAll(header, rows[..n], records[..n], shown);
      assert records == records[..n] + [records[n]];
    }
  }

  /** Round trip: a journal made of the header and the rows of logged
      trades reads back as one record per trade, in append order, holding
      the text written for each logged value. */
  lemma JournalReadsBack(trades: seq<LoggedTrade>, shown: Scalar -> string)
    ensures |DictsOf(HistoryHeader, RowsOf(trades), shown)| == |trades|
    ensures forall i :: 0 <= i < |trades| ==> DictsOf(HistoryHeader, RowsOf(trades), shown)[i] == RecordOf(trades[i])
  {
    var records := seq(|trades|, i requires 0 <= i < |trades| => RecordOf(trades[i]));
    var rows := RowsOf(trades);
    forall i | 0 <= i < |rows|
      ensures rows[i] != [] && RowToDict(HistoryHeader, rows[i], |HistoryHeader|, shown) == records[i]
    {
      RowReadsBack(trades[i], shown);
    }
    DictsOfAll(HistoryHeader, rows, records, shown);
  }

  /** `log_trade` for each trade in turn: one row per trade, after the
      existing rows and in call order. */
  method LogTrades(file: CsvFile, trades: seq<LoggedTrade>)
    requires file.rows.Some?
    modifies file
    ensures file.rows == Some(old(file.rows).value + RowsOf(trades))
  {
    ghost var start := file.rows.value;
    assert start + RowsOf(trades[..0]) == start;
    var i := 0;
    while i < |trades|
      invariant 0 <= i <= |trades|
      invariant file.rows == Some(start + RowsOf(trades[..i]))
    {
      var t := trades[i];
      LogTrade(file, t.pair, t.tradeType, t.amount, t.price, t.profitLoss, t.timestamp);
      assert trades[..i + 1][..i] == trades[..i];
      assert start + RowsOf(trades[..i + 1]) == start + RowsOf(trades[..i]) + [HistoryRow(t)];
      i := i + 1;
    }
    assert trades[..i] == trades;
  }

  /** The module's example sequence: initialise an absent journal, log the
      trades one by one, read the journal back. */
  method InitializeLogAndRead(file: CsvFile, trades: seq<LoggedTrade>, shown: Scalar -> string) returns (history: seq<Record>)
    requires file.rows.None?
    modifies file
    ensures |history| == |trades|
    ensures forall i :: 0 <= i < |trades| ==> history[i] == RecordOf(trades[i])
  {
    InitializeTradeHistory(file);
    LogTrades(file, trades);
    assert ([HistoryHeader] + RowsOf(trades))[1..] == RowsOf(trades);
    history := GetTradeHistory(file, shown);
    JournalReadsBack(trades, shown);
  }

  /** `log_trade` on an absent file writes no header: after logging
      `first` and then `rest`, `get_trade_history` takes the first trade's
      row as the field names, so it yields one record per later trade,
      keyed by the first trade's values, and none for the first trade. */
  method FirstTradeWithoutHeaderIsLost(file: CsvFile, first: LoggedTrade, rest: seq<LoggedTrade>,
                                       shown: Scalar -> string) returns (history: seq<Record>)
    requires file.rows.None?
    modifies file
    ensures history == GetTradeHistory(file, shown)
    ensures history == DictsOf(HistoryRow(first), RowsOf(rest), shown)
    ensures |history| == |rest|
    ensures forall i :: 0 <= i < |rest| ==> history[i] == RowToDict(HistoryRow(first), HistoryRow(rest[i]), |HistoryHeader|, shown)
  {
    LogTrade(file, first.pair, first.tradeType, first.amount, first.price, first.profitLoss, first.timestamp);
    LogTrades(file, rest);
    assert ([HistoryRow(first)] + RowsOf(rest))[1..] == RowsOf(rest);
    history := GetTradeHistory(file, shown);
    var records := seq(|rest|, i requires 0 <= i < |rest| => RowToDict(HistoryRow(first), HistoryRow(rest[i]), |HistoryHeader|, shown));
    DictsOfAll(HistoryRow(first), RowsOf(rest), records, shown);
  }
}
