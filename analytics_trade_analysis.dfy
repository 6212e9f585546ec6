/** trading_bot/analytics/trade_analysis.py: reading the trade log and the
    counts, win rate and average profit of `analyze_trade_performance`.
    A price that `pd.to_numeric(..., errors="coerce")` turns into NaN is
    any value that is not a number; a trade with a NaN price has a NaN
    profit, which is neither a win nor a loss and is skipped by the mean. */
module AnalyticsTradeAnalysis {
  import opened Common

  /** `load_trade_log` (and the list behind `load_trade_history`): a missing
      or corrupted log reads as no trades. */
  function LoadTradeLog(log: JsonLog): (trades: seq<Record>)
    reads log
    ensures !log.state.Stored? ==> trades == []
    ensures log.state.Stored? ==> trades == log.state.entries
  {
    EntriesOrEmpty(log.state)
  }

  /** A trade's profit, exit minus entry, or None (NaN) when either price
      is not a number. */
  function Profit(t: Record): (p: Option<real>)
    ensures p.Some? <==> HasNumber(t, "entry_price") && HasNumber(t, "exit_price")
    ensures p.Some? ==> p.value + t["entry_price"].n == t["exit_price"].n
  {
    if HasNumber(t, "entry_price") && HasNumber(t, "exit_price")
    then Some(t["exit_price"].n - t["entry_price"].n) else None
  }

  predicate Wins(t: Record) {
    Profit(t).Some? && Profit(t).value > 0.0
  }

  predicate Loses(t: Record) {
    Profit(t).Some? && Profit(t).value < 0.0
  }

  /** `len(df[df["profit"] > 0])`: no wins iff no trade wins, all trades
      iff every trade wins. */
  function Winning(trades: seq<Record>): (n: nat)
    ensures n <= |trades|
    ensures n == 0 <==> forall i :: 0 <= i < |trades| ==> !Wins(trades[i])
    ensures n == |trades| <==> forall i :: 0 <= i < |trades| ==> Wins(trades[i])
  {
    if trades == [] then 0
    else Winning(trades[..|trades| - 1]) + (if Wins(trades[|trades| - 1]) then 1 else 0)
  }

  /** `len(df[df["profit"] < 0])`: no losses iff no trade loses, all
      trades iff every trade loses. */
  function Losing(trades: seq<Record>): (n: nat)
    ensures n <= |trades|
    ensures n == 0 <==> forall i :: 0 <= i < |trades| ==> !Loses(trades[i])
    ensures n == |trades| <==> forall i :: 0 <= i < |trades| ==> Loses(trades[i])
  {
    if trades == [] then 0
    else Losing(trades[..|trades| - 1]) + (if Loses(trades[|trades| - 1]) then 1 else 0)
  }

  /** No trade is both a win and a loss, so the two counts together never
      exceed the number of trades. */
  lemma {:induction false} WinsAndLossesBounded(trades: seq<Record>)
    ensures Winning(trades) + Losing(trades) <= |trades|
  {
    if trades != [] {
      WinsAndLossesBounded(trades[..|trades| - 1]);
    }
  }

  /** A break-even trade, or one with a NaN profit, is counted in neither. */
  lemma NeitherWinNorLoss(trades: seq<Record>, t: Record)
    requires Profit(t).None? || Profit(t).value == 0.0
    ensures Winning(trades + [t]) == Winning(trades) && Losing(trades + [t]) == Losing(trades)
  {
    assert (trades + [t])[..|trades + [t]| - 1] == trades;
  }

  /** The known profits, in log order (the values `mean` averages): all
      of them, one per trade, when every profit is known, and none when no
      profit is. */
  function Profits(trades: seq<Record>): (ps: seq<real>)
    ensures |ps| <= |trades|
    ensures (forall i :: 0 <= i < |trades| ==> Profit(trades[i]).Some?)
            ==> |ps| == |trades| && forall i :: 0 <= i < |trades| ==> ps[i] == Profit(trades[i]).value
    ensures (forall i :: 0 <= i < |trades| ==> Profit(trades[i]).None?) ==> ps == []
  {
    if trades == [] then []
    else
      var last := trades[|trades| - 1];
      Profits(trades[..|trades| - 1]) + (if Profit(last).Some? then [Profit(last).value] else [])
  }

  /** The wins of two logs joined are those of each log. */
  lemma {:induction false} WinningAppend(a: seq<Record>, b: seq<Record>)
    ensures Winning(a + b) == Winning(a) + Winning(b)
  {
    if b == [] {
      assert a + b == a;
    } else {
      var c := b[..|b| - 1];
      assert (a + b)[..|a + b| - 1] == a + c;
      assert (a + b)[|a + b| - 1] == b[|b| - 1];
      WinningAppend(a, c);
    }
  }

  /** The losses of two logs joined are those of each log. */
  lemma {:induction false} LosingAppend(a: seq<Record>, b: seq<Record>)
    ensures Losing(a + b) == Losing(a) + Losing(b)
  {
    if b == [] {
      assert a + b == a;
    } else {
      var c := b[..|b| - 1];
      assert (a + b)[..|a + b| - 1] == a + c;
      assert (a + b)[|a + b| - 1] == b[|b| - 1];
      LosingAppend(a, c);
    }
  }

  /** The known profits of two logs joined are those of each log, in order. */
  lemma {:induction false} ProfitsAppend(a: seq<Record>, b: seq<Record>)
    ensures Profits(a + b) == Profits(a) + Profits(b)
  {
    if b == [] {
      assert a + b == a;
    } else {
      var c := b[..|b| - 1];
      assert (a + b)[..|a + b| - 1] == a + c;
      assert (a + b)[|a + b| - 1] == b[|b| - 1];
      ProfitsAppend(a, c);
    }
  }

  /** `win_rate`: the percentage of winning trades, 0 without trades. */
  function WinRate(winning: nat, total: nat): (rate: real)
    requires winning <= total
    ensures 0.0 <= rate <= 100.0
    ensures rate * (total as real) == (winning as real) * 100.0
    ensures total == 0 ==> rate == 0.0
  {
    if total > 0 then (winning as real) / (total as real) * 100.0 else 0.0
  }

  /** `Series.mean()` over the known values: None (NaN) when there is none. */
  function Mean(xs: seq<real>): (m: Option<real>)
    ensures m.Some? <==> xs != []
    ensures m.Some? ==> m.value * (|xs| as real) == Sum(xs)
  {
    if xs == [] then None else Some(Sum(xs) / (|xs| as real))
  }

  /** The summary `analyze_trade_performance` prints; the average profit is
      None (NaN) when no profit is known. */
  datatype Summary = Summary(totalTrades: nat, winningTrades: nat, losingTrades: nat, winRate: real,
                             avgProfit: Option<real>)

  /** The frame has no column: every record is empty (`df.empty`). */
  predicate NoColumns(trades: seq<Record>) {
    forall i :: 0 <= i < |trades| ==> trades[i] == map[]
  }

  /** Some record has the key, so the frame has that column. */
  predicate HasColumn(trades: seq<Record>, key: string) {
    exists i :: 0 <= i < |trades| && key in trades[i]
  }

  /** The summary of a non-empty log: every trade is counted, the rate is
      the winning share and the average is taken over the known profits. */
  function Summarize(trades: seq<Record>): (s: Summary)
    ensures s.totalTrades == |trades|
    ensures s.winningTrades == Winning(trades) && s.losingTrades == Losing(trades)
    ensures s.winningTrades + s.losingTrades <= s.totalTrades
    ensures s.winRate == WinRate(s.winningTrades, s.totalTrades)
    ensures s.avgProfit == Mean(Profits(trades))
  {
    var total := |trades|;
    var winning := Winning(trades);
    var losing := Losing(trades);
    WinsAndLossesBounded(trades);
    Summary(total, winning, losing, WinRate(winning, total), Mean(Profits(trades)))
  }

  /** `analyze_trade_performance`: None for an empty frame (no trades, or no
      columns); a missing price column raises KeyError; otherwise the
      summary. */
  function AnalyzeTradePerformance(log: JsonLog): (r: Outcome<Option<Summary>>)
    reads log
    ensures NoColumns(LoadTradeLog(log)) ==> r == Returns(None)
    ensures r.Raises? <==> !NoColumns(LoadTradeLog(log))
                           && !(HasColumn(LoadTradeLog(log), "entry_price") && HasColumn(LoadTradeLog(log), "exit_price"))
    ensures r.Raises? ==> r.error == KeyError("entry_price") || r.error == KeyError("exit_price")
    ensures r.Returns? && r.value.Some? ==> r.value.value == Summarize(LoadTradeLog(log))
  {
    var trades := LoadTradeLog(log);
    if NoColumns(trades) then Returns(None)
    else if !HasColumn(trades, "entry_price") then Raises(KeyError("entry_price"))
    else if !HasColumn(trades, "exit_price") then Raises(KeyError("exit_price"))
    else Returns(Some(Summarize(trades)))
  }

  /** An empty frame means a missing, corrupted or empty log, or records
      without fields. */
  lemma EmptyLogNoSummary(log: JsonLog)
    requires !log.state.Stored? || log.state.entries == []
    ensures AnalyzeTradePerformance(log) == Returns(None)
  {
  }
}
