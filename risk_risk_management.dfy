/** trading_bot/risk/risk_management.py: the risk settings file, the two
    journal-based loss breakers, sizing and trade acceptance, the fixed
    price levels, and the `RiskManagement` trade monitor. */
module RiskRiskManagement {
  import opened Common
  import History = DataTradeHistory

  const StopLossPercent: real := 3.0
  const TakeProfitPercent: real := 5.0
  /** DAILY_MAX_LOSS; the breaker `check_daily_loss` names MAX_DAILY_LOSS instead. */
  const DailyMaxLoss: real := 500.0

  /** DEFAULT_RISK_SETTINGS */
  const DefaultRiskSettings: Record :=
    map["stop_loss" := Num(5.0), "take_profit" := Num(10.0), "max_daily_loss" := Num(50.0)]

  /** The JSON settings file RISK_CONFIG_FILE: absent, or the stored object. */
  class SettingsFile {
    var contents: Option<Record>

    constructor(initial: Option<Record>)
      ensures contents == initial
    {
      contents := initial;
    }

    /** `save_risk_settings`: overwrites the file. */
    method Save(settings: Record)
      modifies this
      ensures contents == Some(settings)
    {
      contents := Some(settings);
    }

    /** `load_risk_settings`: a missing file is first created holding the
        defaults; then the file is read. */
    method Load() returns (settings: Record)
      modifies this
      ensures old(contents).None? ==> settings == DefaultRiskSettings && contents == Some(DefaultRiskSettings)
      ensures old(contents).Some? ==> settings == old(contents).value && contents == old(contents)
    {
      if contents.None? {
        Save(DefaultRiskSettings);
      }
      settings := contents.value;
    }
  }

  /** Saving settings and loading them back gives the saved settings. */
  method SaveThenLoad(file: SettingsFile, settings: Record) returns (loaded: Record)
    modifies file
    ensures loaded == settings && file.contents == Some(settings)
  {
    file.Save(settings);
    loaded := file.Load();
  }

  /** Every journal record carries, under "profit/loss", a cell that
      `float()` accepts (a missing key raises KeyError, and only the text
      of a number is parsed by this model). */
  predicate PnlReadable(history: seq<Record>) {
    forall i :: 0 <= i < |history| ==> HasFloat(history[i], "profit/loss")
  }

  function Pnl(t: Record): real
    requires HasFloat(t, "profit/loss")
  {
    FloatOf(t["profit/loss"])
  }

  /** The negative P/L values of the history, in journal order. */
  function NegativePnls(history: seq<Record>): (xs: seq<real>)
    requires PnlReadable(history)
    ensures forall i :: 0 <= i < |xs| ==> xs[i] < 0.0
    ensures |xs| <= |history|
  {
    if history == [] then []
    else
      var last := history[|history| - 1];
      NegativePnls(history[..|history| - 1]) + (if Pnl(last) < 0.0 then [Pnl(last)] else [])
  }

  /** The decision of `check_stop_loss`: trips when the absolute value of
      the sum of all negative P/L in the whole history reaches "max_daily_loss". */
  function StopLossHit(history: seq<Record>, settings: Record): (tripped: bool)
    requires PnlReadable(history)
    requires HasNumber(settings, "max_daily_loss")
    ensures tripped <==> -Sum(NegativePnls(history)) >= settings["max_daily_loss"].n
  {
    SumNegativesNonPositive(NegativePnls(history));
    Abs(Sum(NegativePnls(history))) >= settings["max_daily_loss"].n
  }

  /** `check_stop_loss`: reads the journal (`history`), loads the settings,
      creating the file with the defaults when it is absent, and decides. */
  method CheckStopLoss(file: SettingsFile, history: seq<Record>) returns (tripped: bool)
    requires PnlReadable(history)
    requires file.contents.Some? ==> HasNumber(file.contents.value, "max_daily_loss")
    modifies file
    ensures file.contents == if old(file.contents).None? then Some(DefaultRiskSettings) else old(file.contents)
    ensures tripped == StopLossHit(history, file.contents.value)
  {
    var riskSettings := file.Load();
    tripped := StopLossHit(history, riskSettings);
  }

  lemma {:induction false} SumNegativesNonPositive(xs: seq<real>)
    requires forall i :: 0 <= i < |xs| ==> xs[i] < 0.0
    ensures Sum(xs) <= 0.0
  {
    if xs != [] {
      SumNegativesNonPositive(xs[..|xs| - 1]);
    }
  }

  /** A record with non-negative P/L appended to the journal never changes
      what `check_stop_loss` decides. */
  lemma PositivePnlNeverContributes(history: seq<Record>, t: Record, settings: Record)
    requires PnlReadable(history) && HasFloat(t, "profit/loss") && Pnl(t) >= 0.0
    requires HasNumber(settings, "max_daily_loss")
    ensures PnlReadable(history + [t])
    ensures StopLossHit(history + [t], settings) == StopLossHit(history, settings)
  {
    var extended := history + [t];
    assert extended[..|extended| - 1] == history;
    assert extended[|extended| - 1] == t;
    assert NegativePnls(extended) == NegativePnls(history);
  }

  /** The journal `get_trade_history` reads back after
      `initialize_trade_history` and `log_trade` calls is readable by the
      breakers, and each record's P/L is the logged one. */
  lemma LoggedJournalPnls(trades: seq<History.LoggedTrade>, shown: Scalar -> string)
    ensures |History.DictsOf(History.HistoryHeader, History.RowsOf(trades), shown)| == |trades|
    ensures PnlReadable(History.DictsOf(History.HistoryHeader, History.RowsOf(trades), shown))
    ensures forall i :: 0 <= i < |trades| ==>
              Pnl(History.DictsOf(History.HistoryHeader, History.RowsOf(trades), shown)[i]) == trades[i].profitLoss
  {
    History.JournalReadsBack(trades, shown);
    forall i | 0 <= i < |trades|
      ensures HasFloat(History.RecordOf(trades[i]), "profit/loss")
      ensures Pnl(History.RecordOf(trades[i])) == trades[i].profitLoss
    {
      History.RowReadsBack(trades[i], shown);
    }
  }

  /** `calculate_position_size`: the size whose loss over the stop distance
      is `riskPercentage` percent of the balance. */
  function CalculatePositionSize(accountBalance: real, riskPercentage: real, stopLossDistance: real): (r: Outcome<real>)
    ensures r.Raises? <==> stopLossDistance == 0.0
    ensures r.Raises? ==> r.error == ZeroDivisionError
    ensures r.Returns? ==> r.value * stopLossDistance == accountBalance * riskPercentage / 100.0
  {
    var riskAmount := accountBalance * (riskPercentage / 100.0);
    if stopLossDistance == 0.0 then Raises(ZeroDivisionError) else Returns(riskAmount / stopLossDistance)
  }

  /** `should_execute_trade`: the loss at the stop price may not exceed the
      risk amount. For a positive risk amount and distance this is exactly
      "the price is within one stop distance of the stop price". */
  function ShouldExecuteTrade(accountBalance: real, riskPercentage: real, stopLossDistance: real,
                              currentPrice: real, stopLossPrice: real): (r: Outcome<bool>)
    ensures r.Raises? <==> stopLossDistance == 0.0
    ensures r.Returns? && accountBalance * (riskPercentage / 100.0) > 0.0 && stopLossDistance > 0.0
            ==> (r.value <==> currentPrice - stopLossPrice <= stopLossDistance)
  {
    match CalculatePositionSize(accountBalance, riskPercentage, stopLossDistance)
    case Raises(e) => Raises(e)
    case Returns(positionSize) =>
      var riskAmount := accountBalance * (riskPercentage / 100.0);
      var potentialLoss := (currentPrice - stopLossPrice) * positionSize;
      if stopLossDistance > 0.0 && riskAmount > 0.0 then
        LossWithinRisk(currentPrice - stopLossPrice, riskAmount, stopLossDistance);
        Returns(potentialLoss <= riskAmount)
      else
        Returns(potentialLoss <= riskAmount)
  }

  /** (move * (risk / distance) <= risk) <==> (move <= distance), for a
      positive risk and distance. */
  lemma LossWithinRisk(move: real, risk: real, distance: real)
    requires risk > 0.0 && distance > 0.0
    ensures move * (risk / distance) <= risk <==> move <= distance
  {
    var size := risk / distance;
    assert size > 0.0;
    assert size * distance == risk;
    assert move * size <= risk <==> move * size <= distance * size;
  }

  /** `calculate_stop_loss`: STOP_LOSS_PERCENT (3%) below the entry price. */
  function CalculateStopLoss(entryPrice: real): (r: real)
    ensures r == entryPrice * 0.97
    ensures entryPrice >= 0.0 ==> r <= entryPrice
  {
    entryPrice * (1.0 - StopLossPercent / 100.0)
  }

  /** `calculate_risk`: the levels 3% below and 5% above the order price;
      the current price plays no part. */
  function CalculateRisk(orderPrice: real, currentPrice: real): (levels: (real, real))
    ensures levels == (orderPrice * 0.97, orderPrice * 1.05)
    ensures levels.0 == CalculateStopLoss(orderPrice)
    ensures orderPrice >= 0.0 ==> levels.0 <= orderPrice <= levels.1
  {
    (orderPrice * (1.0 - StopLossPercent / 100.0), orderPrice * (1.0 + TakeProfitPercent / 100.0))
  }

  /** The records `check_daily_loss` can read: every timestamp is text,
      and every record stamped `today` carries a number under "profit/loss". */
  predicate DailyReadable(history: seq<Record>, today: string) {
    forall i :: 0 <= i < |history| ==>
      "timestamp" in history[i] && history[i]["timestamp"].Str?
      && (StartsWith(history[i]["timestamp"].s, today) ==> HasFloat(history[i], "profit/loss"))
  }

  predicate StampedToday(t: Record, today: string) {
    "timestamp" in t && TextStartsWith(t["timestamp"], today)
  }

  /** The signed P/L of the records stamped `today`, in journal order. */
  function TodayPnls(history: seq<Record>, today: string): (xs: seq<real>)
    requires DailyReadable(history, today)
    ensures |xs| <= |history|
  {
    if history == [] then []
    else
      var last := history[|history| - 1];
      assert DailyReadable(history[..|history| - 1], today) by {
        forall i | 0 <= i < |history| - 1 ensures history[..|history| - 1][i] == history[i] { }
      }
      TodayPnls(history[..|history| - 1], today) + (if StampedToday(last, today) then [Pnl(last)] else [])
  }

  /** `check_daily_loss`: false on an empty history; otherwise sums the
      signed P/L of today's records and trips strictly below minus the
      limit. The limit is read from the global name MAX_DAILY_LOSS, whose
      binding is `maxDailyLossName`: a non-empty history raises NameError
      when the name is unbound. */
  function CheckDailyLoss(history: seq<Record>, today: string, maxDailyLossName: Option<real>): (r: Outcome<bool>)
    requires DailyReadable(history, today)
    ensures history == [] ==> r == Returns(false)
    ensures history != [] && maxDailyLossName.None? ==> r == Raises(NameError("MAX_DAILY_LOSS"))
    ensures history != [] && maxDailyLossName.Some?
            ==> r.Returns? && (r.value <==> Sum(TodayPnls(history, today)) < -maxDailyLossName.value)
  {
    if history == [] then Returns(false)
    else
      var dailyLoss := Sum(TodayPnls(history, today));
      match maxDailyLossName
      case None => Raises(NameError("MAX_DAILY_LOSS"))
      case Some(limit) => Returns(dailyLoss < -limit)
  }

  /** The file binds DAILY_MAX_LOSS, not MAX_DAILY_LOSS. */
  const MaxDailyLossBinding: Option<real> := None

  /** As written, `check_daily_loss` raises NameError on every non-empty
      history, here one losing trade of today. */
  lemma CheckDailyLossAsWrittenRaises()
    ensures CheckDailyLoss([map["timestamp" := Str("2024-05-01 10:00:00"), "profit/loss" := StrOf(Num(-10.0))]],
                           "2024-05-01", MaxDailyLossBinding).Raises?
  {
  }

  /** `check_daily_loss` with the limit the file defines, DAILY_MAX_LOSS:
      it never raises, and trips exactly when today's signed P/L is below
      -500. */
  function CheckDailyLossIntended(history: seq<Record>, today: string): (tripped: bool)
    requires DailyReadable(history, today)
    ensures CheckDailyLoss(history, today, Some(DailyMaxLoss)) == Returns(tripped)
    ensures tripped <==> history != [] && Sum(TodayPnls(history, today)) < -DailyMaxLoss
  {
    match CheckDailyLoss(history, today, Some(DailyMaxLoss))
    case Returns(b) => b
    case Raises(_) => false
  }

  /** Two losses of today, 300 and 250, exceed the 500 limit; a loss of
      another day does not count. */
  lemma {:induction false} TwoLossesTripIntendedBreaker()
    ensures CheckDailyLossIntended(
              [map["timestamp" := Str("2024-05-01 09:00"), "profit/loss" := StrOf(Num(-300.0))],
               map["timestamp" := Str("2024-04-30 09:00"), "profit/loss" := StrOf(Num(-900.0))],
               map["timestamp" := Str("2024-05-01 15:00"), "profit/loss" := StrOf(Num(-250.0))]],
              "2024-05-01")
  {
    var a := map["timestamp" := Str("2024-05-01 09:00"), "profit/loss" := StrOf(Num(-300.0))];
    var b := map["timestamp" := Str("2024-04-30 09:00"), "profit/loss" := StrOf(Num(-900.0))];
    var c := map["timestamp" := Str("2024-05-01 15:00"), "profit/loss" := StrOf(Num(-250.0))];
    var today := "2024-05-01";
    assert StampedToday(a, today) && StampedToday(c, today);
    assert !StampedToday(b, today) by {
      assert "2024-04-30 09:00"[..|today|] != today by {
        assert "2024-04-30 09:00"[6] != today[6];
      }
    }
    assert [a, b, c][..2] == [a, b] && [a, b][..1] == [a] && [a][..0] == [];
    assert Pnl(a) == -300.0 && Pnl(c) == -250.0;
    assert TodayPnls([a], today) == [-300.0];
    assert TodayPnls([a, b], today) == [-300.0];
    assert TodayPnls([a, b, c], today) == [-300.0] + [-250.0];
    assert [-300.0, -250.0][..1] == [-300.0] && [-300.0][..0] == [];
  }

  /** The two journal breakers of this file, given the same limit: whenever
      `check_daily_loss` trips, `check_stop_loss` trips too, because the
      negative P/L of the whole journal sum to no more than today's signed P/L. */
  lemma DailyBreakerImpliesStopLossBreaker(history: seq<Record>, today: string, settings: Record)
    requires PnlReadable(history) && DailyReadable(history, today)
    requires HasNumber(settings, "max_daily_loss")
    requires CheckDailyLoss(history, today, Some(settings["max_daily_loss"].n)) == Returns(true)
    ensures StopLossHit(history, settings)
  {
    NegativesBelowToday(history, today);
  }

  lemma {:induction false} NegativesBelowToday(history: seq<Record>, today: string)
    requires PnlReadable(history) && DailyReadable(history, today)
    ensures Sum(NegativePnls(history)) <= Sum(TodayPnls(history, today))
  {
    if history != [] {
      var prefix := history[..|history| - 1];
      var last := history[|history| - 1];
      assert forall i :: 0 <= i < |prefix| ==> prefix[i] == history[i];
      NegativesBelowToday(prefix, today);
      var neg := if Pnl(last) < 0.0 then [Pnl(last)] else [];
      var tod := if StampedToday(last, today) then [Pnl(last)] else [];
      SumAppend(NegativePnls(prefix), neg);
      SumAppend(TodayPnls(prefix, today), tod);
      assert Sum(neg) <= Sum(tod) by {
        assert Sum([Pnl(last)]) == Pnl(last) by {
          assert [Pnl(last)][..0] == [];
        }
      }
    }
  }

  /** Calls `RiskManagement.monitor_trade` makes on its trade executor. */
  datatype ExecutorCall = CancelOrder(orderId: string) | PlaceMarketOrder(symbol: string, side: string, size: real)

  /** A price at which `monitor_trade` leaves its loop. */
  predicate Exits(price: real, stopLossPrice: real, takeProfitPrice: real) {
    price <= stopLossPrice || price >= takeProfitPrice
  }

  /** The index of the first price at which the monitor exits. */
  function FirstExit(prices: seq<real>, stopLossPrice: real, takeProfitPrice: real): (k: Option<nat>)
    ensures k.Some? ==> k.value < |prices| && Exits(prices[k.value], stopLossPrice, takeProfitPrice)
    ensures k.Some? ==> forall j :: 0 <= j < k.value ==> !Exits(prices[j], stopLossPrice, takeProfitPrice)
    ensures k.None? ==> forall j :: 0 <= j < |prices| ==> !Exits(prices[j], stopLossPrice, takeProfitPrice)
  {
    if prices == [] then None
    else if Exits(prices[0], stopLossPrice, takeProfitPrice) then Some(0)
    else match FirstExit(prices[1..], stopLossPrice, takeProfitPrice)
      case None => None
      case Some(k) => Some(k + 1)
  }

  /** An index with an exit and none before it is the first exit, and a
      sequence without exits has none. */
  lemma {:induction false} FirstExitIs(prices: seq<real>, stopLossPrice: real, takeProfitPrice: real, k: Option<nat>)
    requires k.Some? ==> k.value < |prices| && Exits(prices[k.value], stopLossPrice, takeProfitPrice)
    requires forall j :: 0 <= j < (if k.Some? then k.value else |prices|) ==> !Exits(prices[j], stopLossPrice, takeProfitPrice)
    ensures FirstExit(prices, stopLossPrice, takeProfitPrice) == k
  {
    if prices != [] && !Exits(prices[0], stopLossPrice, takeProfitPrice) {
      var rest := if k.Some? then Some(k.value - 1) else None;
      assert forall j :: 0 <= j < |prices[1..]| ==> prices[1..][j] == prices[j + 1];
      FirstExitIs(prices[1..], stopLossPrice, takeProfitPrice, rest);
    }
  }

  /** The size of the closing market sell. */
  const ExitSize: real := 0.001

  /** The defaults of `RiskManagement.__init__`. */
  const DefaultMaxDailyLoss: real := 100.0
  const DefaultStopLossPct: real := 2.0
  const DefaultTakeProfitPct: real := 5.0

  /** The attributes an instance of trading_bot/execution/trade_execution.py's
      `TradeExecution` has: the broker it was given and `execute_trade`. */
  const TradeExecutionAttributes: set<string> := {"broker_api", "execute_trade"}

  /** `TradeExecution(...)` with `arguments` positional arguments after
      `self`: `__init__` takes exactly one, the broker. */
  function NewTradeExecution(arguments: nat): (r: Outcome<()>)
    ensures r.Raises? <==> arguments != 1
    ensures r.Raises? ==> r.error.TypeError?
  {
    if arguments == 1 then Returns(())
    else Raises(TypeError("__init__() takes exactly one argument, broker_api"))
  }

  /** As written, `RiskManagement.__init__` calls `TradeExecution()` with
      no argument, so constructing a `RiskManagement` raises TypeError. */
  lemma ConstructorAsWrittenRaises()
    ensures NewTradeExecution(0).Raises? && NewTradeExecution(0).error.TypeError?
  {
  }

  /** The `RiskManagement` class; percentages are stored as fractions. The
      executor behind `trade_execution` is taken to be one that accepts
      `cancel_order` and `place_market_order`. */
  class RiskManagement {
    var maxDailyLoss: real
    var stopLossPct: real
    var takeProfitPct: real
    var dailyLoss: real

    constructor(maxDailyLoss: real, stopLossPct: real, takeProfitPct: real)
      ensures this.maxDailyLoss == maxDailyLoss
      ensures this.stopLossPct == stopLossPct / 100.0 && this.takeProfitPct == takeProfitPct / 100.0
      ensures dailyLoss == 0.0
    {
      this.maxDailyLoss := maxDailyLoss;
      this.stopLossPct := stopLossPct / 100.0;
      this.takeProfitPct := takeProfitPct / 100.0;
      dailyLoss := 0.0;
    }

    /** `RiskManagement()` with the default arguments. */
    constructor Default()
      ensures maxDailyLoss == DefaultMaxDailyLoss
      ensures stopLossPct == DefaultStopLossPct / 100.0 && takeProfitPct == DefaultTakeProfitPct / 100.0
      ensures dailyLoss == 0.0
    {
      maxDailyLoss := DefaultMaxDailyLoss;
      stopLossPct := DefaultStopLossPct / 100.0;
      takeProfitPct := DefaultTakeProfitPct / 100.0;
      dailyLoss := 0.0;
    }

    /** `check_stop_loss` (the method): the fraction `stopLossPct` below entry. */
    function CheckStopLoss(symbol: string, entryPrice: real): (r: real)
      reads this`stopLossPct
      ensures entryPrice - r == entryPrice * stopLossPct
      ensures entryPrice >= 0.0 && stopLossPct >= 0.0 ==> r <= entryPrice
    {
      entryPrice * (1.0 - stopLossPct)
    }

    /** `check_take_profit`: the fraction `takeProfitPct` above entry. */
    function CheckTakeProfit(symbol: string, entryPrice: real): (r: real)
      reads this`takeProfitPct
      ensures r - entryPrice == entryPrice * takeProfitPct
      ensures entryPrice >= 0.0 && takeProfitPct >= 0.0 ==> r >= entryPrice
    {
      entryPrice * (1.0 + takeProfitPct)
    }

    /** `monitor_trade` over a finite run of observed prices: it stops at the
        first price at or below the stop-loss (tested first) or at or above
        the take-profit, cancels the order and sells at market once; only
        the stop-loss exit adds |entry - price| to the daily loss. When no
        observed price exits, nothing is called (the source keeps polling). */
    method MonitorTrade(symbol: string, entryPrice: real, orderId: string, prices: seq<real>)
      returns (calls: seq<ExecutorCall>, exitAt: Option<nat>)
      modifies this`dailyLoss
      ensures exitAt == FirstExit(prices, CheckStopLoss(symbol, entryPrice), CheckTakeProfit(symbol, entryPrice))
      ensures exitAt.None? ==> calls == [] && dailyLoss == old(dailyLoss)
      ensures exitAt.Some? ==> calls == [CancelOrder(orderId), PlaceMarketOrder(symbol, "sell", ExitSize)]
      ensures exitAt.Some? && prices[exitAt.value] <= CheckStopLoss(symbol, entryPrice)
              ==> dailyLoss == old(dailyLoss) + Abs(entryPrice - prices[exitAt.value])
      ensures exitAt.Some? && prices[exitAt.value] > CheckStopLoss(symbol, entryPrice)
              ==> dailyLoss == old(dailyLoss)
    {
      var stopLossPrice := CheckStopLoss(symbol, entryPrice);
      var takeProfitPrice := CheckTakeProfit(symbol, entryPrice);
      calls, exitAt := [], None;
      var i := 0;
      while i < |prices|
        invariant 0 <= i <= |prices|
        invariant forall j :: 0 <= j < i ==> !Exits(prices[j], stopLossPrice, takeProfitPrice)
        invariant dailyLoss == old(dailyLoss)
        invariant stopLossPrice == CheckStopLoss(symbol, entryPrice)
        invariant takeProfitPrice == CheckTakeProfit(symbol, entryPrice)
      {
        var currentPrice := prices[i];
        if currentPrice <= stopLossPrice {
          calls := [CancelOrder(orderId), PlaceMarketOrder(symbol, "sell", ExitSize)];
          dailyLoss := dailyLoss + Abs(entryPrice - currentPrice);
          exitAt := Some(i);
          FirstExitIs(prices, stopLossPrice, takeProfitPrice, exitAt);
          return;
        }
        if currentPrice >= takeProfitPrice {
          calls := [CancelOrder(orderId), PlaceMarketOrder(symbol, "sell", ExitSize)];
          exitAt := Some(i);
          FirstExitIs(prices, stopLossPrice, takeProfitPrice, exitAt);
          return;
        }
        i := i + 1;
      }
      FirstExitIs(prices, stopLossPrice, takeProfitPrice, None);
    }

    /** `monitor_trade` as written, with `TradeExecution` as the executor: at
        the first exit the lookup of `cancel_order`, an attribute that class
        does not have, raises AttributeError, so no order is cancelled or
        sold and the daily loss is not touched. */
    method MonitorTradeAsWritten(symbol: string, entryPrice: real, orderId: string, prices: seq<real>)
      returns (r: Outcome<()>, exitAt: Option<nat>)
      ensures exitAt == FirstExit(prices, CheckStopLoss(symbol, entryPrice), CheckTakeProfit(symbol, entryPrice))
      ensures exitAt.Some? <==> r.Raises?
      ensures r.Raises? ==> r.error == AttributeError("cancel_order")
    {
      var stopLossPrice := CheckStopLoss(symbol, entryPrice);
      var takeProfitPrice := CheckTakeProfit(symbol, entryPrice);
      r, exitAt := Returns(()), None;
      var i := 0;
      while i < |prices|
        invariant 0 <= i <= |prices|
        invariant forall j :: 0 <= j < i ==> !Exits(prices[j], stopLossPrice, takeProfitPrice)
      {
        var currentPrice := prices[i];
        if currentPrice <= stopLossPrice || currentPrice >= takeProfitPrice {
          if "cancel_order" !in TradeExecutionAttributes {
            exitAt := Some(i);
            FirstExitIs(prices, stopLossPrice, takeProfitPrice, exitAt);
            return Raises(AttributeError("cancel_order")), exitAt;
          }
          assert false;
        }
        i := i + 1;
      }
      FirstExitIs(prices, stopLossPrice, takeProfitPrice, None);
    }

    /** `check_daily_loss` (the method): the accumulated loss reached the limit. */
    function CheckDailyLoss(): (tripped: bool)
      reads this
      ensures tripped <==> dailyLoss >= maxDailyLoss
    {
      dailyLoss >= maxDailyLoss
    }
  }
}
