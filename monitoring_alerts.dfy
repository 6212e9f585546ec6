/** trading_bot/monitoring/alerts.py: the `monitor_price` scan over
    trade_log.json, which closes open trades at either exit level, and the
    `monitor_rsi` thresholds. Each `close_trade` call is paired with one
    alert; the model reports the order ids in call order. */
module MonitoringAlerts {
  import opened Common
  import opened TradeLog
  import Management = ManagementRiskManagement

  /** The keys `monitor_price` reads from a trade exist, and the levels of
      an open trade of `symbol` are unset or numbers. */
  predicate PriceReadable(t: Record, symbol: string, price: real) {
    "symbol" in t
    && (t["symbol"] == Str(symbol) ==> "status" in t)
    && (OpenFor(t, symbol) ==> LevelReadable(Get(t, "stop_loss")) && LevelReadable(Get(t, "take_profit")))
    && (Triggers(StopLoss, t, symbol, price) || Triggers(TakeProfit, t, symbol, price) ==> "order_id" in t)
  }

  predicate AllPriceReadable(trades: seq<Record>, symbol: string, price: real) {
    forall i :: 0 <= i < |trades| ==> PriceReadable(trades[i], symbol, price)
  }

  /** One trade after `monitor_price`: closed when either level fires. */
  function MonitorOne(t: Record, symbol: string, price: real): Record {
    if Triggers(StopLoss, t, symbol, price) || Triggers(TakeProfit, t, symbol, price) then Closed(t) else t
  }

  /** The `close_trade` calls for one trade: the two tests are separate, so
      a trade can be closed twice. */
  function ClosesOf(t: Record, symbol: string, price: real): (ids: seq<Scalar>)
    requires PriceReadable(t, symbol, price)
    ensures |ids| <= 2
    ensures ids == [] <==> MonitorOne(t, symbol, price) == t
  {
    (if Triggers(StopLoss, t, symbol, price) then [t["order_id"]] else [])
    + (if Triggers(TakeProfit, t, symbol, price) then [t["order_id"]] else [])
  }

  /** The trades after `monitor_price`. */
  function Monitored(trades: seq<Record>, symbol: string, price: real): (r: seq<Record>)
    ensures |r| == |trades|
    ensures forall i :: 0 <= i < |trades| ==> r[i] == MonitorOne(trades[i], symbol, price)
  {
    if trades == [] then []
    else Monitored(trades[..|trades| - 1], symbol, price) + [MonitorOne(trades[|trades| - 1], symbol, price)]
  }

  /** All `close_trade` calls of `monitor_price`, in log order. */
  function Closes(trades: seq<Record>, symbol: string, price: real): seq<Scalar>
    requires AllPriceReadable(trades, symbol, price)
  {
    if trades == [] then []
    else
      assert AllPriceReadable(trades[..|trades| - 1], symbol, price) by {
        forall i | 0 <= i < |trades| - 1 ensures trades[..|trades| - 1][i] == trades[i] { }
      }
      Closes(trades[..|trades| - 1], symbol, price) + ClosesOf(trades[|trades| - 1], symbol, price)
  }

  lemma ClosesStep(trades: seq<Record>, i: nat, symbol: string, price: real)
    requires i < |trades|
    requires AllPriceReadable(trades[..i], symbol, price)
    requires PriceReadable(trades[i], symbol, price)
    ensures AllPriceReadable(trades[..i + 1], symbol, price)
    ensures Closes(trades[..i + 1], symbol, price) == Closes(trades[..i], symbol, price) + ClosesOf(trades[i], symbol, price)
  {
    assert trades[..i + 1][..i] == trades[..i];
    assert trades[..i + 1] == trades[..i] + [trades[i]];
  }

  /** The body of the `monitor_price` loop for one trade. */
  method CheckTrade(trade: Record, symbol: string, currentPrice: real) returns (updated: Record, ids: seq<Scalar>)
    requires PriceReadable(trade, symbol, currentPrice)
    ensures updated == MonitorOne(trade, symbol, currentPrice)
    ensures ids == ClosesOf(trade, symbol, currentPrice)
  {
    updated, ids := trade, [];
    if trade["symbol"] == Str(symbol) && trade["status"] == Str("open") {
      var stopLoss := Get(trade, "stop_loss");
      var takeProfit := Get(trade, "take_profit");
      if Truthy(stopLoss) && currentPrice <= stopLoss.n {
        ids := ids + [trade["order_id"]];
        updated := Closed(trade);
      }
      if Truthy(takeProfit) && currentPrice >= takeProfit.n {
        ids := ids + [trade["order_id"]];
        updated := Closed(trade);
      }
    }
  }

  /** `monitor_price`: reads the log, closes each open trade of `symbol`
      whose set stop-loss the price is at or below and, separately, whose
      set take-profit it is at or above, and writes the log back. A missing
      log does nothing; a corrupted log returns before anything is closed
      or written. */
  method MonitorPrice(log: JsonLog, symbol: string, currentPrice: real) returns (closes: seq<Scalar>)
    requires log.state.Stored? ==> AllPriceReadable(log.state.entries, symbol, currentPrice)
    modifies log
    ensures !old(log.state).Stored? ==> log.state == old(log.state) && closes == []
    ensures old(log.state).Stored? ==> log.state == Stored(Monitored(old(log.state).entries, symbol, currentPrice))
    ensures old(log.state).Stored? ==> closes == Closes(old(log.state).entries, symbol, currentPrice)
  {
    closes := [];
    if !log.state.Stored? {
      return;
    }
    var original := log.state.entries;
    var trades := original;
    var i := 0;
    while i < |trades|
      invariant 0 <= i <= |trades| == |original|
      invariant AllPriceReadable(original[..i], symbol, currentPrice)
      invariant forall j :: 0 <= j < i ==> trades[j] == MonitorOne(original[j], symbol, currentPrice)
      invariant forall j :: i <= j < |trades| ==> trades[j] == original[j]
      invariant closes == Closes(original[..i], symbol, currentPrice)
    {
      ClosesStep(original, i, symbol, currentPrice);
      var updated, ids := CheckTrade(trades[i], symbol, currentPrice);
      closes := closes + ids;
      trades := trades[i := updated];
      i := i + 1;
    }
    assert original[..i] == original;
    assert trades == Monitored(original, symbol, currentPrice);
    log.state := Stored(trades);
  }

  /** With a stop-loss strictly below the take-profit a trade is closed at
      most once. */
  lemma AtMostOneCloseWhenOrdered(t: Record, symbol: string, price: real)
    requires PriceReadable(t, symbol, price)
    requires HasNumber(t, "stop_loss") && HasNumber(t, "take_profit")
    requires t["stop_loss"].n < t["take_profit"].n
    ensures |ClosesOf(t, symbol, price)| <= 1
  {
  }

  /** A trade whose take-profit (1.0) lies below its stop-loss (2.0): a price
      between them passes its order id to `close_trade` twice. */
  lemma InvertedLevelsCloseTwice()
    ensures ClosesOf(map["symbol" := Str("PIUSDT"), "status" := Str("open"), "order_id" := Str("42"),
                         "stop_loss" := Num(2.0), "take_profit" := Num(1.0)],
                     "PIUSDT", 1.5) == [Str("42"), Str("42")]
  {
  }

  /** The log `monitor_price` leaves is the one `enforce_stop_loss` followed
      by `enforce_take_profit` would leave at the same price. */
  lemma MonitorLikeBothEnforcers(trades: seq<Record>, symbol: string, price: real)
    ensures Monitored(trades, symbol, price)
            == Management.Enforced(TakeProfit, Management.Enforced(StopLoss, trades, symbol, price), symbol, price)
  {
    var both := Management.Enforced(TakeProfit, Management.Enforced(StopLoss, trades, symbol, price), symbol, price);
    forall i | 0 <= i < |trades|
      ensures both[i] == MonitorOne(trades[i], symbol, price)
    {
      if Triggers(StopLoss, trades[i], symbol, price) {
        ClosedNeverTriggers(TakeProfit, trades[i], symbol, price);
      }
    }
  }

  /** The RSI alerts of `monitor_rsi`. */
  datatype RsiAlert = Overbought | Oversold

  /** `monitor_rsi`: overbought above 70, else oversold below 30, else no alert. */
  function MonitorRsi(symbol: string, rsiValue: real): (alert: Option<RsiAlert>)
    ensures alert == Some(Overbought) <==> rsiValue > 70.0
    ensures alert == Some(Oversold) <==> rsiValue < 30.0
    ensures alert == None <==> 30.0 <= rsiValue <= 70.0
  {
    if rsiValue > 70.0 then Some(Overbought)
    else if rsiValue < 30.0 then Some(Oversold)
    else None
  }
}
