/** trading_bot/management/risk_management.py: per-trade risk, the trade
    log reader, the risk assessment of the whole log, the risk/reward
    ratio, and the two exit enforcers over trade_log.json. `close_trade`
    is not defined in any file of the repository that is modelled; the
    enforcers report the order ids they pass to it, in call order. */
module ManagementRiskManagement {
  import opened Common
  import opened TradeLog

  /** `calculate_risk`: 1% of the traded value `amount * price`. */
  function CalculateRisk(trade: Record): (risk: real)
    requires HasNumber(trade, "amount") && HasNumber(trade, "price")
    ensures risk * 100.0 == trade["amount"].n * trade["price"].n
    ensures trade["amount"].n >= 0.0 && trade["price"].n >= 0.0 ==> risk >= 0.0
  {
    trade["amount"].n * trade["price"].n * 0.01
  }

  /** `get_trade_history`: the logged trades; a missing or corrupted log
      reads as no trades. */
  function GetTradeHistory(log: JsonLog): (history: seq<Record>)
    reads log
    ensures !log.state.Stored? ==> history == []
    ensures log.state.Stored? ==> history == log.state.entries
  {
    EntriesOrEmpty(log.state)
  }

  predicate RiskReadable(trades: seq<Record>) {
    forall i :: 0 <= i < |trades| ==> HasNumber(trades[i], "amount") && HasNumber(trades[i], "price")
  }

  /** A trade annotated with its risk; every other field is kept. */
  function Assessed(trade: Record): (a: Record)
    requires HasNumber(trade, "amount") && HasNumber(trade, "price")
    ensures "risk" in a && a["risk"] == Num(CalculateRisk(trade))
    ensures forall k :: k in trade && k != "risk" ==> k in a && a[k] == trade[k]
  {
    trade["risk" := Num(CalculateRisk(trade))]
  }

  /** `assess_risk`: each logged trade, in log order, annotated with its risk. */
  method AssessRisk(log: JsonLog) returns (assessment: seq<Record>)
    requires RiskReadable(GetTradeHistory(log))
    ensures |assessment| == |GetTradeHistory(log)|
    ensures forall i :: 0 <= i < |assessment| ==> assessment[i] == Assessed(GetTradeHistory(log)[i])
  {
    var tradeHistory := GetTradeHistory(log);
    assessment := [];
    var i := 0;
    while i < |tradeHistory|
      invariant 0 <= i <= |tradeHistory|
      invariant |assessment| == i
      invariant forall j :: 0 <= j < i ==> assessment[j] == Assessed(tradeHistory[j])
    {
      var trade := tradeHistory[i];
      var risk := CalculateRisk(trade);
      trade := trade["risk" := Num(risk)];
      assessment := assessment + [trade];
      i := i + 1;
    }
  }

  /** `check_trade_risk`: the ratio of the distance to the stop over the
      distance to the target, when the target is above the entry; a ratio
      that is missing or 0 is reported as 0.0. */
  function CheckTradeRisk(symbol: string, entryPrice: real, stopLoss: real, takeProfit: real): (ratio: real)
    ensures takeProfit > entryPrice ==> ratio * (takeProfit - entryPrice) == entryPrice - stopLoss
    ensures ratio != 0.0 <==> takeProfit > entryPrice && entryPrice != stopLoss
  {
    var riskRatio: Option<real> :=
      if takeProfit > entryPrice then Some((entryPrice - stopLoss) / (takeProfit - entryPrice)) else None;
    if riskRatio.Some? && riskRatio.value != 0.0 then riskRatio.value else 0.0
  }

  /** The example of the module: entry 1.50, stop 1.40, target 1.60. */
  lemma ExampleRiskRatio()
    ensures CheckTradeRisk("PIUSDT", 1.50, 1.40, 1.60) == 1.0
  {
  }

  /** The keys an enforcer reads from a trade exist, and a set level is a
      number. `trade["status"]` is read only for a matching symbol, and
      `trade["order_id"]` only for a trade being closed. */
  predicate EnforceReadable(kind: ExitKind, t: Record, symbol: string, price: real) {
    "symbol" in t
    && (t["symbol"] == Str(symbol) ==> "status" in t)
    && (OpenFor(t, symbol) ==> LevelReadable(Get(t, LevelKey(kind))))
    && (Triggers(kind, t, symbol, price) ==> "order_id" in t)
  }

  predicate AllEnforceReadable(kind: ExitKind, trades: seq<Record>, symbol: string, price: real) {
    forall i :: 0 <= i < |trades| ==> EnforceReadable(kind, trades[i], symbol, price)
  }

  /** One trade after the enforcer saw it. */
  function EnforceOne(kind: ExitKind, t: Record, symbol: string, price: real): Record {
    if Triggers(kind, t, symbol, price) then Closed(t) else t
  }

  /** The trades after an enforcer: exactly the triggered ones are closed,
      in place; the others are unchanged. */
  function Enforced(kind: ExitKind, trades: seq<Record>, symbol: string, price: real): (r: seq<Record>)
    ensures |r| == |trades|
    ensures forall i :: 0 <= i < |trades| ==> r[i] == EnforceOne(kind, trades[i], symbol, price)
  {
    if trades == [] then []
    else Enforced(kind, trades[..|trades| - 1], symbol, price) + [EnforceOne(kind, trades[|trades| - 1], symbol, price)]
  }

  /** The order ids passed to `close_trade`, one per triggered trade, in log order. */
  function Closes(kind: ExitKind, trades: seq<Record>, symbol: string, price: real): (ids: seq<Scalar>)
    requires AllEnforceReadable(kind, trades, symbol, price)
    ensures |ids| <= |trades|
  {
    if trades == [] then []
    else
      var last := trades[|trades| - 1];
      assert AllEnforceReadable(kind, trades[..|trades| - 1], symbol, price) by {
        forall i | 0 <= i < |trades| - 1 ensures trades[..|trades| - 1][i] == trades[i] { }
      }
      Closes(kind, trades[..|trades| - 1], symbol, price)
      + (if Triggers(kind, last, symbol, price) then [last["order_id"]] else [])
  }

  /** The loop shared by both enforcers: reads the log, closes triggered
      trades and writes the log back. A missing log does nothing; a
      corrupted log returns before anything is closed or written. */
  method Enforce(kind: ExitKind, log: JsonLog, symbol: string, price: real) returns (closes: seq<Scalar>)
    requires log.state.Stored? ==> AllEnforceReadable(kind, log.state.entries, symbol, price)
    modifies log
    ensures !old(log.state).Stored? ==> log.state == old(log.state) && closes == []
    ensures old(log.state).Stored? ==> log.state == Stored(Enforced(kind, old(log.state).entries, symbol, price))
    ensures old(log.state).Stored? ==> closes == Closes(kind, old(log.state).entries, symbol, price)
  {
    closes := [];
    if !log.state.Stored? {
      return;
    }
    var original := log.state.entries;
    var trades := original;
    var i := 0;
    while i < |trades|
      invariant 0 <= i <= |trades| == |original|
      invariant AllEnforceReadable(kind, original[..i], symbol, price)
      invariant forall j :: 0 <= j < i ==> trades[j] == EnforceOne(kind, original[j], symbol, price)
      invariant forall j :: i <= j < |trades| ==> trades[j] == original[j]
      invariant closes == Closes(kind, original[..i], symbol, price)
    {
      EnforceStep(kind, original, i, symbol, price);
      var trade := trades[i];
      var hit := false;
      if trade["symbol"] == Str(symbol) && trade["status"] == Str("open") {
        var level := Get(trade, LevelKey(kind));
        hit := Truthy(level) && Breached(kind, price, level.n);
      }
      assert hit == Triggers(kind, original[i], symbol, price);
      if hit {
        closes := closes + [trade["order_id"]];
        trades := trades[i := Closed(trade)];
      }
      i := i + 1;
    }
    assert original[..i] == original;
    assert trades == Enforced(kind, original, symbol, price);
    log.state := Stored(trades);
  }

  /** What one more trade adds to the enforced prefix and to the closes. */
  lemma EnforceStep(kind: ExitKind, trades: seq<Record>, i: nat, symbol: string, price: real)
    requires i < |trades|
    requires AllEnforceReadable(kind, trades[..i], symbol, price)
    requires EnforceReadable(kind, trades[i], symbol, price)
    ensures AllEnforceReadable(kind, trades[..i + 1], symbol, price)
    ensures Closes(kind, trades[..i + 1], symbol, price)
            == Closes(kind, trades[..i], symbol, price)
               + (if Triggers(kind, trades[i], symbol, price) then [trades[i]["order_id"]] else [])
  {
    assert trades[..i + 1][..i] == trades[..i];
    assert trades[..i + 1] == trades[..i] + [trades[i]];
  }

  /** `enforce_stop_loss`: closes the open trades of `symbol` whose set
      stop-loss the price is at or below. */
  method EnforceStopLoss(log: JsonLog, symbol: string, currentPrice: real) returns (closes: seq<Scalar>)
    requires log.state.Stored? ==> AllEnforceReadable(StopLoss, log.state.entries, symbol, currentPrice)
    modifies log
    ensures !old(log.state).Stored? ==> log.state == old(log.state) && closes == []
    ensures old(log.state).Stored? ==> log.state == Stored(Enforced(StopLoss, old(log.state).entries, symbol, currentPrice))
    ensures old(log.state).Stored? ==> closes == Closes(StopLoss, old(log.state).entries, symbol, currentPrice)
  {
    closes := Enforce(StopLoss, log, symbol, currentPrice);
  }

  /** `enforce_take_profit`: closes the open trades of `symbol` whose set
      take-profit the price is at or above. */
  method EnforceTakeProfit(log: JsonLog, symbol: string, currentPrice: real) returns (closes: seq<Scalar>)
    requires log.state.Stored? ==> AllEnforceReadable(TakeProfit, log.state.entries, symbol, currentPrice)
    modifies log
    ensures !old(log.state).Stored? ==> log.state == old(log.state) && closes == []
    ensures old(log.state).Stored? ==> log.state == Stored(Enforced(TakeProfit, old(log.state).entries, symbol, currentPrice))
    ensures old(log.state).Stored? ==> closes == Closes(TakeProfit, old(log.state).entries, symbol, currentPrice)
  {
    closes := Enforce(TakeProfit, log, symbol, currentPrice);
  }

  lemma {:induction false} NothingTriggeredNoCloses(kind: ExitKind, trades: seq<Record>, symbol: string, price: real)
    requires AllEnforceReadable(kind, trades, symbol, price)
    requires forall i :: 0 <= i < |trades| ==> !Triggers(kind, trades[i], symbol, price)
    ensures Closes(kind, trades, symbol, price) == []
  {
    if trades != [] {
      var prefix := trades[..|trades| - 1];
      assert forall i :: 0 <= i < |prefix| ==> prefix[i] == trades[i];
      NothingTriggeredNoCloses(kind, prefix, symbol, price);
    }
  }

  /** Both enforcers are idempotent: a second run at the same price leaves
      the trades as they are and passes no order to `close_trade`. */
  lemma EnforceIdempotent(kind: ExitKind, trades: seq<Record>, symbol: string, price: real)
    requires AllEnforceReadable(kind, trades, symbol, price)
    ensures AllEnforceReadable(kind, Enforced(kind, trades, symbol, price), symbol, price)
    ensures Enforced(kind, Enforced(kind, trades, symbol, price), symbol, price) == Enforced(kind, trades, symbol, price)
    ensures Closes(kind, Enforced(kind, trades, symbol, price), symbol, price) == []
  {
    var once := Enforced(kind, trades, symbol, price);
    forall i | 0 <= i < |once|
      ensures !Triggers(kind, once[i], symbol, price)
    {
      if Triggers(kind, trades[i], symbol, price) {
        ClosedNeverTriggers(kind, trades[i], symbol, price);
      }
    }
    NothingTriggeredNoCloses(kind, once, symbol, price);
  }
}
