/** The records of trading_bot/execution/trade_log.json as the exit
    enforcers read them: which open trades a price closes, and how a trade
    is marked closed. Shared by trading_bot/management/risk_management.py
    and trading_bot/monitoring/alerts.py. */
module TradeLog {
  import opened Common

  /** Which exit level of a trade a price is tested against. */
  datatype ExitKind = StopLoss | TakeProfit

  /** The record key holding the level. */
  function LevelKey(kind: ExitKind): (key: string)
    ensures key == "stop_loss" || key == "take_profit"
  {
    match kind
    case StopLoss => "stop_loss"
    case TakeProfit => "take_profit"
  }

  /** A stop-loss is hit at or below it, a take-profit at or above it. */
  predicate Breached(kind: ExitKind, price: real, level: real) {
    match kind
    case StopLoss => price <= level
    case TakeProfit => price >= level
  }

  /** A level the comparison can use: falsy (the test stops there) or a number. */
  predicate LevelReadable(v: Scalar) {
    !Truthy(v) || v.Num?
  }

  /** The trade is for `symbol` and still open. */
  predicate OpenFor(t: Record, symbol: string) {
    "symbol" in t && t["symbol"] == Str(symbol) && "status" in t && t["status"] == Str("open")
  }

  /** The trade is open for `symbol`, its level is set (truthy), and `price`
      breaches it. */
  predicate Triggers(kind: ExitKind, t: Record, symbol: string, price: real) {
    var level := Get(t, LevelKey(kind));
    OpenFor(t, symbol) && Truthy(level) && level.Num? && Breached(kind, price, level.n)
  }

  /** The record with its status set to "closed". */
  function Closed(t: Record): (c: Record)
    ensures "status" in c && c["status"] == Str("closed")
    ensures forall k :: k in t && k != "status" ==> k in c && c[k] == t[k]
    ensures c.Keys == t.Keys + {"status"}
  {
    t["status" := Str("closed")]
  }

  /** A closed trade is not open, so no price triggers it again. */
  lemma ClosedNeverTriggers(kind: ExitKind, t: Record, symbol: string, price: real)
    ensures !Triggers(kind, Closed(t), symbol, price)
  {
  }
}
