/** trading_bot/core/trade_manager.py: the `TradeManager` trade map, its
    single tracked position, the signal-to-order decision chain of
    `execute_trade` and the reset rule of `monitor_positions`. The signal
    source, the risk check, the order executor and its status query are
    parameters: each call's answer is given to the method. */
module CoreTradeManager {
  import opened Common

  /** A market order `execute_trade` asks the executor to place. */
  datatype MarketOrder = MarketOrder(symbol: string, side: string, quantity: real)

  /** The side a signal leads to, or None when `execute_trade` places no
      order: no signal; a signal without "side" or "price", or whose side
      is not text (the error is caught); a risk check that is missing
      (`validation == None`: RiskManager defines no `validate_trade`, and
      the AttributeError is caught) or that refuses; a side other than
      "buy" and "sell". */
  function OrderSide(signal: Option<Record>, validation: Option<bool>): (side: Option<string>)
    ensures side.Some? <==> signal.Some? && "side" in signal.value && "price" in signal.value
                            && signal.value["side"].Str? && validation == Some(true)
                            && signal.value["side"].s in {"buy", "sell"}
    ensures side.Some? ==> side.value == signal.value["side"].s
  {
    if signal.None? then None
    else if !("side" in signal.value && "price" in signal.value) then None
    else if !signal.value["side"].Str? then None
    else if validation != Some(true) then None
    else if signal.value["side"].s == "buy" then Some("buy")
    else if signal.value["side"].s == "sell" then Some("sell")
    else None
  }

  /** The risk check's answer as written: `TradeManager` builds
      trading_bot/core/risk_manager.py's `RiskManager`, which defines no
      `validate_trade`, so the call raises AttributeError and the handler
      of `execute_trade` catches it. */
  const RiskManagerValidation: Option<bool> := None

  /** As written, `execute_trade` places no order, whatever the signal. */
  lemma ExecuteTradeAsWrittenNeverPlaces(signal: Option<Record>)
    ensures OrderSide(signal, RiskManagerValidation) == None
  {
  }

  /** With a risk check that accepts, every buy or sell signal carrying a
      price leads to an order on its side. */
  lemma AcceptedSignalPlaces(signal: Record)
    requires "side" in signal && "price" in signal && signal["side"] in {Str("buy"), Str("sell")}
    ensures OrderSide(Some(signal), Some(true)) == Some(signal["side"].s)
  {
  }

  /** `monitor_positions` resets the position: there is one (truthy), it
      has a truthy "orderId", and the status answer is FILLED or CANCELLED. */
  predicate ShouldReset(position: Option<Record>, status: Option<Record>) {
    position.Some? && position.value != map[] && Truthy(Get(position.value, "orderId"))
    && status.Some? && status.value != map[]
    && Get(status.value, "status") in {Str("FILLED"), Str("CANCELLED")}
  }

  class TradeManager {
    /** TRADE_SYMBOL and TRADE_QUANTITY from the configuration. */
    const tradeSymbol: string
    const tradeQuantity: real
    /** The order answer of the last successful trade, or None. */
    var currentPosition: Option<Record>
    /** `self.trades` is read and written but never initialised. */
    var trades: Option<map<string, Record>>

    constructor(tradeSymbol: string, tradeQuantity: real)
      ensures this.tradeSymbol == tradeSymbol && this.tradeQuantity == tradeQuantity
      ensures currentPosition == None && trades == None
    {
      this.tradeSymbol := tradeSymbol;
      this.tradeQuantity := tradeQuantity;
      currentPosition := None;
      trades := None;
    }

    /** `place_trade`: inserts or overwrites one entry. */
    method PlaceTrade(tradeId: string, tradeDetails: Record) returns (message: string)
      requires trades.Some?
      modifies this`trades
      ensures trades == Some(old(trades).value[tradeId := tradeDetails])
      ensures message == "Trade " + tradeId + " placed successfully."
    {
      trades := Some(trades.value[tradeId := tradeDetails]);
      message := "Trade " + tradeId + " placed successfully.";
    }

    /** `cancel_trade`: removes the id when present; otherwise reports it
        missing and leaves the map as it was. */
    method CancelTrade(tradeId: string) returns (message: string)
      requires trades.Some?
      modifies this`trades
      ensures tradeId in old(trades).value ==> trades == Some(old(trades).value - {tradeId})
      ensures tradeId in old(trades).value ==> message == "Trade " + tradeId + " canceled successfully."
      ensures tradeId !in old(trades).value ==> trades == old(trades)
      ensures tradeId !in old(trades).value ==> message == "Trade " + tradeId + " not found."
    {
      if tradeId in trades.value {
        trades := Some(trades.value - {tradeId});
        message := "Trade " + tradeId + " canceled successfully.";
      } else {
        message := "Trade " + tradeId + " not found.";
      }
    }

    /** `get_trade_status`: the stored details, or None for "not found". */
    function GetTradeStatus(tradeId: string): (details: Option<Record>)
      reads this
      requires trades.Some?
      ensures details.Some? <==> tradeId in trades.value
      ensures details.Some? ==> details.value == trades.value[tradeId]
    {
      if tradeId in trades.value then Some(trades.value[tradeId]) else None
    }

    /** `execute_trade`: `signal` is the signal processor's answer,
        `validation` the risk check's and `response` the executor's. The
        order placed is the configured market order on the signal's side;
        the position is tracked only when the answer carries "orderId". */
    method ExecuteTrade(signal: Option<Record>, validation: Option<bool>, response: Option<Record>)
      returns (placed: Option<MarketOrder>)
      modifies this`currentPosition
      ensures placed.Some? <==> OrderSide(signal, validation).Some?
      ensures placed.Some? ==> placed.value == MarketOrder(tradeSymbol, OrderSide(signal, validation).value, tradeQuantity)
      ensures currentPosition == if placed.Some? && response.Some? && "orderId" in response.value
                                 then response else old(currentPosition)
    {
      placed := None;
      if signal.None? {
        return;
      }
      if !("side" in signal.value && "price" in signal.value) || !signal.value["side"].Str? {
        return;
      }
      var side := signal.value["side"].s;
      if validation.None? || !validation.value {
        return;
      }
      if side == "buy" {
        placed := Some(MarketOrder(tradeSymbol, "buy", tradeQuantity));
      } else if side == "sell" {
        placed := Some(MarketOrder(tradeSymbol, "sell", tradeQuantity));
      } else {
        return;
      }
      var order := response;
      if order.Some? && order.value != map[] && "orderId" in order.value {
        currentPosition := order;
      }
    }

    /** `monitor_positions`: `status` is the executor's status answer. Returns
        the order id queried, None when there is no position or no order id. */
    method MonitorPositions(status: Option<Record>) returns (queried: Option<Scalar>)
      modifies this`currentPosition
      ensures queried.Some? <==> old(currentPosition).Some? && old(currentPosition).value != map[]
                                 && Truthy(Get(old(currentPosition).value, "orderId"))
      ensures queried.Some? ==> queried.value == Get(old(currentPosition).value, "orderId")
      ensures currentPosition == if ShouldReset(old(currentPosition), status) then None else old(currentPosition)
    {
      queried := None;
      if currentPosition.None? || currentPosition.value == map[] {
        return;
      }
      var orderId := Get(currentPosition.value, "orderId");
      if !Truthy(orderId) {
        return;
      }
      queried := Some(orderId);
      if status.Some? && status.value != map[] && Get(status.value, "status") == Str("FILLED") {
        currentPosition := None;
      } else if status.Some? && status.value != map[] && Get(status.value, "status") == Str("CANCELLED") {
        currentPosition := None;
      }
    }
  }

  /** Placing a trade and then asking for it gives its details; other ids
      keep their answers. */
  method PlaceThenStatus(manager: TradeManager, tradeId: string, details: Record, otherId: string)
    returns (status: Option<Record>, other: Option<Record>)
    requires manager.trades.Some? && otherId != tradeId
    modifies manager
    ensures status == Some(details)
    ensures other == old(manager.GetTradeStatus(otherId))
  {
    var _ := manager.PlaceTrade(tradeId, details);
    status := manager.GetTradeStatus(tradeId);
    other := manager.GetTradeStatus(otherId);
  }

  /** Cancelling a placed trade makes it unknown again. */
  method PlaceThenCancel(manager: TradeManager, tradeId: string, details: Record) returns (status: Option<Record>)
    requires manager.trades.Some?
    modifies manager
    ensures status == None
  {
    var _ := manager.PlaceTrade(tradeId, details);
    var _ := manager.CancelTrade(tradeId);
    status := manager.GetTradeStatus(tradeId);
  }
}
