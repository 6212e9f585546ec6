/** trading_bot/execution/trade_execution.py: the JSON trade log append,
    the market and limit order requests with their log-on-order-id rule,
    and the trade-type check of `TradeExecution.execute_trade`. The
    exchange's answer is a parameter: None when the request or its JSON
    decoding raised. */
module ExecutionTradeExecution {
  import opened Common

  /** `log_trade`: a missing or corrupted log is taken as empty, the entry
      goes after the existing ones, and the file is rewritten. */
  method LogTrade(log: JsonLog, tradeData: Record)
    modifies log
    ensures log.state == Stored(EntriesOrEmpty(old(log.state)) + [tradeData])
  {
    var tradeLog: seq<Record>;
    if log.state.NoFile? {
      tradeLog := [];
    } else if log.state.Corrupt? {
      tradeLog := [];
    } else {
      tradeLog := log.state.entries;
    }
    tradeLog := tradeLog + [tradeData];
    log.state := Stored(tradeLog);
  }

  /** The entries after a run of `log_trade` calls: a stored log keeps
      every earlier entry as a prefix. */
  function LoggedAll(before: JsonFileState, entries: seq<Record>): (after: seq<Record>)
    ensures |after| == |EntriesOrEmpty(before)| + |entries|
    ensures after[..|EntriesOrEmpty(before)|] == EntriesOrEmpty(before)
    ensures after[|EntriesOrEmpty(before)|..] == entries
  {
    EntriesOrEmpty(before) + entries
  }

  /** Logging twice appends both entries in call order. */
  method LogTwice(log: JsonLog, first: Record, second: Record)
    modifies log
    ensures log.state == Stored(LoggedAll(old(log.state), [first, second]))
  {
    LogTrade(log, first);
    LogTrade(log, second);
    assert EntriesOrEmpty(old(log.state)) + [first] + [second] == EntriesOrEmpty(old(log.state)) + [first, second];
  }

  /** The body of `place_market_order`. */
  function MarketPayload(symbol: string, side: string, quantity: Scalar): (p: Record)
    ensures p.Keys == {"symbol", "side", "size"}
    ensures p["symbol"] == Str(symbol) && p["side"] == Str(side) && p["size"] == quantity
  {
    map["symbol" := Str(symbol), "side" := Str(side), "size" := quantity]
  }

  /** The body of `place_limit_order`: the market body plus the price. */
  function LimitPayload(symbol: string, side: string, quantity: Scalar, price: Scalar): (p: Record)
    ensures p.Keys == {"symbol", "side", "size", "price"}
    ensures p["price"] == price
  {
    map["symbol" := Str(symbol), "side" := Str(side), "size" := quantity, "price" := price]
  }

  /** The limit body is exactly the market body with a price added. */
  lemma LimitExtendsMarket(symbol: string, side: string, quantity: Scalar, price: Scalar)
    ensures LimitPayload(symbol, side, quantity, price) == MarketPayload(symbol, side, quantity)["price" := price]
    ensures LimitPayload(symbol, side, quantity, price) - {"price"} == MarketPayload(symbol, side, quantity)
  {
  }

  /** The answer counts as an executed order: it carries "orderId". */
  predicate Accepted(response: Option<Record>) {
    response.Some? && "orderId" in response.value
  }

  /** `place_order` of both kinds after the body is built: the answer is
      logged when it carries an order id and returned; an exception returns
      None and logs nothing. */
  method SendAndLog(log: JsonLog, response: Option<Record>) returns (result: Option<Record>)
    modifies log
    ensures result == response
    ensures Accepted(response) ==> log.state == Stored(EntriesOrEmpty(old(log.state)) + [response.value])
    ensures !Accepted(response) ==> log.state == old(log.state)
  {
    if response.None? {
      return None;
    }
    var data := response.value;
    if "orderId" in data {
      LogTrade(log, data);
    }
    result := Some(data);
  }

  /** `place_market_order`: the body sent and the answer returned. */
  method PlaceMarketOrder(log: JsonLog, symbol: string, side: string, quantity: Scalar, response: Option<Record>)
    returns (payload: Record, result: Option<Record>)
    modifies log
    ensures payload == MarketPayload(symbol, side, quantity) && result == response
    ensures Accepted(response) ==> log.state == Stored(EntriesOrEmpty(old(log.state)) + [response.value])
    ensures !Accepted(response) ==> log.state == old(log.state)
  {
    payload := map["symbol" := Str(symbol), "side" := Str(side), "size" := quantity];
    result := SendAndLog(log, response);
  }

  /** `place_limit_order`: the same with the price in the body. */
  method PlaceLimitOrder(log: JsonLog, symbol: string, side: string, quantity: Scalar, price: Scalar,
                         response: Option<Record>)
    returns (payload: Record, result: Option<Record>)
    modifies log
    ensures payload == LimitPayload(symbol, side, quantity, price) && result == response
    ensures Accepted(response) ==> log.state == Stored(EntriesOrEmpty(old(log.state)) + [response.value])
    ensures !Accepted(response) ==> log.state == old(log.state)
  {
    payload := map["symbol" := Str(symbol), "side" := Str(side), "size" := quantity, "price" := price];
    result := SendAndLog(log, response);
  }

  /** A `create_order(symbol, quantity, trade_type)` call on the broker. */
  datatype CreateOrder = CreateOrder(symbol: string, quantity: real, tradeType: string)

  /** What `TradeExecution.execute_trade` does: the broker calls it makes
      and its result. */
  datatype Execution = Execution(brokerCalls: seq<CreateOrder>, result: Outcome<Record>)

  const InvalidTradeType := "Invalid trade type. Must be 'buy' or 'sell'."

  class TradeExecution {
    /** The broker API's `create_order`, as the order it answers with. */
    const createOrder: CreateOrder -> Record

    constructor(createOrder: CreateOrder -> Record)
      ensures this.createOrder == createOrder
    {
      this.createOrder := createOrder;
    }

    /** `execute_trade`: any type other than "buy" or "sell" raises before
        the broker is called; a valid one returns the broker's order. */
    function ExecuteTrade(symbol: string, quantity: real, tradeType: string): (e: Execution)
      ensures e.result.Raises? <==> tradeType != "buy" && tradeType != "sell"
      ensures e.result.Raises? ==> e.brokerCalls == [] && e.result.error == ValueError(InvalidTradeType)
      ensures e.result.Returns? ==> e.brokerCalls == [CreateOrder(symbol, quantity, tradeType)]
      ensures e.result.Returns? ==> e.result.value == createOrder(e.brokerCalls[0])
    {
      if tradeType !in ["buy", "sell"] then Execution([], Raises(ValueError(InvalidTradeType)))
      else
        var order := createOrder(CreateOrder(symbol, quantity, tradeType));
        Execution([CreateOrder(symbol, quantity, tradeType)], Returns(order))
    }
  }
}
