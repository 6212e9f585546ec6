/** trading_bot/orders/order_execution.py: the `execute_order` request and
    success rule, and the `send_order` request with its limit-needs-a-price
    check. The exchange's decoded answer is a parameter: None when the
    request or its decoding raised (for `send_order`: a status other than
    200). `log_trade` belongs to trading_bot/logs/data_logger.py, which is
    not part of this model: the record handed to it is returned instead. */
module OrdersOrderExecution {
  import opened Common

  /** The order body of `execute_order`: the pair without "/", the lowered
      order type as side, the amount as text, and a limit order with the
      price as text exactly when the price is truthy. */
  function ExecuteOrderPayload(pair: string, orderType: string, amount: Scalar, price: Scalar): (p: Record)
    ensures p.Keys == {"symbol", "side", "size", "type", "price"}
    ensures p["symbol"] == Str(RemoveChar(pair, '/')) && '/' !in p["symbol"].s
    ensures p["side"] == Str(Lower(orderType)) && p["size"] == PyStr(amount)
    ensures p["type"] == Str("limit") <==> Truthy(price)
    ensures p["type"] == Str("market") <==> !Truthy(price)
    ensures Truthy(price) ==> p["price"] == PyStr(price)
    ensures !Truthy(price) ==> p["price"] == Null
  {
    map["symbol" := Str(RemoveChar(pair, '/')),
        "side" := Str(Lower(orderType)),
        "size" := PyStr(amount),
        "type" := Str(if Truthy(price) then "limit" else "market"),
        "price" := if Truthy(price) then PyStr(price) else Null]
  }

  /** A price of 0 is falsy, so it makes a market order without a price. */
  lemma ZeroPriceIsMarket(pair: string, orderType: string, amount: Scalar)
    ensures ExecuteOrderPayload(pair, orderType, amount, Num(0.0))["type"] == Str("market")
    ensures ExecuteOrderPayload(pair, orderType, amount, Num(0.0))["price"] == Null
  {
  }

  /** The record `execute_order` logs: the caller's pair and type, and the
      price, or "Market" when it is falsy. */
  function TradeLogEntry(pair: string, orderType: string, amount: Scalar, price: Scalar): (e: Record)
    ensures e.Keys == {"pair", "type", "amount", "price"}
    ensures Truthy(price) ==> e["price"] == price
    ensures !Truthy(price) ==> e["price"] == Str("Market")
  {
    map["pair" := Str(pair), "type" := Str(orderType), "amount" := amount,
        "price" := if Truthy(price) then price else Str("Market")]
  }

  /** The result of an `execute_order` call. */
  datatype OrderAttempt = OrderAttempt(request: Record, logged: Option<Record>, result: Option<Record>)

  /** The exchange accepted the order: its answer's "code" is "00000". */
  predicate Succeeded(response: Option<Record>) {
    response.Some? && Get(response.value, "code") == Str("00000")
  }

  /** `execute_order`: on success the trade is logged and the answer
      returned; any other code, or an exception, returns None and logs
      nothing. */
  function ExecuteOrder(pair: string, orderType: string, amount: Scalar, price: Scalar,
                        response: Option<Record>): (a: OrderAttempt)
    ensures a.request == ExecuteOrderPayload(pair, orderType, amount, price)
    ensures a.result.Some? <==> Succeeded(response)
    ensures a.logged.Some? <==> a.result.Some?
    ensures a.result.Some? ==> a.result == response
    ensures a.logged.Some? ==> a.logged.value == TradeLogEntry(pair, orderType, amount, price)
  {
    var orderData := ExecuteOrderPayload(pair, orderType, amount, price);
    if response.None? then OrderAttempt(orderData, None, None)
    else if Get(response.value, "code") == Str("00000")
    then OrderAttempt(orderData, Some(TradeLogEntry(pair, orderType, amount, price)), response)
    else OrderAttempt(orderData, None, None)
  }

  /** The body of `send_order`, or None for a limit order without a price
      (`price is None`: a price of 0 is still sent). Side and order type are
      lowered, the time in force is always GTC, and the price is carried
      only by limit orders. */
  function SendOrderPayload(symbol: string, side: string, quantity: Scalar, orderType: string, price: Scalar): (p: Option<Record>)
    ensures p.None? <==> Lower(orderType) == "limit" && price == Null
    ensures p.Some? ==> p.value - {"price"} == map["symbol" := Str(symbol), "side" := Str(Lower(side)),
                                                   "size" := quantity, "orderType" := Str(Lower(orderType)),
                                                   "timeInForce" := Str("GTC")]
    ensures p.Some? ==> ("price" in p.value <==> Lower(orderType) == "limit")
    ensures p.Some? && "price" in p.value ==> p.value["price"] == price
  {
    var payload := map["symbol" := Str(symbol), "side" := Str(Lower(side)), "size" := quantity,
                       "orderType" := Str(Lower(orderType)), "timeInForce" := Str("GTC")];
    if Lower(orderType) == "limit" then
      if price == Null then None else Some(payload["price" := price])
    else Some(payload)
  }

  /** `send_order`: the request sent (none for a limit order without a
      price) and the answer returned. */
  function SendOrder(symbol: string, side: string, quantity: Scalar, orderType: string, price: Scalar,
                     response: Option<Record>): (r: (Option<Record>, Option<Record>))
    ensures r.0 == SendOrderPayload(symbol, side, quantity, orderType, price)
    ensures r.0.None? ==> r.1 == None
    ensures r.0.Some? ==> r.1 == response
  {
    var request := SendOrderPayload(symbol, side, quantity, orderType, price);
    if request.None? then (None, None) else (request, response)
  }

  /** "LIMIT" and "Limit" are limit orders too: the check is on the lowered type. */
  lemma UpperCaseLimitNeedsPrice(symbol: string, side: string, quantity: Scalar)
    ensures SendOrderPayload(symbol, side, quantity, "LIMIT", Null) == None
    ensures SendOrderPayload(symbol, side, quantity, "LIMIT", Num(0.0)).Some?
  {
    assert Lower("LIMIT") == "limit";
  }
}
