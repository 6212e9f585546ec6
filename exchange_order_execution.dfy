/** trading_bot/exchange/order_execution.py: the message that is signed,
    the two `place_order` definitions (the second, defined later in the
    file, is the one callers get), and the simulated `execute_trade`
    sequence. HTTP answers are parameters: None for a status other than
    200. The risk data file and RiskConfig come from
    trading_bot/core/risk_management.py. */
module ExchangeOrderExecution {
  import opened Common
  import Risk = CoreRiskManagement

  /** `generate_signature`'s message: timestamp, method, path and body
      joined without separators (the HMAC over it is not modelled). */
  function SignatureMessage(timestamp: string, httpMethod: string, requestPath: string, body: string): (m: string)
    ensures |m| == |timestamp| + |httpMethod| + |requestPath| + |body|
    ensures m[..|timestamp|] == timestamp
    ensures m[|timestamp|..|timestamp| + |httpMethod|] == httpMethod
    ensures m[|timestamp| + |httpMethod|..|timestamp| + |httpMethod| + |requestPath|] == requestPath
    ensures m[|timestamp| + |httpMethod| + |requestPath|..] == body
  {
    timestamp + httpMethod + requestPath + body
  }

  /** Messages with the same field lengths are equal only for equal fields,
      so the signed message determines the request it signs. */
  lemma SignatureMessageInjective(t1: string, m1: string, p1: string, b1: string,
                                  t2: string, m2: string, p2: string, b2: string)
    requires |t1| == |t2| && |m1| == |m2| && |p1| == |p2|
    requires SignatureMessage(t1, m1, p1, b1) == SignatureMessage(t2, m2, p2, b2)
    ensures t1 == t2 && m1 == m2 && p1 == p2 && b1 == b2
  {
    var s := SignatureMessage(t1, m1, p1, b1);
    assert t1 == s[..|t1|] == t2;
    assert m1 == s[|t1|..|t1| + |m1|] == m2;
    assert p1 == s[|t1| + |m1|..|t1| + |m1| + |p1|] == p2;
    assert b1 == s[|t1| + |m1| + |p1|..] == b2;
  }

  /** The price goes into an order only for a limit order with a truthy price. */
  predicate CarriesPrice(orderType: string, price: Scalar) {
    orderType == "limit" && Truthy(price)
  }

  /** The body of the first `place_order` (shadowed, so never called): the
      size is sent as text, and so is the price when it is carried. */
  function FirstPlaceOrderPayload(symbol: string, side: string, orderType: string, price: Scalar, size: Scalar): (p: Record)
    ensures "price" in p <==> CarriesPrice(orderType, price)
    ensures "price" in p ==> p["price"] == PyStr(price)
    ensures p - {"price"} == map["symbol" := Str(symbol), "side" := Str(side), "orderType" := Str(orderType), "size" := PyStr(size)]
  {
    var orderData := map["symbol" := Str(symbol), "side" := Str(side), "orderType" := Str(orderType), "size" := PyStr(size)];
    if CarriesPrice(orderType, price) then orderData["price" := PyStr(price)] else orderData
  }

  /** TRADING_PAIR, ORDER_TYPE and ORDER_SIZE from the configuration, and the
      risk settings of the daily-loss gate. */
  datatype ExchangeConfig = ExchangeConfig(tradingPair: string, orderType: string, orderSize: Scalar,
                                           risk: Risk.RiskConfig)

  /** The body of the effective `place_order`: always the configured pair
      and size, the given side and type, the millisecond timestamp, and the
      raw price when it is carried. */
  function PlaceOrderPayload(config: ExchangeConfig, orderType: string, side: string, price: Scalar, nowMillis: int): (p: Record)
    ensures p.Keys - {"price"} == {"symbol", "side", "type", "size", "timestamp"}
    ensures p["symbol"] == Str(config.tradingPair) && p["size"] == config.orderSize
    ensures p["side"] == Str(side) && p["type"] == Str(orderType) && p["timestamp"] == Num(nowMillis as real)
    ensures "price" in p <==> CarriesPrice(orderType, price)
    ensures "price" in p ==> p["price"] == price
  {
    var orderData := map["symbol" := Str(config.tradingPair), "side" := Str(side), "type" := Str(orderType),
                         "size" := config.orderSize, "timestamp" := Num(nowMillis as real)];
    if CarriesPrice(orderType, price) then orderData["price" := price] else orderData
  }

  /** The effective `place_order`: checks the daily-loss limit with a loss
      of 0 first and returns None without a request when it is reached;
      otherwise sends the body and returns the answer. */
  method PlaceOrder(store: Risk.RiskStore, config: ExchangeConfig, orderType: string, side: string, price: Scalar,
                    nowMillis: int, response: Option<Record>)
    returns (request: Option<Record>, result: Option<Record>)
    modifies store
    ensures store.Load() == old(store.Load())
    ensures old(store.Load()).dailyLoss >= config.risk.maxDailyLoss ==> request == None && result == None
    ensures old(store.Load()).dailyLoss < config.risk.maxDailyLoss
            ==> request == Some(PlaceOrderPayload(config, orderType, side, price, nowMillis)) && result == response
  {
    var halted := store.CheckDailyLossLimit(0.0, config.risk);
    if halted {
      return None, None;
    }
    var orderData := map["symbol" := Str(config.tradingPair), "side" := Str(side), "type" := Str(orderType),
                         "size" := config.orderSize, "timestamp" := Num(nowMillis as real)];
    if orderType == "limit" && Truthy(price) {
      orderData := orderData["price" := price];
    }
    request := Some(orderData);
    result := response;
  }

  /** The simulated exit of `execute_trade`: 1% above the entry, and the
      profit recorded for it. */
  function SimulatedExit(entryPrice: real): (r: (real, real))
    ensures r.1 == r.0 - entryPrice
    ensures r.1 * 100.0 == entryPrice
    ensures entryPrice > 0.0 ==> r.0 > entryPrice
  {
    var exitPrice := entryPrice * 1.01;
    (exitPrice, exitPrice - entryPrice)
  }

  /** `execute_trade`: `latestPrice` is `get_latest_price()` and `response`
      the order answer. No price (or a price of 0) stops before any order;
      a refused or empty order answer stops before recording; otherwise the
      trade is recorded with the simulated exit. Returns the order request
      sent, the levels computed and the record appended. */
  method ExecuteTrade(store: Risk.RiskStore, config: ExchangeConfig, latestPrice: Option<real>,
                      nowMillis: int, now: string, response: Option<Record>)
    returns (request: Option<Record>, levels: Option<(real, real)>, recorded: Option<Risk.TradeRecord>)
    modifies store
    ensures latestPrice.None? || latestPrice == Some(0.0) ==> request == None && levels == None && recorded == None
    ensures latestPrice.Some? && latestPrice.value != 0.0
            ==> levels == Some(Risk.CalculateRiskLevels(latestPrice.value, config.risk))
    ensures latestPrice.Some? && latestPrice.value != 0.0 && old(store.Load()).dailyLoss < config.risk.maxDailyLoss
            ==> request == Some(PlaceOrderPayload(config, config.orderType, "buy", Num(latestPrice.value), nowMillis))
    ensures old(store.Load()).dailyLoss >= config.risk.maxDailyLoss ==> request == None && recorded == None
    ensures recorded.Some? <==> latestPrice.Some? && latestPrice.value != 0.0
                                && old(store.Load()).dailyLoss < config.risk.maxDailyLoss
                                && response.Some? && response.value != map[]
    ensures recorded.Some? ==> recorded.value == Risk.TradeRecord(now, config.tradingPair, latestPrice.value,
                                                                  SimulatedExit(latestPrice.value).0,
                                                                  SimulatedExit(latestPrice.value).1)
    ensures recorded.Some? ==> store.Load().trades == old(store.Load().trades) + [recorded.value]
    ensures recorded.None? ==> store.Load() == old(store.Load())
    ensures store.Load().dailyLoss == old(store.Load().dailyLoss)
  {
    request, levels, recorded := None, None, None;
    if latestPrice.None? || latestPrice.value == 0.0 {
      return;
    }
    var entryPrice := latestPrice.value;
    levels := Some(Risk.CalculateRiskLevels(entryPrice, config.risk));
    var buyOrder;
    request, buyOrder := PlaceOrder(store, config, config.orderType, "buy", Num(entryPrice), nowMillis, response);
    if buyOrder.None? || buyOrder.value == map[] {
      return;
    }
    var exitPrice := entryPrice * 1.01;
    var profitLoss := exitPrice - entryPrice;
    store.RecordTrade(config.tradingPair, entryPrice, exitPrice, profitLoss, now);
    recorded := Some(Risk.TradeRecord(now, config.tradingPair, entryPrice, exitPrice, profitLoss));
  }
}
