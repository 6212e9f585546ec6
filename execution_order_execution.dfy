/** trading_bot/execution/order_execution.py: a second copy of
    `execute_order`, written out from its own file and proved to behave as
    the one in trading_bot/orders/order_execution.py. */
module ExecutionOrderExecution {
  import opened Common
  import Orders = OrdersOrderExecution

  /** The one dict literal of `execute_order`. */
  function OrderData(pair: string, orderType: string, amount: Scalar, price: Scalar): (p: Record)
    ensures p.Keys == {"symbol", "side", "size", "type", "price"}
    ensures p["symbol"] == Str(RemoveChar(pair, '/')) && p["side"] == Str(Lower(orderType))
    ensures p["size"] == PyStr(amount)
    ensures p["type"] == (if Truthy(price) then Str("limit") else Str("market"))
    ensures p["price"] == (if Truthy(price) then PyStr(price) else Null)
  {
    var limit := Truthy(price);
    map["symbol" := Str(RemoveChar(pair, '/')), "side" := Str(Lower(orderType)), "size" := PyStr(amount),
        "type" := Str(if limit then "limit" else "market"), "price" := if limit then PyStr(price) else Null]
  }

  /** `execute_order`: the request, the record logged and the answer
      returned; only the code "00000" counts as success. */
  function ExecuteOrder(pair: string, orderType: string, amount: Scalar, price: Scalar,
                        response: Option<Record>): (a: Orders.OrderAttempt)
    ensures a.request == OrderData(pair, orderType, amount, price)
    ensures a.result.Some? <==> response.Some? && Get(response.value, "code") == Str("00000")
    ensures a.result.Some? ==> a.result == response && a.logged.Some?
    ensures a.result.None? ==> a.logged.None?
    ensures a.logged.Some? ==> a.logged.value.Keys == {"pair", "type", "amount", "price"}
    ensures a.logged.Some? ==> a.logged.value["price"] == (if Truthy(price) then price else Str("Market"))
  {
    var orderData := OrderData(pair, orderType, amount, price);
    var success := response.Some? && Get(response.value, "code") == Str("00000");
    var entry := map["pair" := Str(pair), "type" := Str(orderType), "amount" := amount,
                     "price" := if Truthy(price) then price else Str("Market")];
    Orders.OrderAttempt(orderData, if success then Some(entry) else None, if success then response else None)
  }

  /** The two copies send the same request, log the same record and
      return the same answer for every input. */
  lemma CopiesAgree(pair: string, orderType: string, amount: Scalar, price: Scalar, response: Option<Record>)
    ensures ExecuteOrder(pair, orderType, amount, price, response)
            == Orders.ExecuteOrder(pair, orderType, amount, price, response)
  {
    assert OrderData(pair, orderType, amount, price) == Orders.ExecuteOrderPayload(pair, orderType, amount, price);
  }
}
