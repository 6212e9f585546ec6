/** trading_bot/execution/trade_monitor.py: the `TradeMonitor` flag and
    its activity log, and `update_trade_log`, which fills in the status of
    logged trades from the exchange. The exchange's status answer for an
    order id (`get_trade_status`, None on an error) is the function
    parameter `statusOf`. */
module ExecutionTradeMonitor {
  import opened Common

  class TradeMonitor {
    var isMonitoring: bool

    constructor()
      ensures !isMonitoring
    {
      isMonitoring := false;
    }

    method StartMonitoring()
      modifies this
      ensures isMonitoring
    {
      isMonitoring := true;
    }

    method StopMonitoring()
      modifies this
      ensures !isMonitoring
    {
      isMonitoring := false;
    }

    /** `log_trade_activity`: the log line written, only while monitoring. */
    function LogTradeActivity(tradeInfo: string): (line: Option<string>)
      reads this
      ensures line.Some? <==> isMonitoring
      ensures line.Some? ==> line.value == "Trade activity: " + tradeInfo
    {
      if isMonitoring then Some("Trade activity: " + tradeInfo) else None
    }
  }

  /** A trade whose status `update_trade_log` asks for: it has an order id
      and no status yet. */
  predicate NeedsStatus(t: Record) {
    "orderId" in t && "status" !in t
  }

  /** One trade after `update_trade_log`: the answer's status is copied in
      when the trade needs one and the answer carries one. */
  function FillIn(t: Record, statusOf: Scalar -> Option<Record>): (u: Record)
    ensures u != t <==> NeedsStatus(t) && statusOf(t["orderId"]).Some? && "status" in statusOf(t["orderId"]).value
    ensures u != t ==> u == t["status" := statusOf(t["orderId"]).value["status"]]
    ensures !NeedsStatus(t) ==> u == t
    ensures u.Keys == t.Keys || u.Keys == t.Keys + {"status"}
    ensures forall k :: k in t ==> k in u && u[k] == t[k]
  {
    if NeedsStatus(t) then
      var status := statusOf(t["orderId"]);
      if status.Some? && status.value != map[] && "status" in status.value
      then t["status" := status.value["status"]]
      else t
    else t
  }

  /** The whole log after `update_trade_log`: same length, same order. */
  function FilledLog(trades: seq<Record>, statusOf: Scalar -> Option<Record>): (r: seq<Record>)
    ensures |r| == |trades|
    ensures forall i :: 0 <= i < |trades| ==> r[i] == FillIn(trades[i], statusOf)
  {
    if trades == [] then [] else FilledLog(trades[..|trades| - 1], statusOf) + [FillIn(trades[|trades| - 1], statusOf)]
  }

  /** The order ids queried, in log order. */
  function Queried(trades: seq<Record>): (ids: seq<Scalar>)
    ensures |ids| <= |trades|
  {
    if trades == [] then []
    else
      var last := trades[|trades| - 1];
      Queried(trades[..|trades| - 1]) + (if NeedsStatus(last) then [last["orderId"]] else [])
  }

  lemma QueriedStep(trades: seq<Record>, i: nat)
    requires i < |trades|
    ensures Queried(trades[..i + 1]) == Queried(trades[..i]) + (if NeedsStatus(trades[i]) then [trades[i]["orderId"]] else [])
  {
    assert trades[..i + 1][..i] == trades[..i];
  }

  /** `update_trade_log`: a missing or corrupted log returns without a
      write; otherwise each trade needing a status is queried and the log
      is written back. */
  method UpdateTradeLog(log: JsonLog, statusOf: Scalar -> Option<Record>) returns (queried: seq<Scalar>)
    modifies log
    ensures !old(log.state).Stored? ==> log.state == old(log.state) && queried == []
    ensures old(log.state).Stored? ==> log.state == Stored(FilledLog(old(log.state).entries, statusOf))
    ensures old(log.state).Stored? ==> queried == Queried(old(log.state).entries)
  {
    queried := [];
    if !log.state.Stored? {
      return;
    }
    var original := log.state.entries;
    var tradeLog := original;
    var i := 0;
    while i < |tradeLog|
      invariant 0 <= i <= |tradeLog| == |original|
      invariant forall j :: 0 <= j < i ==> tradeLog[j] == FillIn(original[j], statusOf)
      invariant forall j :: i <= j < |tradeLog| ==> tradeLog[j] == original[j]
      invariant queried == Queried(original[..i])
    {
      QueriedStep(original, i);
      var trade := tradeLog[i];
      if "orderId" in trade && "status" !in trade {
        var status := statusOf(trade["orderId"]);
        queried := queried + [trade["orderId"]];
        if status.Some? && status.value != map[] && "status" in status.value {
          tradeLog := tradeLog[i := trade["status" := status.value["status"]]];
        }
      }
      i := i + 1;
    }
    assert original[..i] == original;
    assert tradeLog == FilledLog(original, statusOf);
    log.state := Stored(tradeLog);
  }

  /** A status once set is never re-queried or changed: a later update,
      with any answers, leaves every trade that has a status as it is. */
  lemma StatusIsStable(trades: seq<Record>, statusOf: Scalar -> Option<Record>, later: Scalar -> Option<Record>, i: nat)
    requires i < |trades| && "status" in FilledLog(trades, statusOf)[i]
    ensures FilledLog(FilledLog(trades, statusOf), later)[i] == FilledLog(trades, statusOf)[i]
  {
  }

  /** With the same answers, a second update changes nothing. */
  lemma UpdateIdempotent(trades: seq<Record>, statusOf: Scalar -> Option<Record>)
    ensures FilledLog(FilledLog(trades, statusOf), statusOf) == FilledLog(trades, statusOf)
  {
    var once := FilledLog(trades, statusOf);
    forall i | 0 <= i < |trades|
      ensures FillIn(once[i], statusOf) == once[i]
    {
      if NeedsStatus(once[i]) {
        assert once[i] == trades[i];
      }
    }
  }
}
