/** trading_bot/monitoring/trade_monitoring.py: the `TradeMonitoring` flag,
    the trade log reader and the price-change alert of `monitor_trade`,
    over a finite run of ticker answers. A tick is the price parsed from
    the ticker's "last" field, or None when the fetch failed or the answer
    had no price. */
module MonitoringTradeMonitoring {
  import opened Common

  class TradeMonitoring {
    var isMonitoring: bool

    constructor()
      ensures !isMonitoring
    {
      isMonitoring := false;
    }

    method StartMonitoring()
      modifies this
      ensures isMonitoring
    {
      isMonitoring := true;
    }

    method StopMonitoring()
      modifies this
      ensures !isMonitoring
    {
      isMonitoring := false;
    }

    /** `monitor_trades`: reports "not active" and does nothing else while
        monitoring is off; its active branch is empty. */
    method MonitorTrades() returns (notActive: bool)
      ensures notActive <==> !isMonitoring
    {
      notActive := !isMonitoring;
    }
  }

  /** `get_trade_history`: a missing or corrupted log reads as no trades. */
  function GetTradeHistory(log: JsonLog): (history: seq<Record>)
    reads log
    ensures !log.state.Stored? ==> history == []
    ensures log.state.Stored? ==> history == log.state.entries
  {
    EntriesOrEmpty(log.state)
  }

  /** The percentage change of `monitor_trade`, defined for a non-zero
      previous price; `(current - previous) / previous * 100`. */
  function PriceChange(previous: real, current: real): (change: real)
    requires previous != 0.0
    ensures change * previous == (current - previous) * 100.0
  {
    (current - previous) / previous * 100.0
  }

  /** The state `monitor_trade` carries between ticks: the previous price
      and whether each tick so far raised the movement alert. */
  datatype MonitorState = MonitorState(previousPrice: Option<real>, alerts: seq<bool>)

  /** One tick. A failed fetch changes nothing. Otherwise the alert fires
      when there was a previous price and the change exceeds the threshold
      strictly; a previous price of 0 makes the division raise, the error
      is caught, and the previous price is kept. */
  function Tick(previousPrice: Option<real>, fetched: Option<real>, alertThreshold: real): (r: (Option<real>, bool))
    ensures r.1 <==> fetched.Some? && previousPrice.Some? && previousPrice.value != 0.0
                     && Abs(PriceChange(previousPrice.value, fetched.value)) > alertThreshold
    ensures fetched.None? ==> r.0 == previousPrice
    ensures fetched.Some? && previousPrice != Some(0.0) ==> r.0 == fetched
    ensures previousPrice == Some(0.0) ==> r.0 == previousPrice
    ensures previousPrice.None? ==> !r.1
  {
    if fetched.None? then (previousPrice, false)
    else if previousPrice.None? then (fetched, false)
    else if previousPrice.value == 0.0 then (previousPrice, false)
    else (fetched, Abs(PriceChange(previousPrice.value, fetched.value)) > alertThreshold)
  }

  /** The state after a run of ticks, starting with no previous price. */
  function Run(ticks: seq<Option<real>>, alertThreshold: real): (s: MonitorState)
    ensures |s.alerts| == |ticks|
    ensures s.previousPrice.None? <==> forall j :: 0 <= j < |ticks| ==> ticks[j].None?
    ensures forall i :: 0 <= i < |ticks| && s.alerts[i] ==> ticks[i].Some?
    ensures forall i :: 0 <= i < |ticks| && (forall j :: 0 <= j <= i ==> ticks[j].None? || j == i) ==> !s.alerts[i]
  {
    if ticks == [] then MonitorState(None, [])
    else
      var before := Run(ticks[..|ticks| - 1], alertThreshold);
      var (previousPrice, alert) := Tick(before.previousPrice, ticks[|ticks| - 1], alertThreshold);
      MonitorState(previousPrice, before.alerts + [alert])
  }

  lemma RunStep(ticks: seq<Option<real>>, i: nat, alertThreshold: real)
    requires i < |ticks|
    ensures Run(ticks[..i + 1], alertThreshold)
            == var t := Tick(Run(ticks[..i], alertThreshold).previousPrice, ticks[i], alertThreshold);
               MonitorState(t.0, Run(ticks[..i], alertThreshold).alerts + [t.1])
  {
    assert ticks[..i + 1][..i] == ticks[..i];
  }

  /** `monitor_trade` over a finite run of ticks: which ticks alerted, and
      the previous price at the end. */
  method MonitorTrade(symbol: string, ticks: seq<Option<real>>, alertThreshold: real)
    returns (alerts: seq<bool>, previousPrice: Option<real>)
    ensures MonitorState(previousPrice, alerts) == Run(ticks, alertThreshold)
  {
    previousPrice, alerts := None, [];
    var i := 0;
    while i < |ticks|
      invariant 0 <= i <= |ticks|
      invariant MonitorState(previousPrice, alerts) == Run(ticks[..i], alertThreshold)
    {
      RunStep(ticks, i, alertThreshold);
      var alert := false;
      var tick := ticks[i];
      if tick.Some? {
        var currentPrice := tick.value;
        if previousPrice.Some? {
          if previousPrice.value == 0.0 {
            // the division raises ZeroDivisionError; the handler skips the update
            alerts := alerts + [false];
            i := i + 1;
            continue;
          }
          var priceChange := PriceChange(previousPrice.value, currentPrice);
          alert := Abs(priceChange) > alertThreshold;
        }
        previousPrice := Some(currentPrice);
      }
      alerts := alerts + [alert];
      i := i + 1;
    }
    assert ticks[..i] == ticks;
  }
}
