/** trading_bot/core/risk_manager.py: the `RiskManager` object, its price
    levels, its position sizing and its two loss counters. */
module CoreRiskManager {
  import opened Common

  /** The defaults of `RiskManager.__init__`. */
  const DefaultStopLossPct: real := 2.0
  const DefaultTakeProfitPct: real := 5.0
  const DefaultMaxDailyLossPct: real := 10.0
  const DefaultMaxRiskPerTrade: real := 1.0

  class RiskManager {
    var stopLossPct: real
    var takeProfitPct: real
    var maxDailyLossPct: real
    var maxRiskPerTrade: real
    /** The counter that `update_daily_loss` accumulates and tests. */
    var dailyLoss: real
    /** `current_daily_loss` exists only once `reset_daily_loss` has run. */
    var currentDailyLoss: Option<real>
    /** `max_daily_loss` exists only once `set_max_daily_loss` has run. */
    var maxDailyLoss: Option<real>

    constructor(stopLossPct: real, takeProfitPct: real, maxDailyLossPct: real, maxRiskPerTrade: real)
      ensures this.stopLossPct == stopLossPct && this.takeProfitPct == takeProfitPct
      ensures this.maxDailyLossPct == maxDailyLossPct && this.maxRiskPerTrade == maxRiskPerTrade
      ensures dailyLoss == 0.0
      ensures currentDailyLoss == None && maxDailyLoss == None
    {
      this.stopLossPct := stopLossPct;
      this.takeProfitPct := takeProfitPct;
      this.maxDailyLossPct := maxDailyLossPct;
      this.maxRiskPerTrade := maxRiskPerTrade;
      dailyLoss := 0.0;
      currentDailyLoss := None;
      maxDailyLoss := None;
    }

    /** The stop-loss price, before rounding to 6 places: `stopLossPct`
        percent of the entry price below it. */
    function CalculateStopLoss(entryPrice: real): (r: real)
      reads this
      ensures entryPrice - r == entryPrice * stopLossPct / 100.0
      ensures entryPrice >= 0.0 && stopLossPct >= 0.0 ==> r <= entryPrice
      ensures entryPrice >= 0.0 && stopLossPct <= 100.0 ==> r >= 0.0
    {
      entryPrice * (1.0 - stopLossPct / 100.0)
    }

    /** The take-profit price, before rounding to 6 places: `takeProfitPct`
        percent of the entry price above it. */
    function CalculateTakeProfit(entryPrice: real): (r: real)
      reads this
      ensures r - entryPrice == entryPrice * takeProfitPct / 100.0
      ensures entryPrice >= 0.0 && takeProfitPct >= 0.0 ==> r >= entryPrice
    {
      entryPrice * (1.0 + takeProfitPct / 100.0)
    }

    /** Adds the loss to `dailyLoss` and reports whether trading must pause. */
    method UpdateDailyLoss(lossAmount: real) returns (paused: bool)
      modifies this`dailyLoss
      ensures dailyLoss == old(dailyLoss) + lossAmount
      ensures paused <==> dailyLoss >= maxDailyLossPct
    {
      dailyLoss := dailyLoss + lossAmount;
      paused := dailyLoss >= maxDailyLossPct;
    }

    /** The size whose loss at the stop distance is the per-trade risk;
        a zero stop distance raises ZeroDivisionError. */
    function CalculatePositionSize(accountBalance: real, stopLoss: real): (r: Outcome<real>)
      reads this
      ensures r.Raises? <==> stopLoss == 0.0
      ensures r.Raises? ==> r.error == ZeroDivisionError
      ensures r.Returns? ==> r.value * stopLoss == accountBalance * maxRiskPerTrade / 100.0
    {
      if stopLoss == 0.0 then Raises(ZeroDivisionError)
      else Returns(accountBalance * (maxRiskPerTrade / 100.0) / stopLoss)
    }

    method SetMaxRiskPerTrade(maxRisk: real)
      modifies this`maxRiskPerTrade
      ensures maxRiskPerTrade == maxRisk
    {
      maxRiskPerTrade := maxRisk;
    }

    /** Writes `max_daily_loss`, which only `check_risk` reads; the limit in
        `update_daily_loss`, `maxDailyLossPct`, is a different field. */
    method SetMaxDailyLoss(maxLoss: real)
      modifies this`maxDailyLoss
      ensures maxDailyLoss == Some(maxLoss)
      ensures maxDailyLossPct == old(maxDailyLossPct) && dailyLoss == old(dailyLoss)
    {
      maxDailyLoss := Some(maxLoss);
    }

    /** Accepts a potential loss within both the per-trade and the daily
        limit. The daily test reads two attributes that exist only after
        `reset_daily_loss` and `set_max_daily_loss`; the first test returns
        before reading them. */
    function CheckRisk(potentialLoss: real): (ok: bool)
      reads this
      requires potentialLoss <= maxRiskPerTrade ==> currentDailyLoss.Some? && maxDailyLoss.Some?
      ensures ok <==> potentialLoss <= maxRiskPerTrade
                      && currentDailyLoss.value + potentialLoss <= maxDailyLoss.value
    {
      if potentialLoss > maxRiskPerTrade then false
      else if currentDailyLoss.value + potentialLoss > maxDailyLoss.value then false
      else true
    }

    /** Zeroes `current_daily_loss`; the counter `update_daily_loss` tests is
        not touched, so a tripped breaker stays tripped. */
    method ResetDailyLoss()
      modifies this`currentDailyLoss
      ensures currentDailyLoss == Some(0.0)
      ensures dailyLoss == old(dailyLoss) && maxDailyLossPct == old(maxDailyLossPct)
    {
      currentDailyLoss := Some(0.0);
    }
  }

  /** `dailyLoss` after a run of `update_daily_loss` calls with the given
      losses, starting from `start`. */
  function DailyLossAfter(start: real, losses: seq<real>): real {
    start + Sum(losses)
  }

  /** With non-negative losses, once a call of `update_daily_loss` reports
      the pause (after the first `j` losses) every later call reports it too. */
  lemma {:induction false} PauseIsSticky(start: real, limit: real, losses: seq<real>, j: nat, k: nat)
    requires j <= k <= |losses|
    requires forall i :: 0 <= i < |losses| ==> losses[i] >= 0.0
    requires DailyLossAfter(start, losses[..j]) >= limit
    ensures DailyLossAfter(start, losses[..k]) >= limit
  {
    var later := losses[j..k];
    assert losses[..k] == losses[..j] + later;
    SumAppend(losses[..j], later);
    SumNonNegative(later);
  }

  /** A client that resets the daily counter between two losses: the reset
      does not clear the pause reported by `update_daily_loss`. */
  method ResetKeepsPause(rm: RiskManager, first: real, second: real) returns (before: bool, after: bool)
    requires second >= 0.0
    modifies rm
    ensures before ==> after
  {
    before := rm.UpdateDailyLoss(first);
    rm.ResetDailyLoss();
    after := rm.UpdateDailyLoss(second);
  }
}
