/** trading_bot/core/risk_management.py: the risk data file (a running
    `daily_loss` and a list of recorded trades), the daily-loss circuit
    breaker over it, the price levels, the risk clamp, and the
    `RiskManagement` per-day risk budget. */
module CoreRiskManagement {
  import opened Common

  /** MAX_DAILY_LOSS, TAKE_PROFIT_PERCENT and STOP_LOSS_PERCENT are imported
      from a `config` module whose values are not part of this model. */
  datatype RiskConfig = RiskConfig(maxDailyLoss: real, takeProfitPercent: real, stopLossPercent: real)

  /** One entry of the "trades" list written by `record_trade`. */
  datatype TradeRecord = TradeRecord(timestamp: string, symbol: string, entryPrice: real,
                                     exitPrice: real, profitLoss: real)

  /** The JSON object stored at RISK_CONFIG_PATH. */
  datatype RiskData = RiskData(dailyLoss: real, trades: seq<TradeRecord>)

  /** What `load_risk_settings` returns when the file does not exist. */
  const DefaultRiskData := RiskData(0.0, [])

  /** The risk data file at RISK_CONFIG_PATH: absent, or its contents. */
  class RiskStore {
    var file: Option<RiskData>

    constructor(initial: Option<RiskData>)
      ensures file == initial
    {
      file := initial;
    }

    /** `load_risk_settings`: the stored data, or the default when the file
        is absent (nothing is written in that case). */
    function Load(): (d: RiskData)
      reads this
      ensures file.None? ==> d == DefaultRiskData
      ensures file.Some? ==> d == file.value
    {
      if file.Some? then file.value else DefaultRiskData
    }

    /** `save_risk_settings`: overwrites the file. */
    method Save(d: RiskData)
      modifies this
      ensures file == Some(d) && Load() == d
    {
      file := Some(d);
    }

    /** `check_daily_loss_limit`: adds `currentLoss` to the stored daily loss,
        saves, and reports whether the new total reached the limit. With a
        loss of 0 the loaded data is unchanged (the file may be created). */
    method CheckDailyLossLimit(currentLoss: real, config: RiskConfig) returns (halted: bool)
      modifies this
      ensures Load().dailyLoss == old(Load().dailyLoss) + currentLoss
      ensures Load().trades == old(Load().trades)
      ensures file.Some?
      ensures halted <==> Load().dailyLoss >= config.maxDailyLoss
      ensures currentLoss == 0.0 ==> Load() == old(Load())
    {
      var riskData := Load();
      riskData := riskData.(dailyLoss := riskData.dailyLoss + currentLoss);
      Save(riskData);
      halted := riskData.dailyLoss >= config.maxDailyLoss;
    }

    /** `record_trade`: appends one record, stamped `now`, after the
        recorded trades; the daily loss is not changed. */
    method RecordTrade(symbol: string, entryPrice: real, exitPrice: real, profitLoss: real, now: string)
      modifies this
      ensures Load().trades == old(Load().trades) + [TradeRecord(now, symbol, entryPrice, exitPrice, profitLoss)]
      ensures Load().dailyLoss == old(Load().dailyLoss)
      ensures file.Some?
    {
      var riskData := Load();
      var trade := TradeRecord(now, symbol, entryPrice, exitPrice, profitLoss);
      riskData := riskData.(trades := riskData.trades + [trade]);
      Save(riskData);
    }
  }

  /** `calculate_risk_levels`: stop-loss below and take-profit above the
      entry price by the configured percentages. */
  function CalculateRiskLevels(entryPrice: real, config: RiskConfig): (levels: (real, real))
    ensures entryPrice - levels.0 == entryPrice * config.stopLossPercent / 100.0
    ensures levels.1 - entryPrice == entryPrice * config.takeProfitPercent / 100.0
    ensures entryPrice >= 0.0 && config.stopLossPercent >= 0.0 && config.takeProfitPercent >= 0.0
            ==> levels.0 <= entryPrice <= levels.1
  {
    (entryPrice * (1.0 - config.stopLossPercent / 100.0),
     entryPrice * (1.0 + config.takeProfitPercent / 100.0))
  }

  /** `set_stop_loss`, before rounding to 4 places. */
  function SetStopLoss(entryPrice: real, stopLossPct: real): (r: real)
    ensures entryPrice - r == entryPrice * stopLossPct / 100.0
    ensures entryPrice >= 0.0 && stopLossPct >= 0.0 ==> r <= entryPrice
  {
    entryPrice * (1.0 - stopLossPct / 100.0)
  }

  /** `set_take_profit`, before rounding to 4 places. */
  function SetTakeProfit(entryPrice: real, takeProfitPct: real): (r: real)
    ensures r - entryPrice == entryPrice * takeProfitPct / 100.0
    ensures entryPrice >= 0.0 && takeProfitPct >= 0.0 ==> r >= entryPrice
  {
    entryPrice * (1.0 + takeProfitPct / 100.0)
  }

  /** For the configured percentages, the two setters give the levels of
      `calculate_risk_levels`. */
  lemma SettersMatchRiskLevels(entryPrice: real, config: RiskConfig)
    ensures CalculateRiskLevels(entryPrice, config)
            == (SetStopLoss(entryPrice, config.stopLossPercent), SetTakeProfit(entryPrice, config.takeProfitPercent))
  {
    var levels := CalculateRiskLevels(entryPrice, config);
    assert levels.0 == entryPrice * (1.0 - config.stopLossPercent / 100.0) == SetStopLoss(entryPrice, config.stopLossPercent);
    assert levels.1 == entryPrice * (1.0 + config.takeProfitPercent / 100.0) == SetTakeProfit(entryPrice, config.takeProfitPercent);
  }

  /** Module-level `calculate_risk`: the trade size, clamped to the risk
      budget `accountBalance * riskPercentage / 100`. */
  function CalculateRisk(accountBalance: real, tradeSize: real, riskPercentage: real): (r: real)
    ensures r == Min(tradeSize, accountBalance * riskPercentage / 100.0)
  {
    var riskAmount := (accountBalance * riskPercentage) / 100.0;
    if tradeSize > riskAmount then riskAmount else tradeSize
  }

  /** The `RiskManagement` class: a per-trade risk factor and a per-day
      risk budget, with the risk used so far. */
  class RiskManagement {
    var maxRiskPerTrade: real
    var maxRiskPerDay: real
    var currentRisk: real
    /** `account_balance` is read by `calculate_position_size` but never
        assigned anywhere. */
    var accountBalance: Option<real>

    constructor(maxRiskPerTrade: real, maxRiskPerDay: real)
      ensures this.maxRiskPerTrade == maxRiskPerTrade && this.maxRiskPerDay == maxRiskPerDay
      ensures currentRisk == 0.0 && accountBalance == None
    {
      this.maxRiskPerTrade := maxRiskPerTrade;
      this.maxRiskPerDay := maxRiskPerDay;
      currentRisk := 0.0;
      accountBalance := None;
    }

    function GetMaxRiskPerTrade(): real
      reads this
    {
      maxRiskPerTrade
    }

    function GetMaxRiskPerDay(): real
      reads this
    {
      maxRiskPerDay
    }

    method SetMaxRiskPerTrade(value: real)
      modifies this`maxRiskPerTrade
      ensures GetMaxRiskPerTrade() == value
      ensures GetMaxRiskPerDay() == old(GetMaxRiskPerDay()) && currentRisk == old(currentRisk)
    {
      maxRiskPerTrade := value;
    }

    method SetMaxRiskPerDay(value: real)
      modifies this`maxRiskPerDay
      ensures GetMaxRiskPerDay() == value
      ensures GetMaxRiskPerTrade() == old(GetMaxRiskPerTrade()) && currentRisk == old(currentRisk)
    {
      maxRiskPerDay := value;
    }

    /** `calculate_risk`: charges `tradeAmount * maxRiskPerTrade` to the
        day's budget, or raises ValueError, charging nothing, when the
        budget would be exceeded. */
    method CalculateRisk(tradeAmount: real) returns (r: Outcome<real>)
      modifies this`currentRisk
      ensures r.Raises? <==> old(currentRisk) + tradeAmount * maxRiskPerTrade > maxRiskPerDay
      ensures r.Raises? ==> r.error.ValueError? && currentRisk == old(currentRisk)
      ensures r.Returns? ==> r.value == tradeAmount * maxRiskPerTrade
                             && currentRisk == old(currentRisk) + r.value
                             && currentRisk <= maxRiskPerDay
    {
      var risk := tradeAmount * maxRiskPerTrade;
      if risk + currentRisk > maxRiskPerDay {
        return Raises(ValueError("Risk exceeds the maximum allowed risk for the day"));
      }
      currentRisk := currentRisk + risk;
      r := Returns(risk);
    }

    /** `calculate_position_size`: needs the never-assigned `account_balance`. */
    function CalculatePositionSize(stopLossAmount: real): (r: Outcome<real>)
      reads this
      requires accountBalance.Some?
      ensures r.Raises? <==> stopLossAmount == 0.0
      ensures r.Returns? ==> r.value * stopLossAmount == accountBalance.value * maxRiskPerTrade / 100.0
    {
      if stopLossAmount == 0.0 then Raises(ZeroDivisionError)
      else Returns(accountBalance.value * (maxRiskPerTrade / 100.0) / stopLossAmount)
    }
  }
}
