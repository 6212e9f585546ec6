/** trading_bot/strategy/risk_management.py: a second copy of the settings
    file handling, the whole-history loss breaker, sizing and trade
    acceptance. It uses the same settings file path as
    trading_bot/risk/risk_management.py, so it works on the same
    `SettingsFile`; each function is defined here on its own and proved to
    agree with its counterpart. */
module StrategyRiskManagement {
  import opened Common
  import Risk = RiskRiskManagement

  /** DEFAULT_RISK_SETTINGS of this copy. */
  const DefaultRiskSettings: Record :=
    map["stop_loss" := Num(5.0), "take_profit" := Num(10.0), "max_daily_loss" := Num(50.0)]

  /** `save_risk_settings`: overwrites the shared settings file. */
  method SaveRiskSettings(file: Risk.SettingsFile, settings: Record)
    modifies file
    ensures file.contents == Some(settings)
  {
    file.contents := Some(settings);
  }

  /** `load_risk_settings`: a missing file is first created holding this
      copy's defaults; then the file is read. */
  method LoadRiskSettings(file: Risk.SettingsFile) returns (settings: Record)
    modifies file
    ensures old(file.contents).None? ==> settings == DefaultRiskSettings && file.contents == Some(DefaultRiskSettings)
    ensures old(file.contents).Some? ==> settings == old(file.contents).value && file.contents == old(file.contents)
  {
    if file.contents.None? {
      SaveRiskSettings(file, DefaultRiskSettings);
    }
    settings := file.contents.value;
  }

  /** Saving settings and loading them back gives the saved settings. */
  method SaveThenLoad(file: Risk.SettingsFile, settings: Record) returns (loaded: Record)
    modifies file
    ensures loaded == settings && file.contents == Some(settings)
  {
    SaveRiskSettings(file, settings);
    loaded := LoadRiskSettings(file);
  }

  /** Both copies create the settings file with the same defaults. */
  lemma SameDefaults()
    ensures DefaultRiskSettings == Risk.DefaultRiskSettings
  {
  }

  /** What one journal record adds to `total_loss`: its P/L when negative. */
  function LossContribution(t: Record): (c: real)
    requires HasFloat(t, "profit/loss")
    ensures c <= 0.0
    ensures c == 0.0 <==> Risk.Pnl(t) >= 0.0
  {
    if Risk.Pnl(t) < 0.0 then Risk.Pnl(t) else 0.0
  }

  /** `total_loss`: the sum of the negative P/L values over the history. */
  function TotalLoss(history: seq<Record>): (total: real)
    requires Risk.PnlReadable(history)
    ensures total <= 0.0
  {
    if history == [] then 0.0
    else
      assert Risk.PnlReadable(history[1..]) by {
        forall i | 0 <= i < |history| - 1 ensures history[1..][i] == history[i + 1] { }
      }
      LossContribution(history[0]) + TotalLoss(history[1..])
  }

  lemma {:induction false} TotalLossAppend(history: seq<Record>, t: Record)
    requires Risk.PnlReadable(history) && HasFloat(t, "profit/loss")
    ensures Risk.PnlReadable(history + [t])
    ensures TotalLoss(history + [t]) == TotalLoss(history) + LossContribution(t)
  {
    var extended := history + [t];
    assert Risk.PnlReadable(extended) by {
      forall i | 0 <= i < |extended| ensures HasFloat(extended[i], "profit/loss") {
        if i < |history| { assert extended[i] == history[i]; }
      }
    }
    if history != [] {
      assert extended[1..] == history[1..] + [t];
      assert extended[0] == history[0];
      assert Risk.PnlReadable(history[1..]) by {
        forall i | 0 <= i < |history| - 1 ensures history[1..][i] == history[i + 1] { }
      }
      TotalLossAppend(history[1..], t);
    } else {
      assert extended[1..] == [];
    }
  }

  /** This copy's `total_loss` is the same number as the other copy's. */
  lemma {:induction false} TotalLossAgrees(history: seq<Record>)
    requires Risk.PnlReadable(history)
    ensures TotalLoss(history) == Sum(Risk.NegativePnls(history))
  {
    if history != [] {
      var prefix := history[..|history| - 1];
      var last := history[|history| - 1];
      assert Risk.PnlReadable(prefix) by {
        forall i | 0 <= i < |prefix| ensures prefix[i] == history[i] { }
      }
      TotalLossAgrees(prefix);
      assert prefix + [last] == history;
      TotalLossAppend(prefix, last);
      var neg := if Risk.Pnl(last) < 0.0 then [Risk.Pnl(last)] else [];
      SumAppend(Risk.NegativePnls(prefix), neg);
      assert Sum(neg) == LossContribution(last) by {
        if neg != [] { assert neg[..0] == []; }
      }
    }
  }

  /** The decision of `check_stop_loss`: the absolute total loss reached
      "max_daily_loss". It agrees with the other copy on every input. */
  function StopLossHit(history: seq<Record>, settings: Record): (tripped: bool)
    requires Risk.PnlReadable(history)
    requires HasNumber(settings, "max_daily_loss")
    ensures tripped <==> -TotalLoss(history) >= settings["max_daily_loss"].n
    ensures tripped == Risk.StopLossHit(history, settings)
  {
    TotalLossAgrees(history);
    Abs(TotalLoss(history)) >= settings["max_daily_loss"].n
  }

  /** `check_stop_loss`: reads the journal (`history`), loads the settings,
      creating the file with the defaults when it is absent, and decides. */
  method CheckStopLoss(file: Risk.SettingsFile, history: seq<Record>) returns (tripped: bool)
    requires Risk.PnlReadable(history)
    requires file.contents.Some? ==> HasNumber(file.contents.value, "max_daily_loss")
    modifies file
    ensures file.contents == if old(file.contents).None? then Some(DefaultRiskSettings) else old(file.contents)
    ensures tripped == StopLossHit(history, file.contents.value)
  {
    var riskSettings := LoadRiskSettings(file);
    tripped := StopLossHit(history, riskSettings);
  }

  /** `calculate_position_size`; agrees with the other copy. */
  function CalculatePositionSize(accountBalance: real, riskPercentage: real, stopLossDistance: real): (r: Outcome<real>)
    ensures r.Raises? <==> stopLossDistance == 0.0
    ensures r.Returns? ==> r.value * stopLossDistance == accountBalance * riskPercentage / 100.0
    ensures r == Risk.CalculatePositionSize(accountBalance, riskPercentage, stopLossDistance)
  {
    var riskAmount := accountBalance * (riskPercentage / 100.0);
    if stopLossDistance == 0.0 then Raises(ZeroDivisionError) else Returns(riskAmount / stopLossDistance)
  }

  /** `should_execute_trade`; agrees with the other copy, and for a positive
      risk amount and distance accepts exactly the prices within one stop
      distance of the stop price. */
  function ShouldExecuteTrade(accountBalance: real, riskPercentage: real, stopLossDistance: real,
                              currentPrice: real, stopLossPrice: real): (r: Outcome<bool>)
    ensures r.Raises? <==> stopLossDistance == 0.0
    ensures r.Returns? && accountBalance * (riskPercentage / 100.0) > 0.0 && stopLossDistance > 0.0
            ==> (r.value <==> currentPrice - stopLossPrice <= stopLossDistance)
    ensures r == Risk.ShouldExecuteTrade(accountBalance, riskPercentage, stopLossDistance, currentPrice, stopLossPrice)
  {
    match CalculatePositionSize(accountBalance, riskPercentage, stopLossDistance)
    case Raises(e) => Raises(e)
    case Returns(positionSize) =>
      var potentialLoss := (currentPrice - stopLossPrice) * positionSize;
      Returns(potentialLoss <= accountBalance * (riskPercentage / 100.0))
  }
}
