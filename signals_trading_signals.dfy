/** trading_bot/signals/trading_signals.py: the buy and sell columns that
    `generate_technical_signals` adds to the market-data frame, the AI
    model loader, and the precedence chain of `get_trading_signal`. The
    indicator values are inputs (their computation is not modelled); a
    missing value (NaN) is None, and every comparison with it is false. */
module SignalsTradingSignals {
  import opened Common

  /** One frame row's indicators. */
  datatype IndicatorRow = IndicatorRow(rsi: Option<real>, macd: Option<real>, sma50: Option<real>, sma200: Option<real>)

  /** `a < b` and `a > b` where NaN compares false. */
  predicate Less(a: Option<real>, b: Option<real>) {
    a.Some? && b.Some? && a.value < b.value
  }

  predicate Greater(a: Option<real>, b: Option<real>) {
    a.Some? && b.Some? && a.value > b.value
  }

  /** The buy column: oversold, positive MACD, short average above long. */
  predicate BuySignal(row: IndicatorRow) {
    Less(row.rsi, Some(30.0)) && Greater(row.macd, Some(0.0)) && Greater(row.sma50, row.sma200)
  }

  /** The sell column: overbought, negative MACD, short average below long. */
  predicate SellSignal(row: IndicatorRow) {
    Greater(row.rsi, Some(70.0)) && Less(row.macd, Some(0.0)) && Less(row.sma50, row.sma200)
  }

  /** No row is both a buy and a sell. */
  lemma NeverBoth(row: IndicatorRow)
    ensures !(BuySignal(row) && SellSignal(row))
  {
  }

  /** A row with a missing indicator never signals. */
  lemma MissingIndicatorNoSignal(row: IndicatorRow)
    requires row.rsi.None? || row.macd.None? || row.sma50.None? || row.sma200.None?
    ensures !BuySignal(row) && !SellSignal(row)
  {
  }

  /** The market-data frame `generate_technical_signals` receives and changes. */
  class MarketData {
    var indicators: seq<IndicatorRow>
    /** The "buy_signal" and "sell_signal" columns, absent until computed. */
    var buySignal: Option<seq<bool>>
    var sellSignal: Option<seq<bool>>

    constructor(indicators: seq<IndicatorRow>)
      ensures this.indicators == indicators && buySignal == None && sellSignal == None
    {
      this.indicators := indicators;
      buySignal, sellSignal := None, None;
    }

    /** `generate_technical_signals`: writes both columns, row by row, into
        the frame it was given, and never marks a row as both. */
    method GenerateTechnicalSignals()
      modifies this
      ensures indicators == old(indicators)
      ensures buySignal.Some? && |buySignal.value| == |indicators|
      ensures sellSignal.Some? && |sellSignal.value| == |indicators|
      ensures forall i :: 0 <= i < |indicators| ==> buySignal.value[i] == BuySignal(indicators[i])
      ensures forall i :: 0 <= i < |indicators| ==> sellSignal.value[i] == SellSignal(indicators[i])
      ensures forall i :: 0 <= i < |indicators| ==> !(buySignal.value[i] && sellSignal.value[i])
    {
      var rows := indicators;
      buySignal := Some(seq(|rows|, i requires 0 <= i < |rows| => BuySignal(rows[i])));
      sellSignal := Some(seq(|rows|, i requires 0 <= i < |rows| => SellSignal(rows[i])));
    }
  }

  /** What the pickled model predicts for the frame's features, one class
      per row (the model itself is not modelled). */
  datatype AiModel = AiModel(predictions: seq<int>)

  /** `load_ai_model`: None when no model file is configured (the path is
      None, or was set to None because the file was missing). */
  function LoadAiModel(modelFile: Option<string>, stored: AiModel): (m: Option<AiModel>)
    ensures modelFile.None? || modelFile == Some("") ==> m.None?
    ensures modelFile.Some? && modelFile.value != "" ==> m == Some(stored)
  {
    if modelFile.None? || modelFile.value == "" then None else Some(stored)
  }

  /** `generate_ai_signal`, guarded as `get_trading_signal` calls it. */
  function AiSignal(modelFile: Option<string>, stored: AiModel): (p: Option<seq<int>>)
    ensures p.Some? <==> modelFile.Some? && modelFile.value != ""
    ensures p.Some? ==> p.value == stored.predictions
  {
    if modelFile.None? || modelFile.value == "" then None
    else
      var model := LoadAiModel(modelFile, stored);
      if model.None? then None else Some(model.value.predictions)
  }

  datatype TradingSignal = Buy | Sell | Hold

  /** `get_trading_signal` on the frame after `generate_technical_signals`:
      the last row's buy, then its sell, then the AI's last prediction
      (1 is a buy, anything else a sell), then hold. An empty frame, or an
      empty prediction that is reached, raises IndexError. */
  function GetTradingSignal(rows: seq<IndicatorRow>, aiSignal: Option<seq<int>>): (r: Outcome<TradingSignal>)
    ensures rows == [] ==> r == Raises(IndexError)
    ensures rows != [] && BuySignal(rows[|rows| - 1]) ==> r == Returns(Buy)
    ensures rows != [] && !BuySignal(rows[|rows| - 1]) && SellSignal(rows[|rows| - 1]) ==> r == Returns(Sell)
    ensures rows != [] ==> (r == Returns(Hold) <==> (!BuySignal(rows[|rows| - 1]) && !SellSignal(rows[|rows| - 1]) && aiSignal.None?))
    ensures r.Raises? ==> r == Raises(IndexError)
  {
    if rows == [] then Raises(IndexError)
    else
      var last := rows[|rows| - 1];
      if BuySignal(last) then Returns(Buy)
      else if SellSignal(last) then Returns(Sell)
      else if aiSignal.Some? then
        if aiSignal.value == [] then Raises(IndexError)
        else if aiSignal.value[|aiSignal.value| - 1] == 1 then Returns(Buy) else Returns(Sell)
      else Returns(Hold)
  }

  /** Only the last row is judged: frames that end in the same row give
      the same signal. */
  lemma LastRowDecides(rows: seq<IndicatorRow>, other: seq<IndicatorRow>, aiSignal: Option<seq<int>>)
    requires rows != [] && other != [] && rows[|rows| - 1] == other[|other| - 1]
    ensures GetTradingSignal(rows, aiSignal) == GetTradingSignal(other, aiSignal)
  {
  }

  /** With no model file, the signal is purely technical. */
  lemma NoModelNoAiSignal(rows: seq<IndicatorRow>, stored: AiModel)
    requires rows != [] && !BuySignal(rows[|rows| - 1]) && !SellSignal(rows[|rows| - 1])
    ensures GetTradingSignal(rows, AiSignal(None, stored)) == Returns(Hold)
  {
  }

  /** The AI decides only when neither technical signal fires, and a
      non-empty prediction always decides buy or sell. */
  lemma AiDecidesOtherwise(rows: seq<IndicatorRow>, predictions: seq<int>)
    requires rows != [] && !BuySignal(rows[|rows| - 1]) && !SellSignal(rows[|rows| - 1]) && predictions != []
    ensures GetTradingSignal(rows, Some(predictions))
            == Returns(if predictions[|predictions| - 1] == 1 then Buy else Sell)
  {
  }
}
