# Risk-gated trade lifecycle of the trading bot, in Dafny

This project models the risk-gated trade lifecycle of the `trading_bot`
package: the risk arithmetic (stop-loss and take-profit levels, position
sizing, acceptance rules and the daily-loss circuit breakers), the trade
journals (JSON lists and CSV rows) and the sums over them, the scans that
close trades whose stop-loss or take-profit is breached, the small state
machines (trade manager, bot controller, monitoring flags, the per-tick
price alert), and the pure order-payload and signal rules.

There is one Dafny module per Python file, named after its path
(`trading_bot/core/risk_manager.py` is `CoreRiskManager` in
`core_risk_manager.dfy`). `common.dfy` holds the shared vocabulary:
- `Scalar`, a JSON or CSV value;
- `Record`, a dict of scalars;
- `Outcome`, a value or a raised Python exception;
- `JsonLog`, a JSON log file that is missing, corrupted or holds a list;
- `CsvFile`, a CSV file that is missing or holds rows;
- Python truthiness and `str()`.

Conventions:
- Prices and amounts are exact reals.
- "Today" is a parameter.
- Files are objects whose state the methods change.
- The exchange, the broker, the price feed and the health check are not
  called. Their answers, and the order in which they arrive, are
  parameters.

Where the Python updates objects in place (an object's fields, a stored
file, a list of trades), the model is a `class` with `modifies` clauses. Its
methods are proved against recursive specification functions, and the
lemmas beside those functions state what the code promises. Duplicated
variants are modelled separately, each exactly as written, and lemmas relate
them:
- the two settings modules use the same defaults and the same sizing rules;
- the two `execute_order` copies agree;
- `monitor_price` behaves like the two enforcers run one after the other;
- the today-only daily-loss breaker trips only when the whole-history one
  does.

Names that the code uses but never defines are kept as they are written: an
`Option` field, or a precondition that matches the point where the code
reaches the name. Examples are `self.trades`, `self.account_balance`,
`current_daily_loss`, `max_daily_loss` and `MAX_DAILY_LOSS`.

## Model

| member | source | states |
|---|---|---|
| CoreRiskManager.RiskManager.constructor | trading_bot/core/risk_manager.py:6-19 | the four settings are stored as given, the daily loss starts at 0, and `current_daily_loss` and `max_daily_loss` do not exist yet |
| CoreRiskManager.RiskManager.CalculateStopLoss | trading_bot/core/risk_manager.py:21-30 | the stop lies `stop_loss_pct` percent of the entry below it, so it is never above a non-negative entry and never negative for a percentage up to 100 |
| CoreRiskManager.RiskManager.CalculateTakeProfit | trading_bot/core/risk_manager.py:32-41 | the target lies `take_profit_pct` percent of the entry above it, so it is never below a non-negative entry |
| CoreRiskManager.RiskManager.UpdateDailyLoss | trading_bot/core/risk_manager.py:43-56 | the daily loss grows by exactly the given amount, and the result says paused iff the new total reaches `max_daily_loss_pct` |
| CoreRiskManager.RiskManager.CalculatePositionSize | trading_bot/core/risk_manager.py:58-68 | a zero stop raises ZeroDivisionError; otherwise size times stop equals balance times `max_risk_per_trade` / 100 |
| CoreRiskManager.RiskManager.SetMaxRiskPerTrade | trading_bot/core/risk_manager.py:70-71 | only the per-trade risk changes, to the value given |
| CoreRiskManager.RiskManager.SetMaxDailyLoss | trading_bot/core/risk_manager.py:73-74 | creates `max_daily_loss` and leaves `max_daily_loss_pct`, the field the breaker tests, and the daily loss unchanged |
| CoreRiskManager.RiskManager.CheckRisk | trading_bot/core/risk_manager.py:76-81 | true iff the loss is within the per-trade risk and the current daily loss plus it is within `max_daily_loss`; callable only where the code reaches both attributes, and it changes nothing |
| CoreRiskManager.RiskManager.ResetDailyLoss | trading_bot/core/risk_manager.py:83-84 | sets `current_daily_loss` to 0 and leaves the daily loss and its limit unchanged |
| CoreRiskManager.PauseIsSticky | trading_bot/core/risk_manager.py:43-56 | with non-negative losses, once the accumulated loss reaches the limit it stays there for every later call |
| CoreRiskManager.ResetKeepsPause | trading_bot/core/risk_manager.py:43-56 | a reset between two losses does not clear the pause the first loss reported |
| CoreRiskManagement.RiskStore.constructor | trading_bot/core/risk_management.py:21-28 | the risk file starts absent or with the given contents |
| CoreRiskManagement.RiskStore.Load | trading_bot/core/risk_management.py:21-28 | an absent file reads as daily loss 0 and no trades; otherwise the stored data |
| CoreRiskManagement.RiskStore.Save | trading_bot/core/risk_management.py:29-33 | the file holds exactly the data written, and loading returns it |
| CoreRiskManagement.RiskStore.CheckDailyLossLimit | trading_bot/core/risk_management.py:34-45 | the stored loss grows by exactly the loss passed and the trades are kept; halted iff the new total reaches the limit; a loss of 0 changes nothing that loading can see |
| CoreRiskManagement.RiskStore.RecordTrade | trading_bot/core/risk_management.py:52-66 | appends exactly one record (time, symbol, entry, exit, profit) after the existing trades and keeps the daily loss |
| CoreRiskManagement.CalculateRiskLevels | trading_bot/core/risk_management.py:46-51 | the stop and the target lie the configured percentages below and above the entry, so stop <= entry <= target for non-negative percentages |
| CoreRiskManagement.SetStopLoss | trading_bot/core/risk_management.py:86-95 | the stop lies the given percentage below the entry, and never above a non-negative entry |
| CoreRiskManagement.SetTakeProfit | trading_bot/core/risk_management.py:97-106 | the target lies the given percentage above the entry, and never below a non-negative entry |
| CoreRiskManagement.SettersMatchRiskLevels | trading_bot/core/risk_management.py:46-51 | the two setters give the same levels as `calculate_risk_levels` for the configured percentages |
| CoreRiskManagement.CalculateRisk | trading_bot/core/risk_management.py:156-172 | the risk is the trade size capped at the balance's risk percentage |
| CoreRiskManagement.RiskManagement.constructor | trading_bot/core/risk_management.py:175-178 | both limits are stored, no risk is used yet, and `account_balance` does not exist |
| CoreRiskManagement.RiskManagement.SetMaxRiskPerTrade | trading_bot/core/risk_management.py:180-184 | the getter then returns the value set; the daily limit and the risk used are unchanged |
| CoreRiskManagement.RiskManagement.SetMaxRiskPerDay | trading_bot/core/risk_management.py:186-190 | the getter then returns the value set; the per-trade limit and the risk used are unchanged |
| CoreRiskManagement.RiskManagement.CalculateRisk | trading_bot/core/risk_management.py:192-197 | raises ValueError, with the risk used unchanged, iff the new risk would pass the daily budget; otherwise the risk used grows by exactly amount times the per-trade risk and stays within the budget |
| CoreRiskManagement.RiskManagement.CalculatePositionSize | trading_bot/core/risk_management.py:199-210 | callable only with an account balance (the attribute is never set); raises for a zero stop; otherwise size times stop equals balance times risk / 100 |
| RiskRiskManagement.SettingsFile.constructor | trading_bot/risk/risk_management.py:37-42 | the settings file starts absent or with the given contents |
| RiskRiskManagement.SettingsFile.Save | trading_bot/risk/risk_management.py:44-48 | the file holds exactly the settings written |
| RiskRiskManagement.SettingsFile.Load | trading_bot/risk/risk_management.py:37-42 | a missing file yields the defaults and is then created with them; otherwise the stored settings, with the file unchanged |
| RiskRiskManagement.SaveThenLoad | trading_bot/risk/risk_management.py:37-48 | loading after saving returns exactly the saved settings |
| RiskRiskManagement.NegativePnls | trading_bot/risk/risk_management.py:50-59 | the losses of the history, each negative, at most one per trade |
| RiskRiskManagement.StopLossHit | trading_bot/risk/risk_management.py:50-59 | trips iff the absolute sum of the negative profits over the whole history reaches `max_daily_loss` |
| RiskRiskManagement.CheckStopLoss | trading_bot/risk/risk_management.py:50-59 | reads the settings (creating the default file when missing) and returns `StopLossHit` for them |
| RiskRiskManagement.SumNegativesNonPositive | trading_bot/risk/risk_management.py:50-59 | a sum of losses is never positive |
| RiskRiskManagement.PositivePnlNeverContributes | trading_bot/risk/risk_management.py:50-59 | appending a trade with a non-negative profit never changes the stop-loss verdict |
| RiskRiskManagement.CalculatePositionSize | trading_bot/risk/risk_management.py:61-72 | a zero distance raises ZeroDivisionError; otherwise size times distance equals balance times risk / 100 |
| RiskRiskManagement.ShouldExecuteTrade | trading_bot/risk/risk_management.py:74-90 | raises iff the distance is 0; with a positive risk amount and distance, true iff price minus stop is within the distance |
| RiskRiskManagement.LossWithinRisk | trading_bot/risk/risk_management.py:74-90 | scaling by the positive position size preserves the comparison, which is why the acceptance rule reduces to price minus stop within distance |
| RiskRiskManagement.CalculateStopLoss | trading_bot/risk/risk_management.py:109-111 | the stop is 3% below the entry, never above a non-negative entry |
| RiskRiskManagement.CalculateRisk | trading_bot/risk/risk_management.py:113-124 | the levels are 3% below and 5% above the order price whatever the current price, the stop agreeing with `calculate_stop_loss` |
| RiskRiskManagement.TodayPnls | trading_bot/risk/risk_management.py:126-142 | the signed profits of the trades stamped today, at most one per trade |
| RiskRiskManagement.CheckDailyLoss | trading_bot/risk/risk_management.py:126-142 | an empty history returns false; otherwise the undefined `MAX_DAILY_LOSS` raises NameError, and with a binding it trips iff today's signed sum is strictly below minus the limit |
| RiskRiskManagement.CheckDailyLossAsWrittenRaises | trading_bot/risk/risk_management.py:138 | as written, any non-empty history raises NameError |
| RiskRiskManagement.CheckDailyLossIntended | trading_bot/risk/risk_management.py:126-142 | `check_daily_loss` with `DAILY_MAX_LOSS` bound to the name it reads never raises, and trips iff there is history and today's signed sum is strictly below -500 |
| RiskRiskManagement.TwoLossesTripIntendedBreaker | trading_bot/risk/risk_management.py:126-142 | two losses of today totalling 550 trip the intended breaker, while yesterday's 900 loss is ignored |
| RiskRiskManagement.DailyBreakerImpliesStopLossBreaker | trading_bot/risk/risk_management.py:50-59 | whenever the today-only signed breaker trips at a limit, the whole-history stop-loss breaker trips at that limit too |
| RiskRiskManagement.NegativesBelowToday | trading_bot/risk/risk_management.py:126-142 | the sum of all losses is at most today's signed sum |
| RiskRiskManagement.LoggedJournalPnls | trading_bot/risk/risk_management.py:50-58 | a journal written by `initialize_trade_history` and `log_trade` reads back as one record per trade, each readable by `float()`, with the logged P/L |
| RiskRiskManagement.FirstExit | trading_bot/risk/risk_management.py:183-208 | the index of the first price at or below the stop or at or above the target, with no exit before it, or none when no price exits |
| RiskRiskManagement.FirstExitIs | trading_bot/risk/risk_management.py:183-208 | an exit with none before it is the first exit, and a run with no exit has none |
| RiskRiskManagement.NewTradeExecution | trading_bot/execution/trade_execution.py:106-112 | constructing `TradeExecution` raises TypeError iff it is not given exactly one argument, the broker |
| RiskRiskManagement.ConstructorAsWrittenRaises | trading_bot/risk/risk_management.py:154 | `TradeExecution()` with no argument raises TypeError, so `RiskManagement()` cannot be constructed as written |
| RiskRiskManagement.RiskManagement.constructor | trading_bot/risk/risk_management.py:147-159 | the limit is stored, the percentages are stored as fractions, and the daily loss starts at 0; this is the class with an executor that can be constructed (see Findings) |
| RiskRiskManagement.RiskManagement.Default | trading_bot/risk/risk_management.py:147-159 | with the default arguments the limit is 100 and the fractions are 0.02 and 0.05, and the daily loss starts at 0 |
| RiskRiskManagement.RiskManagement.CheckStopLoss | trading_bot/risk/risk_management.py:161-170 | the stop lies the stored fraction of the entry below it |
| RiskRiskManagement.RiskManagement.CheckTakeProfit | trading_bot/risk/risk_management.py:172-181 | the target lies the stored fraction of the entry above it |
| RiskRiskManagement.RiskManagement.MonitorTrade | trading_bot/risk/risk_management.py:183-208 | with an executor that accepts `cancel_order` and `place_market_order`: stops at the first exit, with exactly one cancel and one market sell; only a stop-loss exit adds the absolute difference between entry and price to the daily loss |
| RiskRiskManagement.RiskManagement.MonitorTradeAsWritten | trading_bot/risk/risk_management.py:190-208 | with `TradeExecution` as the executor, the first exit raises AttributeError for `cancel_order`, and a run with no exit returns; nothing is sold and the daily loss is untouched |
| RiskRiskManagement.RiskManagement.CheckDailyLoss | trading_bot/risk/risk_management.py:210-219 | true iff the daily loss reaches the limit |
| StrategyRiskManagement.SaveRiskSettings | trading_bot/strategy/risk_management.py:31-35 | the file holds exactly the settings written |
| StrategyRiskManagement.LoadRiskSettings | trading_bot/strategy/risk_management.py:24-29 | a missing file yields the defaults (5.0, 10.0, 50.0) and creates it; otherwise the stored settings |
| StrategyRiskManagement.SaveThenLoad | trading_bot/strategy/risk_management.py:24-35 | loading after saving returns exactly the saved settings |
| StrategyRiskManagement.SameDefaults | trading_bot/strategy/risk_management.py:14-22 | the defaults equal those of the risk module |
| StrategyRiskManagement.LossContribution | trading_bot/strategy/risk_management.py:37-46 | a trade contributes its profit when negative and nothing otherwise |
| StrategyRiskManagement.TotalLoss | trading_bot/strategy/risk_management.py:37-46 | the generator's sum is never positive |
| StrategyRiskManagement.TotalLossAppend | trading_bot/strategy/risk_management.py:37-46 | one more trade adds exactly its contribution |
| StrategyRiskManagement.TotalLossAgrees | trading_bot/strategy/risk_management.py:37-46 | the sum equals the sum of the negative profits the risk module computes |
| StrategyRiskManagement.StopLossHit | trading_bot/strategy/risk_management.py:37-46 | trips iff the absolute total loss reaches `max_daily_loss`, giving the same verdict as the risk module |
| StrategyRiskManagement.CheckStopLoss | trading_bot/strategy/risk_management.py:37-46 | reads the settings (creating the default file when missing) and returns `StopLossHit` for them |
| StrategyRiskManagement.CalculatePositionSize | trading_bot/strategy/risk_management.py:48-59 | raises for a zero distance; otherwise size times distance equals balance times risk / 100, and it equals the risk module's result on every input |
| StrategyRiskManagement.ShouldExecuteTrade | trading_bot/strategy/risk_management.py:61-77 | raises iff the distance is 0; with a positive risk amount and distance, true iff price minus stop is within the distance; equal to the risk module's on every input |
| TradeLog.LevelKey | trading_bot/management/risk_management.py:86-136 | the enforcers read "stop_loss" or "take_profit" |
| TradeLog.Closed | trading_bot/management/risk_management.py:100-106 | closing sets the status to "closed" and keeps every other field |
| TradeLog.ClosedNeverTriggers | trading_bot/management/risk_management.py:100-106 | a closed trade triggers no enforcer at any price |
| ManagementRiskManagement.CalculateRisk | trading_bot/management/risk_management.py:14-23 | the risk is 1% of amount times price, non-negative for non-negative inputs |
| ManagementRiskManagement.GetTradeHistory | trading_bot/management/risk_management.py:25-39 | a missing or corrupted log reads as no trades |
| ManagementRiskManagement.Assessed | trading_bot/management/risk_management.py:41-55 | a trade with "risk" set to its risk and every other field kept |
| ManagementRiskManagement.AssessRisk | trading_bot/management/risk_management.py:41-55 | the assessment has the history's count and order, each trade annotated with its risk |
| ManagementRiskManagement.CheckTradeRisk | trading_bot/management/risk_management.py:72-84 | with the target above the entry, ratio times reward equals risk; the result is non-zero iff the target is above the entry and the stop differs from the entry |
| ManagementRiskManagement.ExampleRiskRatio | trading_bot/management/risk_management.py:143-146 | entry 1.50, stop 1.40 and target 1.60 give 1.0 |
| ManagementRiskManagement.Enforced | trading_bot/management/risk_management.py:86-136 | the log after an enforcer: its length is kept, exactly the triggered trades are closed in place, and the rest are unchanged |
| ManagementRiskManagement.Closes | trading_bot/management/risk_management.py:86-136 | at most one `close_trade` call per trade |
| ManagementRiskManagement.Enforce | trading_bot/management/risk_management.py:86-136 | a missing or corrupted log is left alone with no call; otherwise the log becomes `Enforced` and the calls are `Closes`, in log order |
| ManagementRiskManagement.EnforceStep | trading_bot/management/risk_management.py:100-106 | one more trade adds its order id to the calls exactly when it triggers |
| ManagementRiskManagement.EnforceStopLoss | trading_bot/management/risk_management.py:86-109 | closes the open trades of the symbol whose truthy stop the price is at or below |
| ManagementRiskManagement.EnforceTakeProfit | trading_bot/management/risk_management.py:111-136 | closes the open trades of the symbol whose truthy target the price is at or above |
| ManagementRiskManagement.NothingTriggeredNoCloses | trading_bot/management/risk_management.py:100-106 | when no trade triggers, `close_trade` is never called |
| ManagementRiskManagement.EnforceIdempotent | trading_bot/management/risk_management.py:86-136 | a second run at the same price changes nothing and calls `close_trade` for no trade |
| MonitoringAlerts.ClosesOf | trading_bot/monitoring/alerts.py:50-63 | a trade gets at most two closes, and none exactly when it is left unchanged |
| MonitoringAlerts.Monitored | trading_bot/monitoring/alerts.py:35-66 | the log keeps its length, and each trade is updated on its own |
| MonitoringAlerts.ClosesStep | trading_bot/monitoring/alerts.py:50-63 | one more trade adds exactly its own closes |
| MonitoringAlerts.CheckTrade | trading_bot/monitoring/alerts.py:50-63 | the two independent branches give `MonitorOne` for the trade and `ClosesOf` for its calls |
| MonitoringAlerts.MonitorPrice | trading_bot/monitoring/alerts.py:35-66 | a missing or corrupted log is left alone with no call; otherwise the log becomes `Monitored` and the calls are all the closes, in log order |
| MonitoringAlerts.AtMostOneCloseWhenOrdered | trading_bot/monitoring/alerts.py:55-63 | with the stop below the target, a trade is closed at most once |
| MonitoringAlerts.InvertedLevelsCloseTwice | trading_bot/monitoring/alerts.py:55-63 | a stop of 2 and a target of 1 at price 1.5 call `close_trade` twice for the same order |
| MonitoringAlerts.MonitorLikeBothEnforcers | trading_bot/monitoring/alerts.py:35-66 | the log `monitor_price` writes is the one the stop-loss enforcer followed by the take-profit enforcer would write |
| MonitoringAlerts.MonitorRsi | trading_bot/monitoring/alerts.py:68-80 | overbought iff the RSI is above 70, oversold iff below 30, and nothing iff it lies between them |
| CoreTradeData.TradeRow | trading_bot/core/trade_data.py:25-40 | a six-cell row stamped with the time, whose last cell, the text of the profit, reads back through `float()` as exit minus entry whatever the side |
| CoreTradeData.LossOf | trading_bot/core/trade_data.py:42-58 | the loss a row adds is never negative |
| CoreTradeData.DailyLoss | trading_bot/core/trade_data.py:42-58 | the total is never negative |
| CoreTradeData.DailyLossStep | trading_bot/core/trade_data.py:42-58 | one more row adds exactly its loss |
| CoreTradeData.TodayNegatives | trading_bot/core/trade_data.py:42-58 | today's losses, each negative |
| CoreTradeData.DailyLossIsAbsOfSum | trading_bot/core/trade_data.py:42-58 | the sum of the absolute losses equals the absolute value of the sum of today's losses |
| CoreTradeData.IrrelevantRowNoEffect | trading_bot/core/trade_data.py:52-55 | a row not stamped today, or with a non-negative profit, leaves the daily loss unchanged |
| CoreTradeData.TradeData.constructor | trading_bot/core/trade_data.py:12-15 | no data is loaded, and the file is created with the header when absent |
| CoreTradeData.TradeData.EnsureFileExists | trading_bot/core/trade_data.py:17-23 | writes the header only when the file is absent and leaves an existing file unchanged |
| CoreTradeData.TradeData.LogTrade | trading_bot/core/trade_data.py:25-40 | appends exactly one row after the existing ones |
| CoreTradeData.TradeData.GetDailyLoss | trading_bot/core/trade_data.py:42-58 | a missing file raises FileNotFoundError, an empty file StopIteration; otherwise the loss of the rows after the header |
| CoreTradeData.TradeData.LoadData | trading_bot/core/trade_data.py:60-63 | a missing file raises FileNotFoundError and an existing empty file EmptyDataError, both keeping `data`; otherwise `data` holds the rows read and `process_data` then succeeds |
| CoreTradeData.TradeData.ProcessData | trading_bot/core/trade_data.py:65-73 | raises ValueError iff no data is loaded |
| CoreTradeData.TradeData.SaveData | trading_bot/core/trade_data.py:75-80 | without data it raises ValueError and writes nothing; otherwise the output holds the data |
| CoreTradeData.TradeData.LoadThenSave | trading_bot/core/trade_data.py:60-80 | loading and then saving copies the file to the output; when loading raises (missing or empty file), nothing is written |
| Common.CreatedWithHeaderIdempotent | trading_bot/core/trade_data.py:17-23 | creating a file with its header twice is the same as once |
| Common.EntriesOrEmpty | trading_bot/execution/trade_execution.py:25-43 | a missing or corrupted JSON log reads as the empty list |
| Common.AppendRow | trading_bot/data/trade_history.py:42-58 | appending a CSV row keeps every earlier row and puts the new one last |
| Common.FloatOfStr | trading_bot/data/trade_history.py:54-56 | the text the csv module writes for a number reads back through `float()` as that number |
| Common.RemoveChar | trading_bot/orders/order_execution.py:37 | the character is gone, and every other character is kept as often as it occurs |
| Common.RemoveCharAppend | trading_bot/orders/order_execution.py:37 | removing the character from two joined pieces is removing it from each, so the kept characters stay in order |
| DataTradeHistory.LogTradeHistory | trading_bot/data/trade_history.py:14-32 | the record's timestamp is overwritten; a missing file gets a one-record list, a list gets the record appended, and a corrupted file raises JSONDecodeError and is kept |
| DataTradeHistory.InitializeTradeHistory | trading_bot/data/trade_history.py:34-40 | writes the header only when the file is absent |
| DataTradeHistory.HistoryRow | trading_bot/data/trade_history.py:42-58 | a row of text, one cell per header column, whose number cells read back through `float()` as the amount, price and P/L logged |
| DataTradeHistory.LogTrade | trading_bot/data/trade_history.py:42-58 | appends exactly one row after the existing ones, creating an absent file without a header |
| DataTradeHistory.RowToDict | trading_bot/data/trade_history.py:60-74 | every header column read becomes a key of the dict, named by the text of the header cell |
| DataTradeHistory.DictsOf | trading_bot/data/trade_history.py:60-74 | at most one dict per data row |
| DataTradeHistory.GetTradeHistory | trading_bot/data/trade_history.py:60-74 | a missing or empty file reads as no records; otherwise the first row, whatever it holds, names the fields and the later rows give at most one record each |
| DataTradeHistory.RowsOf | trading_bot/data/trade_history.py:42-58 | one row per logged trade, in order |
| DataTradeHistory.RowReadsBack | trading_bot/data/trade_history.py:42-74 | a logged row read back under the header gives the trade's fields, every one as text, the numbers as the text written for them, which reads back through `float()` as the logged values |
| DataTradeHistory.FirstTradeWithoutHeaderIsLost | trading_bot/data/trade_history.py:42-74 | logging a first trade on an absent file and then more trades, `get_trade_history` takes the first trade's row as the field names: it yields exactly one record per later trade, each keyed by the first trade's values, and none for the first trade |
| DataTradeHistory.DictsOfAll | trading_bot/data/trade_history.py:60-74 | rows that each read as a record read as those records, in order |
| DataTradeHistory.JournalReadsBack | trading_bot/data/trade_history.py:42-74 | the rows of N logged trades read back as N records in append order, each holding the text written for the logged values |
| DataTradeHistory.LogTrades | trading_bot/data/trade_history.py:42-58 | logging a run of trades appends their rows, in order, after the existing ones |
| DataTradeHistory.InitializeLogAndRead | trading_bot/data/trade_history.py:34-74 | initialising, logging N trades and reading gives N records in append order, each holding the text written for the logged values |
| CoreTradeManager.OrderSide | trading_bot/core/trade_manager.py:38-75 | a side exists iff there is a signal with a side and a price, risk validation passes and the side is buy or sell |
| CoreTradeManager.TradeManager.constructor | trading_bot/core/trade_manager.py:11-16 | there is no current position, and `self.trades` does not exist |
| CoreTradeManager.TradeManager.PlaceTrade | trading_bot/core/trade_manager.py:18-21 | inserts or overwrites the id's details and keeps every other entry |
| CoreTradeManager.TradeManager.CancelTrade | trading_bot/core/trade_manager.py:23-29 | removes a present id and reports it; otherwise reports not found and keeps the map |
| CoreTradeManager.TradeManager.GetTradeStatus | trading_bot/core/trade_manager.py:31-36 | the details iff the id is present, and nothing changes |
| CoreTradeManager.TradeManager.ExecuteTrade | trading_bot/core/trade_manager.py:38-75 | given a risk check that answers, places a market order iff `OrderSide` gives a side; the position is set only when the order answer has an `orderId` |
| CoreTradeManager.ExecuteTradeAsWrittenNeverPlaces | trading_bot/core/trade_manager.py:54 | with the missing `validate_trade`, no signal leads to an order |
| CoreTradeManager.AcceptedSignalPlaces | trading_bot/core/trade_manager.py:50-62 | with a risk check that accepts, a buy or sell signal with a price leads to an order on that side |
| CoreTradeManager.TradeManager.MonitorPositions | trading_bot/core/trade_manager.py:77-95 | queries only for a non-empty position with a truthy `orderId`, and resets the position exactly on FILLED or CANCELLED |
| CoreTradeManager.PlaceThenStatus | trading_bot/core/trade_manager.py:18-36 | after placing, the status is the details placed, and other ids are unaffected |
| CoreTradeManager.PlaceThenCancel | trading_bot/core/trade_manager.py:18-36 | after placing and cancelling, the id is gone |
| ExecutionTradeMonitor.TradeMonitor.constructor | trading_bot/execution/trade_monitor.py:9-17 | a new monitor is not monitoring |
| ExecutionTradeMonitor.TradeMonitor.StartMonitoring | trading_bot/execution/trade_monitor.py:19-22 | monitoring is on |
| ExecutionTradeMonitor.TradeMonitor.StopMonitoring | trading_bot/execution/trade_monitor.py:24-27 | monitoring is off |
| ExecutionTradeMonitor.TradeMonitor.LogTradeActivity | trading_bot/execution/trade_monitor.py:29-34 | a log line exists iff monitoring, and reads "Trade activity: " followed by the info |
| ExecutionTradeMonitor.FillIn | trading_bot/execution/trade_monitor.py:83-87 | a trade changes iff it has an `orderId` and no status and the answer for that id carries a status, and it then gains exactly that status; every other field is kept |
| ExecutionTradeMonitor.FilledLog | trading_bot/execution/trade_monitor.py:68-92 | the log keeps its length and order, each trade filled in on its own |
| ExecutionTradeMonitor.Queried | trading_bot/execution/trade_monitor.py:83-87 | at most one status query per trade |
| ExecutionTradeMonitor.QueriedStep | trading_bot/execution/trade_monitor.py:83-87 | one more trade is queried exactly when it has an `orderId` and no status |
| ExecutionTradeMonitor.UpdateTradeLog | trading_bot/execution/trade_monitor.py:68-92 | a missing or corrupted log is left alone with no query; otherwise the log becomes `FilledLog` and the queries are `Queried` |
| ExecutionTradeMonitor.StatusIsStable | trading_bot/execution/trade_monitor.py:84 | a trade that has a status is never changed by a later update, whatever the exchange answers |
| ExecutionTradeMonitor.UpdateIdempotent | trading_bot/execution/trade_monitor.py:68-92 | a second update with the same answers changes nothing |
| MonitoringTradeMonitoring.TradeMonitoring.constructor | trading_bot/monitoring/trade_monitoring.py:10-11 | a new monitor is not monitoring |
| MonitoringTradeMonitoring.TradeMonitoring.StartMonitoring | trading_bot/monitoring/trade_monitoring.py:13-15 | monitoring is on |
| MonitoringTradeMonitoring.TradeMonitoring.StopMonitoring | trading_bot/monitoring/trade_monitoring.py:17-19 | monitoring is off |
| MonitoringTradeMonitoring.TradeMonitoring.MonitorTrades | trading_bot/monitoring/trade_monitoring.py:21-27 | reports not active iff monitoring is off |
| MonitoringTradeMonitoring.GetTradeHistory | trading_bot/monitoring/trade_monitoring.py:49-63 | a missing or corrupted log reads as no trades |
| MonitoringTradeMonitoring.PriceChange | trading_bot/monitoring/trade_monitoring.py:81-85 | the change times the previous price equals the difference times 100 |
| MonitoringTradeMonitoring.Tick | trading_bot/monitoring/trade_monitoring.py:65-99 | alerts iff there is a price and a non-zero previous price and the absolute change is strictly above the threshold; a failed fetch keeps the previous price, a price replaces it, and a previous 0 is kept because the division error is caught |
| MonitoringTradeMonitoring.Run | trading_bot/monitoring/trade_monitoring.py:65-99 | one alert flag per tick; only a tick with a price alerts; the first price never alerts; no previous price iff every fetch failed |
| MonitoringTradeMonitoring.RunStep | trading_bot/monitoring/trade_monitoring.py:65-99 | one more tick applies `Tick` to the state so far |
| MonitoringTradeMonitoring.MonitorTrade | trading_bot/monitoring/trade_monitoring.py:65-99 | the alerts and the final previous price are those of `Run` |
| CoreBotController.BrokerCall | trading_bot/core/bot_controller.py:52-57 | the broker is called iff the signal is truthy, with that signal |
| CoreBotController.Executed | trading_bot/core/bot_controller.py:35-50 | a tripped limit executes nothing; at most one broker call per cycle, each with a truthy signal |
| CoreBotController.ExecutedStep | trading_bot/core/bot_controller.py:35-50 | one more cycle executes its signal iff the limit is not tripped, every cycle so far was healthy and the signal is truthy |
| CoreBotController.UnhealthyStopsTrading | trading_bot/core/bot_controller.py:38-41 | nothing executes from the first unhealthy cycle on |
| CoreBotController.UnhealthyStartTradesNothing | trading_bot/core/bot_controller.py:38-41 | an unhealthy first cycle means no trade at all |
| CoreBotController.BotController.constructor | trading_bot/core/bot_controller.py:9-13 | a new controller is not running and has started no thread |
| CoreBotController.BotController.Start | trading_bot/core/bot_controller.py:15-23 | warns, starting no thread, iff already running; otherwise running becomes true with one thread started |
| CoreBotController.BotController.Stop | trading_bot/core/bot_controller.py:25-33 | warns iff not running; afterwards it is not running |
| CoreBotController.BotController.Run | trading_bot/core/bot_controller.py:35-50 | the broker calls are `Executed` for the cycles and the stored limit; it keeps running iff every cycle was healthy and the limit was not hit; the stored risk data is unchanged |
| CoreBotController.StartTwiceThenRun | trading_bot/core/bot_controller.py:15-50 | a second start warns and starts no second thread, and the run still trades as `Executed` |
| ExecutionTradeExecution.LogTrade | trading_bot/execution/trade_execution.py:25-43 | a missing or corrupted log is replaced by a one-entry list; otherwise the entry is appended after the existing ones |
| ExecutionTradeExecution.LoggedAll | trading_bot/execution/trade_execution.py:25-43 | the earlier entries come first, then the new ones in order |
| ExecutionTradeExecution.LogTwice | trading_bot/execution/trade_execution.py:25-43 | two appends keep both entries in order after the earlier ones |
| ExecutionTradeExecution.MarketPayload | trading_bot/execution/trade_execution.py:45-72 | the body holds exactly symbol, side and size |
| ExecutionTradeExecution.LimitPayload | trading_bot/execution/trade_execution.py:74-103 | the body holds exactly symbol, side, size and price |
| ExecutionTradeExecution.LimitExtendsMarket | trading_bot/execution/trade_execution.py:45-103 | the limit body is the market body with the price added |
| ExecutionTradeExecution.SendAndLog | trading_bot/execution/trade_execution.py:45-103 | the answer is returned and logged only when it carries an `orderId`; a failed request logs nothing |
| ExecutionTradeExecution.PlaceMarketOrder | trading_bot/execution/trade_execution.py:45-72 | sends the market body and logs only an answer with an `orderId` |
| ExecutionTradeExecution.PlaceLimitOrder | trading_bot/execution/trade_execution.py:74-103 | sends the limit body with the same logging rule |
| ExecutionTradeExecution.TradeExecution.constructor | trading_bot/execution/trade_execution.py:106-112 | the execution holds the broker's `create_order` |
| ExecutionTradeExecution.TradeExecution.ExecuteTrade | trading_bot/execution/trade_execution.py:114-132 | raises ValueError without calling the broker iff the type is neither buy nor sell; otherwise it makes one broker call and returns its order |
| ExchangeOrderExecution.SignatureMessage | trading_bot/exchange/order_execution.py:21-25 | the message is timestamp, method, path and body laid end to end |
| ExchangeOrderExecution.SignatureMessageInjective | trading_bot/exchange/order_execution.py:21-25 | for equal field lengths, equal messages come only from equal fields |
| ExchangeOrderExecution.FirstPlaceOrderPayload | trading_bot/exchange/order_execution.py:26-56 | the size is sent as text; the price is present, as text, iff the order is a limit order with a truthy price |
| ExchangeOrderExecution.PlaceOrderPayload | trading_bot/exchange/order_execution.py:57-92 | always the configured pair and size, the given side and type, and the timestamp; the raw price is present iff the order is a limit order with a truthy price |
| ExchangeOrderExecution.PlaceOrder | trading_bot/exchange/order_execution.py:57-92 | a tripped daily limit returns nothing and sends no request; otherwise it sends the body and returns the answer; the risk data is unchanged |
| ExchangeOrderExecution.SimulatedExit | trading_bot/exchange/order_execution.py:93-116 | the profit is exit minus entry with exit 1% above entry, so the profit is 1% of the entry |
| ExchangeOrderExecution.ExecuteTrade | trading_bot/exchange/order_execution.py:93-116 | no price, or a price of 0, places no order. Otherwise the levels come from `calculate_risk_levels`, and a trade is recorded iff the limit allows it and the buy answer is non-empty, with the simulated exit; the daily loss is never changed |
| OrdersOrderExecution.ExecuteOrderPayload | trading_bot/orders/order_execution.py:19-57 | the symbol is the pair without "/", the side is the lowered type, and the size is text; a limit order with the price as text iff the price is truthy, otherwise a market order without a price |
| OrdersOrderExecution.ZeroPriceIsMarket | trading_bot/orders/order_execution.py:40-41 | a price of 0 makes a market order without a price |
| OrdersOrderExecution.TradeLogEntry | trading_bot/orders/order_execution.py:48-57 | the logged record carries the price, or "Market" when the price is falsy |
| OrdersOrderExecution.ExecuteOrder | trading_bot/orders/order_execution.py:19-57 | succeeds (logging and returning the answer) iff the code is "00000"; otherwise, or when the request failed, returns nothing and logs nothing |
| OrdersOrderExecution.SendOrderPayload | trading_bot/orders/order_execution.py:59-102 | no request iff a limit order has no price; the side and type are lowered, the time in force is GTC, and only limit orders carry the price |
| OrdersOrderExecution.SendOrder | trading_bot/orders/order_execution.py:59-102 | without a request there is no answer; otherwise the answer is returned |
| OrdersOrderExecution.UpperCaseLimitNeedsPrice | trading_bot/orders/order_execution.py:81-84 | "LIMIT" without a price is refused, but a price of 0 is sent |
| ExecutionOrderExecution.OrderData | trading_bot/execution/order_execution.py:18-58 | the symbol is the pair without "/", the side is the lowered type, and the size is text; a limit order with the price as text iff the price is truthy |
| ExecutionOrderExecution.ExecuteOrder | trading_bot/execution/order_execution.py:18-58 | the answer is returned and the trade logged iff the code is "00000" |
| ExecutionOrderExecution.CopiesAgree | trading_bot/execution/order_execution.py:18-58 | this copy and the one in `orders/order_execution.py` behave identically on every input |
| SignalsTradingSignals.NeverBoth | trading_bot/signals/trading_signals.py:31-41 | no row is both a buy and a sell |
| SignalsTradingSignals.MissingIndicatorNoSignal | trading_bot/signals/trading_signals.py:31-41 | a row with a missing (NaN) indicator signals neither way |
| SignalsTradingSignals.MarketData.constructor | trading_bot/signals/trading_signals.py:31-41 | the frame holds its indicators and no signal columns yet |
| SignalsTradingSignals.MarketData.GenerateTechnicalSignals | trading_bot/signals/trading_signals.py:31-41 | adds both columns to the frame, row by row: buy iff RSI < 30, MACD > 0 and SMA50 > SMA200; sell iff RSI > 70, MACD < 0 and SMA50 < SMA200; never both |
| SignalsTradingSignals.LoadAiModel | trading_bot/signals/trading_signals.py:24-29 | no model when no model file is configured |
| SignalsTradingSignals.AiSignal | trading_bot/signals/trading_signals.py:43-51 | predictions exist iff a model file is configured |
| SignalsTradingSignals.GetTradingSignal | trading_bot/signals/trading_signals.py:53-67 | the last row's buy, then its sell, then the AI, then hold; hold iff neither technical signal fires and there is no AI signal; an empty frame raises IndexError |
| SignalsTradingSignals.LastRowDecides | trading_bot/signals/trading_signals.py:53-67 | frames ending in the same row give the same signal |
| SignalsTradingSignals.NoModelNoAiSignal | trading_bot/signals/trading_signals.py:53-67 | with no model file and no technical signal, the answer is hold |
| SignalsTradingSignals.AiDecidesOtherwise | trading_bot/signals/trading_signals.py:53-67 | without a technical signal, a last prediction of 1 buys and anything else sells |
| AnalyticsTradeAnalysis.LoadTradeLog | trading_bot/analytics/trade_analysis.py:17-33 | a missing or corrupted log reads as no trades |
| AnalyticsTradeAnalysis.Profit | trading_bot/analytics/trade_analysis.py:74-110 | exit minus entry, known iff both prices are numbers |
| AnalyticsTradeAnalysis.Winning | trading_bot/analytics/trade_analysis.py:86-90 | the count of trades with a positive profit: at most the number of trades, 0 iff no trade wins, all iff every trade wins |
| AnalyticsTradeAnalysis.Losing | trading_bot/analytics/trade_analysis.py:86-91 | the count of trades with a negative profit: at most the number of trades, 0 iff no trade loses, all iff every trade loses |
| AnalyticsTradeAnalysis.WinsAndLossesBounded | trading_bot/analytics/trade_analysis.py:74-110 | winning plus losing never exceeds the total |
| AnalyticsTradeAnalysis.NeitherWinNorLoss | trading_bot/analytics/trade_analysis.py:74-110 | a break-even trade, or one with an unknown profit, is counted in neither |
| AnalyticsTradeAnalysis.Profits | trading_bot/analytics/trade_analysis.py:86-93 | the known profits: all of them in order when every profit is known, none when no profit is |
| AnalyticsTradeAnalysis.WinningAppend | trading_bot/analytics/trade_analysis.py:90 | the wins of two joined logs are the sum of each log's |
| AnalyticsTradeAnalysis.LosingAppend | trading_bot/analytics/trade_analysis.py:91 | the losses of two joined logs are the sum of each log's |
| AnalyticsTradeAnalysis.ProfitsAppend | trading_bot/analytics/trade_analysis.py:86-93 | the known profits of two joined logs are each log's, in order |
| AnalyticsTradeAnalysis.WinRate | trading_bot/analytics/trade_analysis.py:74-110 | the rate lies in [0, 100], times the total it is 100 times the winners, and it is 0 without trades |
| AnalyticsTradeAnalysis.Mean | trading_bot/analytics/trade_analysis.py:74-110 | defined iff there is a value, and times the count it equals the sum |
| AnalyticsTradeAnalysis.Summarize | trading_bot/analytics/trade_analysis.py:74-110 | counts every trade, its winners and its losers (together at most the total), with the win rate and the mean of the known profits |
| AnalyticsTradeAnalysis.AnalyzeTradePerformance | trading_bot/analytics/trade_analysis.py:74-110 | an empty frame gives nothing; a missing price column raises KeyError, exactly for a non-empty frame without both columns; otherwise the summary |
| AnalyticsTradeAnalysis.EmptyLogNoSummary | trading_bot/analytics/trade_analysis.py:74-110 | a missing, corrupted or empty log gives no summary |

## Left out

- HTTP, REST and WebSocket requests, and response decoding: every answer from the exchange, the broker, the ticker and the balance endpoints is a parameter (`None` for a failed request or a status other than 200). `get_current_balance`, `get_account_balance`, `get_open_orders`, `get_trade_status`, `fetch_trading_signals`, `get_latest_price` and the `float(...)` parse of the answer are not modelled.
- HMAC-SHA256 and base64 signing: only the concatenated message of `generate_signature` is modelled.
- Indicator and model computation: RSI, MACD and the moving averages are inputs, and so are the AI model's predictions. `process_signals` and `generate_signals_report` are not modelled.
- Threads, `time.sleep` and `while True` loops: the bot controller's thread and `join` are a thread counter. `run` and the monitors cover a finite sequence of cycles, prices or ticks. A `stop()` called from inside `run` would join the running thread; the model stops the loop instead.
- Logging, printing, `send_alert`, `log_event` and `log_trade` from `trading_bot/logs/data_logger.py`: the records handed to them are returned where a property is about them. `trading_bot/logs/data_logger.py` is not part of this model.
- `close_trade` is imported in `trading_bot/management/risk_management.py` and `trading_bot/monitoring/alerts.py` but defined nowhere; the model records each call with its order id, in order.
- `trading_bot/execution/trade_execution.py:6` imports names that `trading_bot/core/risk_management.py` does not define, so the module as written would not import. `trading_bot/risk/risk_management.py:10`, `trading_bot/monitoring/trade_monitoring.py:7`, `trading_bot/management/risk_management.py:6` and `trading_bot/monitoring/alerts.py:6` import from it, so they would not import either. The model describes all of these modules' functions as if the import succeeded, and the findings on `trading_bot/risk/risk_management.py:154`, `:199` and `:138` are stated under the same assumption.
- The first `place_order` in `trading_bot/exchange/order_execution.py` is shadowed by the second and never called; it is modelled as a payload rule only.
- Float rounding (`round(x, 6)`, `round(x, 4)`, `round(x, 2)`): every level, size and profit is stated over exact reals before rounding.
- Python `str()` of a number is symbolic (`StrOf`); float formatting is not modelled. Where the characters matter, as field names taken from a header row, they are the parameter `shown`.
- pandas coercion: a price or profit that is not a JSON number counts as NaN (missing), and text is not parsed as a number.
- `float()` accepts a number or the `str()` text of a number (`Floatable`); other text, such as a hand-edited CSV cell, is not parsed. So the CSV readers are specified only for cells the writers of this package produce.
- `csv.DictReader` with rows longer than the header: the model reads one cell per header column and does not model the extra cells (the `None` key). A row shorter than the header is modelled: its missing cells read as None.
- Readers whose records lack a key the code indexes, or hold a value of the wrong type at it, raise KeyError or TypeError in Python. The model states these readers only for records that have what they read, as preconditions: `ManagementRiskManagement.RiskReadable`, `ManagementRiskManagement.CalculateRisk`, `ManagementRiskManagement.EnforceReadable`, `MonitoringAlerts.PriceReadable`, `RiskRiskManagement.PnlReadable`, `RiskRiskManagement.DailyReadable` and `CoreTradeData.DailyReadable`. The raising paths are not modelled.
- A corrupted risk or settings JSON file: `load_risk_settings` in `trading_bot/core/risk_management.py`, `trading_bot/risk/risk_management.py` and `trading_bot/strategy/risk_management.py` has no handler, so JSONDecodeError escapes `check_daily_loss_limit`, `record_trade`, `check_stop_loss`, `BotController.run` and `place_order`. `RiskStore.file` and `SettingsFile.contents` are absent or hold a decoded object, so that path is not modelled.
- Common.Lower: lowers ASCII letters only, where Python's `str.lower` folds all of Unicode; the order sides and types it is applied to are ASCII words.
- CoreTradeManager.TradeManager.GetTradeStatus: returns the stored details (or none) in place of the formatted message "Trade {id} status: {details}" or "Trade {id} not found.", because the text of a dict is not modelled.
- `monitor_trade_risk` and `load_trade_data` in `trading_bot/core/risk_management.py`, `analyze_trades` in `trading_bot/analytics/trade_analysis.py` and the plotting in `analyze_trade_performance`: they only print statistics.
- The module-level example blocks (`if __name__ == "__main__"`) are not modelled.
- RiskRiskManagement.RiskManagement.MonitorTrade: covers a finite run of prices; when no price exits, the source keeps polling forever, which the model ends after the last price. It assumes an executor with `cancel_order` and `place_market_order` (see Findings); `market_data`, trading_bot/data/market_data.py, is not part of this model, and its prices are the parameter. The keyword `size=0.001` passed to `place_market_order` is recorded as the sell's size.
- MonitoringTradeMonitoring.MonitorTrade: covers a finite run of ticks; the source loops forever.

## Findings

| source | as written | input that shows it | evidently intended | confidence | as-written member | corrected member |
|---|---|---|---|---|---|---|
| trading_bot/risk/risk_management.py:154 | `RiskManagement.__init__` calls `TradeExecution()` without the `broker_api` argument that `TradeExecution.__init__` requires (trading_bot/execution/trade_execution.py:106), so constructing a `RiskManagement` raises TypeError | `RiskManagement()` | construct the executor with a broker | high (not executed) | RiskRiskManagement.ConstructorAsWrittenRaises | RiskRiskManagement.RiskManagement.constructor |
| trading_bot/risk/risk_management.py:199 | `monitor_trade` calls `cancel_order` and `place_market_order` on a `TradeExecution`, which defines only `execute_trade`, so the first exit raises AttributeError before the market sell and before `daily_loss` grows (line 201) | entry 100, price 97, which is below the 2% stop at 98 | an executor that cancels the order and sells at market | high (not executed) | RiskRiskManagement.RiskManagement.MonitorTradeAsWritten | RiskRiskManagement.RiskManagement.MonitorTrade |
| trading_bot/core/trade_manager.py:54 | `execute_trade` calls `self.risk_manager.validate_trade(side)`, but trading_bot/core/risk_manager.py's `RiskManager` defines no such method; the AttributeError is caught at line 74, so no order is ever placed | a signal with side "buy" and a price | a risk check that accepts or blocks the trade | high (not executed) | CoreTradeManager.ExecuteTradeAsWrittenNeverPlaces | CoreTradeManager.TradeManager.ExecuteTrade |
| trading_bot/risk/risk_management.py:138 | `check_daily_loss` compares against `MAX_DAILY_LOSS`, a name defined nowhere, so it raises NameError whenever the history is non-empty | one trade today with profit -10 | compare against `DAILY_MAX_LOSS` (500), defined at line 21 | high (not executed) | RiskRiskManagement.CheckDailyLossAsWrittenRaises | RiskRiskManagement.CheckDailyLossIntended |
