/** trading_bot/core/bot_controller.py: the start/stop guards of
    `BotController` and its trading loop, run over a finite sequence of
    cycles. Each cycle's system-health answer and strategy signal are given
    as data; the daily-loss gate is `check_daily_loss_limit(0)` on the risk
    data file of trading_bot/core/risk_management.py. */
module CoreBotController {
  import opened Common
  import CoreRiskManagement

  /** What one cycle of `run` observes: the health check's answer and the
      signal `generate_signal` would return. */
  datatype Cycle = Cycle(healthy: bool, signal: Scalar)

  predicate AllHealthy(cycles: seq<Cycle>) {
    forall j :: 0 <= j < |cycles| ==> cycles[j].healthy
  }

  /** `execute_trade`: the signal handed to the broker, only when truthy. */
  function BrokerCall(signal: Scalar): (call: Option<Scalar>)
    ensures call.Some? <==> Truthy(signal)
    ensures call.Some? ==> call.value == signal
  {
    if Truthy(signal) then Some(signal) else None
  }

  /** The signals the broker receives over a run of cycles started while
      running, with `tripped` the daily-loss gate's answer: cycle i trades
      only when every cycle up to it was healthy and the gate is open. */
  function Executed(cycles: seq<Cycle>, tripped: bool): (calls: seq<Scalar>)
    ensures tripped ==> calls == []
    ensures |calls| <= |cycles|
    ensures forall k :: 0 <= k < |calls| ==> Truthy(calls[k])
  {
    if cycles == [] then []
    else
      var last := cycles[|cycles| - 1];
      Executed(cycles[..|cycles| - 1], tripped)
      + (if !tripped && AllHealthy(cycles) && Truthy(last.signal) then [last.signal] else [])
  }

  lemma ExecutedStep(cycles: seq<Cycle>, i: nat, tripped: bool)
    requires i < |cycles|
    ensures Executed(cycles[..i + 1], tripped)
            == Executed(cycles[..i], tripped)
               + (if !tripped && AllHealthy(cycles[..i + 1]) && Truthy(cycles[i].signal) then [cycles[i].signal] else [])
  {
    assert cycles[..i + 1][..i] == cycles[..i];
  }

  /** After a failed health check no later cycle trades. */
  lemma {:induction false} UnhealthyStopsTrading(cycles: seq<Cycle>, i: nat, tripped: bool)
    requires i < |cycles| && !cycles[i].healthy
    ensures Executed(cycles, tripped) == Executed(cycles[..i], tripped)
  {
    var prefix := cycles[..|cycles| - 1];
    assert !AllHealthy(cycles);
    if i < |cycles| - 1 {
      assert prefix[i] == cycles[i];
      UnhealthyStopsTrading(prefix, i, tripped);
      assert prefix[..i] == cycles[..i];
    } else {
      assert prefix == cycles[..i];
    }
  }

  /** A failed first health check means no trade at all. */
  lemma UnhealthyStartTradesNothing(cycles: seq<Cycle>, tripped: bool)
    requires |cycles| > 0 && !cycles[0].healthy
    ensures Executed(cycles, tripped) == []
  {
    UnhealthyStopsTrading(cycles, 0, tripped);
  }

  class BotController {
    var running: bool
    /** How many trading threads `start` has created. */
    var threadsStarted: nat

    constructor()
      ensures !running && threadsStarted == 0
    {
      running := false;
      threadsStarted := 0;
    }

    /** `start`: warns and does nothing while running; otherwise sets the
        flag and starts one trading thread. */
    method Start() returns (warned: bool)
      modifies this
      ensures warned <==> old(running)
      ensures running
      ensures threadsStarted == old(threadsStarted) + (if warned then 0 else 1)
    {
      if running {
        return true;
      }
      warned := false;
      running := true;
      threadsStarted := threadsStarted + 1;
    }

    /** `stop`: warns and does nothing while stopped; otherwise clears the
        flag (the thread join is not modelled). */
    method Stop() returns (warned: bool)
      modifies this
      ensures warned <==> !old(running)
      ensures !running
      ensures threadsStarted == old(threadsStarted)
    {
      if !running {
        return true;
      }
      warned := false;
      running := false;
    }

    /** `run` over the given cycles: each cycle checks health first, then
        the daily-loss limit, and stops the bot when either fails; otherwise
        it executes the cycle's signal. The loop also ends when the cycles
        run out. */
    method Run(store: CoreRiskManagement.RiskStore, config: CoreRiskManagement.RiskConfig, cycles: seq<Cycle>)
      returns (calls: seq<Scalar>)
      modifies this, store
      ensures !old(running) ==> calls == [] && !running
      ensures old(running) ==> calls == Executed(cycles, old(store.Load()).dailyLoss >= config.maxDailyLoss)
      ensures old(running) ==> (running <==> AllHealthy(cycles)
                                             && (cycles == [] || old(store.Load()).dailyLoss < config.maxDailyLoss))
      ensures store.Load() == old(store.Load())
      ensures threadsStarted == old(threadsStarted)
    {
      calls := [];
      ghost var tripped := store.Load().dailyLoss >= config.maxDailyLoss;
      var i := 0;
      while i < |cycles| && running
        invariant 0 <= i <= |cycles|
        invariant store.Load() == old(store.Load())
        invariant threadsStarted == old(threadsStarted)
        invariant running == old(running)
        invariant !running ==> calls == []
        invariant running ==> AllHealthy(cycles[..i]) && (i == 0 || !tripped)
        invariant running ==> calls == Executed(cycles[..i], tripped)
      {
        ExecutedStep(cycles, i, tripped);
        if !cycles[i].healthy {
          var _ := Stop();
          UnhealthyStopsTrading(cycles, i, tripped);
          assert !AllHealthy(cycles) by { assert !cycles[i].healthy; }
          return;
        }
        var halted := store.CheckDailyLossLimit(0.0, config);
        if halted {
          var _ := Stop();
          return;
        }
        var call := BrokerCall(cycles[i].signal);
        if call.Some? {
          calls := calls + [call.value];
        }
        i := i + 1;
      }
      if running {
        assert cycles[..i] == cycles;
      }
    }
  }

  /** A controller started once and run over its cycles: starting twice
      creates a single thread, and the run trades as `Executed` says. */
  method StartTwiceThenRun(bot: BotController, store: CoreRiskManagement.RiskStore,
                           config: CoreRiskManagement.RiskConfig, cycles: seq<Cycle>)
    returns (calls: seq<Scalar>, secondWarned: bool)
    requires !bot.running && bot.threadsStarted == 0
    modifies bot, store
    ensures secondWarned && bot.threadsStarted == 1
    ensures calls == Executed(cycles, old(store.Load()).dailyLoss >= config.maxDailyLoss)
  {
    var _ := bot.Start();
    secondWarned := bot.Start();
    calls := bot.Run(store, config, cycles);
  }
}
