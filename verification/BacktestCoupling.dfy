/** Strategy and ledger stay coupled under the one-brick delay. */
module BacktestCoupling {
  import opened Common
  import opened Execution
  import opened Ledger
  import opened RenkoModels
  import opened Backtest
  import opened BacktestTrades
  import opened Strategies
  import opened PreviousDayBreakout

  /** What is pending or held agrees with the stance of the strategy. */
  predicate Coupled(p: Progress, stance: Stance) {
    && (p.pending.Some? && p.pending.value.order.side.Buy? ==> stance == Long)
    && (p.pending.Some? && p.pending.value.order.side.Sell? ==> stance == Flat)
    && (p.account.position.IsOpen() && p.pending.None? ==> stance == Long)
  }

  lemma StepKeepsCoupled(s: Setup, p: Progress, bars: seq<Bar>, n: nat, before: Stance, signal: Signal, after: Stance)
    requires n < |bars| && Journaled(s, p, bars[..n]) && Coupled(p, before)
    requires bars[n].close > 0.0 && Answers(before, signal, after)
    ensures Coupled(Step(s, p, bars[n], n, signal), after)
  {
    hide Adjust, Executed, Paired, Alternating, Rising, SizeFor, Worth;
    if p.pending.Some? {
      var w := p.pending.value;
      ExecutedEffect(s, p, w.order, bars[n], n, w.signalled, false);
    }
  }

  /** With positive closes, after every brick of every run of a disciplined strategy: an open
      position without a pending exit means the strategy is long, a pending entry that it is long,
      a pending exit that it is flat. */
  lemma {:induction false} StrategyAndLedgerStayCoupled(s: Setup, starting: real, leverage: real, bars: seq<Bar>, t: Trace)
    requires Disciplined(t.stances, t.signals) && |t.signals| == |bars|
    requires forall i | 0 <= i < |bars| :: bars[i].close > 0.0
    ensures Coupled(Bars(s, Begin(starting, leverage), bars, t.signals), t.stances[|bars|])
  {
    hide Step, Journaled, Coupled;
    if bars != [] {
      var n := |bars| - 1;
      var before := Trace(t.stances[..n + 1], t.signals[..n]);
      StrategyAndLedgerStayCoupled(s, starting, leverage, bars[..n], before);
      BarsAreJournaled(s, starting, leverage, bars[..n], t.signals[..n]);
      assert Answers(t.stances[n], t.signals[n], t.stances[n + 1]);
      StepKeepsCoupled(s, Bars(s, Begin(starting, leverage), bars[..n], t.signals[..n]), bars, n,
                       t.stances[n], t.signals[n], t.stances[n + 1]);
    } else {
      BeginIsCoupled(starting, leverage);
    }
  }

  lemma BeginIsCoupled(starting: real, leverage: real)
    ensures Coupled(Begin(starting, leverage), Flat)
  {
  }

  function Closes(bars: seq<Bar>): (r: seq<real>)
    ensures |r| == |bars|
  {
    seq(|bars|, i requires 0 <= i < |bars| => bars[i].close)
  }

  /** All shipped strategies drive the backtest coupled: the EMA ones, the trend one, and the breakout
      whatever mixture of bars and bricks it is shown. */
  lemma {:induction false} ShippedStrategiesStayCoupled(s: Setup, starting: real, leverage: real, bars: seq<Bar>,
                                                        period: int, length: int, ds: seq<Trend>,
                                                        buffer: real, os: seq<Observation>)
    requires period >= 1 && |ds| == |os| == |bars| && forall i | 0 <= i < |bars| :: bars[i].close > 0.0
    ensures var t := CrossTrace(period, Closes(bars));
            && |t.signals| == |bars|
            && Coupled(Bars(s, Begin(starting, leverage), bars, t.signals), CrossRun(period, Closes(bars)).stance)
    ensures var t := TrendTrace(length, ds);
            && |t.signals| == |bars|
            && Coupled(Bars(s, Begin(starting, leverage), bars, t.signals), TrendRun(length, ds).0.stance)
    ensures var t := BreakTrace(buffer, os);
            && |t.signals| == |bars|
            && Coupled(Bars(s, Begin(starting, leverage), bars, t.signals), BreakRun(buffer, os).stance)
  {
    hide Coupled;
    CrossIsDisciplined(period, Closes(bars));
    TrendIsDisciplined(length, ds);
    BreakoutIsDisciplined(buffer, os);
    StrategyAndLedgerStayCoupled(s, starting, leverage, bars, CrossTrace(period, Closes(bars)));
    StrategyAndLedgerStayCoupled(s, starting, leverage, bars, TrendTrace(length, ds));
    StrategyAndLedgerStayCoupled(s, starting, leverage, bars, BreakTrace(buffer, os));
  }
}
