/** The trend and the EMA strategies: what each answers to a brick, and the discipline all strategies share. */
module Strategies {
  import opened Common
  import opened RenkoModels
  import opened Backtest

  datatype Stance = Flat | Long | Short

  /** One answer of a disciplined strategy: entries from flat, exits back to flat. */
  predicate Answers(before: Stance, signal: Signal, after: Stance) {
    match signal
    case BuySignal => before == Flat && after == Long
    case SellSignal => before == Flat && after == Short
    case ExitSignal => before != Flat && after == Flat
    case HoldSignal => after == before
  }

  /** A whole run of answers from a flat start; `stances` has one entry more than `signals`. */
  ghost predicate Disciplined(stances: seq<Stance>, signals: seq<Signal>) {
    && |stances| == |signals| + 1 && stances[0] == Flat
    && forall i | 0 <= i < |signals| :: Answers(stances[i], signals[i], stances[i + 1])
  }

  predicate IsEntry(s: Signal) {
    s.BuySignal? || s.SellSignal?
  }

  lemma {:induction false} QuietKeepsStance(stances: seq<Stance>, signals: seq<Signal>, i: nat, j: nat)
    requires Disciplined(stances, signals) && i <= j <= |signals|
    requires forall k | i <= k < j :: signals[k].HoldSignal?
    ensures stances[j] == stances[i]
  {
    if i < j {
      QuietKeepsStance(stances, signals, i, j - 1);
      assert Answers(stances[j - 1], signals[j - 1], stances[j]);
    }
  }

  /** Non-HOLD signals alternate: the first is an entry, and of two with only HOLD in between
      exactly one is an entry. */
  lemma {:induction false} SignalsAlternate(stances: seq<Stance>, signals: seq<Signal>, i: nat, j: nat)
    requires Disciplined(stances, signals) && j < |signals| && !signals[j].HoldSignal?
    ensures i < j && !signals[i].HoldSignal? && (forall k | i < k < j :: signals[k].HoldSignal?)
            ==> IsEntry(signals[j]) == !IsEntry(signals[i])
    ensures (forall k | 0 <= k < j :: signals[k].HoldSignal?) ==> IsEntry(signals[j])
  {
    assert Answers(stances[j], signals[j], stances[j + 1]);
    if i < j && !signals[i].HoldSignal? && (forall k | i < k < j :: signals[k].HoldSignal?) {
      assert Answers(stances[i], signals[i], stances[i + 1]);
      QuietKeepsStance(stances, signals, i + 1, j);
    }
    if forall k | 0 <= k < j :: signals[k].HoldSignal? {
      QuietKeepsStance(stances, signals, 0, j);
    }
  }

  /** Above the upper level a short is left and a flat strategy goes long; below the lower level it is
      the other way around. */
  function Decide(stance: Stance, price: real, upper: real, lower: real): (Stance, Signal) {
    if price > upper then
      if stance == Short then (Flat, ExitSignal)
      else if stance == Flat then (Long, BuySignal)
      else (stance, HoldSignal)
    else if price < lower then
      if stance == Long then (Flat, ExitSignal)
      else if stance == Flat then (Short, SellSignal)
      else (stance, HoldSignal)
    else (stance, HoldSignal)
  }

  // ---- renko trend ------------------------------------------------------------------

  datatype TrendState = TrendState(length: int, lastDirection: Option<Trend>, streak: int, stance: Stance)

  function TrendAnswer(s: TrendState, direction: Trend): (TrendState, Signal) {
    if direction == Neutral then (s, HoldSignal)
    else
      var streak := if Some(direction) == s.lastDirection then s.streak + 1 else 1;
      var seen := s.(lastDirection := Some(direction), streak := streak);
      if direction == Up then
        if s.stance == Short then (seen.(stance := Flat), ExitSignal)
        else if s.stance == Flat && streak >= s.length then (seen.(stance := Long), BuySignal)
        else (seen, HoldSignal)
      else
        if s.stance == Long then (seen.(stance := Flat), ExitSignal)
        else if s.stance == Flat && streak >= s.length then (seen.(stance := Short), SellSignal)
        else (seen, HoldSignal)
  }

  class RenkoTrendStrategy {
    const length: int
    var lastDirection: Option<Trend>
    var streak: int
    var stance: Stance

    function View(): TrendState
      reads this
    {
      TrendState(length, lastDirection, streak, stance)
    }

    constructor (length: int)
      requires length > 0
      ensures View() == TrendState(length, None, 0, Flat)
    {
      this.length, lastDirection, streak, stance := length, None, 0, Flat;
    }

    method OnBrick(direction: Trend) returns (signal: Signal)
      modifies this
      ensures (View(), signal) == TrendAnswer(old(View()), direction)
      ensures Answers(old(stance), signal, stance)
    {
      if direction == Neutral {
        return HoldSignal;
      }
      if lastDirection == Some(direction) {
        streak := streak + 1;
      } else {
        lastDirection, streak := Some(direction), 1;
      }
      signal := HoldSignal;
      if direction == Up {
        if stance == Short {
          stance, signal := Flat, ExitSignal;
        } else if stance == Flat && streak >= length {
          stance, signal := Long, BuySignal;
        }
      } else {
        if stance == Long {
          stance, signal := Flat, ExitSignal;
        } else if stance == Flat && streak >= length {
          stance, signal := Short, SellSignal;
        }
      }
    }
  }

  /** The strategy after a run of directions, and what it answered. */
  function TrendRun(length: int, ds: seq<Trend>): (TrendState, seq<Signal>) {
    if ds == [] then (TrendState(length, None, 0, Flat), [])
    else
      var (s, signals) := TrendRun(length, ds[..|ds| - 1]);
      var (s', signal) := TrendAnswer(s, ds[|ds| - 1]);
      (s', signals + [signal])
  }

  /** The last n directions, neutral ones apart, are all d. */
  function DirectedOnly(ds: seq<Trend>): seq<Trend> {
    if ds == [] then [] else
      var last := ds[|ds| - 1];
      DirectedOnly(ds[..|ds| - 1]) + if last == Neutral then [] else [last]
  }

  ghost predicate EndsWith(ds: seq<Trend>, d: Trend, n: int) {
    n <= |ds| && forall i | |ds| - n <= i < |ds| && 0 <= i :: ds[i] == d
  }

  /** The streak is exactly how long the directed bricks have all gone the last one's way. */
  lemma {:induction false} StreakCounts(length: int, ds: seq<Trend>)
    ensures var s := TrendRun(length, ds).0;
            var directed := DirectedOnly(ds);
            && s.length == length && 0 <= s.streak <= |directed|
            && (directed == [] <==> s.lastDirection.None?) && (directed == [] <==> s.streak == 0)
            && (directed != [] ==>
                  && s.lastDirection == Some(directed[|directed| - 1])
                  && EndsWith(directed, directed[|directed| - 1], s.streak)
                  && (s.streak < |directed| ==> directed[|directed| - 1 - s.streak] != directed[|directed| - 1]))
  {
    if ds != [] {
      StreakCounts(length, ds[..|ds| - 1]);
    }
  }

  /** It enters exactly when it is flat and at least `length` directed bricks in a row went one way, that
      way, and leaves exactly at the first brick against its position. */
  lemma {:induction false} EntersAfterATrend(length: int, ds: seq<Trend>, d: Trend)
    requires length > 0
    ensures var s := TrendRun(length, ds).0;
            var answer := TrendAnswer(s, d).1;
            && (answer == BuySignal <==> s.stance == Flat && d == Up && EndsWith(DirectedOnly(ds + [d]), Up, length))
            && (answer == SellSignal <==> s.stance == Flat && d == Down && EndsWith(DirectedOnly(ds + [d]), Down, length))
            && (answer == ExitSignal <==> (s.stance == Long && d == Down) || (s.stance == Short && d == Up))
  {
    var s := TrendRun(length, ds).0;
    var all := ds + [d];
    assert all[..|all| - 1] == ds;
    StreakCounts(length, ds);
    StreakCounts(length, all);
    assert TrendRun(length, all).0 == TrendAnswer(s, d).0;
    if d != Neutral {
      var directed := DirectedOnly(all);
      var streak := TrendRun(length, all).0.streak;
      if streak < |directed| {
        assert directed[|directed| - 1 - streak] != d;
      }
    }
  }

  // ---- EMA crossover -----------------------------------------------------------------

  datatype EmaState = EmaState(period: int, ema: Option<real>, seed: seq<real>)

  function SeedSum(xs: seq<real>): real {
    if xs == [] then 0.0 else SeedSum(xs[..|xs| - 1]) + xs[|xs| - 1]
  }

  function SeedMean(xs: seq<real>, n: int): real
    requires n >= 1
  {
    SeedSum(xs) / Real(n)
  }

  function Advance(ema: real, x: real, period: int): real
    requires period >= 1
  {
    var alpha := 2.0 / Real(period + 1);
    alpha * x + (1.0 - alpha) * ema
  }

  /** Seeded with the mean of the first `period` values, then the exponential recurrence. */
  function EmaUpdate(e: EmaState, x: real): EmaState
    requires e.period >= 1
  {
    match e.ema
    case None =>
      var seed := e.seed + [x];
      e.(seed := seed, ema := if |seed| == e.period then Some(SeedMean(seed, e.period)) else None)
    case Some(before) => e.(ema := Some(Advance(before, x, e.period)))
  }

  datatype CrossState = CrossState(ema: EmaState, stance: Stance)

  function CrossAnswer(s: CrossState, close: real): (CrossState, Signal)
    requires s.ema.period >= 1
  {
    var ema := EmaUpdate(s.ema, close);
    if ema.ema.None? then (s.(ema := ema), HoldSignal)
    else
      var (stance, signal) := Decide(s.stance, close, ema.ema.value, ema.ema.value);
      (CrossState(ema, stance), signal)
  }

  /** The EMA trend strategy is this one too: it does the same with every brick or bar it sees. */
  class EmaCrossoverStrategy {
    const period: int
    var ema: Option<real>
    var seed: seq<real>
    var stance: Stance

    function View(): CrossState
      reads this
    {
      CrossState(EmaState(period, ema, seed), stance)
    }

    constructor (period: int)
      requires period > 0
      ensures View() == CrossState(EmaState(period, None, []), Flat)
    {
      this.period, ema, seed, stance := period, None, [], Flat;
    }

    method OnBrick(close: real) returns (signal: Signal)
      requires period >= 1
      modifies this
      ensures (View(), signal) == CrossAnswer(old(View()), close)
      ensures Answers(old(stance), signal, stance)
    {
      hide SeedMean, Advance;
      if ema.None? {
        seed := seed + [close];
        if |seed| == period {
          ema := Some(SeedMean(seed, period));
        }
      } else {
        ema := Some(Advance(ema.value, close, period));
      }
      signal := HoldSignal;
      if ema.None? {
        return;
      }
      if close > ema.value {
        if stance == Short {
          stance, signal := Flat, ExitSignal;
        } else if stance == Flat {
          stance, signal := Long, BuySignal;
        }
      } else if close < ema.value {
        if stance == Long {
          stance, signal := Flat, ExitSignal;
        } else if stance == Flat {
          stance, signal := Short, SellSignal;
        }
      }
    }
  }

  // ---- these strategies are disciplined ----------------------------------------------------

  /** The stances and signals of a strategy over a run. */
  datatype Trace = Trace(stances: seq<Stance>, signals: seq<Signal>)

  function TrendTrace(length: int, ds: seq<Trend>): Trace {
    if ds == [] then Trace([Flat], [])
    else
      var before := TrendTrace(length, ds[..|ds| - 1]);
      var s := TrendRun(length, ds[..|ds| - 1]).0;
      var (s', signal) := TrendAnswer(s, ds[|ds| - 1]);
      Trace(before.stances + [s'.stance], before.signals + [signal])
  }

  lemma {:induction false} TrendIsDisciplined(length: int, ds: seq<Trend>)
    ensures var t := TrendTrace(length, ds);
            && Disciplined(t.stances, t.signals) && |t.signals| == |ds|
            && t.stances[|ds|] == TrendRun(length, ds).0.stance
            && t.signals == TrendRun(length, ds).1
  {
    if ds != [] {
      TrendIsDisciplined(length, ds[..|ds| - 1]);
    }
  }

  function CrossRun(period: int, closes: seq<real>): (r: CrossState)
    requires period >= 1
    ensures r.ema.period == period
  {
    if closes == [] then CrossState(EmaState(period, None, []), Flat)
    else CrossAnswer(CrossRun(period, closes[..|closes| - 1]), closes[|closes| - 1]).0
  }

  function CrossTrace(period: int, closes: seq<real>): Trace
    requires period >= 1
  {
    if closes == [] then Trace([Flat], [])
    else
      var before := CrossTrace(period, closes[..|closes| - 1]);
      var (s', signal) := CrossAnswer(CrossRun(period, closes[..|closes| - 1]), closes[|closes| - 1]);
      Trace(before.stances + [s'.stance], before.signals + [signal])
  }

  lemma {:induction false} CrossIsDisciplined(period: int, closes: seq<real>)
    requires period >= 1
    ensures var t := CrossTrace(period, closes);
            && Disciplined(t.stances, t.signals) && |t.signals| == |closes|
            && t.stances[|closes|] == CrossRun(period, closes).stance
  {
    hide EmaUpdate;
    if closes != [] {
      CrossIsDisciplined(period, closes[..|closes| - 1]);
    }
  }

  /** What an EMA strategy answers to one more close, and by which average: it buys or sells from flat when
      the close is above or below it, and leaves a position when it is on the other side. */
  lemma {:induction false} CrossesItsAverage(period: int, closes: seq<real>, close: real)
    requires period >= 1
    ensures var s := CrossRun(period, closes);
            var answer := CrossAnswer(s, close).1;
            var ema := CrossRun(period, closes + [close]).ema.ema;
            && (answer == BuySignal <==> ema.Some? && s.stance == Flat && close > ema.value)
            && (answer == SellSignal <==> ema.Some? && s.stance == Flat && close < ema.value)
            && (answer == ExitSignal <==>
                  ema.Some? && ((s.stance == Long && close < ema.value) || (s.stance == Short && close > ema.value)))
  {
    hide EmaUpdate;
    assert (closes + [close])[..|closes|] == closes;
  }

  /** Once there, the average moves by two parts in `period` and one more towards each close. */
  lemma {:induction false} EmaFollows(period: int, closes: seq<real>, close: real)
    requires period >= 1 && |closes| >= period
    ensures CrossRun(period, closes).ema.ema.Some? && CrossRun(period, closes + [close]).ema.ema.Some?
    ensures CrossRun(period, closes + [close]).ema.ema.value * Real(period + 1)
            == 2.0 * close + CrossRun(period, closes).ema.ema.value * Real(period - 1)
  {
    hide Advance, CrossAnswer;
    EmaWaits(period, closes);
    assert (closes + [close])[..|closes|] == closes;
    AnswerUpdates(CrossRun(period, closes), close);
    AdvanceParts(CrossRun(period, closes).ema.ema.value, close, period);
  }

  lemma AnswerUpdates(s: CrossState, close: real)
    requires s.ema.period >= 1
    ensures CrossAnswer(s, close).0.ema == EmaUpdate(s.ema, close)
  {
    hide EmaUpdate;
  }

  lemma AdvanceParts(ema: real, x: real, period: int)
    requires period >= 1
    ensures Advance(ema, x, period) * Real(period + 1) == 2.0 * x + ema * Real(period - 1)
  {
    var w := Real(period + 1);
    var alpha := 2.0 / w;
    assert alpha * w == 2.0 && (1.0 - alpha) * w == w - 2.0;
    Regrouped(alpha, x, w);
    Regrouped(1.0 - alpha, ema, w);
    assert (alpha * x + (1.0 - alpha) * ema) * w == alpha * x * w + (1.0 - alpha) * ema * w;
  }

  lemma Regrouped(a: real, b: real, c: real)
    ensures a * b * c == b * (a * c)
  {
  }

  lemma {:induction false} SeedSumIs(xs: seq<real>, sums: seq<real>)
    requires |sums| == |xs| + 1 && sums[0] == 0.0
    requires forall i | 0 <= i < |xs| :: sums[i + 1] == sums[i] + xs[i]
    ensures SeedSum(xs) == sums[|xs|]
  {
    if xs != [] {
      SeedSumIs(xs[..|xs| - 1], sums[..|xs|]);
    }
  }

  lemma {:induction false} EmaWaits(period: int, closes: seq<real>)
    requires period >= 1
    ensures var e := CrossRun(period, closes).ema;
            && (e.ema.Some? <==> |closes| >= period)
            && (|closes| <= period ==> e.seed == closes)
            && (|closes| == period ==> e.ema == Some(SeedMean(closes, period)))
  {
    hide SeedMean, Advance;
    if closes != [] {
      EmaWaits(period, closes[..|closes| - 1]);
      assert closes == closes[..|closes| - 1] + [closes[|closes| - 1]];
    }
  }

  /** The average waits for exactly `period` closes, and its seed is their mean: with their running sums
      at hand, `period` times the first average is the last of them. */
  lemma {:induction false} EmaIsSeeded(period: int, closes: seq<real>, sums: seq<real>)
    requires period >= 1
    requires |sums| == |closes| + 1 && sums[0] == 0.0
    requires forall i | 0 <= i < |closes| :: sums[i + 1] == sums[i] + closes[i]
    ensures var e := CrossRun(period, closes).ema;
            && (e.ema.Some? <==> |closes| >= period)
            && (|closes| <= period ==> e.seed == closes)
            && (|closes| == period ==> e.ema.value * Real(period) == sums[period])
  {
    hide CrossRun;
    EmaWaits(period, closes);
    SeedSumIs(closes, sums);
  }
}
