/** The analytics services over an equity curve: drawdown points and compounded returns. */
module AnalyticsSeries {
  import opened Common
  import opened Ledger

  datatype DrawdownPoint = DrawdownPoint(timestamp: int, drawdown: real, peak: real, current: real, peakTimestamp: int)

  /** The point's own validation. */
  predicate Accepted(p: DrawdownPoint) {
    p.drawdown <= 0.0 && p.peakTimestamp <= p.timestamp && p.current <= p.peak
  }

  /** Where the running peak of the first n values stands. */
  function PeakAt(c: seq<EquityPoint>, n: nat): (k: nat)
    requires 1 <= n <= |c|
    ensures k < n
  {
    if n == 1 then 0
    else
      var k := PeakAt(c, n - 1);
      if c[n - 1].equity > c[k].equity then n - 1 else k
  }

  /** It is where the highest of them was first reached, and nothing else is. */
  lemma {:induction false} PeakIsFirstMaximum(c: seq<EquityPoint>, n: nat, k: nat)
    requires 1 <= n <= |c| && k < n
    ensures k == PeakAt(c, n) <==> && (forall i | 0 <= i < n :: c[i].equity <= c[k].equity)
                                   && (forall i | 0 <= i < k :: c[i].equity < c[k].equity)
  {
    PeakIsHighest(c, n);
    var at := PeakAt(c, n);
    if (forall i | 0 <= i < n :: c[i].equity <= c[k].equity) && (forall i | 0 <= i < k :: c[i].equity < c[k].equity) {
      assert c[k].equity == c[at].equity;
    }
  }

  lemma {:induction false} PeakIsHighest(c: seq<EquityPoint>, n: nat)
    requires 1 <= n <= |c|
    ensures forall i | 0 <= i < n :: c[i].equity <= c[PeakAt(c, n)].equity
    ensures forall i | 0 <= i < PeakAt(c, n) :: c[i].equity < c[PeakAt(c, n)].equity
  {
    if n > 1 {
      PeakIsHighest(c, n - 1);
    }
  }

  function PointFor(at: EquityPoint, peak: EquityPoint): DrawdownPoint {
    DrawdownPoint(at.timestamp, Ratio(at.equity - peak.equity, peak.equity), peak.equity, at.equity, peak.timestamp)
  }

  function PointAt(c: seq<EquityPoint>, i: nat): DrawdownPoint
    requires i < |c|
  {
    PointFor(c[i], c[PeakAt(c, i + 1)])
  }

  /** The drawdown curve, each point measured from the running peak; None where building a point
      raises, which is where a point fails its own validation. */
  method DrawdownCurve(c: seq<EquityPoint>) returns (points: Option<seq<DrawdownPoint>>)
    ensures points.Some? <==> forall i | 0 <= i < |c| :: Accepted(PointAt(c, i))
    ensures points.Some? ==> |points.value| == |c| && forall i | 0 <= i < |c| :: points.value[i] == PointAt(c, i)
  {
    hide Accepted;
    if c == [] {
      return Some([]);
    }
    var peak := c[0];
    var made: seq<DrawdownPoint> := [];
    var n := 0;
    while n < |c|
      invariant 0 <= n <= |c| && |made| == n
      invariant peak == if n == 0 then c[0] else c[PeakAt(c, n)]
      invariant forall i | 0 <= i < n :: made[i] == PointAt(c, i) && Accepted(PointAt(c, i))
    {
      if c[n].equity > peak.equity {
        peak := c[n];
      }
      var drawdown := if peak.equity == 0.0 then 0.0 else (c[n].equity - peak.equity) / peak.equity;
      var point := DrawdownPoint(c[n].timestamp, drawdown, peak.equity, c[n].equity, peak.timestamp);
      assert point == PointAt(c, n);
      if !Accepted(point) {
        return None;
      }
      made := made + [point];
      n := n + 1;
    }
    points := Some(made);
  }

  predicate Ordered(c: seq<EquityPoint>) {
    forall i, j | 0 <= i < j < |c| :: c[i].timestamp <= c[j].timestamp
  }

  /** The k-th value is the first to be highest of those up to the i-th. */
  predicate IsFirstPeak(c: seq<EquityPoint>, i: int, k: int) {
    0 <= k <= i < |c| && (forall m | 0 <= m <= i :: c[m].equity <= c[k].equity) && forall m | 0 <= m < k :: c[m].equity < c[k].equity
  }

  /** No point is dated before the peak it is measured from. */
  ghost predicate PeaksPrecede(c: seq<EquityPoint>) {
    forall i, k | IsFirstPeak(c, i, k) :: c[k].timestamp <= c[i].timestamp
  }

  lemma OrderedPeaksPrecede(c: seq<EquityPoint>)
    requires Ordered(c)
    ensures PeaksPrecede(c)
  {
  }

  /** While equity has been negative from the start, it does not fall. */
  predicate NegativeStartRises(c: seq<EquityPoint>) {
    forall i, j | 0 <= i < j < |c| && (forall m | 0 <= m <= j :: c[m].equity < 0.0) :: c[i].equity <= c[j].equity
  }

  lemma AcceptedIff(at: EquityPoint, peak: EquityPoint)
    requires at.equity <= peak.equity
    ensures Accepted(PointFor(at, peak)) <==>
            peak.timestamp <= at.timestamp && (peak.equity >= 0.0 || at.equity == peak.equity)
  {
    var d, p := at.equity - peak.equity, peak.equity;
    if p != 0.0 {
      var q := d / p;
      assert q * p == d;
      if p > 0.0 && q > 0.0 { MulStrict(0.0, q, p); }
      if p < 0.0 && q <= 0.0 { MulMonotone(q, 0.0, -p); }
    }
  }

  /** A point is refused exactly when it is dated before its peak, or lies below a negative one. */
  lemma PointIsAcceptedIff(c: seq<EquityPoint>, i: nat)
    requires i < |c|
    ensures Accepted(PointAt(c, i))
            <==> && PointAt(c, i).peakTimestamp <= c[i].timestamp
                 && ((forall m | 0 <= m <= i :: c[m].equity < 0.0) ==> forall m | 0 <= m <= i :: c[m].equity <= c[i].equity)
  {
    hide Ratio, Accepted, PeakAt;
    var k := PeakAt(c, i + 1);
    PeakIsHighest(c, i + 1);
    AcceptedIff(c[i], c[k]);
    if c[k].equity >= 0.0 {
      assert !forall m | 0 <= m <= i :: c[m].equity < 0.0;
    }
  }

  lemma PeaksPrecedeIff(c: seq<EquityPoint>)
    ensures PeaksPrecede(c) <==> forall i | 0 <= i < |c| :: PointAt(c, i).peakTimestamp <= c[i].timestamp
  {
    hide PeakAt;
    if PeaksPrecede(c) {
      forall i | 0 <= i < |c| ensures PointAt(c, i).peakTimestamp <= c[i].timestamp {
        PeakIsFirstMaximum(c, i + 1, PeakAt(c, i + 1));
        assert IsFirstPeak(c, i, PeakAt(c, i + 1));
      }
    }
    if forall i | 0 <= i < |c| :: PointAt(c, i).peakTimestamp <= c[i].timestamp {
      forall i, k | IsFirstPeak(c, i, k) ensures c[k].timestamp <= c[i].timestamp {
        PeakIsFirstMaximum(c, i + 1, k);
      }
    }
  }

  /** The service succeeds exactly when no point is dated before its peak, as none is on a curve in order of
      time, and equity that has been negative from the start never falls: below a negative peak the relative
      drawdown is positive, which the point's validation refuses. */
  lemma DrawdownCurveExistsIff(c: seq<EquityPoint>)
    ensures (forall i | 0 <= i < |c| :: Accepted(PointAt(c, i))) <==> NegativeStartRises(c) && PeaksPrecede(c)
    ensures Ordered(c) ==> PeaksPrecede(c)
  {
    hide PointAt, Accepted, PeaksPrecede, PeakAt, Ordered;
    PeaksPrecedeIff(c);
    if Ordered(c) {
      OrderedPeaksPrecede(c);
    }
    forall i | 0 <= i < |c|
      ensures Accepted(PointAt(c, i))
              <==> && PointAt(c, i).peakTimestamp <= c[i].timestamp
                   && ((forall m | 0 <= m <= i :: c[m].equity < 0.0) ==> forall m | 0 <= m <= i :: c[m].equity <= c[i].equity)
    {
      PointIsAcceptedIff(c, i);
    }
    if forall i | 0 <= i < |c| :: Accepted(PointAt(c, i)) {
      forall i, j | 0 <= i < j < |c| && (forall m | 0 <= m <= j :: c[m].equity < 0.0) ensures c[i].equity <= c[j].equity {
        assert Accepted(PointAt(c, j));
      }
    }
  }

  /** A curve from -100 to -200 has no drawdown series. */
  lemma FallingDebtIsRefused()
    ensures var c := [EquityPoint(0, -100.0), EquityPoint(1, -200.0)];
            Ordered(c) && PointAt(c, 1).drawdown == 1.0 && !Accepted(PointAt(c, 1))
  {
    var c := [EquityPoint(0, -100.0), EquityPoint(1, -200.0)];
    assert PeakAt(c, 2) == PeakAt(c, 1);
  }

  /** A point of a positive curve lies less than the whole peak below it, and on the peak exactly
      when its drawdown is zero. */
  lemma DrawdownIsAFraction(c: seq<EquityPoint>, i: nat)
    requires i < |c| && forall m | 0 <= m <= i :: c[m].equity > 0.0
    ensures var p := PointAt(c, i);
            -1.0 < p.drawdown <= 0.0 && (p.drawdown == 0.0 <==> p.current == p.peak)
  {
    var k := PeakAt(c, i + 1);
    PeakIsHighest(c, i + 1);
    Fraction(c[i].equity - c[k].equity, c[k].equity);
  }

  lemma Fraction(d: real, peak: real)
    requires peak > 0.0 && -peak < d <= 0.0
    ensures -1.0 < d / peak <= 0.0 && (d / peak == 0.0 <==> d == 0.0)
  {
    var q := d / peak;
    assert q * peak == d;
    if q <= -1.0 { MulMonotone(q, -1.0, peak); }
    if q > 0.0 { MulStrict(0.0, q, peak); }
  }

  // ---- returns ------------------------------------------------------------------------

  /** Periodic returns; zero where the previous value is zero. */
  function ReturnOf(previous: real, current: real): real {
    Ratio(current - previous, previous)
  }

  method ReturnSeries(c: seq<real>) returns (rates: seq<real>)
    ensures |rates| == if c == [] then 0 else |c| - 1
    ensures forall i | 0 <= i < |rates| :: rates[i] == ReturnOf(c[i], c[i + 1])
  {
    rates := [];
    if c == [] {
      return;
    }
    var i := 1;
    while i < |c|
      invariant 1 <= i <= |c| && |rates| == i - 1
      invariant forall k | 0 <= k < |rates| :: rates[k] == ReturnOf(c[k], c[k + 1])
    {
      if c[i - 1] == 0.0 {
        rates := rates + [0.0];
      } else {
        rates := rates + [(c[i] - c[i - 1]) / c[i - 1]];
      }
      i := i + 1;
    }
  }

  function Grown(level: real, rate: real): real {
    level * (1.0 + rate)
  }

  function Compounded(rates: seq<real>): real {
    if rates == [] then 1.0 else Grown(Compounded(rates[..|rates| - 1]), rates[|rates| - 1])
  }

  method Cumulative(rates: seq<real>) returns (total: real)
    ensures total == Compounded(rates) - 1.0
  {
    var level := 1.0;
    var i := 0;
    while i < |rates|
      invariant 0 <= i <= |rates| && level == Compounded(rates[..i])
    {
      assert rates[..i + 1][..i] == rates[..i];
      level := Grown(level, rates[i]);
      i := i + 1;
    }
    assert rates[..i] == rates;
    total := level - 1.0;
  }

  predicate AreReturns(c: seq<real>, rates: seq<real>) {
    |rates| + 1 == |c| && forall i | 0 <= i < |rates| :: rates[i] == ReturnOf(c[i], c[i + 1])
  }

  lemma GrowthStep(first: real, previous: real, current: real, level: real)
    requires first != 0.0 && previous != 0.0 && level * first == previous
    ensures Grown(level, ReturnOf(previous, current)) * first == current
  {
    var rate := ReturnOf(previous, current);
    assert rate * previous == current - previous;
    assert Grown(level, rate) * first == (level * first) * (1.0 + rate);
    assert previous * (1.0 + rate) == previous + rate * previous;
  }

  /** Compounding carries the first value to the last as long as no value before it is zero; once
      a value is zero the compounded level stays at zero. */
  lemma {:induction false} CompoundingCarries(c: seq<real>, rates: seq<real>)
    requires AreReturns(c, rates) && c[0] != 0.0
    ensures if forall i | 0 <= i < |rates| :: c[i] != 0.0 then Compounded(rates) * c[0] == c[|rates|]
            else Compounded(rates) == 0.0
  {
    if rates != [] {
      var n := |rates| - 1;
      CompoundingCarries(c[..n + 1], rates[..n]);
      assert forall i | 0 <= i < n :: c[..n + 1][i] == c[i];
      if forall i | 0 <= i < n :: c[i] != 0.0 {
        if c[n] != 0.0 {
          GrowthStep(c[0], c[n], c[n + 1], Compounded(rates[..n]));
        } else {
          ZeroLevel(Compounded(rates[..n]), c[0]);
        }
      } else {
        assert Grown(0.0, rates[n]) == 0.0;
      }
    }
  }

  lemma ZeroLevel(level: real, first: real)
    requires first != 0.0 && level * first == 0.0
    ensures level == 0.0 && forall rate :: Grown(level, rate) == 0.0
  {
    if level > 0.0 && first > 0.0 { MulStrict(0.0, level, first); }
    if level < 0.0 && first > 0.0 { MulStrict(level, 0.0, first); }
    if level > 0.0 && first < 0.0 { MulStrict(0.0, level, -first); }
    if level < 0.0 && first < 0.0 { MulStrict(level, 0.0, -first); }
  }

  /** The compounded return is the return from the first value to the last exactly when no value
      in between is zero, or the last one is: after a zero the series has forgotten its level. */
  lemma {:induction false} CumulativeIsTotalReturnIff(c: seq<real>, rates: seq<real>)
    requires AreReturns(c, rates) && c[0] != 0.0
    ensures Compounded(rates) - 1.0 == ReturnOf(c[0], c[|c| - 1])
            <==> c[|c| - 1] == 0.0 || forall i | 0 <= i < |rates| :: c[i] != 0.0
  {
    hide Compounded;
    CompoundingCarries(c, rates);
    var total, last := Compounded(rates), c[|c| - 1];
    var r := ReturnOf(c[0], last);
    assert r * c[0] == last - c[0];
    if total - 1.0 == r {
      assert total * c[0] == last;
    }
    if total * c[0] == last {
      SameQuotient(total - 1.0, r, c[0]);
    }
  }

  /** From 100 by way of 0 to 50 the series ends at a loss of everything, not of half. */
  lemma {:induction false} ZeroForgetsTheLevel()
    ensures var c, rates := [100.0, 0.0, 50.0], [-1.0, 0.0];
            AreReturns(c, rates) && Compounded(rates) - 1.0 == -1.0 && ReturnOf(c[0], c[2]) == -0.5
  {
    var c, rates := [100.0, 0.0, 50.0], [-1.0, 0.0];
    assert ReturnOf(100.0, 0.0) == -1.0 && ReturnOf(0.0, 50.0) == 0.0;
    CompoundingCarries(c, rates);
  }

  lemma SameQuotient(x: real, y: real, d: real)
    requires d != 0.0 && x * d == y * d
    ensures x == y
  {
    ZeroLevel(x - y, d);
  }
}
