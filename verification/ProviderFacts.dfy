/** What the sizes of a whole candle run are: averages of true ranges, and never
    non-positive except where the input is exactly flat. */
module ProviderFacts {
  import opened Common
  import opened RenkoModels
  import opened RegimeClassifier
  import opened RenkoProviders

  /** A run of candles; one that the provider refuses leaves it as it was. */
  function Feed(p: Provider, cs: seq<Candle>): (r: Provider)
    requires p.Valid()
    ensures r.Valid() && r.Reset() == p.Reset()
  {
    if cs == [] then p
    else
      var before := Feed(p, cs[..|cs| - 1]);
      var next := before.Update(cs[|cs| - 1]);
      if next.Some? then UpdateKeepsParameters(before, cs[|cs| - 1]); next.value else before
  }

  /** The prices of the candles that have any. */
  function Accepted(cs: seq<Candle>): seq<Prices> {
    if cs == [] then [] else
      var p := CandlePrices(cs[|cs| - 1]);
      Accepted(cs[..|cs| - 1]) + if p.Some? then [p.value] else []
  }

  predicate Sane(ps: seq<Prices>) {
    forall i | 0 <= i < |ps| :: ps[i].high >= ps[i].low
  }

  function LastClose(ps: seq<Prices>): Option<real> {
    if ps == [] then None else Some(ps[|ps| - 1].close)
  }

  /** The true range of every candle, each against the close before it. */
  function Ranges(ps: seq<Prices>): (r: seq<real>)
    ensures |r| == |ps|
  {
    if ps == [] then [] else
      var before := ps[..|ps| - 1];
      Ranges(before) + [TrueRange(ps[|ps| - 1], LastClose(before))]
  }

  /** A range is zero exactly for a flat candle that stays at the previous close. */
  lemma TrueRangeZero(p: Prices, prev: Option<real>)
    requires p.high >= p.low
    ensures TrueRange(p, prev) >= 0.0
    ensures TrueRange(p, prev) == 0.0 <==> p.high == p.low && (prev.Some? ==> prev.value == p.high)
  {
  }

  /** The range of a candle and the close before it together. */
  lemma TrueRangeSpans(p: Prices, prev: real)
    requires p.high >= p.low
    ensures TrueRange(p, Some(prev)) == Max(p.high, prev) - Min(p.low, prev)
    ensures TrueRange(p, None) == p.high - p.low
  {
  }

  lemma {:induction false} RangesAreNonNegative(ps: seq<Prices>)
    requires Sane(ps)
    ensures forall i | 0 <= i < |ps| :: Ranges(ps)[i] >= 0.0
  {
    if ps != [] {
      var n := |ps| - 1;
      RangesAreNonNegative(ps[..n]);
      TrueRangeZero(ps[n], LastClose(ps[..n]));
    }
  }

  // ---- ATR ---------------------------------------------------------------------

  function Sum(xs: seq<real>): real {
    if xs == [] then 0.0 else Sum(xs[..|xs| - 1]) + xs[|xs| - 1]
  }

  function AbsorbAll(s: AtrState, trs: seq<real>): (r: AtrState)
    requires s.period >= 1
    ensures r.period == s.period && r.multiplier == s.multiplier && r.prevClose == s.prevClose
  {
    if trs == [] then s else AtrAbsorb(AbsorbAll(s, trs[..|trs| - 1]), trs[|trs| - 1])
  }

  ghost predicate Within(trs: seq<real>, lo: real, hi: real) {
    forall i | 0 <= i < |trs| :: lo <= trs[i] <= hi
  }

  lemma {:induction false} SumWithin(trs: seq<real>, lo: real, hi: real)
    requires Within(trs, lo, hi)
    ensures lo * Real(|trs|) <= Sum(trs) <= hi * Real(|trs|)
  {
    if trs != [] {
      var n := |trs| - 1;
      SumWithin(trs[..n], lo, hi);
      assert lo * Real(n + 1) == lo * Real(n) + lo;
      assert hi * Real(n + 1) == hi * Real(n) + hi;
    }
  }

  /** A weighted mean of two values in a range stays in the range. */
  lemma WeightedMean(a: real, b: real, k: int, lo: real, hi: real)
    requires k >= 1 && lo <= a <= hi && lo <= b <= hi
    ensures lo <= Wilder(a, b, k) <= hi
  {
    var w := Real(k - 1);
    var total := a * w + b;
    MulMonotone(lo, a, w);
    MulMonotone(a, hi, w);
    OneMore(lo, k);
    OneMore(hi, k);
    assert lo * w + lo <= total <= hi * w + hi;
    DivideWithin(total, Real(k), lo, hi);
  }

  lemma OneMore(x: real, k: int)
    ensures x * Real(k) == x * Real(k - 1) + x
  {
    assert Real(k) == Real(k - 1) + 1.0;
  }

  lemma DivideWithin(total: real, k: real, lo: real, hi: real)
    requires k > 0.0 && lo * k <= total <= hi * k
    ensures lo <= total / k <= hi
  {
    var q := total / k;
    assert q * k == total;
    if q < lo { MulStrict(q, lo, k); }
    if q > hi { MulStrict(hi, q, k); }
  }

  lemma AbsorbSmooths(s: AtrState, tr: real, lo: real, hi: real)
    requires s.period >= 1 && s.atr.Some? && lo <= s.atr.value <= hi && lo <= tr <= hi
    ensures AtrAbsorb(s, tr).atr.Some? && lo <= AtrAbsorb(s, tr).atr.value <= hi
  {
    WeightedMean(s.atr.value, tr, s.period, lo, hi);
  }

  /** Warm-up: no value until `period` ranges are in, and then their mean. */
  lemma {:induction false} AtrWarmsUp(s: AtrState, trs: seq<real>)
    requires s.Valid() && s.Reset() == s
    ensures var r := AbsorbAll(s, trs);
            && (r.atr.Some? <==> |trs| >= s.period)
            && (|trs| <= s.period ==> r.count == |trs| && r.warmupSum == Sum(trs))
            && (|trs| == s.period ==> r.atr == Some(Average(Sum(trs), s.period)))
  {
    if trs != [] {
      AtrWarmsUp(s, trs[..|trs| - 1]);
    }
  }

  lemma {:induction false} FirstAverage(s: AtrState, trs: seq<real>, lo: real, hi: real)
    requires s.Valid() && s.Reset() == s && Within(trs, lo, hi) && |trs| == s.period
    ensures AbsorbAll(s, trs).atr.Some? && lo <= AbsorbAll(s, trs).atr.value <= hi
  {
    AtrWarmsUp(s, trs);
    SumWithin(trs, lo, hi);
    DivideWithin(Sum(trs), Real(s.period), lo, hi);
  }

  /** Ever after it is a value between the smallest and the largest range seen. */
  lemma {:induction false} AtrIsAnAverage(s: AtrState, trs: seq<real>, lo: real, hi: real)
    requires s.Valid() && s.Reset() == s && Within(trs, lo, hi)
    requires |trs| >= s.period
    ensures AbsorbAll(s, trs).atr.Some? && lo <= AbsorbAll(s, trs).atr.value <= hi
  {
    var n := |trs| - 1;
    if n + 1 == s.period {
      FirstAverage(s, trs, lo, hi);
    } else {
      AtrIsAnAverage(s, trs[..n], lo, hi);
      AbsorbSmooths(AbsorbAll(s, trs[..n]), trs[n], lo, hi);
    }
  }

  lemma AverageScaled(sum: real, n: int, m: real)
    requires n >= 1
    ensures Average(sum, n) * m * Real(n) == sum * m
  {
    Reordered(Average(sum, n), m, Real(n));
  }

  lemma WilderScaled(level: real, tr: real, n: int, m: real)
    requires n >= 1
    ensures Wilder(level, tr, n) * m * Real(n) == level * m * Real(n - 1) + tr * m
  {
    var total := level * Real(n - 1) + tr;
    assert Wilder(level, tr, n) * Real(n) == total;
    Reordered(Wilder(level, tr, n), m, Real(n));
    Reordered(level, m, Real(n - 1));
    assert m * total == m * (level * Real(n - 1)) + m * tr;
  }

  lemma Reordered(a: real, b: real, c: real)
    ensures a * b * c == b * (a * c)
  {
  }

  lemma SizeOfAtr(s: AtrState)
    ensures ByAtr(s).Size() == if s.atr.None? then None else Some(s.atr.value * s.multiplier)
  {
  }

  /** The size of an ATR provider after a run: there once `period` ranges are in, then the multiplier
      times their mean. */
  lemma {:induction false} AtrSizeBegins(s: AtrState, cs: seq<Candle>)
    requires s.Valid() && s.Reset() == s
    ensures var trs, size := Ranges(Accepted(cs)), Feed(ByAtr(s), cs).Size();
            && (size.Some? <==> |trs| >= s.period)
            && (|trs| == s.period ==> size.value * Real(s.period) == Sum(trs) * s.multiplier)
  {
    hide Feed, AbsorbAll, Sum, Average, Provider.Size, Provider.Reset, Accepted, AtrState.Reset, Ranges;
    var trs := Ranges(Accepted(cs));
    AtrOfRun(s, cs);
    AtrWarmsUp(s, trs);
    SizeOfAtr(AbsorbAll(s, trs).(prevClose := LastClose(Accepted(cs))));
    AverageScaled(Sum(trs), s.period, s.multiplier);
  }

  lemma NextRange(cs: seq<Candle>, c: Candle, p: Prices)
    requires CandlePrices(c) == Some(p)
    ensures Accepted(cs + [c]) == Accepted(cs) + [p]
    ensures Ranges(Accepted(cs + [c])) == Ranges(Accepted(cs)) + [TrueRange(p, LastClose(Accepted(cs)))]
  {
    hide TrueRange, CandlePrices;
    assert (cs + [c])[..|cs|] == cs;
    RangesNext(Accepted(cs), p);
  }

  /** And from then on every candle moves it by one part in `period` towards the multiplier times the
      widest of the candle's own range and its distances from the close before. */
  lemma {:induction false} AtrSizeFollows(s: AtrState, cs: seq<Candle>, c: Candle, p: Prices)
    requires s.Valid() && s.Reset() == s && CandlePrices(c) == Some(p) && Feed(ByAtr(s), cs).Ready()
    ensures Accepted(cs) != [] && Feed(ByAtr(s), cs + [c]).Ready()
    ensures var close := Accepted(cs)[|Accepted(cs)| - 1].close;
            var widest := Max(Max(p.high - p.low, Abs(p.high - close)), Abs(p.low - close));
            Feed(ByAtr(s), cs + [c]).Size().value * Real(s.period)
            == Feed(ByAtr(s), cs).Size().value * Real(s.period - 1) + widest * s.multiplier
  {
    hide Feed, AbsorbAll, Sum, Average, Wilder, Provider.Size, Provider.Reset, Accepted, AtrState.Reset, Ranges, CandlePrices;
    var before := Accepted(cs);
    var trs := Ranges(before);
    AtrSizeBegins(s, cs);
    AtrOfRun(s, cs);
    AtrOfRun(s, cs + [c]);
    NextRange(cs, c, p);
    var tr := TrueRange(p, LastClose(before));
    AbsorbOne(s, trs, tr);
    var now := AbsorbAll(s, trs);
    SizeOfAtr(now.(prevClose := LastClose(before)));
    SizeOfAtr(AtrAbsorb(now, tr).(prevClose := LastClose(before + [p])));
    WilderScaled(now.atr.value, tr, s.period, s.multiplier);
  }

  function Power(x: real, n: nat): real {
    if n == 0 then 1.0 else x * Power(x, n - 1)
  }

  function Decay(period: int): real
    requires period >= 1
  {
    Real(period - 1) / Real(period)
  }

  function Shrink(period: int, d: real): real
    requires period >= 1
  {
    Decay(period) * d
  }

  /** One range moves two averages together by the decay factor. */
  lemma SmoothingContracts(s: AtrState, t: AtrState, tr: real)
    requires s.period >= 1 && t.period == s.period && s.atr.Some? && t.atr.Some?
    ensures AtrAbsorb(s, tr).atr.Some? && AtrAbsorb(t, tr).atr.Some?
    ensures AtrAbsorb(s, tr).atr.value - AtrAbsorb(t, tr).atr.value == Shrink(s.period, s.atr.value - t.atr.value)
  {
    var c, m := Real(s.period), Real(s.period - 1);
    var a, b := s.atr.value, t.atr.value;
    DivideDifference(a * m + tr, b * m + tr, c);
    assert (a * m + tr) - (b * m + tr) == m * (a - b);
    DivideProduct(m, a - b, c);
  }

  lemma DivideDifference(x: real, y: real, c: real)
    requires c > 0.0
    ensures x / c - y / c == (x - y) / c
  {
  }

  lemma DivideProduct(m: real, d: real, c: real)
    requires c > 0.0
    ensures m * d / c == m / c * d
  {
  }

  /** A difference after n steps of decay. */
  function Faded(period: int, d: real, n: nat): real
    requires period >= 1
  {
    if n == 0 then d else Shrink(period, Faded(period, d, n - 1))
  }

  /** Wilder's smoothing forgets: after k common ranges, two averages differ by their
      old difference times ((period - 1) / period)^k. */
  lemma {:induction false} AtrForgets(s: AtrState, t: AtrState, trs: seq<real>)
    requires s.period >= 1 && t.period == s.period && s.atr.Some? && t.atr.Some?
    ensures var s', t' := AbsorbAll(s, trs), AbsorbAll(t, trs);
            && s'.atr.Some? && t'.atr.Some?
            && s'.atr.value - t'.atr.value == Faded(s.period, s.atr.value - t.atr.value, |trs|)
  {
    if trs != [] {
      var n := |trs| - 1;
      AtrForgets(s, t, trs[..n]);
      SmoothingContracts(AbsorbAll(s, trs[..n]), AbsorbAll(t, trs[..n]), trs[n]);
    }
  }

  lemma {:induction false} FadedIsGeometric(period: int, d: real, n: nat)
    requires period >= 1
    ensures Faded(period, d, n) == Power(Decay(period), n) * d
  {
    if n > 0 {
      FadedIsGeometric(period, d, n - 1);
      PowerStep(Decay(period), n - 1, d);
    }
  }

  lemma PowerStep(w: real, n: nat, d: real)
    ensures w * (Power(w, n) * d) == Power(w, n + 1) * d
  {
  }

  predicate AllZero(trs: seq<real>) {
    forall i | 0 <= i < |trs| :: trs[i] == 0.0
  }

  /** The ranges that make an ATR size zero: all of them, or just the last one when the
      period is one and nothing is averaged. */
  predicate FlatFor(period: int, trs: seq<real>) {
    if period == 1 then trs != [] && trs[|trs| - 1] == 0.0 else AllZero(trs)
  }

  lemma {:induction false} SumZero(trs: seq<real>)
    requires forall i | 0 <= i < |trs| :: trs[i] >= 0.0
    ensures Sum(trs) >= 0.0
    ensures Sum(trs) == 0.0 <==> AllZero(trs)
  {
    if trs != [] {
      SumZero(trs[..|trs| - 1]);
    }
  }

  lemma {:induction false} FirstZero(s: AtrState, trs: seq<real>)
    requires s.Valid() && s.Reset() == s && |trs| == s.period
    requires forall i | 0 <= i < |trs| :: trs[i] >= 0.0
    ensures var r := AbsorbAll(s, trs);
            r.atr.Some? && r.atr.value >= 0.0 && (r.atr.value == 0.0 <==> AllZero(trs))
  {
    AtrWarmsUp(s, trs);
    SumZero(trs);
    QuotientZero(Sum(trs), Real(s.period));
  }

  /** A zero average means exactly flat input. */
  lemma {:induction false} AtrZeroIffFlat(s: AtrState, trs: seq<real>)
    requires s.Valid() && s.Reset() == s && |trs| >= s.period
    requires forall i | 0 <= i < |trs| :: trs[i] >= 0.0
    ensures var r := AbsorbAll(s, trs);
            r.atr.Some? && r.atr.value >= 0.0 && (r.atr.value == 0.0 <==> FlatFor(s.period, trs))
  {
    hide AtrAbsorb, AtrState.Reset;
    var n := |trs| - 1;
    if n + 1 == s.period {
      FirstZero(s, trs);
    } else {
      AtrZeroIffFlat(s, trs[..n]);
      AbsorbZero(AbsorbAll(s, trs[..n]), trs[n]);
      assert AllZero(trs) <==> AllZero(trs[..n]) && trs[n] == 0.0;
    }
  }

  lemma AbsorbZero(s: AtrState, tr: real)
    requires s.period >= 1 && s.atr.Some? && s.atr.value >= 0.0 && tr >= 0.0
    ensures AtrAbsorb(s, tr).atr.Some? && AtrAbsorb(s, tr).atr.value >= 0.0
    ensures AtrAbsorb(s, tr).atr.value == 0.0 <==> (s.period == 1 || s.atr.value == 0.0) && tr == 0.0
  {
    SmoothedZero(s.atr.value, tr, s.period);
  }

  lemma QuotientZero(x: real, k: real)
    requires x >= 0.0 && k > 0.0
    ensures x / k >= 0.0
    ensures x / k == 0.0 <==> x == 0.0
  {
    assert (x / k) * k == x;
    DivideWithin(x, k, 0.0, x / k);
  }

  lemma SmoothedZero(a: real, tr: real, k: int)
    requires a >= 0.0 && tr >= 0.0 && k >= 1
    ensures Wilder(a, tr, k) >= 0.0
    ensures Wilder(a, tr, k) == 0.0 <==> (k == 1 || a == 0.0) && tr == 0.0
  {
    var product := a * Real(k - 1);
    MulMonotone(0.0, a, Real(k - 1));
    if k > 1 && a > 0.0 {
      MulStrict(0.0, a, Real(k - 1));
    }
    QuotientZero(product + tr, Real(k));
  }

  // ---- percentage ------------------------------------------------------------------

  /** Every size a percentage provider emits is positive and at least the minimum. Against the exact
      percentage of the reference price it is exact without rounding, off by less than one with it, and
      above it only where the minimum is; it is there exactly for a positive price or with a minimum. */
  lemma PercentageSizeFacts(s: PercentageState, reference: real)
    requires s.Valid()
    ensures var exact := reference * s.percentage;
            var size := PercentageSize(s, reference);
            && (size.None? <==> reference <= 0.0 && s.minimum.None?)
            && (size.Some? ==>
                && size.value > 0.0
                && (s.minimum.Some? ==> size.value >= s.minimum.value)
                && (Abs(100.0 * size.value - exact) < 100.0 || size == s.minimum)
                && (s.rounding.NoRounding? ==>
                      100.0 * size.value == if s.minimum.Some? then Max(exact, 100.0 * s.minimum.value) else exact))
  {
    hide Share, ApplyRounding;
    var raw := Share(reference, s.percentage);
    ShareIsPercent(reference, s.percentage);
    SignOfShare(reference, s.percentage);
    RoundingIsNear(s.rounding, raw);
  }

  /** A candle gives the provider the size for its reference price; one whose price is not positive, where
      there is no minimum, leaves it the size it had. */
  lemma PercentageFollows(s: PercentageState, c: Candle)
    requires s.Valid() && CandlePrices(c).Some?
    ensures ByPercentage(s).Update(c).Some? && ByPercentage(s).Update(c).value.ByPercentage?
    ensures var reference := ReferenceOf(s.strategy, CandlePrices(c).value);
            var r := ByPercentage(s).Update(c).value.percentage;
            && r == s.(size := r.size)
            && if reference <= 0.0 && s.minimum.None? then r.size == s.size
               else r.size.Some? && r.size == PercentageSize(s, reference)
  {
    hide PercentageSize, CandlePrices, ReferenceOf;
    PercentageSizeFacts(s, ReferenceOf(s.strategy, CandlePrices(c).value));
  }

  lemma ShareIsPercent(reference: real, percentage: real)
    ensures 100.0 * Share(reference, percentage) == reference * percentage
  {
    var rate := percentage / 100.0;
    assert rate * 100.0 == percentage;
    assert reference * rate * 100.0 == reference * (rate * 100.0);
  }

  /** With rounding, and nothing to raise it, the size is the whole number below the exact percentage,
      above it, or nearest to it with ties going up; below the first whole number it stays exact. */
  lemma PercentageRounds(s: PercentageState, reference: real)
    requires s.Valid() && s.minimum.None? && reference > 0.0 && !s.rounding.NoRounding?
    ensures PercentageSize(s, reference).Some?
    ensures var exact, size := reference * s.percentage, PercentageSize(s, reference).value;
            || (100.0 * size == exact && exact < 100.0)
            || (&& size == Real(size.Floor)
                && (s.rounding.FloorDown? ==> exact - 100.0 < 100.0 * size <= exact)
                && (s.rounding.CeilUp? ==> exact <= 100.0 * size < exact + 100.0)
                && (s.rounding.HalfUp? ==> exact - 50.0 < 100.0 * size <= exact + 50.0))
  {
    hide Share, ApplyRounding;
    var raw := Share(reference, s.percentage);
    ShareIsPercent(reference, s.percentage);
    SignOfShare(reference, s.percentage);
    RoundingIsNear(s.rounding, raw);
  }

  lemma SignOfShare(reference: real, percentage: real)
    requires percentage > 0.0
    ensures Share(reference, percentage) > 0.0 <==> reference > 0.0
  {
    SignOfProduct(reference, percentage / 100.0);
  }

  lemma SignOfProduct(x: real, rate: real)
    requires rate > 0.0
    ensures x * rate > 0.0 <==> x > 0.0
  {
    if x > 0.0 {
      MulStrict(0.0, x, rate);
    } else {
      MulMonotone(x, 0.0, rate);
    }
  }

  lemma RoundingIsNear(mode: RoundingMode, x: real)
    ensures Abs(ApplyRounding(mode, x) - x) < 1.0
    ensures mode.NoRounding? ==> ApplyRounding(mode, x) == x
    ensures x <= 0.0 ==> ApplyRounding(mode, x) <= 0.0
    ensures mode.FloorDown? ==> ApplyRounding(mode, x) <= x
    ensures mode.CeilUp? ==> ApplyRounding(mode, x) >= x
    ensures mode.HalfUp? ==> -0.5 < ApplyRounding(mode, x) - x <= 0.5
    ensures !mode.NoRounding? ==> ApplyRounding(mode, x) == Real(ApplyRounding(mode, x).Floor)
  {
  }

  // ---- the size over whole runs ------------------------------------------------------

  /** The ATR state and the adaptive statistic as functions of the accepted prices. */
  lemma {:induction false} AtrOfRun(s: AtrState, cs: seq<Candle>)
    requires s.Valid() && s.Reset() == s
    ensures Feed(ByAtr(s), cs) ==
            ByAtr(AbsorbAll(s, Ranges(Accepted(cs))).(prevClose := LastClose(Accepted(cs))))
  {
    if cs != [] {
      AtrOfRun(s, cs[..|cs| - 1]);
      var before := Accepted(cs[..|cs| - 1]);
      var p := CandlePrices(cs[|cs| - 1]);
      if p.Some? {
        AbsorbNext(s, before, p.value);
      } else {
        assert Accepted(cs) == before;
      }
    }
  }

  lemma RangesNext(before: seq<Prices>, p: Prices)
    ensures Ranges(before + [p]) == Ranges(before) + [TrueRange(p, LastClose(before))]
  {
    var all := before + [p];
    assert all[..|all| - 1] == before;
  }

  lemma {:induction false} AbsorbNext(s: AtrState, before: seq<Prices>, p: Prices)
    requires s.Valid()
    ensures AtrUpdate(AbsorbAll(s, Ranges(before)).(prevClose := LastClose(before)), p)
            == AbsorbAll(s, Ranges(before + [p])).(prevClose := Some(p.close))
  {
    var tr := TrueRange(p, LastClose(before));
    var absorbed := AbsorbAll(s, Ranges(before));
    var marked := absorbed.(prevClose := LastClose(before));
    AbsorbIgnoresClose(absorbed, LastClose(before), tr);
    assert AtrUpdate(marked, p) == AtrAbsorb(absorbed, tr).(prevClose := Some(p.close));
    RangesNext(before, p);
    AbsorbOne(s, Ranges(before), tr);
  }

  lemma {:induction false} AbsorbOne(s: AtrState, trs: seq<real>, tr: real)
    requires s.period >= 1
    ensures AbsorbAll(s, trs + [tr]) == AtrAbsorb(AbsorbAll(s, trs), tr)
  {
    var all := trs + [tr];
    assert all[..|all| - 1] == trs;
  }

  lemma AbsorbIgnoresClose(s: AtrState, prev: Option<real>, tr: real)
    requires s.period >= 1
    ensures AtrAbsorb(s.(prevClose := prev), tr) == AtrAbsorb(s, tr).(prevClose := prev)
  {
  }

  /** Flat input keeps the adaptive statistic at zero and the regime low. */
  predicate QuietWhenFlat(s: AdaptiveState, trs: seq<real>) {
    && (s.stat.Some? ==> s.stat.value >= 0.0)
    && (AllZero(trs) ==> (s.stat.Some? ==> s.stat.value == 0.0)
                         && (s.regime.None? || s.regime.value.Low?))
  }

  lemma {:induction false} SanePrefix(cs: seq<Candle>)
    requires cs != [] && Sane(Accepted(cs))
    ensures Sane(Accepted(cs[..|cs| - 1]))
  {
    var before := Accepted(cs[..|cs| - 1]);
    assert forall i | 0 <= i < |before| :: Accepted(cs)[i] == before[i];
  }

  /** The ATR child of an adaptive provider lives exactly as the same ATR provider alone. */
  lemma {:induction false} HighChildOfRun(s: AdaptiveState, cs: seq<Candle>)
    requires s.Valid() && s.Reset() == s
    ensures var r := Feed(Adaptive(s), cs);
            r.Adaptive? && ByAtr(r.adaptive.high) == Feed(ByAtr(s.high), cs)
  {
    if cs != [] {
      HighChildOfRun(s, cs[..|cs| - 1]);
    }
  }

  lemma {:induction false} AdaptiveOfRun(s: AdaptiveState, cs: seq<Candle>)
    requires s.Valid() && s.Reset() == s && Sane(Accepted(cs))
    ensures var r := Feed(Adaptive(s), cs);
            && r.Adaptive?
            && r.adaptive.prevClose == LastClose(Accepted(cs))
            && (r.adaptive.medium.size.Some? ==> r.adaptive.medium.size.value > 0.0)
            && QuietWhenFlat(r.adaptive, Ranges(Accepted(cs)))
  {
    if cs != [] {
      SanePrefix(cs);
      AdaptiveOfRun(s, cs[..|cs| - 1]);
      var p := CandlePrices(cs[|cs| - 1]);
      if p.Some? {
        assert Accepted(cs) == Accepted(cs[..|cs| - 1]) + [p.value];
        assert Accepted(cs)[|Accepted(cs)| - 1] == p.value;
        AdaptiveNext(Feed(Adaptive(s), cs[..|cs| - 1]).adaptive, Accepted(cs[..|cs| - 1]), p.value);
      } else {
        assert Accepted(cs) == Accepted(cs[..|cs| - 1]);
      }
    }
  }

  lemma {:induction false} AdaptiveNext(s: AdaptiveState, before: seq<Prices>, p: Prices)
    requires s.Valid() && p.high >= p.low && s.prevClose == LastClose(before)
    requires QuietWhenFlat(s, Ranges(before))
    requires s.medium.size.Some? ==> s.medium.size.value > 0.0
    ensures QuietWhenFlat(AdaptiveUpdate(s, p), Ranges(before + [p]))
    ensures var medium := AdaptiveUpdate(s, p).medium; medium.size.Some? ==> medium.size.value > 0.0
  {
    var tr := TrueRange(p, s.prevClose);
    RangesNext(before, p);
    TrueRangeZero(p, s.prevClose);
    SmoothedStat(s.window, s.stat, tr);
    PercentageSizeFacts(s.medium, ReferenceOf(s.medium.strategy, p));
    var trs := Ranges(before) + [tr];
    assert AllZero(trs) ==> AllZero(Ranges(before)) && trs[|before|] == 0.0 by {
      assert forall i | 0 <= i < |before| :: trs[i] == Ranges(before)[i];
    }
  }

  /** The volatility statistic after each range. */
  function Stats(window: int, trs: seq<real>): (r: seq<real>)
    requires window >= 1
    ensures |r| == |trs|
  {
    if trs == [] then [] else
      var before := Stats(window, trs[..|trs| - 1]);
      before + [Smoothed(window, LastStat(before), trs[|trs| - 1])]
  }

  function LastStat(stats: seq<real>): Option<real> {
    if stats == [] then None else Some(stats[|stats| - 1])
  }

  lemma StatsOfNothing(window: int, band: Band)
    requires window >= 1
    ensures Stats(window, []) == [] && Regimes(band, []) == []
  {
  }

  lemma {:induction false} StatsNext(window: int, band: Band, trs: seq<real>, tr: real)
    requires window >= 1
    ensures var stats := Stats(window, trs);
            var stat := Smoothed(window, LastStat(stats), tr);
            && Stats(window, trs + [tr]) == stats + [stat]
            && Current(Regimes(band, stats + [stat])) == Some(Detect(band, stat, Current(Regimes(band, stats))))
  {
    hide Smoothed, Detect;
    var stats := Stats(window, trs);
    var all := stats + [Smoothed(window, LastStat(stats), tr)];
    assert (trs + [tr])[..|trs|] == trs && all[..|stats|] == stats;
  }

  /** The statistic starts at the first range, and each further one moves it by two parts in the window
      and one more towards the range. */
  lemma {:induction false} StatsFollow(window: int, trs: seq<real>, i: nat)
    requires window >= 1 && i < |trs|
    ensures var stats := Stats(window, trs);
            if i == 0 then stats[0] == trs[0]
            else stats[i] * Real(window + 1) == 2.0 * trs[i] + stats[i - 1] * Real(window - 1)
    decreases |trs|
  {
    var n := |trs| - 1;
    if i < n {
      StatsFollow(window, trs[..n], i);
    } else if i > 0 {
      SmoothedParts(window, Stats(window, trs[..n])[i - 1], trs[i]);
    }
  }

  lemma SmoothedParts(window: int, before: real, tr: real)
    requires window >= 1
    ensures Smoothed(window, Some(before), tr) * Real(window + 1) == 2.0 * tr + before * Real(window - 1)
  {
    var w := Real(window + 1);
    var alpha := 2.0 / w;
    assert alpha * w == 2.0;
    assert alpha * tr * w == 2.0 * tr by { Reordered(alpha, tr, w); }
    assert (1.0 - alpha) * before * w == before * (w - 2.0) by { Reordered(1.0 - alpha, before, w); assert (1.0 - alpha) * w == w - 2.0; }
    assert (alpha * tr + (1.0 - alpha) * before) * w == alpha * tr * w + (1.0 - alpha) * before * w;
  }

  /** The percentage child of an adaptive provider lives exactly as the same percentage provider alone. */
  lemma {:induction false} MediumChildOfRun(s: AdaptiveState, cs: seq<Candle>)
    requires s.Valid() && s.Reset() == s
    ensures var r := Feed(Adaptive(s), cs);
            r.Adaptive? && ByPercentage(r.adaptive.medium) == Feed(ByPercentage(s.medium), cs) && r.adaptive.low == s.low
  {
    hide AtrUpdate, Smoothed, Detect;
    if cs != [] {
      MediumChildOfRun(s, cs[..|cs| - 1]);
    }
  }

  /** An adaptive provider is ready when a percentage and an ATR provider fed the same candles both are,
      and then it has the fixed size while the regime is low, the size of the one while it is medium, and
      of the other while it is high. */
  lemma {:induction false} AdaptiveSizeByRegime(s: AdaptiveState, cs: seq<Candle>)
    requires s.Valid() && s.Reset() == s
    ensures var medium, high := Feed(ByPercentage(s.medium), cs).Size(), Feed(ByAtr(s.high), cs).Size();
            var size := Feed(Adaptive(s), cs).Size();
            && (size.Some? <==> medium.Some? && high.Some?)
            && (size.Some? ==>
                  match Current(Regimes(s.band, Stats(s.window, Ranges(Accepted(cs)))))
                  case Some(Medium) => size == medium
                  case Some(High) => size == high
                  case _ => size == Some(s.low))
  {
    hide Stats, Regimes, Ranges, Accepted;
    RegimeOfRun(s, cs);
    HighChildOfRun(s, cs);
    MediumChildOfRun(s, cs);
  }

  // ---- the prices a provider looks at -----------------------------------------------------------

  /** The price a strategy of this name refers to; of a consistent candle it lies within its range. */
  lemma ReferenceIsNamed(name: string, p: Prices)
    requires StrategyNamed(name).Some?
    ensures var r := ReferenceOf(StrategyNamed(name).value, p);
            && name in {"close", "open", "high", "low", "typical", "mean", "median"}
            && (name == "close" ==> r == p.close) && (name == "open" ==> r == p.open)
            && (name == "high" ==> r == p.high) && (name == "low" ==> r == p.low)
            && (name == "typical" ==> 3.0 * r == p.high + p.low + p.close)
            && (name == "mean" ==> 4.0 * r == p.open + p.high + p.low + p.close)
            && (name == "median" ==> 2.0 * r == p.high + p.low)
            && (p.low <= p.open <= p.high && p.low <= p.close <= p.high ==> p.low <= r <= p.high)
  {
  }

  /** A candle has prices exactly when it has any of the four; every one it has is taken as it is, and
      the others stand for the close, or the first of open, high and low there is. */
  lemma PricesOfCandle(c: Candle)
    ensures var ps := CandlePrices(c);
            && (ps.Some? <==> c.open.Some? || c.high.Some? || c.low.Some? || c.close.Some?)
            && (ps.Some? ==>
                  && (c.open.Some? ==> ps.value.open == c.open.value) && (c.high.Some? ==> ps.value.high == c.high.value)
                  && (c.low.Some? ==> ps.value.low == c.low.value) && (c.close.Some? ==> ps.value.close == c.close.value)
                  && (c.open.None? ==> ps.value.open == ps.value.close) && (c.high.None? ==> ps.value.high == ps.value.close)
                  && (c.low.None? ==> ps.value.low == ps.value.close)
                  && (c.close.None? ==> ps.value.close == if c.open.Some? then c.open.value
                                                          else if c.high.Some? then c.high.value else c.low.value))
  {
  }

  /** The provider has seen these prices: its statistic and regime are those of their ranges. */
  predicate Tracks(r: AdaptiveState, s: AdaptiveState, ps: seq<Prices>)
    requires s.window >= 1
  {
    var stats := Stats(s.window, Ranges(ps));
    && r.window == s.window && r.band == s.band && r.high.period == s.high.period
    && r.prevClose == LastClose(ps) && r.stat == LastStat(stats)
    && r.regime == Current(Regimes(s.band, stats)) && r.count == |stats|
  }

  lemma TracksNext(r: AdaptiveState, s: AdaptiveState, before: seq<Prices>, p: Prices)
    requires s.window >= 1 && s.high.period >= 1 && Tracks(r, s, before)
    ensures Tracks(AdaptiveUpdate(r, p), s, before + [p])
  {
    hide Smoothed, Detect, TrueRange, AtrUpdate, PercentageUpdate, Stats, Regimes, Ranges;
    AtrKeepsPeriod(r.high, p);
    RangesNext(before, p);
    StatsNext(s.window, s.band, Ranges(before), TrueRange(p, LastClose(before)));
  }

  lemma AtrKeepsPeriod(s: AtrState, p: Prices)
    requires s.period >= 1
    ensures AtrUpdate(s, p).period == s.period
  {
  }

  lemma NothingTracked(s: AdaptiveState)
    requires s.window >= 1 && s.Reset() == s
    ensures Tracks(s, s, [])
  {
    StatsOfNothing(s.window, s.band);
  }

  lemma AdaptiveTakes(s: AdaptiveState, c: Candle)
    requires s.Valid()
    ensures var p, next := CandlePrices(c), Adaptive(s).Update(c);
            if p.Some? then next == Some(Adaptive(AdaptiveUpdate(s, p.value))) else next.None?
  {
    hide AdaptiveUpdate;
  }

  /** The provider's regime over a run is the classifier's over the run's statistics. */
  lemma {:induction false} RegimeOfRun(s: AdaptiveState, cs: seq<Candle>)
    requires s.Valid() && s.Reset() == s
    ensures var stats := Stats(s.window, Ranges(Accepted(cs)));
            var r := Feed(Adaptive(s), cs);
            && r.Adaptive? && r.adaptive.prevClose == LastClose(Accepted(cs))
            && r.adaptive.stat == LastStat(stats)
            && r.adaptive.regime == Current(Regimes(s.band, stats))
            && r.adaptive.count == |stats|
  {
    RunTracks(s, cs);
  }

  lemma {:induction false} RunTracks(s: AdaptiveState, cs: seq<Candle>)
    requires s.Valid() && s.Reset() == s
    ensures Feed(Adaptive(s), cs).Adaptive? && Tracks(Feed(Adaptive(s), cs).adaptive, s, Accepted(cs))
  {
    hide AdaptiveUpdate, Tracks, CandlePrices, Provider.Update, Provider.Reset, AdaptiveState.Reset;
    if cs == [] {
      NothingTracked(s);
    } else {
      var prefix, c := cs[..|cs| - 1], cs[|cs| - 1];
      RunTracks(s, prefix);
      AdaptiveTakes(Feed(Adaptive(s), prefix).adaptive, c);
      var p := CandlePrices(c);
      if p.Some? {
        TracksNext(Feed(Adaptive(s), prefix).adaptive, s, Accepted(prefix), p.value);
      } else {
        assert Accepted(cs) == Accepted(prefix);
      }
    }
  }

  /** Over any run of an adaptive provider, 2h times the number of times its regime switches
      back is at most the total variation of its statistic. */
  lemma {:induction false} AdaptiveRunsDoNotFlap(s: AdaptiveState, cs: seq<Candle>)
    requires s.Valid() && s.Reset() == s && Accepted(cs) != []
    ensures var stats := Stats(s.window, Ranges(Accepted(cs)));
            && Feed(Adaptive(s), cs).Adaptive?
            && Feed(Adaptive(s), cs).adaptive.regime == Current(Regimes(s.band, stats))
            && 2.0 * s.band.h * Real(Reversals(Regimes(s.band, stats), |stats|)) <= Variation(stats, 0, |stats| - 1)
  {
    hide Regimes, Variation, Reversals, Stats, Current;
    RegimeOfRun(s, cs);
    HysteresisBoundsReversals(s.band, Stats(s.window, Ranges(Accepted(cs))));
  }

  lemma SmoothedStat(window: int, stat: Option<real>, tr: real)
    requires window >= 1 && tr >= 0.0 && (stat.Some? ==> stat.value >= 0.0)
    ensures Smoothed(window, stat, tr) >= 0.0
    ensures tr == 0.0 && (stat.Some? ==> stat.value == 0.0) ==> Smoothed(window, stat, tr) == 0.0
  {
    var w := Real(window + 1);
    var alpha := 2.0 / w;
    assert alpha * w == 2.0;
    if alpha > 1.0 { MulStrict(1.0, alpha, w); }
    if alpha < 0.0 { MulStrict(alpha, 0.0, w); }
    MulMonotone(0.0, tr, alpha);
    if stat.Some? {
      MulMonotone(0.0, stat.value, 1.0 - alpha);
    }
  }

  /** The inputs on which a provider's size is zero. */
  predicate Degenerate(p: Provider, cs: seq<Candle>)
    requires p.Valid()
  {
    match p
    case Fixed(_) => false
    case ByPercentage(_) => false
    case ByAtr(s) => FlatFor(s.period, Ranges(Accepted(cs)))
    case Adaptive(s) =>
      && s.high.period == 1
      && FlatFor(1, Ranges(Accepted(cs)))
      && Current(Regimes(s.band, Stats(s.window, Ranges(Accepted(cs))))) == Some(Regime.High)
  }

  lemma {:induction false} AtrSizeIsPositive(s: AtrState, cs: seq<Candle>)
    requires s.Valid() && s.Reset() == s && Sane(Accepted(cs))
    ensures var r := Feed(ByAtr(s), cs);
            && r.ByAtr? && r.atr.period == s.period && r.atr.multiplier == s.multiplier
            && (r.atr.atr.Some? ==>
                && AtrSize(r.atr).value >= 0.0
                && (AtrSize(r.atr).value == 0.0 <==> FlatFor(s.period, Ranges(Accepted(cs)))))
  {
    var trs := Ranges(Accepted(cs));
    RangesAreNonNegative(Accepted(cs));
    AtrOfRun(s, cs);
    AtrWarmsUp(s, trs);
    if |trs| >= s.period {
      AtrZeroIffFlat(s, trs);
      ScaledZero(AbsorbAll(s, trs).atr.value, s.multiplier);
    }
  }

  lemma {:induction false} AdaptiveSizeIsPositive(s: AdaptiveState, cs: seq<Candle>)
    requires s.Valid() && s.Reset() == s && Sane(Accepted(cs))
    requires Feed(Adaptive(s), cs).Ready()
    ensures Feed(Adaptive(s), cs).Size().value >= 0.0
    ensures Feed(Adaptive(s), cs).Size().value == 0.0 <==> Degenerate(Adaptive(s), cs)
  {
    AdaptiveOfRun(s, cs);
    RegimeOfRun(s, cs);
    HighChildOfRun(s, cs);
    AtrSizeIsPositive(s.high, cs);
    var trs := Ranges(Accepted(cs));
    assert s.high.period == 1 && !FlatFor(1, trs) ==> !AllZero(trs) || trs == [];
    if trs == [] {
      AtrOfRun(s.high, cs);
      AtrWarmsUp(s.high, trs);
    }
  }

  /** For every provider and every run of sane candles the size is never negative, and it is
      zero exactly on degenerate input: never for a fixed or percentage provider, never for an
      adaptive one whose ATR averages at least two ranges. */
  lemma {:induction false} SizeIsPositive(p: Provider, cs: seq<Candle>)
    requires p.Valid() && p.Reset() == p && Sane(Accepted(cs))
    requires Feed(p, cs).Ready()
    ensures Feed(p, cs).Size().value >= 0.0
    ensures Feed(p, cs).Size().value == 0.0 <==> Degenerate(p, cs)
  {
    match p
    case Fixed(_) => FixedOfRun(p, cs);
    case ByPercentage(s) => PercentageOfRun(s, cs);
    case ByAtr(s) => AtrSizeIsPositive(s, cs);
    case Adaptive(s) => AdaptiveSizeIsPositive(s, cs);
  }

  lemma ScaledZero(x: real, k: real)
    requires x >= 0.0 && k > 0.0
    ensures x * k >= 0.0
    ensures x * k == 0.0 <==> x == 0.0
  {
    if x > 0.0 {
      MulStrict(0.0, x, k);
    }
  }

  lemma {:induction false} FixedOfRun(p: Provider, cs: seq<Candle>)
    requires p.Valid() && p.Fixed?
    ensures Feed(p, cs) == p
  {
    if cs != [] {
      FixedOfRun(p, cs[..|cs| - 1]);
    }
  }

  lemma {:induction false} PercentageOfRun(s: PercentageState, cs: seq<Candle>)
    requires s.Valid() && s.size.None?
    ensures var r := Feed(ByPercentage(s), cs);
            r.ByPercentage? && (r.percentage.size.Some? ==> r.percentage.size.value > 0.0)
  {
    if cs != [] {
      PercentageOfRun(s, cs[..|cs| - 1]);
      var before := Feed(ByPercentage(s), cs[..|cs| - 1]).percentage;
      var p := CandlePrices(cs[|cs| - 1]);
      if p.Some? {
        PercentageSizeFacts(before, ReferenceOf(before.strategy, p.value));
      }
    }
  }

  // A high regime entered on a wide candle, followed by a flat one.
  const WIDE := Candle(None, Some(110.0), Some(100.0), Some(100.0), 0)
  const FLAT := Candle(None, Some(100.0), Some(100.0), Some(100.0), 1)
  const ONE_CANDLE_ATR: AdaptiveState :=
    AdaptiveState(1.0, PercentageState(1.0, ByClose, NoRounding, None, None),
                  AtrState(1, 1.0, None, 0.0, 0, None), 3, Band(1.0, 2.0, 0.0), None, None, None, 0)

  lemma SmoothedExample()
    ensures Smoothed(3, Some(10.0), 0.0) == 5.0
    ensures Wilder(10.0, 0.0, 1) == 0.0 && Average(10.0, 1) == 10.0
  {
  }

  lemma WideCandle()
    ensures Feed(Adaptive(ONE_CANDLE_ATR), [WIDE]) ==
            Adaptive(AdaptiveUpdate(ONE_CANDLE_ATR, Prices(100.0, 110.0, 100.0, 100.0)))
    ensures var s := AdaptiveUpdate(ONE_CANDLE_ATR, Prices(100.0, 110.0, 100.0, 100.0));
            s.stat == Some(10.0) && s.regime == Some(Regime.High) && s.high.atr == Some(10.0)
            && s.prevClose == Some(100.0) && s.high.prevClose == Some(100.0)
  {
    var one := [WIDE];
    SmoothedExample();
    assert one[..0] == [];
    assert Feed(Adaptive(ONE_CANDLE_ATR), []) == Adaptive(ONE_CANDLE_ATR);
  }

  lemma FlatCandle(s: AdaptiveState)
    requires s.Valid() && s.high.period == 1 && s.high.multiplier == 1.0 && s.window == 3
    requires s.band == Band(1.0, 2.0, 0.0) && s.stat == Some(10.0) && s.regime == Some(Regime.High)
    requires s.high.atr == Some(10.0) && s.prevClose == Some(100.0) && s.high.prevClose == Some(100.0)
    requires s.medium == PercentageState(1.0, ByClose, NoRounding, None, s.medium.size)
    ensures var r := AdaptiveUpdate(s, Prices(100.0, 100.0, 100.0, 100.0));
            r.Ready() && r.CurrentSize() == Some(0.0)
  {
    SmoothedExample();
    var p := Prices(100.0, 100.0, 100.0, 100.0);
    assert TrueRange(p, Some(100.0)) == 0.0;
    PercentageSizeFacts(s.medium, 100.0);
  }

  /** With a one-candle ATR the adaptive size does reach zero: a wide candle puts the
      statistic in the high regime, and a flat one after it leaves a zero range. */
  lemma AdaptiveSizeCanBeZero()
    ensures var p := Adaptive(ONE_CANDLE_ATR);
            && p.Valid() && p.Reset() == p && Sane(Accepted([WIDE, FLAT]))
            && Feed(p, [WIDE, FLAT]).Size() == Some(0.0)
  {
    var one, two := [WIDE], [WIDE, FLAT];
    assert one[..0] == [] && two[..1] == one && Accepted([]) == [];
    assert Accepted(two) == Accepted(one) + [Prices(100.0, 100.0, 100.0, 100.0)];
    WideCandle();
    FlatCandle(AdaptiveUpdate(ONE_CANDLE_ATR, Prices(100.0, 110.0, 100.0, 100.0)));
  }
}
