/** The adaptive provider's volatility-regime classifier and its hysteresis. */
module RegimeClassifier {
  import opened Common

  datatype Regime = Low | Medium | High {
    function Rank(): int {
      match this
      case Low => 0
      case Medium => 1
      case High => 2
    }
  }

  /** The two ascending thresholds and the dead band around them. */
  datatype Band = Band(t1: real, t2: real, h: real) {
    predicate Valid() {
      0.0 < t1 < t2 && h >= 0.0
    }
  }

  function Detect(band: Band, s: real, current: Option<Regime>): Regime {
    match current
    case None =>
      if s < band.t1 then Low else if s < band.t2 then Medium else High
    case Some(Low) =>
      if s >= band.t2 + band.h then High else if s >= band.t1 + band.h then Medium else Low
    case Some(Medium) =>
      if s >= band.t2 + band.h then High else if s < band.t1 - band.h then Low else Medium
    case Some(High) =>
      if s < band.t1 - band.h then Low else if s < band.t2 - band.h then Medium else High
  }

  /** Classifying again with the same statistic changes nothing; a larger statistic, or a
      higher current regime, never classifies lower. */
  lemma ClassifierIsOrderly(band: Band, s: real, s': real, current: Option<Regime>, other: Option<Regime>)
    requires band.Valid() && s <= s'
    ensures Detect(band, s, Some(Detect(band, s, current))) == Detect(band, s, current)
    ensures Detect(band, s, current).Rank() <= Detect(band, s', current).Rank()
    ensures current.Some? && other.Some? && current.value.Rank() <= other.value.Rank()
            ==> Detect(band, s, current).Rank() <= Detect(band, s, other).Rank()
  {
  }

  /** The statistics a regime is kept for: its own stretch between the thresholds, wider by the dead band
      at either end. */
  predicate Keeps(band: Band, regime: Regime, s: real) {
    match regime
    case Low => s < band.t1 + band.h
    case Medium => band.t1 - band.h <= s < band.t2 + band.h
    case High => s >= band.t2 - band.h
  }

  function Distance(a: Regime, b: Regime): int {
    if a.Rank() < b.Rank() then b.Rank() - a.Rank() else a.Rank() - b.Rank()
  }

  /** Without a regime the thresholds alone decide. With one, the new regime is the nearest to it of
      those kept for the statistic, and no other is as near. */
  lemma DetectIsNearest(band: Band, s: real, current: Option<Regime>)
    requires band.Valid()
    ensures current.None? ==> && (Detect(band, s, current).Low? <==> s < band.t1)
                              && (Detect(band, s, current).High? <==> s >= band.t2)
    ensures current.Some? ==>
              && Keeps(band, Detect(band, s, current), s)
              && forall r: Regime | Keeps(band, r, s) && r != Detect(band, s, current) ::
                   Distance(current.value, r) > Distance(current.value, Detect(band, s, current))
  {
  }

  /** The regime after each statistic of a run, starting with nothing classified. */
  function Regimes(band: Band, stats: seq<real>): (r: seq<Regime>)
    ensures |r| == |stats|
  {
    if stats == [] then [] else
      var before := Regimes(band, stats[..|stats| - 1]);
      before + [Detect(band, stats[|stats| - 1], Current(before))]
  }

  function Current(regimes: seq<Regime>): Option<Regime> {
    if regimes == [] then None else Some(regimes[|regimes| - 1])
  }

  lemma {:induction false} RegimesStep(band: Band, stats: seq<real>, i: nat)
    requires i < |stats|
    ensures Regimes(band, stats)[i] == Detect(band, stats[i], Current(Regimes(band, stats)[..i]))
  {
    var n := |stats| - 1;
    var before := Regimes(band, stats[..n]);
    if i == n {
      assert Regimes(band, stats)[..i] == before;
    } else {
      RegimesStep(band, stats[..n], i);
      assert Regimes(band, stats)[..i] == before[..i];
    }
  }

  /** The run switches regime at i: -1 down, +1 up, 0 not at all. */
  function SwitchAt(regimes: seq<Regime>, i: nat): int
    requires i < |regimes|
  {
    if i == 0 then 0
    else if regimes[i].Rank() > regimes[i - 1].Rank() then 1
    else if regimes[i].Rank() < regimes[i - 1].Rank() then -1
    else 0
  }

  /** Two switches in a row in opposite directions: nothing switches in between. */
  ghost predicate Reversal(regimes: seq<Regime>, i: nat, j: nat) {
    && i < j < |regimes|
    && SwitchAt(regimes, i) != 0
    && SwitchAt(regimes, j) == -SwitchAt(regimes, i)
    && forall k | i < k < j :: SwitchAt(regimes, k) == 0
  }

  lemma {:induction false} SteadyBetween(regimes: seq<Regime>, i: nat, k: nat)
    requires i <= k < |regimes|
    requires forall m | i < m <= k :: SwitchAt(regimes, m) == 0
    ensures regimes[k] == regimes[i]
  {
    if i < k {
      SteadyBetween(regimes, i, k - 1);
      assert SwitchAt(regimes, k) == 0;
    }
  }

  /** No flapping: a switch is undone only after the statistic has crossed the whole
      dead band, from beyond one edge to beyond the other. */
  lemma {:induction false} ReversalCrossesTheBand(band: Band, stats: seq<real>, i: nat, j: nat)
    requires band.Valid() && Reversal(Regimes(band, stats), i, j)
    ensures SwitchAt(Regimes(band, stats), i) == 1 ==> stats[i] - stats[j] > 2.0 * band.h
    ensures SwitchAt(Regimes(band, stats), i) == -1 ==> stats[j] - stats[i] > 2.0 * band.h
  {
    var regimes := Regimes(band, stats);
    SteadyBetween(regimes, i, j - 1);
    RegimesStep(band, stats, i);
    RegimesStep(band, stats, j);
    assert i > 0 && Current(regimes[..i]) == Some(regimes[i - 1]);
    assert Current(regimes[..j]) == Some(regimes[i]);
  }

  // ---- counting reversals along a run ---------------------------------------

  /** The direction and position of the latest switch within the first n entries. */
  datatype Latest = Never | Latest(at: nat, direction: int)

  function LatestSwitch(regimes: seq<Regime>, n: nat): Latest
    requires n <= |regimes|
  {
    if n == 0 then Never
    else if SwitchAt(regimes, n - 1) != 0 then Latest.Latest(n - 1, SwitchAt(regimes, n - 1))
    else LatestSwitch(regimes, n - 1)
  }

  function Reversals(regimes: seq<Regime>, n: nat): nat
    requires n <= |regimes|
  {
    if n == 0 then 0 else
      var latest := LatestSwitch(regimes, n - 1);
      Reversals(regimes, n - 1) +
      if SwitchAt(regimes, n - 1) != 0 && latest.Latest? && latest.direction == -SwitchAt(regimes, n - 1) then 1 else 0
  }

  function Variation(stats: seq<real>, first: nat, last: nat): real
    requires first <= last < |stats|
  {
    if first == last then 0.0 else Variation(stats, first, last - 1) + Abs(stats[last] - stats[last - 1])
  }

  lemma {:induction false} VariationBoundsChange(stats: seq<real>, first: nat, last: nat)
    requires first <= last < |stats|
    ensures Abs(stats[last] - stats[first]) <= Variation(stats, first, last)
  {
    if first < last {
      VariationBoundsChange(stats, first, last - 1);
    }
  }

  lemma {:induction false} VariationAdds(stats: seq<real>, first: nat, mid: nat, last: nat)
    requires first <= mid <= last < |stats|
    ensures Variation(stats, first, last) == Variation(stats, first, mid) + Variation(stats, mid, last)
    ensures Variation(stats, first, mid) >= 0.0
    decreases last
  {
    if mid < last {
      VariationAdds(stats, first, mid, last - 1);
    } else if first < mid {
      VariationAdds(stats, first, mid - 1, mid - 1);
    }
  }

  lemma {:induction false} LatestIsLatest(regimes: seq<Regime>, n: nat)
    requires n <= |regimes|
    ensures match LatestSwitch(regimes, n)
            case Never => forall k | 0 <= k < n :: SwitchAt(regimes, k) == 0
            case Latest(at, direction) =>
              && at < n && direction == SwitchAt(regimes, at) != 0
              && forall k | at < k < n :: SwitchAt(regimes, k) == 0
  {
    if n > 0 {
      LatestIsLatest(regimes, n - 1);
    }
  }

  /** The variation that a number of dead-band crossings takes. */
  function Crossings(h: real, count: nat): (c: real)
  {
    if count == 0 then 0.0 else Crossings(h, count - 1) + 2.0 * h
  }

  lemma {:induction false} CrossingsProduct(h: real, count: nat)
    ensures Crossings(h, count) == 2.0 * h * Real(count)
  {
    if count > 0 {
      CrossingsProduct(h, count - 1);
    }
  }

  /** The stretch between two switches in a row pays for a reversal, if it is one. */
  lemma {:induction false} StretchPays(band: Band, stats: seq<real>, at: nat, n: nat)
    requires band.Valid() && at < n < |stats|
    requires var regimes := Regimes(band, stats);
             && SwitchAt(regimes, at) != 0 && SwitchAt(regimes, n) != 0
             && forall k | at < k < n :: SwitchAt(regimes, k) == 0
    ensures Variation(stats, 0, n) >= Variation(stats, 0, at)
    ensures SwitchAt(Regimes(band, stats), n) == -SwitchAt(Regimes(band, stats), at)
            ==> Variation(stats, 0, n) > Variation(stats, 0, at) + 2.0 * band.h
  {
    VariationAdds(stats, 0, at, n);
    VariationBoundsChange(stats, at, n);
    if SwitchAt(Regimes(band, stats), n) == -SwitchAt(Regimes(band, stats), at) {
      ReversalCrossesTheBand(band, stats, at, n);
    }
  }

  /** Each reversal uses up a stretch of variation of its own. */
  lemma {:induction false} ReversalsUseVariation(band: Band, stats: seq<real>, n: nat)
    requires band.Valid() && n <= |stats|
    ensures var regimes := Regimes(band, stats);
            match LatestSwitch(regimes, n)
            case Never => Reversals(regimes, n) == 0
            case Latest(at, _) =>
              at < n && Crossings(band.h, Reversals(regimes, n)) <= Variation(stats, 0, at)
  {
    if n > 0 {
      var regimes := Regimes(band, stats);
      ReversalsUseVariation(band, stats, n - 1);
      LatestIsLatest(regimes, n - 1);
      var latest := LatestSwitch(regimes, n - 1);
      if SwitchAt(regimes, n - 1) != 0 {
        if latest.Latest? {
          StretchPays(band, stats, latest.at, n - 1);
        } else {
          VariationAdds(stats, 0, n - 1, n - 1);
        }
      }
    }
  }

  lemma {:induction false} CrossingsWithinVariation(band: Band, stats: seq<real>)
    requires band.Valid() && stats != []
    ensures Crossings(band.h, Reversals(Regimes(band, stats), |stats|)) <= Variation(stats, 0, |stats| - 1)
  {
    var n := |stats|;
    var latest := LatestSwitch(Regimes(band, stats), n);
    var at := if latest.Latest? then latest.at else 0;
    ReversalsUseVariation(band, stats, n);
    VariationAdds(stats, 0, at, n - 1);
    VariationAdds(stats, at, n - 1, n - 1);
  }

  /** Over any run, 2h times the number of switch reversals is at most the total
      variation of the statistic. */
  lemma {:induction false} HysteresisBoundsReversals(band: Band, stats: seq<real>)
    requires band.Valid() && stats != []
    ensures 2.0 * band.h * Real(Reversals(Regimes(band, stats), |stats|)) <= Variation(stats, 0, |stats| - 1)
  {
    CrossingsWithinVariation(band, stats);
    CrossingsProduct(band.h, Reversals(Regimes(band, stats), |stats|));
  }
}
