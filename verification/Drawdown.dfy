/** One-pass drawdown against its quadratic definition. */
module Drawdown {
  import opened Common
  import opened Ledger

  /** The largest of the first n values. */
  function Peak(v: seq<real>, n: nat): real
    requires 1 <= n <= |v|
  {
    if n == 1 then v[0] else Max(Peak(v, n - 1), v[n - 1])
  }

  /** How far value k lies below the running peak. */
  function Drop(v: seq<real>, k: nat): real
    requires k < |v|
  {
    Peak(v, k + 1) - v[k]
  }

  /** d is the largest fall from an earlier value to a later one, zero if there is none. */
  ghost predicate IsMaxFall(v: seq<real>, d: real) {
    && d >= 0.0
    && (forall i, j | 0 <= i <= j < |v| :: v[i] - v[j] <= d)
    && (d == 0.0 || exists i, j :: 0 <= i <= j < |v| && v[i] - v[j] == d)
  }

  /** p is that fall relative to the peak it first fell from. */
  ghost predicate IsFallRatio(v: seq<real>, d: real, p: real) {
    if d == 0.0 then p == 0.0
    else exists k :: 0 <= k < |v| && Drop(v, k) == d && (forall m | 0 <= m < k :: Drop(v, m) < d)
                     && p == Ratio(d, Peak(v, k + 1))
  }

  predicate Below(v: seq<real>, k: nat)
    requires k < |v|
  {
    v[k] < Peak(v, k + 1)
  }

  ghost predicate BelowThroughout(v: seq<real>, i: nat, j: nat) {
    i <= j <= |v| && forall k | i <= k < j :: Below(v, k)
  }

  /** m is the length of the longest stretch strictly below the running peak. */
  ghost predicate IsLongestStretch(v: seq<real>, m: nat) {
    && (forall i: nat, j: nat | BelowThroughout(v, i, j) :: j - i <= m)
    && exists i: nat, j: nat :: BelowThroughout(v, i, j) && j - i == m
  }

  lemma {:induction false} PeakIsMaximum(v: seq<real>, n: nat)
    requires 1 <= n <= |v|
    ensures forall i | 0 <= i < n :: v[i] <= Peak(v, n)
    ensures exists i :: 0 <= i < n && v[i] == Peak(v, n)
  {
    if n > 1 {
      PeakIsMaximum(v, n - 1);
      var i :| 0 <= i < n - 1 && v[i] == Peak(v, n - 1);
      var at := if v[n - 1] > Peak(v, n - 1) then n - 1 else i;
      assert 0 <= at < n && v[at] == Peak(v, n);
    } else {
      assert v[0] == Peak(v, n);
    }
  }

  /** The largest drop below the running peak is the largest fall between any two values. */
  lemma LargestDropIsMaxFall(v: seq<real>, d: real)
    requires d >= 0.0
    requires forall k | 0 <= k < |v| :: Drop(v, k) <= d
    requires d == 0.0 || exists k :: 0 <= k < |v| && Drop(v, k) == d
    ensures IsMaxFall(v, d)
  {
    forall i, j | 0 <= i <= j < |v| ensures v[i] - v[j] <= d {
      PeakIsMaximum(v, j + 1);
      assert Drop(v, j) <= d;
    }
    if d != 0.0 {
      var k :| 0 <= k < |v| && Drop(v, k) == d;
      PeakIsMaximum(v, k + 1);
      var i :| 0 <= i < k + 1 && v[i] == Peak(v, k + 1);
      assert v[i] - v[k] == d;
    }
  }

  lemma MaxFallIsUnique(v: seq<real>, d: real, e: real)
    requires IsMaxFall(v, d) && IsMaxFall(v, e)
    ensures d == e
  {
  }

  lemma FallRatioIsUnique(v: seq<real>, d: real, p: real, q: real)
    requires IsFallRatio(v, d, p) && IsFallRatio(v, d, q)
    ensures p == q
  {
    if d != 0.0 {
      var k :| 0 <= k < |v| && Drop(v, k) == d && (forall m | 0 <= m < k :: Drop(v, m) < d) && p == Ratio(d, Peak(v, k + 1));
      var l :| 0 <= l < |v| && Drop(v, l) == d && (forall m | 0 <= m < l :: Drop(v, m) < d) && q == Ratio(d, Peak(v, l + 1));
      assert k == l;
    }
  }

  /** What both loops know after the first n values. */
  ghost predicate LargestSoFar(v: seq<real>, n: nat, d: real, p: real) {
    && n <= |v| && d >= 0.0
    && (forall k | 0 <= k < n :: Drop(v, k) <= d)
    && (d == 0.0 ==> p == 0.0)
    && (d != 0.0 ==> exists k :: FirstAt(v, n, d, p, k))
  }

  ghost predicate FirstAt(v: seq<real>, n: nat, d: real, p: real, k: nat) {
    k < n <= |v| && Drop(v, k) == d && (forall m | 0 <= m < k :: Drop(v, m) < d) && p == Ratio(d, Peak(v, k + 1))
  }

  lemma LargestOfAll(v: seq<real>, d: real, p: real)
    requires LargestSoFar(v, |v|, d, p)
    ensures IsMaxFall(v, d) && IsFallRatio(v, d, p)
  {
    if d != 0.0 {
      var k :| FirstAt(v, |v|, d, p, k);
    }
    LargestDropIsMaxFall(v, d);
  }

  lemma LargestGrows(v: seq<real>, n: nat, d: real, p: real, d': real, p': real)
    requires n < |v| && LargestSoFar(v, n, d, p)
    requires if Drop(v, n) > d then d' == Drop(v, n) && p' == Ratio(d', Peak(v, n + 1)) else d' == d && p' == p
    ensures LargestSoFar(v, n + 1, d', p')
  {
    if Drop(v, n) > d {
      assert FirstAt(v, n + 1, d', p', n);
    } else if d != 0.0 {
      var k :| FirstAt(v, n, d, p, k);
      assert FirstAt(v, n + 1, d, p, k);
    }
  }

  /** The backtest's loop: the peak starts absent. */
  method BacktestDrawdown(values: seq<real>) returns (amount: real, pct: real)
    ensures IsMaxFall(values, amount) && IsFallRatio(values, amount, pct)
  {
    hide IsMaxFall, IsFallRatio, Ratio;
    var peak: Option<real> := None;
    amount, pct := 0.0, 0.0;
    var i := 0;
    while i < |values|
      invariant 0 <= i <= |values|
      invariant peak == if i == 0 then None else Some(Peak(values, i))
      invariant LargestSoFar(values, i, amount, pct)
    {
      var v := values[i];
      ghost var d, p := amount, pct;
      if peak.None? || v > peak.value {
        peak := Some(v);
      }
      assert peak.value == Peak(values, i + 1);
      var dd := peak.value - v;
      if dd > amount {
        amount := dd;
        pct := Ratio(dd, peak.value);
      }
      LargestGrows(values, i, d, p, amount, pct);
      i := i + 1;
    }
    LargestOfAll(values, amount, pct);
  }

  /** The length of the stretch below the peak that ends at n. */
  function Trailing(v: seq<real>, n: nat): nat
    requires n <= |v|
  {
    if n == 0 || !Below(v, n - 1) then 0 else Trailing(v, n - 1) + 1
  }

  lemma {:induction false} TrailingIsLongest(v: seq<real>, n: nat)
    requires n <= |v|
    ensures Trailing(v, n) <= n && BelowThroughout(v, n - Trailing(v, n), n)
    ensures forall i | 0 <= i <= n && BelowThroughout(v, i, n) :: n - i <= Trailing(v, n)
  {
    if n > 0 && Below(v, n - 1) {
      TrailingIsLongest(v, n - 1);
      forall i | 0 <= i <= n && BelowThroughout(v, i, n) ensures n - i <= Trailing(v, n) {
        if i < n {
          assert BelowThroughout(v, i, n - 1);
        }
      }
    } else if n > 0 {
      assert forall i | 0 <= i < n :: !BelowThroughout(v, i, n);
    }
  }

  ghost predicate LongestSoFar(v: seq<real>, n: nat, m: nat) {
    && n <= |v|
    && (forall i: nat, j: nat | j <= n && BelowThroughout(v, i, j) :: j - i <= m)
    && exists i: nat, j: nat :: BelowThroughout(v, i, j) && j - i == m
  }

  lemma LongestGrows(v: seq<real>, n: nat, m: nat, m': nat)
    requires n < |v| && LongestSoFar(v, n, m)
    requires m' == if Trailing(v, n + 1) > m then Trailing(v, n + 1) else m
    ensures LongestSoFar(v, n + 1, m')
  {
    TrailingIsLongest(v, n + 1);
    assert BelowThroughout(v, n + 1 - Trailing(v, n + 1), n + 1);
    if Trailing(v, n + 1) <= m {
      var i: nat, j: nat :| BelowThroughout(v, i, j) && j - i == m;
    }
  }

  /** The research loop: the peak starts at the first value, and stretches below it are counted. */
  method ResearchDrawdown(values: seq<real>) returns (amount: real, pct: real, duration: nat)
    ensures IsMaxFall(values, amount) && IsFallRatio(values, amount, pct)
    ensures IsLongestStretch(values, duration)
  {
    hide IsMaxFall, IsFallRatio, Ratio;
    amount, pct, duration := 0.0, 0.0, 0;
    assert BelowThroughout(values, 0, 0);
    if values == [] {
      LargestOfAll(values, 0.0, 0.0);
      return;
    }
    var peak := values[0];
    var current := 0;
    var i := 0;
    while i < |values|
      invariant 0 <= i <= |values|
      invariant peak == if i == 0 then values[0] else Peak(values, i)
      invariant current == Trailing(values, i)
      invariant LargestSoFar(values, i, amount, pct)
      invariant LongestSoFar(values, i, duration)
    {
      var v := values[i];
      ghost var d, p, m := amount, pct, duration;
      if v >= peak {
        peak := v;
        current := 0;
      } else {
        current := current + 1;
        var fall := peak - v;
        var ratio := Ratio(fall, peak);
        if fall > amount {
          amount, pct := fall, ratio;
        }
        duration := if current > duration then current else duration;
      }
      assert peak == Peak(values, i + 1);
      LargestGrows(values, i, d, p, amount, pct);
      LongestGrows(values, i, m, duration);
      i := i + 1;
    }
    LargestOfAll(values, amount, pct);
  }

  /** The contracts leave no choice: on every series the two loops return the same amount and
      the same percentage. */
  lemma DrawdownIsDetermined(values: seq<real>, amount: real, pct: real, amount': real, pct': real)
    requires IsMaxFall(values, amount) && IsFallRatio(values, amount, pct)
    requires IsMaxFall(values, amount') && IsFallRatio(values, amount', pct')
    ensures amount == amount' && pct == pct'
  {
    MaxFallIsUnique(values, amount, amount');
    FallRatioIsUnique(values, amount, pct, pct');
  }
}
