/**
 * The stateless candle and indicator predicates shared by selection and
 * entry. Each one answers false instead of raising: a missing column, an
 * index out of range or a NaN comparison all read as false.
 */
module Conditions {
  import opened Wrappers
  import opened Bars
  import opened Values
  import PyStr

  /** v < bound, where a missing value (an exception) reads as false. */
  predicate Below(v: Option<real>, bound: real) { v.Some? && v.value < bound }

  /** J < threshold at bar i. */
  function IsKdjLow(f: Frame, i: int, threshold: real): (r: bool)
    ensures r <==> J in f.columns && 0 <= i < |f.bars| && f.bars[i].j < threshold
  {
    if J !in f.columns || i >= f.Len() || i < 0 then false
    else Below(ValueAt(f, J, i), threshold)
  }

  /** Bar i's low and high are both strictly below those of the two bars before it. */
  function IsBottomPattern(f: Frame, i: int): (r: bool)
    ensures r <==>
      Low in f.columns && High in f.columns && 2 <= i < |f.bars| &&
      f.bars[i].low < f.bars[i - 1].low && f.bars[i].low < f.bars[i - 2].low &&
      f.bars[i].high < f.bars[i - 1].high && f.bars[i].high < f.bars[i - 2].high
  {
    if i < 2 then false
    else
      var l0, l1, l2 := ValueAt(f, Low, i), ValueAt(f, Low, i - 1), ValueAt(f, Low, i - 2);
      var h0, h1, h2 := ValueAt(f, High, i), ValueAt(f, High, i - 1), ValueAt(f, High, i - 2);
      if l0.None? || h0.None? || l1.None? || l2.None? || h1.None? || h2.None? then false
      else Below(l0, l1.value) && Below(l0, l2.value) && Below(h0, h1.value) && Below(h0, h2.value)
  }

  /** close > open × (1 + pct) at bar i. */
  function IsBigPositive(f: Frame, i: int, pct: real): (r: bool)
    ensures r <==>
      Open in f.columns && Close in f.columns && 0 <= i < |f.bars| &&
      f.bars[i].close > f.bars[i].open * (1.0 + pct)
  {
    if i < 0 || i >= f.Len() then false
    else
      var close, open := ValueAt(f, Close, i), ValueAt(f, Open, i);
      close.Some? && open.Some? && close.value > open.value * (1.0 + pct)
  }

  /** rolling(window).mean().iloc[i]: NaN (None) until `window` closes are available. */
  function RollingMeanAt(closes: seq<real>, window: nat, p: nat): (r: Option<real>)
    requires 0 < window && p < |closes|
    ensures r.Some? <==> p + 1 >= window
  {
    if p + 1 < window then None else Mean(closes[p + 1 - window..p + 1])
  }

  /**
   * close[i] above the simple moving average of the `window` closes ending
   * at bar i. A negative i counts from the end, as iloc does; a float window
   * makes pandas raise, which reads as false.
   */
  function IsAboveMa(f: Frame, i: int, window: Num): (r: bool)
    ensures r <==>
      window.Int? && window.i > 0 && Close in f.columns && |f.bars| >= window.i &&
      -|f.bars| <= i < |f.bars| &&
      var p := if i < 0 then |f.bars| + i else i;
      p + 1 >= window.i &&
      f.bars[p].close > Sum(Series(f, Close)[p + 1 - window.i..p + 1]) / window.i as real
  {
    if window.Real() <= 0.0 || f.Len() as real <= i as real || (f.Len() as real) < window.Real() then false
    else if !window.Int? || Close !in f.columns then false
    else
      var closes := Series(f, Close);
      var price := PyStr.At(closes, i);
      if price.None? then false
      else
        var p := if i < 0 then f.Len() + i else i;
        var ma := RollingMeanAt(closes, window.i, p);
        ma.Some? && price.value > ma.value
  }

  /** The mean volume of bars [i - lookback, i), by Python slicing. */
  function PriorVolumeMean(f: Frame, i: int, lookback: int): Option<real>
  {
    Mean(PyStr.Slice(Series(f, Volume), i - lookback, i))
  }

  /** volume[i] > mean(previous `lookback` volumes) × ratio. */
  function IsVolumeSurge(f: Frame, i: int, ratio: real, lookback: int): (r: bool)
    ensures lookback > 0 ==>
      (r <==> (Volume in f.columns && lookback <= i < |f.bars| &&
        f.bars[i].volume > Sum(Series(f, Volume)[i - lookback..i]) / lookback as real * ratio))
  {
    if Volume !in f.columns || i < lookback then false
    else
      var avg, v := PriorVolumeMean(f, i, lookback), ValueAt(f, Volume, i);
      avg.Some? && v.Some? && v.value > avg.value * ratio
  }

  /**
   * avg / ratio as numpy computes it for a float average: dividing by zero
   * gives +inf for a positive average (every volume is below it) and NaN
   * or -inf otherwise (no volume is below it).
   */
  function BelowRatio(v: real, avg: real, ratio: real): bool
  {
    if ratio == 0.0 then avg > 0.0 else v < avg / ratio
  }

  /** volume[i] < mean(previous `lookback` volumes) / ratio. */
  function IsVolumeShrink(f: Frame, i: int, ratio: real, lookback: int): (r: bool)
    ensures lookback > 0 && ratio != 0.0 ==>
      (r <==> (Volume in f.columns && lookback <= i < |f.bars| &&
        f.bars[i].volume < Sum(Series(f, Volume)[i - lookback..i]) / lookback as real / ratio))
  {
    if Volume !in f.columns || i < lookback then false
    else
      var avg, v := PriorVolumeMean(f, i, lookback), ValueAt(f, Volume, i);
      avg.Some? && v.Some? && BelowRatio(v.value, avg.value, ratio)
  }

  /** MACD crosses from negative at bar i − 1 to positive at bar i. */
  function IsMacdGoldenCross(f: Frame, i: int): (r: bool)
    ensures r <==> Macd in f.columns && 1 <= i < |f.bars| && f.bars[i - 1].macd < 0.0 && f.bars[i].macd > 0.0
  {
    if Macd !in f.columns || i < 1 then false
    else
      var prev, cur := ValueAt(f, Macd, i - 1), ValueAt(f, Macd, i);
      prev.Some? && cur.Some? && prev.value < 0.0 && cur.value > 0.0
  }

  /** A golden cross at bar i rules one out at bar i + 1. */
  lemma GoldenCrossNotTwiceInARow(f: Frame, i: int)
    requires IsMacdGoldenCross(f, i)
    ensures !IsMacdGoldenCross(f, i + 1)
  {
  }

  /** A one-bar average is the close itself, so `is_above_ma` with window 1 never holds. */
  lemma AboveOneBarAverageNever(f: Frame, i: int)
    ensures !IsAboveMa(f, i, Int(1))
  {
    if Close in f.columns && -|f.bars| <= i < |f.bars| {
      var p := if i < 0 then |f.bars| + i else i;
      var s := Series(f, Close)[p..p + 1];
      assert s == [f.bars[p].close];
      assert Sum(s) == f.bars[p].close;
    }
  }

  /** With ratio ≥ 1 and non-negative volumes, a bar cannot be both a surge and a shrink. */
  lemma SurgeExcludesShrink(f: Frame, i: int, ratio: real, lookback: int)
    requires ratio >= 1.0 && lookback > 0
    requires forall k :: 0 <= k < |f.bars| ==> f.bars[k].volume >= 0.0
    ensures !(IsVolumeSurge(f, i, ratio, lookback) && IsVolumeShrink(f, i, ratio, lookback))
  {
    if Volume in f.columns && lookback <= i < |f.bars| {
      var w := Series(f, Volume)[i - lookback..i];
      NonNegativeSum(w);
      var avg := Sum(w) / lookback as real;
      var q := avg / ratio;
      assert q * ratio == avg;
      MulNonNegative(q, ratio - 1.0);
      MulNonNegative(avg, ratio - 1.0);
      assert q <= avg <= avg * ratio;
    }
  }

  lemma MulNonNegative(a: real, b: real)
    requires a >= 0.0 && b >= 0.0
    ensures a * b >= 0.0
  {
  }

  lemma {:induction false} NonNegativeSum(s: seq<real>)
    requires forall k :: 0 <= k < |s| ==> s[k] >= 0.0
    ensures Sum(s) >= 0.0
  {
    if s != [] { NonNegativeSum(s[1..]); }
  }
}
