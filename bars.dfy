/**
 * Daily OHLCV frames as the quant code sees them: one bar per trading day,
 * indexed by position (`iloc`) or by day number (`loc`), with the optional
 * indicator columns a frame may or may not carry.
 */
module Bars {
  import opened Wrappers
  import PyStr

  /** A column name of a price frame. */
  datatype Column = Open | High | Low | Close | Volume | J | Macd

  /** One bar; `day` is the date as a day number. Absent columns hold an unused value. */
  datatype Bar = Bar(day: int, open: real, high: real, low: real, close: real, volume: real, j: real, macd: real)

  datatype Frame = Frame(bars: seq<Bar>, columns: set<Column>)
  {
    function Len(): nat { |bars| }

    /** Dates are strictly increasing, so the date index is unique and sorted. */
    predicate Valid()
    {
      forall a, b :: 0 <= a < b < |bars| ==> bars[a].day < bars[b].day
    }

    predicate HasDay(d: int)
    {
      exists k :: 0 <= k < |bars| && bars[k].day == d
    }
  }

  function Field(b: Bar, c: Column): real
  {
    match c
    case Open => b.open
    case High => b.high
    case Low => b.low
    case Close => b.close
    case Volume => b.volume
    case J => b.j
    case Macd => b.macd
  }

  /** df[c] as a sequence; only meaningful when c is a column of the frame. */
  function Series(f: Frame, c: Column): (s: seq<real>)
    ensures |s| == |f.bars| && forall k :: 0 <= k < |s| ==> s[k] == Field(f.bars[k], c)
  {
    seq(|f.bars|, k requires 0 <= k < |f.bars| => Field(f.bars[k], c))
  }

  /** df[c].iloc[i]; None where pandas raises KeyError or IndexError. */
  function ValueAt(f: Frame, c: Column, i: int): (r: Option<real>)
    ensures r.Some? <==> c in f.columns && -|f.bars| <= i < |f.bars|
    ensures 0 <= i < |f.bars| && c in f.columns ==> r == Some(Field(f.bars[i], c))
  {
    if c in f.columns then PyStr.At(Series(f, c), i) else None
  }

  function Sum(s: seq<real>): real
  {
    if s == [] then 0.0 else s[0] + Sum(s[1..])
  }

  /** Series.mean(); None (NaN) for an empty series. */
  function Mean(s: seq<real>): (r: Option<real>)
    ensures r.Some? <==> s != []
  {
    if s == [] then None else Some(Sum(s) / |s| as real)
  }

  /** Position of the bar dated d (`df.index.get_loc(d)`), if any. */
  function IndexOfDay(f: Frame, d: int): (r: Option<nat>)
    requires f.Valid()
    ensures r.Some? ==> r.value < |f.bars| && f.bars[r.value].day == d
    ensures r.None? <==> !f.HasDay(d)
  {
    IndexFrom(f.bars, d, 0)
  }

  function IndexFrom(bars: seq<Bar>, d: int, k: nat): (r: Option<nat>)
    ensures r.Some? ==> k <= r.value < |bars| && bars[r.value].day == d
    ensures r.None? ==> forall m :: k <= m < |bars| ==> bars[m].day != d
    decreases |bars| - k
  {
    if k >= |bars| then None else if bars[k].day == d then Some(k) else IndexFrom(bars, d, k + 1)
  }

  /** df.loc[d]: the bar dated d. */
  function BarOn(f: Frame, d: int): (b: Bar)
    requires f.Valid() && f.HasDay(d)
    ensures b in f.bars && b.day == d
  {
    f.bars[IndexOfDay(f, d).value]
  }

  /** The last bar (`df.iloc[-1]`). */
  function Last(f: Frame): Bar
    requires f.bars != []
  {
    f.bars[|f.bars| - 1]
  }
}
