/**
 * The legacy B1 rule engine: seven named bar conditions, switched on and
 * off by a flag dict and combined by AND, OR or a weighted score; a scan
 * that emits one buy signal per triggered bar; validated setters for the
 * flags, the combination logic and the weights; and two screens over a
 * dict of frames. Unlike the shared predicates of Conditions, these
 * checks do not guard their column accesses: a missing column raises
 * KeyError, and the exception escapes to the caller.
 */
module LegacyB1 {
  import opened Wrappers
  import opened Bars
  import opened Values
  import opened Selection
  import Conditions

  const KdjCondition := "kdj_condition"
  const BottomPattern := "bottom_pattern_condition"
  const BigPositive := "big_positive_condition"
  const AboveMa := "above_ma_condition"
  const VolumeSurge := "volume_surge_condition"
  const VolumeShrink := "volume_shrink_condition"
  const MacdGoldenCross := "macd_golden_cross"

  /**
   * The condition names in the key order of the flag and weight dicts. The
   * setters only overwrite existing keys, so this order never changes.
   */
  const ConditionNames: seq<string> :=
    [KdjCondition, BottomPattern, BigPositive, AboveMa, VolumeSurge, VolumeShrink, MacdGoldenCross]

  const DefaultParams: Params := map[
    "kdj_threshold" := Int(10), "j_threshold" := Int(-10),
    "stop_loss_pct" := Float(0.12), "take_profit_pct" := Float(0.3),
    "position_ratio" := Float(0.2), "min_trade_days" := Int(20),
    "max_hold_days" := Int(30), "ma_window" := Int(20),
    "volume_ratio" := Float(2.0), "big_positive_pct" := Float(0.05)]

  /** The four price conditions on, the volume and MACD ones off. */
  const DefaultActive: map<string, bool> := map[
    KdjCondition := true, BottomPattern := true, BigPositive := true, AboveMa := true,
    VolumeSurge := false, VolumeShrink := false, MacdGoldenCross := false]

  const DefaultWeights: map<string, real> := map[
    KdjCondition := 1.0, BottomPattern := 1.0, BigPositive := 1.0, AboveMa := 1.0,
    VolumeSurge := 0.5, VolumeShrink := 0.5, MacdGoldenCross := 0.5]

  const Logics: seq<string> := ["AND", "OR", "WEIGHTED"]

  /** The engine's configuration: what the setters change. */
  datatype Config = Config(params: Params, active: map<string, bool>, logic: string, weights: map<string, real>)

  // ------ cells and parameters ------

  function ColumnName(c: Column): string
  {
    match c
    case Open => "open"
    case High => "high"
    case Low => "low"
    case Close => "close"
    case Volume => "volume"
    case J => "J"
    case Macd => "MACD"
  }

  /** df[c].iloc[i] for an in-range i: KeyError when the column is missing. */
  function Cell(f: Frame, c: Column, i: int): (r: Result<real>)
    requires 0 <= i < |f.bars|
    ensures r.Ok? <==> c in f.columns
    ensures r.Ok? ==> r.value == Field(f.bars[i], c)
    ensures r.Err? ==> r.error == KeyError(ColumnName(c))
  {
    if c in f.columns then Ok(Field(f.bars[i], c)) else Err(KeyError(ColumnName(c)))
  }

  /** self.params[key] as a number. */
  function Param(p: Params, key: string): (r: Result<real>)
    ensures r.Ok? <==> key in p
    ensures r.Ok? ==> r.value == p[key].Real()
  {
    if key in p then Ok(p[key].Real()) else Err(KeyError(key))
  }

  // ------ the seven conditions ------

  /** J below j_threshold. */
  function KdjCheck(p: Params, f: Frame, i: int): Result<bool>
    requires 0 <= i < |f.bars|
  {
    var j :- Cell(f, J, i);
    var t :- Param(p, "j_threshold");
    Ok(j < t)
  }

  /**
   * The bar's low and high are below those of the two bars before it. The
   * `and` chain stops at the first false comparison, so the high column is
   * read only once both low comparisons hold.
   */
  function BottomCheck(f: Frame, i: int): Result<bool>
    requires 0 <= i < |f.bars|
  {
    if i < 2 then Ok(false)
    else
      var l0 :- Cell(f, Low, i);
      var l1 :- Cell(f, Low, i - 1);
      var l2 :- Cell(f, Low, i - 2);
      if !(l0 < l1 && l0 < l2) then Ok(false)
      else
        var h0 :- Cell(f, High, i);
        var h1 :- Cell(f, High, i - 1);
        var h2 :- Cell(f, High, i - 2);
        Ok(h0 < h1 && h0 < h2)
  }

  /** close > open × (1 + big_positive_pct), from the second bar on. */
  function BigPositiveCheck(p: Params, f: Frame, i: int): Result<bool>
    requires 0 <= i < |f.bars|
  {
    if i < 1 then Ok(false)
    else
      var close :- Cell(f, Close, i);
      var open :- Cell(f, Open, i);
      var pct :- Param(p, "big_positive_pct");
      Ok(close > open * (1.0 + pct))
  }

  /**
   * close above the rolling mean of ma_window closes. pandas refuses a
   * negative or non-integer window with ValueError; a zero window and the
   * first window − 1 bars give a NaN mean, which compares false.
   */
  function AboveMaCheck(p: Params, f: Frame, i: int): Result<bool>
    requires 0 <= i < |f.bars|
  {
    if Close !in f.columns then Err(KeyError("close"))
    else if "ma_window" !in p then Err(KeyError("ma_window"))
    else
      match p["ma_window"]
      case Float(_) => Err(ValueError("window must be an integer 0 or greater"))
      case Int(w) =>
        if w < 0 then Err(ValueError("window must be an integer 0 or greater"))
        else if w == 0 then Ok(false)
        else
          var ma := Conditions.RollingMeanAt(Series(f, Close), w, i);
          Ok(ma.Some? && f.bars[i].close > ma.value)
  }

  /** The mean volume of the five bars before bar i. */
  function PriorVolume(f: Frame, i: int): real
    requires 5 <= i <= |f.bars|
  {
    Sum(Series(f, Volume)[i - 5..i]) / 5.0
  }

  /** volume above volume_ratio × the five-bar average, from the sixth bar on. */
  function VolumeSurgeCheck(p: Params, f: Frame, i: int): Result<bool>
    requires 0 <= i < |f.bars|
  {
    if i < 5 then Ok(false)
    else if Volume !in f.columns then Err(KeyError("volume"))
    else
      var ratio :- Param(p, "volume_ratio");
      Ok(f.bars[i].volume > PriorVolume(f, i) * ratio)
  }

  /** volume below the five-bar average / volume_ratio (numpy's division by zero included). */
  function VolumeShrinkCheck(p: Params, f: Frame, i: int): Result<bool>
    requires 0 <= i < |f.bars|
  {
    if i < 5 then Ok(false)
    else if Volume !in f.columns then Err(KeyError("volume"))
    else
      var ratio :- Param(p, "volume_ratio");
      Ok(Conditions.BelowRatio(f.bars[i].volume, PriorVolume(f, i), ratio))
  }

  /** MACD negative at the previous bar and positive now; false without a MACD column. */
  function MacdCheck(f: Frame, i: int): Result<bool>
    requires 0 <= i < |f.bars|
  {
    if Macd !in f.columns || i < 1 then Ok(false)
    else Ok(f.bars[i - 1].macd < 0.0 && f.bars[i].macd > 0.0)
  }

  /** condition_functions[name](df, i); an unknown name is a KeyError. */
  function Check(name: string, p: Params, f: Frame, i: int): Result<bool>
    requires 0 <= i < |f.bars|
  {
    if name == KdjCondition then KdjCheck(p, f, i)
    else if name == BottomPattern then BottomCheck(f, i)
    else if name == BigPositive then BigPositiveCheck(p, f, i)
    else if name == AboveMa then AboveMaCheck(p, f, i)
    else if name == VolumeSurge then VolumeSurgeCheck(p, f, i)
    else if name == VolumeShrink then VolumeShrinkCheck(p, f, i)
    else if name == MacdGoldenCross then MacdCheck(f, i)
    else Err(KeyError(name))
  }

  /** Met: the check ran and answered true. */
  predicate Holds(name: string, p: Params, f: Frame, i: int)
    requires 0 <= i < |f.bars|
  {
    Check(name, p, f, i) == Ok(true)
  }

  /** A condition whose column is there and whose parameters are usable raises nothing. */
  lemma ChecksDefined(name: string, p: Params, f: Frame, i: int)
    requires 0 <= i < |f.bars| && name in ConditionNames
    requires {Open, High, Low, Close, Volume, J} <= f.columns
    requires "j_threshold" in p && "big_positive_pct" in p && "volume_ratio" in p
    requires "ma_window" in p && p["ma_window"].Int? && p["ma_window"].i >= 0
    ensures Check(name, p, f, i).Ok?
  {
  }

  /** The seven names are pairwise distinct (their lengths differ, except for two with different first letters). */
  lemma NamesDistinct()
    ensures |KdjCondition| == 13 && |BottomPattern| == 24 && |BigPositive| == 22 && |AboveMa| == 18
    ensures |VolumeSurge| == 22 && |VolumeShrink| == 23 && |MacdGoldenCross| == 17
    ensures BigPositive != VolumeSurge
  {
    assert BigPositive[0] != VolumeSurge[0];
  }

  /** The default flag and weight dicts hold exactly the seven names. */
  lemma DefaultsCover()
    ensures forall n :: n in DefaultActive <==> n in ConditionNames
    ensures forall n :: n in DefaultWeights <==> n in ConditionNames
  {
    NamesDistinct();
  }

  /** Every default weight is positive. */
  lemma DefaultWeightsPositive()
    ensures forall n :: n in DefaultWeights ==> DefaultWeights[n] > 0.0
  {
  }

  // ------ combination ------

  predicate IsActive(active: map<string, bool>, name: string)
  {
    name in active && active[name]
  }

  /** The active names, in order. */
  function ActiveNames(names: seq<string>, active: map<string, bool>): (r: seq<string>)
    ensures forall n :: n in r <==> n in names && IsActive(active, n)
  {
    if names == [] then []
    else (if IsActive(active, names[0]) then [names[0]] else []) + ActiveNames(names[1..], active)
  }

  /** The AND loop: the first inactive-skipping false answer stops it; no active condition means true. */
  function AllFrom(names: seq<string>, active: map<string, bool>, p: Params, f: Frame, i: int): Result<bool>
    requires 0 <= i < |f.bars|
  {
    if names == [] then Ok(true)
    else if !IsActive(active, names[0]) then AllFrom(names[1..], active, p, f, i)
    else
      var c :- Check(names[0], p, f, i);
      if !c then Ok(false) else AllFrom(names[1..], active, p, f, i)
  }

  /** The OR loop: the first true answer stops it; no active condition means false. */
  function AnyFrom(names: seq<string>, active: map<string, bool>, p: Params, f: Frame, i: int): Result<bool>
    requires 0 <= i < |f.bars|
  {
    if names == [] then Ok(false)
    else if !IsActive(active, names[0]) then AnyFrom(names[1..], active, p, f, i)
    else
      var c :- Check(names[0], p, f, i);
      if c then Ok(true) else AnyFrom(names[1..], active, p, f, i)
  }

  /** The totals (weight, score) of the weighted loop over names, added to (tw, ts). */
  function WeighFrom(names: seq<string>, c: Config, f: Frame, i: int, tw: real, ts: real): Result<(real, real)>
    requires 0 <= i < |f.bars|
  {
    if names == [] then Ok((tw, ts))
    else if !IsActive(c.active, names[0]) then WeighFrom(names[1..], c, f, i, tw, ts)
    else if names[0] !in c.weights then Err(KeyError(names[0]))
    else
      var w := c.weights[names[0]];
      var met :- Check(names[0], c.params, f, i);
      WeighFrom(names[1..], c, f, i, tw + w, if met then ts + w else ts)
  }

  /** total_score / total_weight, or 0 when no weight is active. */
  function Score(tw: real, ts: real): real
  {
    if tw == 0.0 then 0.0 else ts / tw
  }

  /** _combine_conditions_weighted. */
  function Weighted(c: Config, f: Frame, i: int): Result<real>
    requires 0 <= i < |f.bars|
  {
    var t :- WeighFrom(ConditionNames, c, f, i, 0.0, 0.0);
    Ok(Score(t.0, t.1))
  }

  /** Whether bar i triggers under the configured logic; an unknown logic never triggers. */
  function Triggered(c: Config, f: Frame, i: int): Result<bool>
    requires 0 <= i < |f.bars|
  {
    if c.logic == "AND" then AllFrom(ConditionNames, c.active, c.params, f, i)
    else if c.logic == "OR" then AnyFrom(ConditionNames, c.active, c.params, f, i)
    else if c.logic == "WEIGHTED" then
      var s :- Weighted(c, f, i);
      Ok(s > 0.7)
    else Ok(false)
  }

  /** Where every active check runs, AND means "every active condition holds" (vacuously true). */
  lemma {:induction false} AllFromMeaning(names: seq<string>, active: map<string, bool>, p: Params, f: Frame, i: int)
    requires 0 <= i < |f.bars|
    requires forall n :: n in names && IsActive(active, n) ==> Check(n, p, f, i).Ok?
    ensures AllFrom(names, active, p, f, i) ==
      Ok(forall n :: n in names && IsActive(active, n) ==> Holds(n, p, f, i))
  {
    if names != [] {
      AllFromMeaning(names[1..], active, p, f, i);
    }
  }

  /** Where every active check runs, OR means "some active condition holds" (false with none active). */
  lemma {:induction false} AnyFromMeaning(names: seq<string>, active: map<string, bool>, p: Params, f: Frame, i: int)
    requires 0 <= i < |f.bars|
    requires forall n :: n in names && IsActive(active, n) ==> Check(n, p, f, i).Ok?
    ensures AnyFrom(names, active, p, f, i) ==
      Ok(exists n :: n in names && IsActive(active, n) && Holds(n, p, f, i))
  {
    if names != [] {
      AnyFromMeaning(names[1..], active, p, f, i);
    }
  }

  /** With no active condition, AND answers true and OR false without evaluating anything. */
  lemma {:induction false} NoneActive(names: seq<string>, active: map<string, bool>, p: Params, f: Frame, i: int)
    requires 0 <= i < |f.bars|
    requires forall k :: 0 <= k < |names| ==> !IsActive(active, names[k])
    ensures AllFrom(names, active, p, f, i) == Ok(true)
    ensures AnyFrom(names, active, p, f, i) == Ok(false)
  {
    if names != [] {
      assert forall k :: 0 <= k < |names[1..]| ==> names[1..][k] == names[k + 1];
      NoneActive(names[1..], active, p, f, i);
    }
  }

  predicate NonNegativeWeights(c: Config)
  {
    forall n :: n in c.weights ==> c.weights[n] >= 0.0
  }

  /**
   * With non-negative weights the weighted totals grow by the active
   * weights, the score total never passes the weight total, and it reaches
   * it when every active condition holds.
   */
  lemma {:induction false} WeighBounds(names: seq<string>, c: Config, f: Frame, i: int, tw: real, ts: real)
    requires 0 <= i < |f.bars| && NonNegativeWeights(c) && 0.0 <= ts <= tw
    requires WeighFrom(names, c, f, i, tw, ts).Ok?
    ensures var t := WeighFrom(names, c, f, i, tw, ts).value;
      tw <= t.0 && ts <= t.1 <= t.0 &&
      ((forall n :: n in names && IsActive(c.active, n) ==> Holds(n, c.params, f, i)) && ts == tw ==> t.1 == t.0)
  {
    if names != [] {
      if !IsActive(c.active, names[0]) {
        WeighBounds(names[1..], c, f, i, tw, ts);
      } else {
        var w := c.weights[names[0]];
        var met := Check(names[0], c.params, f, i).value;
        WeighBounds(names[1..], c, f, i, tw + w, if met then ts + w else ts);
      }
    }
  }

  /** The weighted score lies in [0, 1] whenever the weights are non-negative. */
  lemma WeightedInUnit(c: Config, f: Frame, i: int)
    requires 0 <= i < |f.bars| && NonNegativeWeights(c) && Weighted(c, f, i).Ok?
    ensures 0.0 <= Weighted(c, f, i).value <= 1.0
  {
    WeighBounds(ConditionNames, c, f, i, 0.0, 0.0);
    var t := WeighFrom(ConditionNames, c, f, i, 0.0, 0.0).value;
    if t.0 != 0.0 {
      assert t.1 / t.0 <= 1.0 by {
        assert t.1 <= t.0 && t.0 > 0.0;
      }
    }
  }

  /**
   * A bar on which every active condition holds scores 1 under WEIGHTED as
   * soon as an active weight is positive, so it triggers there too: AND
   * implies WEIGHTED.
   */
  lemma AllMetScoresOne(c: Config, f: Frame, i: int)
    requires 0 <= i < |f.bars| && NonNegativeWeights(c) && Weighted(c, f, i).Ok?
    requires forall n :: n in ConditionNames && IsActive(c.active, n) ==> Holds(n, c.params, f, i)
    requires WeighFrom(ConditionNames, c, f, i, 0.0, 0.0).value.0 > 0.0
    ensures Weighted(c, f, i) == Ok(1.0)
    ensures c.logic == "WEIGHTED" ==> Triggered(c, f, i) == Ok(true)
  {
    WeighBounds(ConditionNames, c, f, i, 0.0, 0.0);
    var t := WeighFrom(ConditionNames, c, f, i, 0.0, 0.0).value;
    assert t.1 == t.0 && t.0 > 0.0;
    assert t.1 / t.0 == 1.0;
  }

  // ------ the signal scan ------

  /** One buy signal of detect_b1_signal. */
  datatype LegacySignal = LegacySignal(date: int, price: real, stopLoss: real, targetPrice: real)

  /** The record for bar i: stop below the previous low, target above the close. */
  function SignalAt(p: Params, f: Frame, i: int): (r: Result<LegacySignal>)
    requires 1 <= i < |f.bars|
    ensures r.Ok? ==> r.value.date == f.bars[i].day && r.value.price == f.bars[i].close
    ensures r.Ok? ==> "stop_loss_pct" in p && r.value.stopLoss == f.bars[i - 1].low * (1.0 - p["stop_loss_pct"].Real())
    ensures r.Ok? ==> "take_profit_pct" in p && r.value.targetPrice == f.bars[i].close * (1.0 + p["take_profit_pct"].Real())
  {
    var price :- Cell(f, Close, i);
    var low :- Cell(f, Low, i - 1);
    var sl :- Param(p, "stop_loss_pct");
    var tp :- Param(p, "take_profit_pct");
    Ok(LegacySignal(f.bars[i].day, price, low * (1.0 - sl), price * (1.0 + tp)))
  }

  /** The scan from bar k to the end. */
  function ScanFrom(c: Config, f: Frame, k: nat): Result<seq<LegacySignal>>
    requires k >= 2
    decreases |f.bars| - k
  {
    if k >= |f.bars| then Ok([])
    else
      var t :- Triggered(c, f, k);
      if !t then ScanFrom(c, f, k + 1)
      else
        var s :- SignalAt(c.params, f, k);
        var rest :- ScanFrom(c, f, k + 1);
        Ok([s] + rest)
  }

  /** detect_b1_signal: nothing for a frame shorter than min_trade_days, else the scan from bar 2. */
  function Signals(c: Config, f: Frame): Result<seq<LegacySignal>>
  {
    var m :- Param(c.params, "min_trade_days");
    if (|f.bars| as real) < m then Ok([]) else ScanFrom(c, f, 2)
  }

  /** A triggered bar at or after k yields exactly its own record. */
  predicate Emitted(c: Config, f: Frame, k: nat, s: LegacySignal)
  {
    exists i :: k <= i < |f.bars| && 2 <= i && Triggered(c, f, i) == Ok(true) &&
      SignalAt(c.params, f, i) == Ok(s)
  }

  /**
   * A successful scan from k emits one record per triggered bar in
   * [k, len), and nothing else.
   */
  lemma {:induction false} ScanExact(c: Config, f: Frame, k: nat)
    requires k >= 2 && ScanFrom(c, f, k).Ok?
    ensures forall s :: s in ScanFrom(c, f, k).value ==> Emitted(c, f, k, s)
    ensures forall i :: k <= i < |f.bars| && Triggered(c, f, i) == Ok(true) ==>
      SignalAt(c.params, f, i).Ok? && SignalAt(c.params, f, i).value in ScanFrom(c, f, k).value
    decreases |f.bars| - k
  {
    if k < |f.bars| {
      ScanExact(c, f, k + 1);
      var out := ScanFrom(c, f, k).value;
      var rest := ScanFrom(c, f, k + 1).value;
      if Triggered(c, f, k) == Ok(true) {
        assert out == [SignalAt(c.params, f, k).value] + rest;
        forall s | s in out
          ensures Emitted(c, f, k, s)
        {
          if s != out[0] {
            assert s in rest;
            var i :| k + 1 <= i < |f.bars| && 2 <= i && Triggered(c, f, i) == Ok(true) && SignalAt(c.params, f, i) == Ok(s);
          }
        }
      } else {
        assert out == rest;
        forall s | s in out
          ensures Emitted(c, f, k, s)
        {
          var i :| k + 1 <= i < |f.bars| && 2 <= i && Triggered(c, f, i) == Ok(true) && SignalAt(c.params, f, i) == Ok(s);
        }
      }
    }
  }

  /** Every record of a scan from k is dated on or after bar k. */
  lemma ScanDatesFrom(c: Config, f: Frame, k: nat)
    requires k >= 2 && f.Valid() && ScanFrom(c, f, k).Ok?
    ensures forall s :: s in ScanFrom(c, f, k).value ==> k < |f.bars| && f.bars[k].day <= s.date
  {
    ScanExact(c, f, k);
    forall s | s in ScanFrom(c, f, k).value
      ensures k < |f.bars| && f.bars[k].day <= s.date
    {
      var i :| k <= i < |f.bars| && 2 <= i && Triggered(c, f, i) == Ok(true) && SignalAt(c.params, f, i) == Ok(s);
    }
  }

  /** On a frame with increasing dates the signals come out in strictly increasing date order. */
  lemma {:induction false} ScanAscending(c: Config, f: Frame, k: nat)
    requires k >= 2 && f.Valid() && ScanFrom(c, f, k).Ok?
    ensures var s := ScanFrom(c, f, k).value; forall a, b :: 0 <= a < b < |s| ==> s[a].date < s[b].date
    decreases |f.bars| - k
  {
    if k < |f.bars| {
      ScanAscending(c, f, k + 1);
      var rest := ScanFrom(c, f, k + 1).value;
      if Triggered(c, f, k) == Ok(true) {
        ScanDatesFrom(c, f, k + 1);
        var s := ScanFrom(c, f, k).value;
        assert s == [SignalAt(c.params, f, k).value] + rest;
        forall a, b | 0 <= a < b < |s|
          ensures s[a].date < s[b].date
        {
          if a == 0 {
            assert s[b] == rest[b - 1] && s[b] in rest;
            assert f.bars[k].day < f.bars[k + 1].day;
          } else {
            assert s[a] == rest[a - 1] && s[b] == rest[b - 1];
          }
        }
      }
    }
  }

  /** A frame shorter than min_trade_days yields no signal at all. */
  lemma ShortFrameSilent(c: Config, f: Frame)
    requires "min_trade_days" in c.params && (|f.bars| as real) < c.params["min_trade_days"].Real()
    ensures Signals(c, f) == Ok([])
  {
  }

  // ------ the setters' loops ------

  /**
   * The setter loop over a dict's items: each known name is written in
   * turn, and the first unknown one stops the loop with ValueError,
   * leaving the earlier writes in place. Returns the dict and the error.
   */
  function ApplyItems<V>(m: map<string, V>, items: seq<(string, V)>): (map<string, V>, Option<Exc>)
    decreases |items|
  {
    if items == [] then (m, None)
    else if items[0].0 !in ConditionNames then (m, Some(ValueError("未知的条件: " + items[0].0)))
    else ApplyItems(m[items[0].0 := items[0].1], items[1..])
  }

  /** The setters never add a key: the dict keeps exactly the condition names. */
  lemma {:induction false} ApplyItemsKeys<V>(m: map<string, V>, items: seq<(string, V)>)
    requires forall n :: n in m <==> n in ConditionNames
    ensures forall n :: n in ApplyItems(m, items).0 <==> n in ConditionNames
    decreases |items|
  {
    if items != [] && items[0].0 in ConditionNames {
      ApplyItemsKeys(m[items[0].0 := items[0].1], items[1..]);
    }
  }

  /** Items that all name conditions raise nothing. */
  lemma {:induction false} ApplyItemsKnown<V>(m: map<string, V>, items: seq<(string, V)>)
    requires forall k :: 0 <= k < |items| ==> items[k].0 in ConditionNames
    ensures ApplyItems(m, items).1.None?
    decreases |items|
  {
    if items != [] {
      assert forall k :: 0 <= k < |items[1..]| ==> items[1..][k] == items[k + 1];
      ApplyItemsKnown(m[items[0].0 := items[0].1], items[1..]);
    }
  }

  /** A name no item mentions keeps its value (or its absence). */
  lemma {:induction false} ApplyItemsUntouched<V>(m: map<string, V>, items: seq<(string, V)>, n: string)
    requires forall k :: 0 <= k < |items| ==> items[k].0 != n
    ensures n in ApplyItems(m, items).0 <==> n in m
    ensures n in m ==> ApplyItems(m, items).0[n] == m[n]
    decreases |items|
  {
    if items != [] && items[0].0 in ConditionNames {
      assert items[0].0 != n;
      assert forall k :: 0 <= k < |items[1..]| ==> items[1..][k] == items[k + 1];
      ApplyItemsUntouched(m[items[0].0 := items[0].1], items[1..], n);
    }
  }

  /** Without an unknown name, each name ends with the value of its last item. */
  lemma {:induction false} ApplyItemsLast<V>(m: map<string, V>, items: seq<(string, V)>, k: nat)
    requires forall j :: 0 <= j < |items| ==> items[j].0 in ConditionNames
    requires k < |items| && forall j :: k < j < |items| ==> items[j].0 != items[k].0
    ensures items[k].0 in ApplyItems(m, items).0 && ApplyItems(m, items).0[items[k].0] == items[k].1
    decreases |items|
  {
    var m' := m[items[0].0 := items[0].1];
    assert forall j :: 0 <= j < |items[1..]| ==> items[1..][j] == items[j + 1];
    if k > 0 {
      ApplyItemsLast(m', items[1..], k - 1);
    } else {
      ApplyItemsUntouched(m', items[1..], items[0].0);
    }
  }

  /** An unknown name at position k raises, and the dict then holds exactly the effect of items[..k]. */
  lemma {:induction false} ApplyItemsStops<V>(m: map<string, V>, items: seq<(string, V)>, k: nat)
    requires k < |items| && items[k].0 !in ConditionNames
    requires forall j :: 0 <= j < k ==> items[j].0 in ConditionNames
    ensures ApplyItems(m, items) == (ApplyItems(m, items[..k]).0, Some(ValueError("未知的条件: " + items[k].0)))
    decreases k
  {
    if k > 0 {
      var m' := m[items[0].0 := items[0].1];
      assert items[1..][k - 1] == items[k];
      assert items[1..][..k - 1] == items[..k][1..];
      ApplyItemsStops(m', items[1..], k - 1);
    }
  }

  // ------ the two screens ------

  /** One entry of a {symbol: frame} dict, in dict order. */
  type Stocks = seq<(string, Frame)>

  function Symbols(stocks: Stocks): (r: seq<string>)
    ensures |r| == |stocks| && forall k :: 0 <= k < |stocks| ==> r[k] == stocks[k].0
  {
    seq(|stocks|, k requires 0 <= k < |stocks| => stocks[k].0)
  }

  /** df['J'].iloc[-1] < threshold: KeyError without J, IndexError on an empty frame. */
  function LastJBelow(f: Frame, threshold: real): (r: Result<bool>)
    ensures r.Ok? <==> J in f.columns && f.bars != []
    ensures r.Ok? ==> r.value == (Last(f).j < threshold)
  {
    if J !in f.columns then Err(KeyError("J"))
    else if f.bars == [] then Err(IndexError("single positional indexer is out-of-bounds"))
    else Ok(Last(f).j < threshold)
  }

  /** The filter loop of filter_stocks_by_kdj over the stocks, in order. */
  function KdjFrom(stocks: Stocks, threshold: real): Result<seq<string>>
  {
    if stocks == [] then Ok([])
    else
      var pass :- LastJBelow(stocks[0].1, threshold);
      var rest :- KdjFrom(stocks[1..], threshold);
      Ok(if pass then [stocks[0].0] + rest else rest)
  }

  /** The threshold filter_stocks_by_kdj uses: the argument if given, else kdj_threshold. */
  function KdjThreshold(p: Params, threshold: Option<Num>): Result<real>
  {
    if threshold.Some? then Ok(threshold.value.Real()) else Param(p, "kdj_threshold")
  }

  /**
   * The screen raises exactly when some frame lacks J or is empty;
   * otherwise it keeps, in dict order, exactly the symbols whose last J is
   * below the threshold.
   */
  lemma {:induction false} KdjFromExact(stocks: Stocks, threshold: real)
    ensures KdjFrom(stocks, threshold).Ok? <==>
      forall k :: 0 <= k < |stocks| ==> J in stocks[k].1.columns && stocks[k].1.bars != []
    ensures KdjFrom(stocks, threshold).Ok? ==>
      var r := KdjFrom(stocks, threshold).value;
      Subsequence(r, Symbols(stocks)) &&
      forall s :: s in r <==> exists k :: 0 <= k < |stocks| && stocks[k].0 == s && Last(stocks[k].1).j < threshold
  {
    if stocks != [] {
      KdjFromExact(stocks[1..], threshold);
      assert Symbols(stocks)[1..] == Symbols(stocks[1..]);
      assert forall k :: 0 <= k < |stocks[1..]| ==> stocks[1..][k] == stocks[k + 1];
      if KdjFrom(stocks, threshold).Ok? {
        var r := KdjFrom(stocks, threshold).value;
        var rest := KdjFrom(stocks[1..], threshold).value;
        if Last(stocks[0].1).j < threshold {
          assert r == [stocks[0].0] + rest && r[1..] == rest;
        } else {
          assert r == rest;
          SubsequenceSkip(r, Symbols(stocks));
        }
        forall s | s in r
          ensures exists k :: 0 <= k < |stocks| && stocks[k].0 == s && Last(stocks[k].1).j < threshold
        {
          if s !in rest {
            assert stocks[0].0 == s;
          } else {
            var k :| 0 <= k < |stocks[1..]| && stocks[1..][k].0 == s && Last(stocks[1..][k].1).j < threshold;
            assert stocks[k + 1] == stocks[1..][k];
          }
        }
        forall k | 0 <= k < |stocks| && Last(stocks[k].1).j < threshold
          ensures stocks[k].0 in r
        {
          if k > 0 {
            assert stocks[1..][k - 1] == stocks[k];
          }
        }
      } else if LastJBelow(stocks[0].1, threshold).Ok? {
        assert !(forall k :: 0 <= k < |stocks[1..]| ==> J in stocks[1..][k].1.columns && stocks[1..][k].1.bars != []);
      }
    }
  }

  /** _get_met_conditions: the active conditions that hold, in order. */
  function MetFrom(names: seq<string>, active: map<string, bool>, p: Params, f: Frame, i: int): Result<seq<string>>
    requires 0 <= i < |f.bars|
  {
    if names == [] then Ok([])
    else if !IsActive(active, names[0]) then MetFrom(names[1..], active, p, f, i)
    else
      var c :- Check(names[0], p, f, i);
      var rest :- MetFrom(names[1..], active, p, f, i);
      Ok(if c then [names[0]] + rest else rest)
  }

  /**
   * The met list is a subsequence of the active names holding exactly the
   * active conditions that hold; when they all hold (as on a bar AND
   * triggers), it is the whole active list.
   */
  lemma {:induction false} MetFromExact(names: seq<string>, active: map<string, bool>, p: Params, f: Frame, i: int)
    requires 0 <= i < |f.bars| && MetFrom(names, active, p, f, i).Ok?
    ensures var r := MetFrom(names, active, p, f, i).value;
      Subsequence(r, ActiveNames(names, active)) &&
      (forall n :: n in r <==> n in names && IsActive(active, n) && Holds(n, p, f, i)) &&
      ((forall n :: n in names && IsActive(active, n) ==> Holds(n, p, f, i)) ==> r == ActiveNames(names, active))
  {
    if names != [] {
      MetFromExact(names[1..], active, p, f, i);
      var r := MetFrom(names, active, p, f, i).value;
      var rest := MetFrom(names[1..], active, p, f, i).value;
      var act := ActiveNames(names, active);
      if IsActive(active, names[0]) {
        assert act == [names[0]] + ActiveNames(names[1..], active) && act[1..] == ActiveNames(names[1..], active);
        if Holds(names[0], p, f, i) {
          assert r == [names[0]] + rest && r[1..] == rest;
        } else {
          assert r == rest;
          SubsequenceSkip(r, act);
        }
      } else {
        assert act == ActiveNames(names[1..], active);
      }
    }
  }

  /** One row of get_filtered_stocks_by_date's details. */
  datatype Detail = Detail(date: int, price: real, stopLoss: real, targetPrice: real, conditionsMet: seq<string>)

  /** The symbol list, or the {symbol: details} dict in insertion order. */
  datatype ByDate = SymbolList(symbols: seq<string>) | DetailList(details: seq<(string, Detail)>)

  /** The position of the target date, when it is there and has two bars before it. */
  function Position(f: Frame, target: int): (r: Option<nat>)
    requires f.Valid()
    ensures r.Some? ==> 2 <= r.value < |f.bars| && f.bars[r.value].day == target
    ensures r.None? <==> !f.HasDay(target) || IndexOfDay(f, target).value < 2
  {
    var idx := IndexOfDay(f, target);
    if idx.None? || idx.value < 2 then None else idx
  }

  function DetailAt(c: Config, f: Frame, i: int, target: int): (r: Result<Detail>)
    requires 2 <= i < |f.bars|
    ensures r.Ok? ==> (SignalAt(c.params, f, i).Ok? &&
      var s := SignalAt(c.params, f, i).value;
      r.value.date == target && r.value.price == s.price && r.value.stopLoss == s.stopLoss &&
      r.value.targetPrice == s.targetPrice && MetFrom(ConditionNames, c.active, c.params, f, i) == Ok(r.value.conditionsMet))
  {
    var s :- SignalAt(c.params, f, i);
    var met :- MetFrom(ConditionNames, c.active, c.params, f, i);
    Ok(Detail(target, s.price, s.stopLoss, s.targetPrice, met))
  }

  /** The loop of get_filtered_stocks_by_date over the stocks, in order. */
  function ByDateFrom(c: Config, stocks: Stocks, target: int, details: bool): (r: Result<ByDate>)
    requires forall k :: 0 <= k < |stocks| ==> stocks[k].1.Valid()
    ensures r.Ok? ==> r.value.DetailList? == details
  {
    if stocks == [] then Ok(if details then DetailList([]) else SymbolList([]))
    else
      var f := stocks[0].1;
      var pos := Position(f, target);
      var hit :- if pos.None? then Ok(false) else Triggered(c, f, pos.value);
      var row :- if hit && details then DetailAt(c, f, pos.value, target) else Ok(Detail(0, 0.0, 0.0, 0.0, []));
      var rest :- ByDateFrom(c, stocks[1..], target, details);
      if !hit then Ok(rest)
      else if details then Ok(DetailList([(stocks[0].0, row)] + rest.details))
      else Ok(SymbolList([stocks[0].0] + rest.symbols))
  }

  /** One step of the date screen: how the first stock's outcome joins the rest's. */
  lemma ByDateStep(c: Config, stocks: Stocks, target: int, details: bool)
    requires stocks != [] && forall k :: 0 <= k < |stocks| ==> stocks[k].1.Valid()
    ensures var f := stocks[0].1;
      var pos := Position(f, target);
      var next := ByDateFrom(c, stocks[1..], target, details);
      var r := ByDateFrom(c, stocks, target, details);
      && (pos.None? ==> r == next)
      && (pos.Some? ==>
            var t := Triggered(c, f, pos.value);
            && (t.Err? ==> r == Err(t.error))
            && (t == Ok(false) ==> r == next)
            && (t == Ok(true) && !details ==> r == Extend(details, [stocks[0].0], [], next))
            && (t == Ok(true) && details ==>
                  var row := DetailAt(c, f, pos.value, target);
                  (row.Err? ==> r == Err(row.error)) && (row.Ok? ==> r == Extend(details, [], [(stocks[0].0, row.value)], next))))
  {
    assert forall k :: 0 <= k < |stocks[1..]| ==> stocks[1..][k] == stocks[k + 1];
  }

  /** Whether the k-th stock passes on the target date: the date is there, at position ≥ 2, and triggers. */
  predicate PassesOn(c: Config, f: Frame, target: int)
    requires f.Valid()
  {
    Position(f, target).Some? && Triggered(c, f, Position(f, target).value) == Ok(true)
  }

  /**
   * A successful symbol screen keeps, in dict order, exactly the symbols
   * whose frame has the date at position 2 or later and triggers there;
   * a missing date or an early position skips the stock silently.
   */
  lemma {:induction false} ByDateSymbols(c: Config, stocks: Stocks, target: int)
    requires forall k :: 0 <= k < |stocks| ==> stocks[k].1.Valid()
    requires ByDateFrom(c, stocks, target, false).Ok?
    ensures var r := ByDateFrom(c, stocks, target, false).value.symbols;
      Subsequence(r, Symbols(stocks)) &&
      forall s :: s in r <==> exists k :: 0 <= k < |stocks| && stocks[k].0 == s && PassesOn(c, stocks[k].1, target)
  {
    if stocks != [] {
      ByDateSymbols(c, stocks[1..], target);
      assert Symbols(stocks)[1..] == Symbols(stocks[1..]);
      assert forall k :: 0 <= k < |stocks[1..]| ==> stocks[1..][k] == stocks[k + 1];
      var r := ByDateFrom(c, stocks, target, false).value.symbols;
      var rest := ByDateFrom(c, stocks[1..], target, false).value.symbols;
      if PassesOn(c, stocks[0].1, target) {
        assert r == [stocks[0].0] + rest && r[1..] == rest;
      } else {
        assert r == rest;
        SubsequenceSkip(r, Symbols(stocks));
      }
      forall s | s in r
        ensures exists k :: 0 <= k < |stocks| && stocks[k].0 == s && PassesOn(c, stocks[k].1, target)
      {
        if s !in rest {
          assert stocks[0].0 == s;
        } else {
          var k :| 0 <= k < |stocks[1..]| && stocks[1..][k].0 == s && PassesOn(c, stocks[1..][k].1, target);
          assert stocks[k + 1] == stocks[1..][k];
        }
      }
      forall k | 0 <= k < |stocks| && PassesOn(c, stocks[k].1, target)
        ensures stocks[k].0 in r
      {
        if k > 0 {
          assert stocks[1..][k - 1] == stocks[k];
        }
      }
    }
  }

  /**
   * Each detail row is the signal record at the target position, dated by
   * the target, and lists the met active conditions of that bar.
   */
  lemma {:induction false} ByDateDetails(c: Config, stocks: Stocks, target: int)
    requires forall k :: 0 <= k < |stocks| ==> stocks[k].1.Valid()
    requires ByDateFrom(c, stocks, target, true).Ok?
    ensures forall e :: e in ByDateFrom(c, stocks, target, true).value.details ==>
      exists k :: 0 <= k < |stocks| && stocks[k].0 == e.0 && PassesOn(c, stocks[k].1, target) &&
        DetailAt(c, stocks[k].1, Position(stocks[k].1, target).value, target) == Ok(e.1)
  {
    if stocks != [] {
      ByDateDetails(c, stocks[1..], target);
      var r := ByDateFrom(c, stocks, target, true).value.details;
      var rest := ByDateFrom(c, stocks[1..], target, true).value.details;
      forall e | e in r
        ensures exists k :: (0 <= k < |stocks| && stocks[k].0 == e.0 && PassesOn(c, stocks[k].1, target) &&
          DetailAt(c, stocks[k].1, Position(stocks[k].1, target).value, target) == Ok(e.1))
      {
        if PassesOn(c, stocks[0].1, target) && e !in rest {
          assert r == [(stocks[0].0, DetailAt(c, stocks[0].1, Position(stocks[0].1, target).value, target).value)] + rest;
        } else {
          assert e in rest;
          var k :| 0 <= k < |stocks[1..]| && stocks[1..][k].0 == e.0 && PassesOn(c, stocks[1..][k].1, target) &&
            DetailAt(c, stocks[1..][k].1, Position(stocks[1..][k].1, target).value, target) == Ok(e.1);
          assert stocks[k + 1] == stocks[1..][k];
        }
      }
    }
  }

  // ------ the engine object ------

  /** B1Strategy: the configuration as fields the setters update in place. */
  class B1Strategy {
    var params: Params
    var active: map<string, bool>
    var logic: string
    var weights: map<string, real>

    /** The flag and weight dicts hold exactly the seven condition names. */
    ghost predicate Valid()
      reads this
    {
      (forall n :: n in active <==> n in ConditionNames) && (forall n :: n in weights <==> n in ConditionNames)
    }

    function Snapshot(): Config
      reads this
    {
      Config(params, active, logic, weights)
    }

    constructor()
      ensures params == DefaultParams && active == DefaultActive && logic == "AND" && weights == DefaultWeights
      ensures Valid() && NonNegativeWeights(Snapshot())
    {
      params := DefaultParams;
      active := DefaultActive;
      logic := "AND";
      weights := DefaultWeights;
      DefaultsCover();
      DefaultWeightsPositive();
    }

    /** _combine_conditions_and, the loop that returns at the first false. */
    method CombineAnd(f: Frame, i: int) returns (r: Result<bool>)
      requires 0 <= i < |f.bars|
      ensures r == AllFrom(ConditionNames, active, params, f, i)
    {
      var k := 0;
      while k < |ConditionNames|
        invariant 0 <= k <= |ConditionNames|
        invariant AllFrom(ConditionNames, active, params, f, i) == AllFrom(ConditionNames[k..], active, params, f, i)
      {
        var n := ConditionNames[k];
        assert ConditionNames[k..][0] == n && ConditionNames[k..][1..] == ConditionNames[k + 1..];
        if IsActive(active, n) {
          var c := Check(n, params, f, i);
          if c.Err? {
            return Err(c.error);
          }
          if !c.value {
            return Ok(false);
          }
        }
        k := k + 1;
      }
      return Ok(true);
    }

    /** _combine_conditions_or, the loop that returns at the first true. */
    method CombineOr(f: Frame, i: int) returns (r: Result<bool>)
      requires 0 <= i < |f.bars|
      ensures r == AnyFrom(ConditionNames, active, params, f, i)
    {
      var k := 0;
      while k < |ConditionNames|
        invariant 0 <= k <= |ConditionNames|
        invariant AnyFrom(ConditionNames, active, params, f, i) == AnyFrom(ConditionNames[k..], active, params, f, i)
      {
        var n := ConditionNames[k];
        assert ConditionNames[k..][0] == n && ConditionNames[k..][1..] == ConditionNames[k + 1..];
        if IsActive(active, n) {
          var c := Check(n, params, f, i);
          if c.Err? {
            return Err(c.error);
          }
          if c.value {
            return Ok(true);
          }
        }
        k := k + 1;
      }
      return Ok(false);
    }

    /** _combine_conditions_weighted, accumulating both totals. */
    method CombineWeighted(f: Frame, i: int) returns (r: Result<real>)
      requires 0 <= i < |f.bars|
      ensures r == Weighted(Snapshot(), f, i)
    {
      var tw, ts := 0.0, 0.0;
      var k := 0;
      while k < |ConditionNames|
        invariant 0 <= k <= |ConditionNames|
        invariant WeighFrom(ConditionNames, Snapshot(), f, i, 0.0, 0.0) == WeighFrom(ConditionNames[k..], Snapshot(), f, i, tw, ts)
      {
        var n := ConditionNames[k];
        assert ConditionNames[k..][0] == n && ConditionNames[k..][1..] == ConditionNames[k + 1..];
        if IsActive(active, n) {
          if n !in weights {
            return Err(KeyError(n));
          }
          var w := weights[n];
          tw := tw + w;
          var c := Check(n, params, f, i);
          if c.Err? {
            return Err(c.error);
          }
          if c.value {
            ts := ts + w;
          }
        }
        k := k + 1;
      }
      if tw == 0.0 {
        return Ok(0.0);
      }
      return Ok(ts / tw);
    }

    /** The logic dispatch shared by the scan and the date screen. */
    method Trigger(f: Frame, i: int) returns (r: Result<bool>)
      requires 0 <= i < |f.bars|
      ensures r == Triggered(Snapshot(), f, i)
    {
      if logic == "AND" {
        r := CombineAnd(f, i);
      } else if logic == "OR" {
        r := CombineOr(f, i);
      } else if logic == "WEIGHTED" {
        var s := CombineWeighted(f, i);
        if s.Err? {
          return Err(s.error);
        }
        r := Ok(s.value > 0.7);
      } else {
        r := Ok(false);
      }
    }

    /** detect_b1_signal: the scan over bars 2 .. len − 1, appending one record per triggered bar. */
    method DetectB1Signal(f: Frame) returns (r: Result<seq<LegacySignal>>)
      ensures r == Signals(Snapshot(), f)
    {
      if "min_trade_days" !in params {
        return Err(KeyError("min_trade_days"));
      }
      if (|f.bars| as real) < params["min_trade_days"].Real() {
        return Ok([]);
      }
      ghost var c := Snapshot();
      var signals: seq<LegacySignal> := [];
      PrependNil(ScanFrom(c, f, 2));
      var i := 2;
      while i < |f.bars|
        invariant 2 <= i
        invariant ScanFrom(c, f, 2) == Prepend(signals, ScanFrom(c, f, i))
        decreases |f.bars| - i
      {
        var t := Trigger(f, i);
        if t.Err? {
          return Err(t.error);
        }
        if t.value {
          var s := SignalAt(params, f, i);
          if s.Err? {
            return Err(s.error);
          }
          assert ScanFrom(c, f, i) == Prepend([s.value], ScanFrom(c, f, i + 1));
          PrependSnoc(signals, s.value, ScanFrom(c, f, i + 1));
          signals := signals + [s.value];
        }
        i := i + 1;
      }
      assert signals + [] == signals;
      return Ok(signals);
    }
    /** set_active_conditions: writes each flag in turn, raising at the first unknown name. */
    method SetActiveConditions(items: seq<(string, bool)>) returns (r: Result<map<string, bool>>)
      modifies this
      ensures active == ApplyItems(old(active), items).0
      ensures ApplyItems(old(active), items).1.None? ==> r == Ok(active)
      ensures ApplyItems(old(active), items).1.Some? ==> r == Err(ApplyItems(old(active), items).1.value)
      ensures params == old(params) && logic == old(logic) && weights == old(weights)
      ensures old(Valid()) ==> Valid()
    {
      ghost var start := active;
      var k := 0;
      while k < |items|
        invariant 0 <= k <= |items|
        invariant params == old(params) && logic == old(logic) && weights == old(weights)
        invariant ApplyItems(start, items) == ApplyItems(active, items[k..])
        invariant old(Valid()) ==> Valid()
      {
        assert items[k..][0] == items[k] && items[k..][1..] == items[k + 1..];
        var (name, flag) := items[k];
        if name !in ConditionNames {
          return Err(ValueError("未知的条件: " + name));
        }
        active := active[name := flag];
        k := k + 1;
      }
      r := Ok(active);
    }

    /** set_combination_logic: only AND, OR and WEIGHTED are accepted. */
    method SetCombinationLogic(l: string) returns (r: Result<string>)
      modifies this
      ensures l in Logics ==> logic == l && r == Ok(l)
      ensures l !in Logics ==> logic == old(logic) && r == Err(ValueError("无效的组合逻辑，必须是 AND, OR 或 WEIGHTED"))
      ensures params == old(params) && active == old(active) && weights == old(weights)
    {
      if l !in Logics {
        return Err(ValueError("无效的组合逻辑，必须是 AND, OR 或 WEIGHTED"));
      }
      logic := l;
      r := Ok(logic);
    }

    /** set_condition_weights: writes float(weight) for each name, raising at the first unknown one. */
    method SetConditionWeights(items: seq<(string, Num)>) returns (r: Result<map<string, real>>)
      modifies this
      ensures weights == ApplyItems(old(weights), AsFloats(items)).0
      ensures ApplyItems(old(weights), AsFloats(items)).1.None? ==> r == Ok(weights)
      ensures ApplyItems(old(weights), AsFloats(items)).1.Some? ==> r == Err(ApplyItems(old(weights), AsFloats(items)).1.value)
      ensures params == old(params) && logic == old(logic) && active == old(active)
      ensures old(Valid()) ==> Valid()
    {
      ghost var start := weights;
      ghost var floats := AsFloats(items);
      var k := 0;
      while k < |items|
        invariant 0 <= k <= |items|
        invariant params == old(params) && logic == old(logic) && active == old(active)
        invariant ApplyItems(start, floats) == ApplyItems(weights, floats[k..])
        invariant old(Valid()) ==> Valid()
      {
        assert floats[k..][0] == floats[k] && floats[k..][1..] == floats[k + 1..];
        var (name, w) := items[k];
        if name !in ConditionNames {
          return Err(ValueError("未知的条件: " + name));
        }
        weights := weights[name := w.Real()];
        k := k + 1;
      }
      r := Ok(weights);
    }

    /** update_params: dict.update, the new values winning. */
    method UpdateParams(newParams: Params) returns (r: Params)
      modifies this
      ensures params == Merge(old(params), newParams) && r == params
      ensures active == old(active) && logic == old(logic) && weights == old(weights)
    {
      params := params + newParams;
      r := params;
    }

    /** filter_stocks_by_kdj: the symbols whose last J is below the threshold, in dict order. */
    method FilterStocksByKdj(stocks: Stocks, threshold: Option<Num>) returns (r: Result<seq<string>>)
      ensures r == (var t := KdjThreshold(params, threshold); if t.Err? then Err(t.error) else KdjFrom(stocks, t.value))
    {
      var t := KdjThreshold(params, threshold);
      if t.Err? {
        return Err(t.error);
      }
      var filtered: seq<string> := [];
      PrependNil(KdjFrom(stocks, t.value));
      var k := 0;
      while k < |stocks|
        invariant 0 <= k <= |stocks|
        invariant KdjFrom(stocks, t.value) == Prepend(filtered, KdjFrom(stocks[k..], t.value))
      {
        assert stocks[k..][0] == stocks[k] && stocks[k..][1..] == stocks[k + 1..];
        var pass := LastJBelow(stocks[k].1, t.value);
        if pass.Err? {
          return Err(pass.error);
        }
        if pass.value {
          assert KdjFrom(stocks[k..], t.value) == Prepend([stocks[k].0], KdjFrom(stocks[k + 1..], t.value));
          PrependSnoc(filtered, stocks[k].0, KdjFrom(stocks[k + 1..], t.value));
          filtered := filtered + [stocks[k].0];
        }
        k := k + 1;
      }
      assert stocks[|stocks|..] == [] && filtered + [] == filtered;
      return Ok(filtered);
    }

    /** get_filtered_stocks_by_date: the screen of every stock on one date, as symbols or as details. */
    method GetFilteredStocksByDate(stocks: Stocks, target: int, details: bool) returns (r: Result<ByDate>)
      requires forall k :: 0 <= k < |stocks| ==> stocks[k].1.Valid()
      ensures r == ByDateFrom(Snapshot(), stocks, target, details)
    {
      ghost var c := Snapshot();
      var filtered: seq<string> := [];
      var detailed: seq<(string, Detail)> := [];
      ExtendNil(details, ByDateFrom(c, stocks, target, details));
      var k := 0;
      while k < |stocks|
        invariant 0 <= k <= |stocks|
        invariant ByDateFrom(c, stocks, target, details) ==
          Extend(details, filtered, detailed, ByDateFrom(c, stocks[k..], target, details))
      {
        assert stocks[k..][0] == stocks[k] && stocks[k..][1..] == stocks[k + 1..];
        var (sym, f) := stocks[k];
        ghost var next := ByDateFrom(c, stocks[k + 1..], target, details);
        ByDateStep(c, stocks[k..], target, details);
        var pos := Position(f, target);
        if pos.Some? {
          var t := Trigger(f, pos.value);
          if t.Err? {
            return Err(t.error);
          }
          if t.value {
            if details {
              var row := DetailAt(Snapshot(), f, pos.value, target);
              if row.Err? {
                return Err(row.error);
              }
              ExtendSnoc(details, filtered, detailed, [], [(sym, row.value)], next);
              detailed := detailed + [(sym, row.value)];
            } else {
              ExtendSnoc(details, filtered, detailed, [sym], [], next);
              filtered := filtered + [sym];
            }
          }
        }
        k := k + 1;
      }
      assert stocks[|stocks|..] == [] && filtered + [] == filtered && detailed + [] == detailed;
      r := if details then Ok(DetailList(detailed)) else Ok(SymbolList(filtered));
    }

    /** _get_met_conditions: the active conditions that hold at bar i, in order. */
    method GetMetConditions(f: Frame, i: int) returns (r: Result<seq<string>>)
      requires 0 <= i < |f.bars|
      ensures r == MetFrom(ConditionNames, active, params, f, i)
    {
      var met: seq<string> := [];
      PrependNil(MetFrom(ConditionNames, active, params, f, i));
      var k := 0;
      while k < |ConditionNames|
        invariant 0 <= k <= |ConditionNames|
        invariant MetFrom(ConditionNames, active, params, f, i) == Prepend(met, MetFrom(ConditionNames[k..], active, params, f, i))
      {
        var n := ConditionNames[k];
        assert ConditionNames[k..][0] == n && ConditionNames[k..][1..] == ConditionNames[k + 1..];
        if IsActive(active, n) {
          var c := Check(n, params, f, i);
          if c.Err? {
            return Err(c.error);
          }
          if c.value {
            assert MetFrom(ConditionNames[k..], active, params, f, i) == Prepend([n], MetFrom(ConditionNames[k + 1..], active, params, f, i));
            PrependSnoc(met, n, MetFrom(ConditionNames[k + 1..], active, params, f, i));
            met := met + [n];
          }
        }
        k := k + 1;
      }
      assert ConditionNames[|ConditionNames|..] == [] && met + [] == met;
      return Ok(met);
    }
  }

  /** float(weight) for each item. */
  function AsFloats(items: seq<(string, Num)>): (r: seq<(string, real)>)
    ensures |r| == |items| && forall k :: 0 <= k < |items| ==> r[k] == (items[k].0, items[k].1.Real())
  {
    seq(|items|, k requires 0 <= k < |items| => (items[k].0, items[k].1.Real()))
  }

  /** A loop's collected prefix in front of what the rest of the loop produces, or the rest's error. */
  function Prepend<T>(pre: seq<T>, r: Result<seq<T>>): Result<seq<T>>
  {
    if r.Err? then r else Ok(pre + r.value)
  }

  lemma PrependNil<T>(r: Result<seq<T>>)
    ensures Prepend([], r) == r
  {
    if r.Ok? {
      assert [] + r.value == r.value;
    }
  }

  /** Collecting one more element moves it from the rest's result to the prefix. */
  lemma PrependSnoc<T>(pre: seq<T>, x: T, r: Result<seq<T>>)
    ensures Prepend(pre, Prepend([x], r)) == Prepend(pre + [x], r)
  {
    if r.Ok? {
      assert pre + ([x] + r.value) == (pre + [x]) + r.value;
    }
  }

  lemma ExtendNil(details: bool, r: Result<ByDate>)
    requires r.Ok? ==> r.value.DetailList? == details
    ensures Extend(details, [], [], r) == r
  {
    if r.Ok? {
      if details {
        assert [] + r.value.details == r.value.details;
      } else {
        assert [] + r.value.symbols == r.value.symbols;
      }
    }
  }

  /** Collecting one more symbol or row moves it from the rest's result to the prefix. */
  lemma ExtendSnoc(details: bool, symbols: seq<string>, rows: seq<(string, Detail)>,
                   sym: seq<string>, row: seq<(string, Detail)>, r: Result<ByDate>)
    requires r.Ok? ==> r.value.DetailList? == details
    ensures Extend(details, symbols, rows, Extend(details, sym, row, r)) == Extend(details, symbols + sym, rows + row, r)
  {
    if r.Ok? && details {
      assert rows + (row + r.value.details) == (rows + row) + r.value.details;
    } else if r.Ok? {
      assert symbols + (sym + r.value.symbols) == (symbols + sym) + r.value.symbols;
    }
  }

  /** The date screen's collected symbols or rows in front of what the rest of the loop produces. */
  function Extend(details: bool, symbols: seq<string>, rows: seq<(string, Detail)>, r: Result<ByDate>): (e: Result<ByDate>)
    requires r.Ok? ==> r.value.DetailList? == details
    ensures e.Ok? ==> e.value.DetailList? == details
  {
    if r.Err? then r
    else if details then Ok(DetailList(rows + r.value.details))
    else Ok(SymbolList(symbols + r.value.symbols))
  }
}
