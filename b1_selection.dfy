/**
 * B1Selection: the enabled candle conditions are tested on the last bar of
 * every frame in the market-data dict, combined by AND or OR, and each
 * passing symbol is reported with the conditions it met and their share as
 * a score. Also the variant table (build_b1_selection_variant) and the
 * selection registry (get_selection).
 */
module B1Selection {
  import opened Wrappers
  import opened Bars
  import opened Values
  import opened Conditions
  import opened Selection
  import PyStr

  /** The seven conditions a selector can enable. */
  datatype Cond = Kdj | BottomPattern | BigPositive | AboveMa | VolumeSurge | VolumeShrink | MacdGoldenCross

  function CondName(c: Cond): string
  {
    match c
    case Kdj => "kdj_condition"
    case BottomPattern => "bottom_pattern_condition"
    case BigPositive => "big_positive_condition"
    case AboveMa => "above_ma_condition"
    case VolumeSurge => "volume_surge_condition"
    case VolumeShrink => "volume_shrink_condition"
    case MacdGoldenCross => "macd_golden_cross"
  }

  /** The keys of condition_funcs, in declaration order. */
  const CondNames: seq<string> := [
    "kdj_condition", "bottom_pattern_condition", "big_positive_condition", "above_ma_condition",
    "volume_surge_condition", "volume_shrink_condition", "macd_golden_cross"]

  /** condition_funcs[name]; None where the lookup raises KeyError. */
  function CondOf(name: string): (r: Option<Cond>)
    ensures r.Some? <==> name in CondNames
    ensures r.Some? ==> CondName(r.value) == name
  {
    if name == "kdj_condition" then Some(Kdj)
    else if name == "bottom_pattern_condition" then Some(BottomPattern)
    else if name == "big_positive_condition" then Some(BigPositive)
    else if name == "above_ma_condition" then Some(AboveMa)
    else if name == "volume_surge_condition" then Some(VolumeSurge)
    else if name == "volume_shrink_condition" then Some(VolumeShrink)
    else if name == "macd_golden_cross" then Some(MacdGoldenCross)
    else None
  }

  /** Every condition's name looks up that condition. */
  lemma CondOfName(c: Cond)
    ensures CondOf(CondName(c)) == Some(c)
  {
  }

  /** B1Selection.DEFAULT_PARAMS. */
  function DefaultParams(): Params
  {
    map["kdj_threshold" := Int(10), "j_threshold" := Int(-10), "min_trade_days" := Int(20),
        "ma_window" := Int(20), "volume_ratio" := Float(2.0), "big_positive_pct" := Float(0.05)]
  }

  /** The active_conditions dict: condition name to on/off, in insertion order. */
  type Active = seq<(string, bool)>

  /** A dict over the seven condition names with the given flags. */
  function Flags(on: seq<bool>): (a: Active)
    requires |on| == 7
    ensures |a| == 7 && forall k :: 0 <= k < 7 ==> a[k] == (CondNames[k], on[k])
  {
    seq(7, k requires 0 <= k < 7 => (CondNames[k], on[k]))
  }

  /** The constructor's fallback: the four core conditions on, the rest off. */
  function DefaultActive(): Active
  {
    Flags([true, true, true, true, false, false, false])
  }

  /** A B1Selection instance: merged params, active conditions and logic. */
  datatype Selector = Selector(params: Params, active: Active, logic: string)
  {
    predicate Valid()
    {
      DefaultParams().Keys <= params.Keys
    }

    function Param(key: string): real
      requires Valid() && key in DefaultParams()
    {
      params[key].Real()
    }
  }

  /**
   * B1Selection.__init__: params are the defaults overridden by the given
   * ones; a None or empty active_conditions falls back to the default dict.
   */
  function NewSelector(params: Option<Params>, active: Option<Active>, logic: string): (s: Selector)
    ensures s.Valid() && s.logic == logic
    ensures s.params == Merge(DefaultParams(), params.GetOr(map[]))
    ensures s.active == if active.None? || active.value == [] then DefaultActive() else active.value
  {
    Selector(Merge(DefaultParams(), params.GetOr(map[])), if active.Some? && active.value != [] then active.value else DefaultActive(), logic)
  }

  /** [name for name, on in active_conditions.items() if on]. */
  function Enabled(active: Active): (r: seq<string>)
    ensures |r| <= |active|
    ensures forall n :: n in r <==> (n, true) in active
  {
    if active == [] then []
    else
      assert forall p :: p in active <==> p == active[0] || p in active[1..];
      (if active[0].1 then [active[0].0] else []) + Enabled(active[1..])
  }

  /** One condition evaluated at bar i with the selector's parameters (volume lookback 5). */
  function Check(s: Selector, c: Cond, f: Frame, i: int): bool
    requires s.Valid()
  {
    match c
    case Kdj => IsKdjLow(f, i, s.Param("j_threshold"))
    case BottomPattern => IsBottomPattern(f, i)
    case BigPositive => IsBigPositive(f, i, s.Param("big_positive_pct"))
    case AboveMa => IsAboveMa(f, i, s.params["ma_window"])
    case VolumeSurge => IsVolumeSurge(f, i, s.Param("volume_ratio"), 5)
    case VolumeShrink => IsVolumeShrink(f, i, s.Param("volume_ratio"), 5)
    case MacdGoldenCross => IsMacdGoldenCross(f, i)
  }

  /** The position of the first name that is not a condition. */
  function FirstUnknown(names: seq<string>): (r: Option<nat>)
    ensures r.None? <==> forall k :: 0 <= k < |names| ==> CondOf(names[k]).Some?
    ensures r.Some? ==> (r.value < |names| && CondOf(names[r.value]).None? &&
      forall j :: 0 <= j < r.value ==> CondOf(names[j]).Some?)
  {
    if names == [] then None
    else if CondOf(names[0]).None? then Some(0)
    else
      var rest := FirstUnknown(names[1..]);
      assert forall k :: 1 <= k < |names| ==> names[k] == names[1..][k - 1];
      if rest.None? then None else Some(rest.value + 1)
  }

  /**
   * condition_funcs[c](df, i) for each name in order: the results, or the
   * KeyError of the first name that is not a condition.
   */
  function Evaluate(s: Selector, names: seq<string>, f: Frame, i: int): (r: Result<seq<bool>>)
    requires s.Valid()
    ensures r.Ok? <==> FirstUnknown(names).None?
    ensures r.Ok? ==> (|r.value| == |names| &&
      forall k :: 0 <= k < |names| ==> r.value[k] == Check(s, CondOf(names[k]).value, f, i))
    ensures r.Err? ==> r.error == KeyError(names[FirstUnknown(names).value])
  {
    if names == [] then Ok([])
    else
      var c := CondOf(names[0]);
      if c.None? then Err(KeyError(names[0]))
      else
        var rest := Evaluate(s, names[1..], f, i);
        if rest.Err? then
          assert names[FirstUnknown(names).value] == names[1..][FirstUnknown(names[1..]).value];
          rest
        else
          var r := [Check(s, c.value, f, i)] + rest.value;
          assert forall k :: 1 <= k < |names| ==> names[k] == names[1..][k - 1] && r[k] == rest.value[k - 1];
          Ok(r)
  }

  predicate AllTrue(bs: seq<bool>) { forall k :: 0 <= k < |bs| ==> bs[k] }

  predicate AnyTrue(bs: seq<bool>) { exists k :: 0 <= k < |bs| && bs[k] }

  /** _combine: False with nothing enabled; otherwise all() for AND, any() for OR, all() for any other logic. */
  function Combine(s: Selector, f: Frame, i: int): (r: Result<bool>)
    requires s.Valid()
    ensures Enabled(s.active) == [] ==> r == Ok(false)
    ensures var en := Enabled(s.active);
      en != [] ==> (r.Err? <==> exists k :: 0 <= k < |en| && CondOf(en[k]).None?)
    ensures var en := Enabled(s.active);
      en != [] && r.Ok? ==> (r.value <==> if s.logic == "OR"
        then exists k :: 0 <= k < |en| && Check(s, CondOf(en[k]).value, f, i)
        else forall k :: 0 <= k < |en| ==> Check(s, CondOf(en[k]).value, f, i))
  {
    var en := Enabled(s.active);
    if en == [] then Ok(false)
    else
      var results := Evaluate(s, en, f, i);
      if results.Err? then Err(results.error)
      else if s.logic == "AND" then Ok(AllTrue(results.value))
      else if s.logic == "OR" then Ok(AnyTrue(results.value))
      else Ok(AllTrue(results.value))
  }

  /** select_with_details' pass rule: all() if logic is "AND", any() for every other logic. */
  predicate Passed(logic: string, bs: seq<bool>)
  {
    if logic == "AND" then AllTrue(bs) else AnyTrue(bs)
  }

  /** The names whose result is True, in order. */
  function Reasons(names: seq<string>, bs: seq<bool>): (r: seq<string>)
    requires |bs| == |names|
    ensures |r| <= |names|
  {
    if names == [] then [] else (if bs[0] then [names[0]] else []) + Reasons(names[1..], bs[1..])
  }

  /** The reasons are some of the names, in order: exactly the ones whose result held. */
  lemma {:induction false} ReasonsFacts(names: seq<string>, bs: seq<bool>)
    requires |bs| == |names|
    ensures Subsequence(Reasons(names, bs), names)
    ensures AllTrue(bs) ==> Reasons(names, bs) == names
    ensures AnyTrue(bs) ==> Reasons(names, bs) != []
    ensures forall n :: n in Reasons(names, bs) <==> exists k :: 0 <= k < |names| && names[k] == n && bs[k]
  {
    if names != [] {
      ReasonsFacts(names[1..], bs[1..]);
      var rest := Reasons(names[1..], bs[1..]);
      if bs[0] {
        assert Reasons(names, bs) == [names[0]] + rest;
        assert ([names[0]] + rest)[1..] == rest;
      } else {
        assert Reasons(names, bs) == rest;
        assert AnyTrue(bs) ==> AnyTrue(bs[1..]) by {
          if AnyTrue(bs) {
            var k :| 0 <= k < |bs| && bs[k];
            assert bs[1..][k - 1];
          }
        }
        SubsequenceSkip(rest, names);
      }
      forall n ensures n in Reasons(names, bs) <==> exists k :: 0 <= k < |names| && names[k] == n && bs[k] {
        if n in rest {
          var k :| 0 <= k < |names[1..]| && names[1..][k] == n && bs[1..][k];
          assert names[k + 1] == n && bs[k + 1];
        }
        if exists k :: 0 <= k < |names| && names[k] == n && bs[k] {
          var k :| 0 <= k < |names| && names[k] == n && bs[k];
          if k > 0 {
            assert names[1..][k - 1] == n && bs[1..][k - 1];
          }
        }
      }
    }
  }

  /** |reasons| / |enabled|, the share of enabled conditions met. */
  function Share(met: nat, enabled: nat): (r: real)
    requires 0 < met <= enabled
    ensures 0.0 < r <= 1.0
    ensures met == enabled ==> r == 1.0
  {
    met as real / enabled as real
  }

  /** The frames select_with_details looks at: not empty and at least min_trade_days bars. */
  predicate Considered(s: Selector, f: Frame)
    requires s.Valid()
  {
    |f.bars| > 0 && f.columns != {} && !(|f.bars| as real < s.Param("min_trade_days"))
  }

  /** One iteration of select_with_details: the symbol's result, nothing, or the KeyError raised. */
  function DetailFor(s: Selector, symbol: string, f: Frame): Result<Option<SelectionResult>>
    requires s.Valid()
  {
    var en := Enabled(s.active);
    if !Considered(s, f) || en == [] then Ok(None)
    else
      var results := Evaluate(s, en, f, |f.bars| - 1);
      if results.Err? then Err(results.error)
      else if !Passed(s.logic, results.value) then Ok(None)
      else
        var reasons := Reasons(en, results.value);
        ReasonsFacts(en, results.value);
        Ok(Some(SelectionResult(symbol, Some(Share(|reasons|, |en|)), reasons, map["logic" := VStr(s.logic)])))
  }

  function OptionList<T>(o: Option<T>): seq<T>
  {
    if o.Some? then [o.value] else []
  }

  /** select_with_details as a whole: the results in dict order, or the first error. */
  function DetailsOf(s: Selector, md: Listing): Result<seq<SelectionResult>>
    requires s.Valid()
  {
    if md == [] then Ok([])
    else
      var d := DetailFor(s, md[0].0, md[0].1);
      if d.Err? then Err(d.error)
      else
        var rest := DetailsOf(s, md[1..]);
        if rest.Err? then rest else Ok(OptionList(d.value) + rest.value)
  }

  function Prepend<T>(a: seq<T>, r: Result<seq<T>>): Result<seq<T>>
  {
    if r.Err? then r else Ok(a + r.value)
  }

  lemma PrependFacts<T>(a: seq<T>, b: seq<T>, r: Result<seq<T>>)
    ensures Prepend([], r) == r
    ensures Prepend(a, Prepend(b, r)) == Prepend(a + b, r)
    ensures Prepend(a, Ok([])) == Ok(a)
  {
    if r.Ok? {
      assert [] + r.value == r.value;
      assert a + (b + r.value) == (a + b) + r.value;
    }
    assert a + [] == a;
  }

  /** DetailsOf over the entries from k on, one entry unfolded. */
  lemma DetailsOfFrom(s: Selector, md: Listing, k: nat)
    requires s.Valid() && k < |md|
    ensures var d := DetailFor(s, md[k].0, md[k].1);
      DetailsOf(s, md[k..]) == if d.Err? then Err(d.error) else Prepend(OptionList(d.value), DetailsOf(s, md[k + 1..]))
  {
    assert md[k..][0] == md[k] && md[k..][1..] == md[k + 1..];
  }

  /** B1Selection.select_with_details. */
  method SelectWithDetails(s: Selector, md: Listing) returns (r: Result<seq<SelectionResult>>)
    requires s.Valid()
    ensures r == DetailsOf(s, md)
  {
    var detailed: seq<SelectionResult> := [];
    var enabled := Enabled(s.active);
    assert md[0..] == md;
    PrependFacts(detailed, [], DetailsOf(s, md));
    for k := 0 to |md|
      invariant DetailsOf(s, md) == Prepend(detailed, DetailsOf(s, md[k..]))
    {
      var symbol, df := md[k].0, md[k].1;
      DetailsOfFrom(s, md, k);
      PrependFacts(detailed, [], DetailsOf(s, md[k + 1..]));
      if !Considered(s, df) {
        assert DetailFor(s, symbol, df) == Ok(None);
        continue;
      }
      var i := |df.bars| - 1;
      if enabled == [] {
        assert DetailFor(s, symbol, df) == Ok(None);
        continue;
      }
      var condResults := Evaluate(s, enabled, df, i);
      if condResults.Err? {
        assert DetailFor(s, symbol, df) == Err(condResults.error);
        return Err(condResults.error);
      }
      if !Passed(s.logic, condResults.value) {
        assert DetailFor(s, symbol, df) == Ok(None);
        continue;
      }
      var reasons := Reasons(enabled, condResults.value);
      ReasonsFacts(enabled, condResults.value);
      var score := Share(|reasons|, |enabled|);
      var result := SelectionResult(symbol, Some(score), reasons, map["logic" := VStr(s.logic)]);
      assert DetailFor(s, symbol, df) == Ok(Some(result));
      PrependFacts(detailed, [result], DetailsOf(s, md[k + 1..]));
      detailed := detailed + [result];
    }
    assert md[|md|..] == [];
    PrependFacts(detailed, [], Ok([]));
    return Ok(detailed);
  }

  /**
   * A symbol is selected exactly when its frame is long enough, something
   * is enabled and the pass rule holds on the last bar; its reasons are the
   * enabled conditions that held, in order, its score their share, in (0, 1]
   * and 1 under AND, and its meta records the logic.
   */
  lemma DetailForFacts(s: Selector, symbol: string, f: Frame)
    requires s.Valid()
    ensures var d := DetailFor(s, symbol, f); var en := Enabled(s.active);
      && (d.Ok? && d.value.Some? <==>
            Considered(s, f) && en != [] && Evaluate(s, en, f, |f.bars| - 1).Ok? &&
            Passed(s.logic, Evaluate(s, en, f, |f.bars| - 1).value))
      && (d.Err? <==> Considered(s, f) && en != [] && Evaluate(s, en, f, |f.bars| - 1).Err?)
      && (d.Ok? && d.value.Some? ==>
            var x := d.value.value;
            && x.symbol == symbol
            && Subsequence(x.reasons, en)
            && (forall n :: n in x.reasons ==> CondOf(n).Some? && Check(s, CondOf(n).value, f, |f.bars| - 1))
            && (forall k :: 0 <= k < |en| && CondOf(en[k]).Some? && Check(s, CondOf(en[k]).value, f, |f.bars| - 1) ==>
                  en[k] in x.reasons)
            && x.score == Some(|x.reasons| as real / |en| as real)
            && x.score.Some? && 0.0 < x.score.value <= 1.0
            && (s.logic == "AND" ==> x.reasons == en && x.score == Some(1.0))
            && x.meta == map["logic" := VStr(s.logic)])
  {
    var en := Enabled(s.active);
    if Considered(s, f) && en != [] {
      var results := Evaluate(s, en, f, |f.bars| - 1);
      if results.Ok? {
        ReasonsFacts(en, results.value);
        forall k | 0 <= k < |en| && CondOf(en[k]).Some? && Check(s, CondOf(en[k]).value, f, |f.bars| - 1)
          ensures en[k] in Reasons(en, results.value)
        {
          assert results.value[k];
        }
      }
    }
  }

  /**
   * For AND and OR the pass rule agrees with _combine; for any other logic
   * it is any() where _combine falls back to all().
   */
  lemma PassRuleVersusCombine(s: Selector, f: Frame)
    requires s.Valid() && Considered(s, f) && Enabled(s.active) != []
    requires Evaluate(s, Enabled(s.active), f, |f.bars| - 1).Ok?
    ensures var results := Evaluate(s, Enabled(s.active), f, |f.bars| - 1).value;
      var c := Combine(s, f, |f.bars| - 1);
      && c.Ok?
      && (s.logic == "AND" || s.logic == "OR" ==> (Passed(s.logic, results) <==> c.value))
      && (s.logic != "AND" && s.logic != "OR" ==> (Passed(s.logic, results) <==> AnyTrue(results)) && (c.value <==> AllTrue(results)))
  {
  }

  /** select_with_details raises exactly when some entry raises. */
  lemma {:induction false} DetailsOfError(s: Selector, md: Listing)
    requires s.Valid()
    ensures DetailsOf(s, md).Err? <==> exists k :: 0 <= k < |md| && DetailFor(s, md[k].0, md[k].1).Err?
  {
    if md != [] {
      DetailsOfError(s, md[1..]);
      assert forall k :: 1 <= k < |md| ==> md[k] == md[1..][k - 1];
    }
  }

  /** The results' symbols are dict keys, in dict order. */
  lemma {:induction false} DetailsOfOrder(s: Selector, md: Listing)
    requires s.Valid() && DetailsOf(s, md).Ok?
    ensures Subsequence(Symbols(DetailsOf(s, md).value), Keys(md))
  {
    if md != [] {
      var d := DetailFor(s, md[0].0, md[0].1);
      var rest := DetailsOf(s, md[1..]).value;
      DetailsOfOrder(s, md[1..]);
      var r := DetailsOf(s, md).value;
      assert Keys(md) == [md[0].0] + Keys(md[1..]);
      assert ([md[0].0] + Keys(md[1..]))[1..] == Keys(md[1..]);
      if d.value.Some? {
        assert r == [d.value.value] + rest;
        assert Symbols(r) == [md[0].0] + Symbols(rest);
        assert ([md[0].0] + Symbols(rest))[1..] == Symbols(rest);
      } else {
        assert r == rest;
        SubsequenceSkip(Symbols(r), Keys(md));
      }
    }
  }

  /** The results are exactly the records the entries produce. */
  lemma {:induction false} DetailsOfMembers(s: Selector, md: Listing)
    requires s.Valid() && DetailsOf(s, md).Ok?
    ensures forall x :: x in DetailsOf(s, md).value <==> exists k :: 0 <= k < |md| && DetailFor(s, md[k].0, md[k].1) == Ok(Some(x))
  {
    if md != [] {
      DetailsOfMembers(s, md[1..]);
      var d := DetailFor(s, md[0].0, md[0].1);
      var rest := DetailsOf(s, md[1..]).value;
      assert DetailsOf(s, md).value == OptionList(d.value) + rest;
      forall x ensures x in DetailsOf(s, md).value <==> exists k :: 0 <= k < |md| && DetailFor(s, md[k].0, md[k].1) == Ok(Some(x)) {
        if x in rest {
          var k :| 0 <= k < |md[1..]| && DetailFor(s, md[1..][k].0, md[1..][k].1) == Ok(Some(x));
          assert md[k + 1] == md[1..][k];
        }
        if exists k :: 0 <= k < |md| && DetailFor(s, md[k].0, md[k].1) == Ok(Some(x)) {
          var k :| 0 <= k < |md| && DetailFor(s, md[k].0, md[k].1) == Ok(Some(x));
          if k > 0 {
            assert md[1..][k - 1] == md[k];
          }
        }
      }
    }
  }

  /** B1Selection.select: the symbols of select_with_details, in order. */
  function Select(s: Selector, md: Listing): (r: Result<seq<string>>)
    requires s.Valid()
  {
    var d := DetailsOf(s, md);
    if d.Err? then Err(d.error) else Ok(Symbols(d.value))
  }

  /**
   * select returns market_data keys in dict order, and exactly those whose
   * details exist.
   */
  lemma SelectFacts(s: Selector, md: Listing)
    requires s.Valid()
    ensures var r := Select(s, md);
      && (r.Ok? ==> Subsequence(r.value, Keys(md)))
      && (r.Ok? ==> forall k :: 0 <= k < |md| && DetailFor(s, md[k].0, md[k].1).Ok? && DetailFor(s, md[k].0, md[k].1).value.Some? ==> md[k].0 in r.value)
  {
    var d := DetailsOf(s, md);
    if d.Ok? {
      DetailsOfOrder(s, md);
      DetailsOfMembers(s, md);
      forall k | 0 <= k < |md| && DetailFor(s, md[k].0, md[k].1).Ok? && DetailFor(s, md[k].0, md[k].1).value.Some?
        ensures md[k].0 in Symbols(d.value)
      {
        var x := DetailFor(s, md[k].0, md[k].1).value.value;
        DetailForFacts(s, md[k].0, md[k].1);
        assert x in d.value;
        var j :| 0 <= j < |d.value| && d.value[j] == x;
        assert Symbols(d.value)[j] == md[k].0;
      }
    }
  }

  /** Seven flags, the first n on: every variant enables a prefix of the condition list. */
  function Leading(n: nat): (on: seq<bool>)
    ensures |on| == 7 && forall k :: 0 <= k < 7 ==> (on[k] <==> k < n)
  {
    seq(7, k requires 0 <= k < 7 => k < n)
  }

  /** build_b1_selection_variant: a named preset of flags, params and logic; unknown names raise ValueError. */
  function BuildVariant(name: string): (r: Result<Selector>)
    ensures r.Ok? <==> PyStr.Lower(name) in {"default", "b1+", "volume_surge", "loose", "weighted"}
    ensures r.Err? ==> r.error.ValueError?
  {
    var key := PyStr.Lower(name);
    if key == "default" then Ok(NewSelector(Some(map[]), Some(Flags(Leading(1))), "AND"))
    else if key == "b1+" then Ok(NewSelector(Some(map[]), Some(Flags(Leading(4))), "AND"))
    else if key == "volume_surge" then Ok(NewSelector(Some(map["volume_ratio" := Float(1.5)]), Some(Flags(Leading(5))), "AND"))
    else if key == "loose" then Ok(NewSelector(Some(map["j_threshold" := Int(-5)]), Some(Flags(Leading(4))), "OR"))
    else if key == "weighted" then Ok(NewSelector(Some(map[]), Some(Flags(Leading(5))), "AND"))
    else Err(ValueError("unknown B1 variant: " + key))
  }

  /** The dict Flags(on) enables the names whose flag is on. */
  lemma {:induction false} EnabledFlags(on: seq<bool>)
    requires |on| == 7
    ensures Enabled(Flags(on)) == Reasons(CondNames, on)
  {
    EnabledPairs(Flags(on), CondNames, on);
  }

  lemma {:induction false} EnabledPairs(a: Active, names: seq<string>, on: seq<bool>)
    requires |a| == |names| == |on| && forall k :: 0 <= k < |a| ==> a[k] == (names[k], on[k])
    ensures Enabled(a) == Reasons(names, on)
  {
    if a != [] {
      EnabledPairs(a[1..], names[1..], on[1..]);
    }
  }

  /** With the first n flags on and the rest off, the reasons are the first n names. */
  lemma {:induction false} ReasonsPrefix(names: seq<string>, bs: seq<bool>, n: nat)
    requires |bs| == |names| && n <= |names|
    requires forall k :: 0 <= k < |bs| ==> (bs[k] <==> k < n)
    ensures Reasons(names, bs) == names[..n]
  {
    if names != [] {
      if n > 0 {
        ReasonsPrefix(names[1..], bs[1..], n - 1);
        assert names[..n] == [names[0]] + names[1..][..n - 1];
      } else {
        ReasonsPrefix(names[1..], bs[1..], 0);
      }
    }
  }

  /** A dict of leading flags enables the first n names and names all seven. */
  lemma LeadingEnabled(n: nat)
    requires n <= 7
    ensures Enabled(Flags(Leading(n))) == CondNames[..n]
    ensures Keys'(Flags(Leading(n))) == CondNames
  {
    EnabledFlags(Leading(n));
    ReasonsPrefix(CondNames, Leading(n), n);
  }

  /** How many leading conditions a variant enables: 1 for "default", 4 for "b1+" and "loose", else 5. */
  function Width(key: string): nat
  {
    if key == "default" then 1 else if key == "b1+" || key == "loose" then 4 else 5
  }

  /**
   * Every variant names all seven conditions explicitly and enables a
   * prefix of them: kdj alone for "default"; the four core conditions for
   * "b1+" and "loose"; those and the volume surge for "volume_surge" and
   * "weighted".
   */
  lemma VariantConditions(name: string)
    requires BuildVariant(name).Ok?
    ensures var s := BuildVariant(name).value;
      Keys'(s.active) == CondNames && Enabled(s.active) == CondNames[..Width(PyStr.Lower(name))]
  {
    var n := Width(PyStr.Lower(name));
    assert BuildVariant(name).value.active == Flags(Leading(n));
    LeadingEnabled(n);
  }

  /**
   * "loose" combines with OR and sets j_threshold to -5; "volume_surge"
   * lowers volume_ratio to 1.5; the others keep the default params; every
   * variant but "loose" uses AND.
   */
  lemma VariantSettings(name: string)
    requires BuildVariant(name).Ok?
    ensures var s := BuildVariant(name).value; var key := PyStr.Lower(name);
      && (s.logic == if key == "loose" then "OR" else "AND")
      && (key == "loose" ==> s.params == DefaultParams()["j_threshold" := Int(-5)])
      && (key == "volume_surge" ==> s.params == DefaultParams()["volume_ratio" := Float(1.5)])
      && (key != "loose" && key != "volume_surge" ==> s.params == DefaultParams())
  {
    var key := PyStr.Lower(name);
    MergeOne(DefaultParams(), if key == "loose" then "j_threshold" else "volume_ratio", if key == "loose" then Int(-5) else Float(1.5));
  }

  function Keys'(a: Active): (ks: seq<string>)
    ensures |ks| == |a| && forall k :: 0 <= k < |a| ==> ks[k] == a[k].0
  {
    seq(|a|, k requires 0 <= k < |a| => a[k].0)
  }

  /** get_selection: only "b1", looked up lowercased, built with params unchanged and the constructor's other defaults. */
  function GetSelection(name: string, params: Option<Params>): (r: Result<Selector>)
    ensures r.Ok? <==> PyStr.Lower(name) == "b1"
    ensures r.Ok? ==> r.value == NewSelector(params, None, "AND")
    ensures r.Err? ==> r.error.ValueError?
  {
    if PyStr.Lower(name) == "b1" then Ok(NewSelector(params, None, "AND"))
    else Err(ValueError("unknown selection strategy: " + name))
  }
}
