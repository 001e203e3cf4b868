/**
 * The B1 stock filter around the legacy engine: the named strategy
 * variants it configures through the engine's setters, the guard that
 * refuses to screen before any data is loaded, and the stock-pool
 * dispatch with its optional truncation. The index-component lists come
 * from the data handler and the truncation draws a random sample; both
 * are parameters here.
 */
module LegacyFilter {
  import opened Wrappers
  import opened Values
  import opened LegacyB1
  import Bars

  /** The seven flags in condition order as set_active_conditions receives them. */
  function Flags(on: seq<bool>): (items: seq<(string, bool)>)
    requires |on| == |ConditionNames|
    ensures |items| == |ConditionNames| && forall k :: 0 <= k < |items| ==> items[k] == (ConditionNames[k], on[k])
  {
    seq(|ConditionNames|, k requires 0 <= k < |ConditionNames| => (ConditionNames[k], on[k]))
  }

  /** No two positions of the condition list hold the same name. */
  lemma NamesUnique()
    ensures forall j, k :: 0 <= j < k < |ConditionNames| ==> ConditionNames[j] != ConditionNames[k]
  {
    NamesDistinct();
  }

  /** Setting all seven flags raises nothing and leaves condition k with flag on[k]. */
  lemma FlagsApply(m: map<string, bool>, on: seq<bool>)
    requires |on| == |ConditionNames|
    ensures ApplyItems(m, Flags(on)).1.None?
    ensures forall k :: 0 <= k < |ConditionNames| ==>
      ConditionNames[k] in ApplyItems(m, Flags(on)).0 && ApplyItems(m, Flags(on)).0[ConditionNames[k]] == on[k]
  {
    var items := Flags(on);
    ApplyItemsKnown(m, items);
    NamesUnique();
    forall k | 0 <= k < |ConditionNames|
      ensures ConditionNames[k] in ApplyItems(m, items).0 && ApplyItems(m, items).0[ConditionNames[k]] == on[k]
    {
      ApplyItemsLast(m, items, k);
    }
  }

  /** The weights the "weighted" variant installs, for the first five conditions. */
  const VariantWeights: seq<real> := [2.0, 1.0, 1.5, 1.0, 0.5]

  function WeightItems(): (items: seq<(string, Num)>)
    ensures |items| == 5 && forall k :: 0 <= k < 5 ==> items[k] == (ConditionNames[k], Float(VariantWeights[k]))
  {
    seq(5, k requires 0 <= k < 5 => (ConditionNames[k], Float(VariantWeights[k])))
  }

  /** The five weights raise nothing, land on the first five conditions and leave the last two alone. */
  lemma WeightsApply(m: map<string, real>)
    ensures ApplyItems(m, AsFloats(WeightItems())).1.None?
    ensures forall k :: 0 <= k < 5 ==>
      ConditionNames[k] in ApplyItems(m, AsFloats(WeightItems())).0 &&
      ApplyItems(m, AsFloats(WeightItems())).0[ConditionNames[k]] == VariantWeights[k]
    ensures forall k :: 5 <= k < |ConditionNames| ==>
      (ConditionNames[k] in ApplyItems(m, AsFloats(WeightItems())).0 <==> ConditionNames[k] in m) &&
      (ConditionNames[k] in m ==> ApplyItems(m, AsFloats(WeightItems())).0[ConditionNames[k]] == m[ConditionNames[k]])
  {
    var items := AsFloats(WeightItems());
    ApplyItemsKnown(m, items);
    NamesUnique();
    forall k | 0 <= k < 5
      ensures ConditionNames[k] in ApplyItems(m, items).0 && ApplyItems(m, items).0[ConditionNames[k]] == VariantWeights[k]
    {
      ApplyItemsLast(m, items, k);
    }
    forall k | 5 <= k < |ConditionNames|
      ensures (ConditionNames[k] in ApplyItems(m, items).0 <==> ConditionNames[k] in m) &&
        (ConditionNames[k] in m ==> ApplyItems(m, items).0[ConditionNames[k]] == m[ConditionNames[k]])
    {
      ApplyItemsUntouched(m, items, ConditionNames[k]);
    }
  }

  /** The flags each variant installs; anything unrecognised gets J alone. */
  function VariantFlags(variant: string): (on: seq<bool>)
    ensures |on| == |ConditionNames|
  {
    if variant == "volume_surge" || variant == "weighted" then [true, true, true, true, true, false, false]
    else if variant == "loose" || variant == "b1+" then [true, true, true, true, false, false, false]
    else [true, false, false, false, false, false, false]
  }

  /** The combination logic each variant installs. */
  function VariantLogic(variant: string): (l: string)
    ensures l in Logics
  {
    if variant == "loose" then "OR" else if variant == "weighted" then "WEIGHTED" else "AND"
  }

  /** The parameter change of a variant: a lower volume ratio, a looser J threshold, or none. */
  function VariantParams(variant: string): Params
  {
    if variant == "volume_surge" then map["volume_ratio" := Float(1.5)]
    else if variant == "loose" then map["j_threshold" := Int(-5)]
    else map[]
  }

  /**
   * configure_strategy_variant. Every variant rewrites all seven flags and
   * the logic; only "weighted" touches the weights; the strategy handed in
   * is the one returned.
   */
  method ConfigureStrategyVariant(s: B1Strategy, variant: string) returns (r: B1Strategy)
    requires s.Valid()
    modifies s
    ensures r == s && s.Valid()
    ensures forall k :: 0 <= k < |ConditionNames| ==> s.active[ConditionNames[k]] == VariantFlags(variant)[k]
    ensures s.logic == VariantLogic(variant)
    ensures s.params == Merge(old(s.params), VariantParams(variant))
    ensures variant != "weighted" ==> s.weights == old(s.weights)
    ensures variant == "weighted" ==> forall k :: 0 <= k < |ConditionNames| ==>
      s.weights[ConditionNames[k]] == if k < 5 then VariantWeights[k] else old(s.weights)[ConditionNames[k]]
  {
    FlagsApply(s.active, VariantFlags(variant));
    var _ := s.SetActiveConditions(Flags(VariantFlags(variant)));
    if variant == "volume_surge" {
      var _ := s.UpdateParams(map["volume_ratio" := Float(1.5)]);
    } else if variant == "loose" {
      var _ := s.UpdateParams(map["j_threshold" := Int(-5)]);
    } else if variant == "weighted" {
      WeightsApply(s.weights);
      var _ := s.SetConditionWeights(WeightItems());
    }
    var _ := s.SetCombinationLogic(VariantLogic(variant));
    r := s;
  }

  /**
   * Under AND with J as the only active condition the combination is the
   * J check itself, its KeyError included: the default variant screens on
   * J < j_threshold alone.
   */
  lemma JOnlyIsKdj(c: Config, f: Bars.Frame, i: int)
    requires 0 <= i < |f.bars| && c.logic == "AND"
    requires forall k :: 0 <= k < |ConditionNames| ==> ConditionNames[k] in c.active && c.active[ConditionNames[k]] == (k == 0)
    ensures Triggered(c, f, i) == KdjCheck(c.params, f, i)
  {
    var rest := ConditionNames[1..];
    assert forall k :: 0 <= k < |rest| ==> rest[k] == ConditionNames[k + 1];
    NoneActive(rest, c.active, c.params, f, i);
  }

  /** Configuring an unrecognised variant ('j_nega' among them) gives the J-only AND screen. */
  lemma UnknownVariantIsJOnly(variant: string)
    requires variant !in {"volume_surge", "loose", "weighted", "b1+"}
    ensures VariantFlags(variant) == [true, false, false, false, false, false, false]
    ensures forall k :: 0 <= k < |ConditionNames| ==> VariantFlags(variant)[k] == (k == 0)
    ensures VariantLogic(variant) == "AND" && VariantParams(variant) == map[]
  {
  }

  /** B1StockFilter's loaded data, and the screen that needs it. */
  class B1StockFilter {
    var stockData: Stocks

    constructor()
      ensures stockData == []
    {
      stockData := [];
    }

    /** filter_stocks: ValueError before any data is loaded, else the engine's date screen. */
    method FilterStocks(strategy: B1Strategy, target: int, details: bool) returns (r: Result<ByDate>)
      requires forall k :: 0 <= k < |stockData| ==> stockData[k].1.Valid()
      ensures stockData == [] ==> r == Err(ValueError("请先调用load_stock_data加载股票数据"))
      ensures stockData != [] ==> r == ByDateFrom(strategy.Snapshot(), stockData, target, details)
    {
      if stockData == [] {
        return Err(ValueError("请先调用load_stock_data加载股票数据"));
      }
      r := strategy.GetFilteredStocksByDate(stockData, target, details);
    }
  }

  /** Where the pool's symbols come from: a data-handler list, or the caller's own. */
  datatype PoolSource = Provider(pool: string) | Custom(symbols: seq<string>)

  /** The pool dispatch: four named lists, custom with symbols, and hs300 for anything else. */
  function SourceOf(pool: string, symbols: Option<seq<string>>): (s: PoolSource)
    ensures s.Provider? ==> s.pool in {"hs300", "zz500", "all_a", "main"}
  {
    if pool in {"hs300", "zz500", "all_a", "main"} then Provider(pool)
    else if pool == "custom" && symbols.Some? then Custom(symbols.value)
    else Provider("hs300")
  }

  /** The symbols at the drawn positions (random.sample draws distinct positions). */
  function Pick(all: seq<string>, positions: seq<nat>): (r: seq<string>)
    ensures forall x :: x in r ==> x in all
  {
    if positions == [] then []
    else (if positions[0] < |all| then [all[positions[0]]] else []) + Pick(all, positions[1..])
  }

  /**
   * prepare_stock_pool. `lists` is the data handler's list per pool name;
   * `draw(n, k)` is random.sample's choice of k positions out of n, with
   * its fixed seed.
   */
  function PrepareStockPool(pool: string, symbols: Option<seq<string>>, count: int,
                            lists: string -> seq<string>, draw: (nat, nat) -> seq<nat>): (r: seq<string>)
    ensures forall x :: x in r ==> x in (match SourceOf(pool, symbols) case Provider(p) => lists(p) case Custom(s) => s)
  {
    var all := match SourceOf(pool, symbols) case Provider(p) => lists(p) case Custom(s) => s;
    if 0 < count < |all| then Pick(all, draw(|all|, count)) else all
  }

  /** A draw of k distinct in-range positions picks exactly k symbols. */
  lemma {:induction false} PickLength(all: seq<string>, positions: seq<nat>)
    requires forall k :: 0 <= k < |positions| ==> positions[k] < |all|
    ensures |Pick(all, positions)| == |positions|
  {
    if positions != [] {
      PickLength(all, positions[1..]);
    }
  }

  /**
   * The whole list is kept for a non-positive count or one at least its
   * length; otherwise exactly `count` of its symbols are kept, given a
   * proper sample. An unknown pool name, or custom without symbols, reads
   * the hs300 list.
   */
  lemma PoolRules(pool: string, symbols: Option<seq<string>>, count: int,
                  lists: string -> seq<string>, draw: (nat, nat) -> seq<nat>)
    ensures var all := match SourceOf(pool, symbols) case Provider(p) => lists(p) case Custom(s) => s;
      var r := PrepareStockPool(pool, symbols, count, lists, draw);
      && (count <= 0 || count >= |all| ==> r == all)
      && ((0 < count < |all| && |draw(|all|, count)| == count &&
           (forall k :: 0 <= k < count ==> draw(|all|, count)[k] < |all|)) ==> |r| == count)
    ensures pool !in {"hs300", "zz500", "all_a", "main", "custom"} ==> SourceOf(pool, symbols) == Provider("hs300")
    ensures pool == "custom" && symbols.None? ==> SourceOf(pool, symbols) == Provider("hs300")
    ensures pool == "custom" && symbols.Some? ==> SourceOf(pool, symbols) == Custom(symbols.value)
  {
    var all := match SourceOf(pool, symbols) case Provider(p) => lists(p) case Custom(s) => s;
    if 0 < count < |all| && |draw(|all|, count)| == count && (forall k :: 0 <= k < count ==> draw(|all|, count)[k] < |all|) {
      PickLength(all, draw(|all|, count));
    }
  }
}
