/**
 * The generic screening run: the stock-pool provider's dispatch on the
 * pool name, the loader that keeps only frames long enough and holding the
 * target date, the run that turns each selected symbol's last bar into a
 * screen result with the placeholder risk levels, and the dict view of the
 * results. The data handler's lists and fetches, and the selection
 * strategy's choice, are parameters.
 */
module Screener {
  import opened Wrappers
  import opened Bars
  import opened Selection
  import PyStr
  import LegacyB1
  import LegacyFilter

  /** A string with no ASCII capital is its own lower case; Lower's output is one. */
  lemma LowerIdempotent(s: string)
    ensures PyStr.Lower(PyStr.Lower(s)) == PyStr.Lower(s)
  {
    PyStr.LowerOfLower(PyStr.Lower(s));
  }

  /** StockPoolProvider.get_symbols: the pool name is lower-cased, then dispatched. */
  function GetSymbols(pool: string, symbols: Option<seq<string>>, lists: string -> seq<string>): seq<string>
  {
    match LegacyFilter.SourceOf(PyStr.Lower(pool), symbols)
    case Provider(p) => lists(p)
    case Custom(s) => s
  }

  /**
   * The four named pools read their list whatever the case of the name;
   * "custom" with symbols returns them; anything else, "custom" without
   * symbols included, reads the hs300 list.
   */
  lemma GetSymbolsRules(pool: string, symbols: Option<seq<string>>, lists: string -> seq<string>)
    ensures PyStr.Lower(pool) in {"hs300", "zz500", "all_a", "main"} ==>
      GetSymbols(pool, symbols, lists) == lists(PyStr.Lower(pool))
    ensures PyStr.Lower(pool) == "custom" && symbols.Some? ==> GetSymbols(pool, symbols, lists) == symbols.value
    ensures PyStr.Lower(pool) !in {"hs300", "zz500", "all_a", "main", "custom"} ==>
      GetSymbols(pool, symbols, lists) == lists("hs300")
    ensures PyStr.Lower(pool) == "custom" && symbols.None? ==> GetSymbols(pool, symbols, lists) == lists("hs300")
    ensures GetSymbols(PyStr.Lower(pool), symbols, lists) == GetSymbols(pool, symbols, lists)
  {
    LegacyFilter.PoolRules(PyStr.Lower(pool), symbols, 0, lists, (n: nat, k: nat) => []);
    LowerIdempotent(pool);
  }

  /** The position of key in the dict, or its length when absent. */
  function KeyIndex(md: Listing, key: string): (i: nat)
    ensures i <= |md| && (i < |md| ==> md[i].0 == key)
    ensures forall j :: 0 <= j < i ==> md[j].0 != key
  {
    if md == [] || md[0].0 == key then 0 else 1 + KeyIndex(md[1..], key)
  }

  /** dict[key] = value on an ordered dict: an existing key keeps its place, a new one goes last. */
  function Put(md: Listing, key: string, df: Frame): (r: Listing)
    ensures Keys(r) == if key in Keys(md) then Keys(md) else Keys(md) + [key]
    ensures |r| >= |md| && forall k :: 0 <= k < |r| ==> (k < |md| && r[k] == md[k]) || r[k] == (key, df)
  {
    var i := KeyIndex(md, key);
    if i < |md| then
      var r := md[i := (key, df)];
      assert key in Keys(md) by { assert Keys(md)[i] == key; }
      assert Keys(r) == Keys(md);
      r
    else
      var r := md + [(key, df)];
      assert key !in Keys(md);
      assert Keys(r) == Keys(md) + [key];
      r
  }

  /** A fetched frame the loader keeps: more than 20 rows, the target date among them. */
  predicate Usable(df: Option<Frame>, target: int)
  {
    df.Some? && |df.value.bars| > 20 && df.value.HasDay(target)
  }

  /** The data handler's fetch of one symbol over [start, end] (day numbers); None for no data. */
  type Fetch = (string, int, int) -> Option<Frame>

  /** The loader's dict after the given symbols, in order. */
  function Loaded(symbols: seq<string>, fetch: Fetch, start: int, end: int, target: int): Listing
  {
    if symbols == [] then []
    else
      var s := symbols[|symbols| - 1];
      var md := Loaded(symbols[..|symbols| - 1], fetch, start, end, target);
      var df := fetch(s, start, end);
      if Usable(df, target) then Put(md, s, df.value) else md
  }

  /** The symbols whose fetched frame the loader keeps, in order. */
  function UsableSymbols(symbols: seq<string>, fetch: Fetch, start: int, end: int, target: int): seq<string>
  {
    if symbols == [] then []
    else
      var s := symbols[|symbols| - 1];
      UsableSymbols(symbols[..|symbols| - 1], fetch, start, end, target) + (if Usable(fetch(s, start, end), target) then [s] else [])
  }

  /**
   * The loaded dict holds each usable symbol once, in order of first
   * appearance, with the frame fetched for it; the frames all pass the
   * loader's test.
   */
  lemma {:induction false} LoadedRules(symbols: seq<string>, fetch: Fetch, start: int, end: int, target: int)
    ensures var md := Loaded(symbols, fetch, start, end, target);
      && Keys(md) == PyStr.Dedup(UsableSymbols(symbols, fetch, start, end, target))
      && forall k :: 0 <= k < |md| ==> Usable(fetch(md[k].0, start, end), target) && md[k].1 == fetch(md[k].0, start, end).value
  {
    if symbols != [] {
      var init := symbols[..|symbols| - 1];
      var s := symbols[|symbols| - 1];
      LoadedRules(init, fetch, start, end, target);
      var md0 := Loaded(init, fetch, start, end, target);
      var u0 := UsableSymbols(init, fetch, start, end, target);
      var df := fetch(s, start, end);
      if Usable(df, target) {
        assert UsableSymbols(symbols, fetch, start, end, target) == u0 + [s];
        assert (u0 + [s])[..|u0|] == u0;
      } else {
        assert UsableSymbols(symbols, fetch, start, end, target) == u0;
      }
    }
  }

  /** A symbol is loaded exactly when it is one of the symbols and its fetch passes; no key repeats. */
  lemma LoadedKeys(symbols: seq<string>, fetch: Fetch, start: int, end: int, target: int)
    ensures var md := Loaded(symbols, fetch, start, end, target);
      && UniqueKeys(md)
      && forall s :: s in Keys(md) <==> s in symbols && Usable(fetch(s, start, end), target)
  {
    LoadedRules(symbols, fetch, start, end, target);
    PyStr.DedupRules(UsableSymbols(symbols, fetch, start, end, target));
    UsableSymbolsIn(symbols, fetch, start, end, target);
    var md := Loaded(symbols, fetch, start, end, target);
    assert forall a, b :: 0 <= a < b < |md| ==> Keys(md)[a] != Keys(md)[b];
  }

  lemma {:induction false} UsableSymbolsIn(symbols: seq<string>, fetch: Fetch, start: int, end: int, target: int)
    ensures forall s :: s in UsableSymbols(symbols, fetch, start, end, target) <==>
      s in symbols && Usable(fetch(s, start, end), target)
  {
    if symbols != [] {
      var init := symbols[..|symbols| - 1];
      UsableSymbolsIn(init, fetch, start, end, target);
      assert symbols == init + [symbols[|symbols| - 1]];
    }
  }

  /** ScreenResult: the symbol, its last bar's date and close, and the risk levels. */
  datatype ScreenResult = ScreenResult(symbol: string, date: int, price: real, stopLoss: real,
                                       targetPrice: real, meta: map<string, string>)

  /** One selected symbol's result: KeyError for a symbol not loaded or a missing column. */
  function ResultFor(md: Listing, sym: string, name: string): (r: Result<ScreenResult>)
    ensures r.Ok? ==> sym in ToMap(md) && ToMap(md)[sym].bars != []
    ensures r.Ok? ==> var last := Last(ToMap(md)[sym]);
      r.value == ScreenResult(sym, last.day, last.close, last.low * 0.9, last.close * 1.3, map["selection" := name])
    ensures sym !in ToMap(md) ==> r == Err(KeyError(sym))
  {
    if sym !in ToMap(md) then Err(KeyError(sym))
    else
      var df := ToMap(md)[sym];
      if df.bars == [] then Err(IndexError("single positional indexer is out-of-bounds"))
      else
        var i := |df.bars| - 1;
        var close :- LegacyB1.Cell(df, Close, i);
        var low :- LegacyB1.Cell(df, Low, i);
        Ok(ScreenResult(sym, df.bars[i].day, close, low * 0.9, close * 1.3, map["selection" := name]))
  }

  /** The run's results for the selected symbols, in order; the first failure is raised. */
  function Screen(md: Listing, selected: seq<string>, name: string): Result<seq<ScreenResult>>
  {
    if selected == [] then Ok([])
    else
      var first :- ResultFor(md, selected[0], name);
      var rest :- Screen(md, selected[1..], name);
      Ok([first] + rest)
  }

  /**
   * The run succeeds exactly when every selected symbol's result does; it
   * then holds one result per selected symbol, in selection order, and
   * otherwise raises the error of the first symbol that fails.
   */
  lemma {:induction false} ScreenRules(md: Listing, selected: seq<string>, name: string)
    ensures Screen(md, selected, name).Ok? <==> forall k :: 0 <= k < |selected| ==> ResultFor(md, selected[k], name).Ok?
    ensures Screen(md, selected, name).Ok? ==>
      |Screen(md, selected, name).value| == |selected| &&
      forall k :: 0 <= k < |selected| ==> Screen(md, selected, name).value[k] == ResultFor(md, selected[k], name).value
    ensures Screen(md, selected, name).Err? ==> exists k :: (0 <= k < |selected| &&
      (forall j :: 0 <= j < k ==> ResultFor(md, selected[j], name).Ok?) &&
      ResultFor(md, selected[k], name).Err? && Screen(md, selected, name).error == ResultFor(md, selected[k], name).error)
  {
    if selected != [] {
      var rest := selected[1..];
      ScreenRules(md, rest, name);
      assert forall k :: 1 <= k < |selected| ==> selected[k] == rest[k - 1];
      var r := Screen(md, selected, name);
      if ResultFor(md, selected[0], name).Ok? && Screen(md, rest, name).Err? {
        var k :| 0 <= k < |rest| && (forall j :: 0 <= j < k ==> ResultFor(md, rest[j], name).Ok?) &&
          ResultFor(md, rest[k], name).Err? && Screen(md, rest, name).error == ResultFor(md, rest[k], name).error;
        assert ResultFor(md, selected[k + 1], name).Err? && r.error == ResultFor(md, selected[k + 1], name).error;
        assert forall j :: 0 <= j < k + 1 ==> ResultFor(md, selected[j], name).Ok?;
      }
    }
  }

  /** One entry of to_dict: the result's fields, and its selection name as the conditions met. */
  datatype ResultEntry = ResultEntry(date: int, price: real, stopLoss: real, targetPrice: real, conditionsMet: seq<string>)

  function EntryOf(r: ScreenResult): (e: ResultEntry)
  {
    ResultEntry(r.date, r.price, r.stopLoss, r.targetPrice,
                [if "selection" in r.meta then r.meta["selection"] else ""])
  }

  /** to_dict: results keyed by symbol; a later result for a symbol replaces an earlier one. */
  function ToDict(results: seq<ScreenResult>): map<string, ResultEntry>
  {
    if results == [] then map[]
    else
      var last := results[|results| - 1];
      ToDict(results[..|results| - 1])[last.symbol := EntryOf(last)]
  }

  /** The keys are the results' symbols. */
  lemma {:induction false} ToDictKeys(results: seq<ScreenResult>)
    ensures forall s :: s in ToDict(results) <==> exists k :: 0 <= k < |results| && results[k].symbol == s
  {
    if results != [] {
      var init := results[..|results| - 1];
      var last := results[|results| - 1];
      ToDictKeys(init);
      forall s ensures s in ToDict(results) <==> exists k :: 0 <= k < |results| && results[k].symbol == s {
        if s in ToDict(init) {
          var k :| 0 <= k < |init| && init[k].symbol == s;
          assert results[k].symbol == s;
        }
        if s != last.symbol && exists k :: 0 <= k < |results| && results[k].symbol == s {
          var k :| 0 <= k < |results| && results[k].symbol == s;
          assert k < |init| && init[k].symbol == s;
        }
      }
    }
  }

  /** Each symbol maps to the entry of its last result: later duplicates overwrite earlier ones. */
  lemma {:induction false} ToDictLast(results: seq<ScreenResult>, k: nat)
    requires k < |results| && forall j :: k < j < |results| ==> results[j].symbol != results[k].symbol
    ensures results[k].symbol in ToDict(results) && ToDict(results)[results[k].symbol] == EntryOf(results[k])
  {
    var init := results[..|results| - 1];
    if k < |results| - 1 {
      assert init[k] == results[k];
      assert forall j :: k < j < |init| ==> init[j] == results[j];
      ToDictLast(init, k);
    }
  }

  /** Every result of the run lists its strategy's name as the condition met. */
  lemma ResultEntryNamesStrategy(md: Listing, sym: string, name: string)
    requires ResultFor(md, sym, name).Ok?
    ensures EntryOf(ResultFor(md, sym, name).value).conditionsMet == [name]
  {
  }

  /** StockScreener: the history window in days before the target date (45 by default). */
  class StockScreener {
    const historyDays: int

    constructor(historyDays: int)
      ensures this.historyDays == historyDays
    {
      this.historyDays := historyDays;
    }

    /** The fetch window, [target - history_days, target]. */
    function Window(target: int): (w: (int, int))
    {
      (target - historyDays, target)
    }

    /** load_stock_data: fetch each symbol over the window and keep the usable frames. */
    method LoadStockData(symbols: seq<string>, target: int, fetch: Fetch) returns (data: Listing)
      ensures data == Loaded(symbols, fetch, Window(target).0, Window(target).1, target)
    {
      var start, end := Window(target).0, Window(target).1;
      data := [];
      for i := 0 to |symbols|
        invariant data == Loaded(symbols[..i], fetch, start, end, target)
      {
        assert symbols[..i + 1][..i] == symbols[..i];
        var df := fetch(symbols[i], start, end);
        if Usable(df, target) {
          data := Put(data, symbols[i], df.value);
        }
      }
      assert symbols[..|symbols|] == symbols;
    }

    /** The run's results over the loaded data and the strategy's selection. */
    function RunSpec(select: Listing -> seq<string>, name: string, symbols: seq<string>, target: int, fetch: Fetch): Result<seq<ScreenResult>>
    {
      var md := Loaded(symbols, fetch, Window(target).0, Window(target).1, target);
      Screen(md, select(md), name)
    }

    /** run: load, let the strategy select, then one result per selected symbol. */
    method Run(select: Listing -> seq<string>, name: string, symbols: seq<string>, target: int, fetch: Fetch)
      returns (r: Result<seq<ScreenResult>>)
      ensures r == RunSpec(select, name, symbols, target, fetch)
    {
      var md := LoadStockData(symbols, target, fetch);
      var selected := select(md);
      var results: seq<ScreenResult> := [];
      LegacyB1.PrependNil(Screen(md, selected, name));
      for i := 0 to |selected|
        invariant Screen(md, selected, name) == LegacyB1.Prepend(results, Screen(md, selected[i..], name))
      {
        var one := ResultFor(md, selected[i], name);
        assert selected[i..][0] == selected[i];
        if one.Err? {
          assert Screen(md, selected[i..], name) == Err(one.error);
          return Err(one.error);
        }
        assert selected[i..][1..] == selected[i + 1..];
        LegacyB1.PrependSnoc(results, one.value, Screen(md, selected[i + 1..], name));
        results := results + [one.value];
      }
      assert selected[|selected|..] == [];
      assert results + [] == results;
      r := Ok(results);
    }
  }
}
