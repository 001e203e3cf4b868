/**
 * HS300TopWeightSelection: the constituents of an index (CSI 300 by
 * default) taken in index-weight order. The weight table comes from an
 * outside fetch, which the model takes as an input (None when the fetch
 * library is missing or the call raises), and is cached per index code in
 * a dict shared by every instance (a TableCache).
 */
module Hs300TopWeight {
  import opened Wrappers
  import opened Values
  import opened Selection
  import opened WeightTables
  import PyStr

  /** DEFAULT_PARAMS. */
  const DefaultParams: map<string, Value> := map["top_n" := VInt(20), "index_code" := VStr("000300")]

  /** {**DEFAULT_PARAMS, **(params or {})}. */
  function Params(overrides: map<string, Value>): (p: map<string, Value>)
    ensures "top_n" in p && "index_code" in p
    ensures forall k :: k in overrides ==> k in p && p[k] == overrides[k]
    ensures forall k :: k in p && k !in overrides ==> k in DefaultParams && p[k] == DefaultParams[k]
  {
    DefaultParams + overrides
  }

  /** Some column's label lowers to `key` (the set df.columns.str.lower()). */
  predicate HasLower(cols: seq<RawColumn>, key: string)
  {
    exists k :: 0 <= k < |cols| && PyStr.Lower(cols[k].name) == key
  }

  /**
   * The rename map's entry for one column: labels lowering to something
   * starting with "weight", or to "i_weight", become "weight"; labels
   * lowering to something starting with "con_code", or to "symbol",
   * become "code" (the weight test runs second and wins).
   */
  function RenameColumn(c: RawColumn): (r: RawColumn)
    ensures r.text == c.text && r.numbers == c.numbers
    ensures var cl := PyStr.Lower(c.name);
      && (PyStr.StartsWith(cl, "weight") || cl == "i_weight" ==> r.name == "weight")
      && (!(PyStr.StartsWith(cl, "weight") || cl == "i_weight") && (PyStr.StartsWith(cl, "con_code") || cl == "symbol") ==> r.name == "code")
      && (!(PyStr.StartsWith(cl, "weight") || cl == "i_weight") && !(PyStr.StartsWith(cl, "con_code") || cl == "symbol") ==> r == c)
  {
    var cl := PyStr.Lower(c.name);
    if PyStr.StartsWith(cl, "weight") || cl == "i_weight" then c.(name := "weight")
    else if PyStr.StartsWith(cl, "con_code") || cl == "symbol" then c.(name := "code")
    else c
  }

  /** The columns after the optional rename, which runs only when "code" or "weight" is missing from the lowered labels. */
  function Renamed(cols: seq<RawColumn>): (r: seq<RawColumn>)
    ensures |r| == |cols|
    ensures forall k :: 0 <= k < |r| ==> r[k].text == cols[k].text && r[k].numbers == cols[k].numbers
    ensures HasLower(cols, "code") && HasLower(cols, "weight") ==> r == cols
    ensures !(HasLower(cols, "code") && HasLower(cols, "weight")) ==> forall k :: 0 <= k < |r| ==> r[k] == RenameColumn(cols[k])
  {
    if HasLower(cols, "code") && HasLower(cols, "weight") then cols
    else seq(|cols|, k requires 0 <= k < |cols| => RenameColumn(cols[k]))
  }

  /**
   * How the renamed columns fit df[['code', 'weight']]: unfit without a
   * "code" label or unless "weight" names exactly one column (a repeated
   * "weight" makes sort_values raise, and the raise is caught into an empty
   * table); a repeated "code" label selects every such column, which the
   * sort accepts; otherwise the one code and the one weight column.
   */
  datatype Hs300Layout = Unfit | RepeatedCode | Pair(code: nat, weight: nat)

  function Hs300Columns(t: RawTable): (r: Hs300Layout)
    ensures var cols := Renamed(t.columns);
      r.Unfit? <==> LabelCount(cols, "code") == 0 || LabelCount(cols, "weight") != 1
    ensures var cols := Renamed(t.columns);
      r.RepeatedCode? <==> LabelCount(cols, "code") >= 2 && LabelCount(cols, "weight") == 1
    ensures var cols := Renamed(t.columns);
      r.Pair? ==> (r.code < |cols| && r.weight < |cols| &&
        cols[r.code].name == "code" && cols[r.weight].name == "weight" &&
        (forall j :: 0 <= j < |cols| && j != r.code ==> cols[j].name != "code") &&
        (forall j :: 0 <= j < |cols| && j != r.weight ==> cols[j].name != "weight"))
  {
    var cols := Renamed(t.columns);
    if LabelCount(cols, "code") == 0 || LabelCount(cols, "weight") != 1 then Unfit
    else if LabelCount(cols, "code") >= 2 then RepeatedCode
    else
      var c := ColumnNamed(cols, "code").value;
      var w := ColumnNamed(cols, "weight").value;
      LabelOnce(cols, "code", c);
      LabelOnce(cols, "weight", w);
      Pair(c, w)
  }

  /**
   * What _fetch_weights caches for one fetch: the empty table when the
   * fetch failed or the columns are unfit; the frame with its repeated
   * "code" label; else the (code as text, weight) rows sorted by weight,
   * highest first, NaN last.
   */
  function Hs300Table(fetched: Option<RawTable>): (f: Frame)
    requires fetched.Some? ==> fetched.value.Rectangular()
  {
    if fetched.None? then Table([])
    else
      var t := fetched.value;
      match Hs300Columns(t)
      case Unfit => Table([])
      case RepeatedCode => CodeRepeated(LabelCount(Renamed(t.columns), "code"), t.height)
      case Pair(c, w) =>
        var cols := Renamed(t.columns);
        Table(ByWeight(Zip(cols[c].text, cols[w].numbers)))
  }

  /**
   * The cached frame: empty for a failed fetch or unfit columns; the
   * repeated-"code" frame with the fetch's height; otherwise sorted by
   * weight and holding exactly the fetched (code, weight) rows.
   */
  lemma Hs300TableFacts(fetched: Option<RawTable>)
    requires fetched.Some? ==> fetched.value.Rectangular()
    ensures var f := Hs300Table(fetched);
      && (f.Table? ==> forall i, j :: 0 <= i < j < |f.rows| && f.rows[j].weight.Some? ==>
            f.rows[i].weight.Some? && f.rows[i].weight.value >= f.rows[j].weight.value)
      && (fetched.None? ==> f == Table([]))
      && (fetched.Some? && Hs300Columns(fetched.value).Unfit? ==> f == Table([]))
      && (fetched.Some? && Hs300Columns(fetched.value).RepeatedCode? ==>
            f.CodeRepeated? && f.labels >= 2 && f.height == fetched.value.height)
      && (fetched.Some? && Hs300Columns(fetched.value).Pair? ==>
            var cols := Renamed(fetched.value.columns);
            var cw := Hs300Columns(fetched.value);
            f.Table? && |f.rows| == fetched.value.height &&
            multiset(f.rows) == multiset(Zip(cols[cw.code].text, cols[cw.weight].numbers)))
  {
  }

  /**
   * Labels "con_code" and "symbol" both rename to "code": the cached
   * frame has its "code" label twice, where the sort raises nothing.
   */
  lemma ConCodeAndSymbolRepeatCode(codes: seq<string>, weights: seq<Option<real>>)
    requires |codes| == |weights|
    ensures Hs300Table(Some(RawTable([RawColumn("con_code", codes, weights), RawColumn("symbol", codes, weights),
                                      RawColumn("weight", codes, weights)], |codes|))) == CodeRepeated(2, |codes|)
  {
    ConCodeAndSymbolRenamed(codes, weights);
    var w := [RawColumn("weight", codes, weights)];
    var cw := [RawColumn("code", codes, weights)] + w;
    var r := [RawColumn("code", codes, weights)] + cw;
    assert w[1..] == [] && cw[1..] == w && r[1..] == cw;
    assert LabelCount(w, "weight") == 1 && LabelCount(w, "code") == 0;
    assert LabelCount(cw, "weight") == 1 && LabelCount(cw, "code") == 1;
    assert LabelCount(r, "weight") == 1 && LabelCount(r, "code") == 2;
    var t := RawTable([RawColumn("con_code", codes, weights), RawColumn("symbol", codes, weights),
                       RawColumn("weight", codes, weights)], |codes|);
    assert Renamed(t.columns) == r;
    assert Hs300Columns(t).RepeatedCode?;
  }

  /** Both "con_code" and "symbol" are renamed to "code", since no label lowers to "code". */
  lemma ConCodeAndSymbolRenamed(codes: seq<string>, weights: seq<Option<real>>)
    ensures Renamed([RawColumn("con_code", codes, weights), RawColumn("symbol", codes, weights), RawColumn("weight", codes, weights)]) ==
      [RawColumn("code", codes, weights), RawColumn("code", codes, weights), RawColumn("weight", codes, weights)]
  {
    var cols := [RawColumn("con_code", codes, weights), RawColumn("symbol", codes, weights), RawColumn("weight", codes, weights)];
    assert PyStr.Lower("con_code") == "con_code" && PyStr.Lower("symbol") == "symbol" && PyStr.Lower("weight") == "weight";
    assert !HasLower(cols, "code") by {
      assert "con_code" != "code" && "symbol" != "code" && "weight" != "code";
    }
    assert PyStr.StartsWith("con_code", "con_code");
    assert !PyStr.StartsWith("con_code", "weight") by {
      assert "con_code"[0] != "weight"[0];
    }
    assert !PyStr.StartsWith("symbol", "weight") && PyStr.StartsWith("weight", "weight");
    assert RenameColumn(cols[0]) == RawColumn("code", codes, weights);
    assert RenameColumn(cols[1]) == RawColumn("code", codes, weights);
    assert RenameColumn(cols[2]) == RawColumn("weight", codes, weights);
  }

  /**
   * Label matching is case-insensitive only for the decision to rename:
   * columns "Code" and "Weight" skip the rename and are then not found, so
   * the cached table is empty.
   */
  lemma CapitalisedLabelsGiveEmpty(text: seq<string>, numbers: seq<Option<real>>)
    requires |text| == |numbers|
    ensures Hs300Table(Some(RawTable([RawColumn("Code", text, numbers), RawColumn("Weight", text, numbers)], |text|))) == Table([])
  {
    var cols := [RawColumn("Code", text, numbers), RawColumn("Weight", text, numbers)];
    assert PyStr.Lower("Code") == "code" && PyStr.Lower("Weight") == "weight";
    assert HasLower(cols, "code") && HasLower(cols, "weight") by {
      assert PyStr.Lower(cols[0].name) == "code" && PyStr.Lower(cols[1].name) == "weight";
    }
    var t := RawTable(cols, |text|);
    assert Renamed(t.columns) == cols;
    assert forall k :: 0 <= k < |cols| ==> cols[k].name != "code" by {
      assert cols[0].name[0] != 'c' && cols[1].name[0] != 'c';
    }
    assert Hs300Columns(t).Unfit?;
  }

  /** The AttributeError of dfw['code'].astype(str).tolist() when dfw['code'] is a DataFrame. */
  const NoToList := AttributeError("'DataFrame' object has no attribute 'tolist'")

  /**
   * select on a cached frame: int(top_n) first; an empty frame falls back
   * to the first top_n market-data keys; a frame with a repeated "code"
   * label raises AttributeError; otherwise the pick loop over the table's
   * codes.
   */
  function SelectFrom(f: Frame, topN: Value, md: Listing): (r: Result<seq<string>>)
    ensures r.Err? <==> IntOf(topN).Err? || (f.CodeRepeated? && f.height > 0)
    ensures IntOf(topN).Ok? && f.CodeRepeated? && f.height > 0 ==> r == Err(NoToList)
  {
    match IntOf(topN)
    case Err(e) => Err(e)
    case Ok(n) =>
      match f
      case CodeRepeated(_, h) => if h == 0 then Ok(PyStr.Take(Keys(md), n)) else Err(NoToList)
      case Table(rows) =>
        if rows == [] then Ok(PyStr.Take(Keys(md), n))
        else Ok(TakeMembers(Codes(rows), Keys(md), n))
  }

  /**
   * Every symbol is a market-data key. An empty frame gives a prefix of the
   * keys, min(top_n, count) long for top_n >= 0. Otherwise the symbols keep
   * the table's weight order, are the first top_n members for top_n >= 1,
   * and number at most max(top_n, 1).
   */
  lemma SelectFromFacts(f: Frame, topN: Value, md: Listing)
    requires SelectFrom(f, topN, md).Ok?
    ensures var r := SelectFrom(f, topN, md).value;
      var n := IntOf(topN).value;
      var empty := f == Table([]) || f.CodeRepeated?;
      && (forall s :: s in r ==> s in Keys(md))
      && (empty ==> r == Keys(md)[..|r|] && (n >= 0 ==> |r| == if n < |md| then n else |md|))
      && (!empty ==> Subsequence(r, Codes(f.rows)) && |r| <= (if n >= 1 then n else 1))
      && (!empty && n >= 1 ==> r == PyStr.Take(Members(Codes(f.rows), Keys(md)), n))
  {
    var n := IntOf(topN).value;
    if f.Table? && f.rows != [] {
      TakeMembersKeys(Codes(f.rows), Keys(md), n);
      TakeMembersPrefix(Codes(f.rows), Keys(md), n);
      TakeMembersBound(Codes(f.rows), Keys(md), n);
    }
  }

  /**
   * A fetch whose renamed labels repeat "code" (with one "weight" column
   * and some rows) makes every later select raise AttributeError once
   * int(top_n) succeeds, however the market data looks.
   */
  lemma RepeatedCodeRaises(t: RawTable, topN: Value, md: Listing)
    requires t.Rectangular() && t.height > 0
    requires LabelCount(Renamed(t.columns), "code") >= 2 && LabelCount(Renamed(t.columns), "weight") == 1
    requires IntOf(topN).Ok?
    ensures SelectFrom(Hs300Table(Some(t)), topN, md) == Err(NoToList)
  {
  }

  /**
   * select: _fetch_weights first, through the class-level _weight_cache
   * keyed by the raw index_code (a miss stores the fetch's frame, empty when
   * it failed, and that entry is never retried), then int(top_n), then the
   * empty fallback, the AttributeError or the pick loop.
   */
  method Select(params: map<string, Value>, cache: TableCache<Value, Frame>, md: Listing, fetched: Option<RawTable>)
    returns (r: Result<seq<string>>)
    requires "top_n" in params && "index_code" in params
    requires fetched.Some? ==> fetched.value.Rectangular()
    modifies cache
    ensures var key := params["index_code"];
      && key in cache.tables
      && (key in old(cache.tables) ==> cache.tables == old(cache.tables))
      && (key !in old(cache.tables) ==> cache.tables == old(cache.tables)[key := Hs300Table(fetched)])
      && r == SelectFrom(cache.tables[key], params["top_n"], md)
  {
    var dfw := cache.Get(params["index_code"], Hs300Table(fetched));
    match IntOf(params["top_n"])
    case Err(e) => return Err(e);
    case Ok(n) =>
      if dfw == Table([]) || (dfw.CodeRepeated? && dfw.height == 0) {
        return Ok(PyStr.Take(Keys(md), n));
      }
      if dfw.CodeRepeated? {
        return Err(NoToList);
      }
      var picked := PickTop(Codes(dfw.rows), Keys(md), n);
      return Ok(picked);
  }

  /** The detail records: score 1.0, reasons ["top_weight"], meta {"index": index_code}, in select order. */
  function Hs300Details(symbols: seq<string>, indexCode: Value): (r: seq<SelectionResult>)
    ensures Symbols(r) == symbols
    ensures forall k :: 0 <= k < |r| ==>
      r[k].score == Some(1.0) && r[k].reasons == ["top_weight"] && r[k].meta == map["index" := indexCode]
  {
    seq(|symbols|, k requires 0 <= k < |symbols| => SelectionResult(symbols[k], Some(1.0), ["top_weight"], map["index" := indexCode]))
  }

  /** select_with_details: one record per selected symbol; errors of select, the AttributeError included, propagate. */
  method SelectWithDetails(params: map<string, Value>, cache: TableCache<Value, Frame>, md: Listing, fetched: Option<RawTable>)
    returns (r: Result<seq<SelectionResult>>)
    requires "top_n" in params && "index_code" in params
    requires fetched.Some? ==> fetched.value.Rectangular()
    modifies cache
    ensures var key := params["index_code"];
      && key in cache.tables
      && (key in old(cache.tables) ==> cache.tables == old(cache.tables))
      && (key !in old(cache.tables) ==> cache.tables == old(cache.tables)[key := Hs300Table(fetched)])
      && var s := SelectFrom(cache.tables[key], params["top_n"], md);
         r == if s.Ok? then Ok(Hs300Details(s.value, key)) else Err(s.error)
  {
    var s := Select(params, cache, md, fetched);
    if s.Err? {
      return Err(s.error);
    }
    return Ok(Hs300Details(s.value, params["index_code"]));
  }
}
