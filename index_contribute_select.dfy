/**
 * IndexContributeSelect: the top-K constituents of an index or the top-K
 * holdings of an ETF by weight. The weight fetch is an input (None when the
 * fetch library is missing or the call raises); its normalised table is
 * cached per "source_type:code" in a dict shared by every instance.
 */
module IndexContributeSelect {
  import opened Wrappers
  import opened Values
  import opened Selection
  import opened WeightTables
  import PyStr

  /** DEFAULT_PARAMS. */
  const DefaultParams: map<string, Value> :=
    map["source_type" := VStr("index"), "code" := VStr("000300"), "top_k" := VInt(20), "allow_missing" := VBool(true)]

  /** {**DEFAULT_PARAMS, **(params or {})}. */
  function Params(overrides: map<string, Value>): (p: map<string, Value>)
    ensures "source_type" in p && "code" in p && "top_k" in p && "allow_missing" in p
    ensures forall k :: k in overrides ==> k in p && p[k] == overrides[k]
    ensures forall k :: k in p && k !in overrides ==> k in DefaultParams && p[k] == DefaultParams[k]
  {
    DefaultParams + overrides
  }

  const CodeCandidates: seq<string> := ["code", "股票代码", "con_code", "symbol"]
  const WeightCandidates: seq<string> := ["weight", "权重", "持股市值占净值比", "i_weight"]

  /** The code column's cells as str, zero-padded to six characters. */
  function PaddedCodes(c: RawColumn): (codes: seq<string>)
    ensures |codes| == |c.text|
    ensures forall k :: 0 <= k < |codes| ==> codes[k] == PyStr.Zfill(c.text[k], 6) && |codes[k]| >= 6
  {
    seq(|c.text|, k requires 0 <= k < |c.text| => PyStr.Zfill(c.text[k], 6))
  }

  /** pd.to_numeric(errors='coerce').fillna(0.0): non-numeric cells weigh 0.0. */
  function CoercedWeights(c: RawColumn): (ws: seq<Option<real>>)
    ensures |ws| == |c.numbers|
    ensures forall k :: 0 <= k < |ws| ==> ws[k] == Some(c.numbers[k].GetOr(0.0))
  {
    seq(|c.numbers|, k requires 0 <= k < |c.numbers| => Some(c.numbers[k].GetOr(0.0)))
  }

  /** The '_weight' column of 1.0s that stands in for a missing weight column. */
  function UnitWeights(n: nat): (ws: seq<Option<real>>)
    ensures |ws| == n && forall k :: 0 <= k < n ==> ws[k] == Some(1.0)
  {
    seq(n, k => Some(1.0))
  }

  /** The weight column among the candidates wc, or 1.0 throughout when none exists. */
  function WeightsBy(t: RawTable, wc: seq<string>): (ws: seq<Option<real>>)
    requires t.Rectangular()
    ensures |ws| == t.height && forall k :: 0 <= k < |ws| ==> ws[k].Some?
    ensures FirstPresent(wc, t.columns).None? ==> ws == UnitWeights(t.height)
  {
    match FirstPresent(wc, t.columns)
    case None => UnitWeights(t.height)
    case Some(w) => CoercedWeights(t.columns[w])
  }

  /** The weight column _normalize uses, or 1.0 throughout when no candidate exists. */
  function Weights(t: RawTable): (ws: seq<Option<real>>)
    requires t.Rectangular()
    ensures |ws| == t.height && forall k :: 0 <= k < |ws| ==> ws[k].Some?
    ensures FirstPresent(WeightCandidates, t.columns).None? ==> ws == UnitWeights(t.height)
  {
    WeightsBy(t, WeightCandidates)
  }

  /** The AttributeError of df2[code_col].astype(str).str when df2[code_col] is a DataFrame. */
  const NoStrAccessor := AttributeError("'DataFrame' object has no attribute 'str'")

  /** The TypeError of pd.to_numeric given a DataFrame. */
  const NotOneDimensional := TypeError("arg must be a list, tuple, 1-d array, or Series")

  /**
   * The label the weights are read from: the chosen weight column's, or
   * '_weight' when none is found (df2['_weight'] = 1.0 then sets every
   * column already carrying that label).
   */
  function WeightLabel(t: RawTable, wc: seq<string>): string
    requires t.Rectangular()
  {
    match FirstPresent(wc, t.columns)
    case None => "_weight"
    case Some(w) => t.columns[w].name
  }

  /**
   * _normalize with code candidates cc and weight candidates wc. A chosen
   * label carried by two or more columns selects a DataFrame: for the code
   * label `.str` raises AttributeError, for the weight label pd.to_numeric
   * raises TypeError, the code column being read first.
   */
  function NormalizeBy(t: RawTable, cc: seq<string>, wc: seq<string>): (r: Result<WeightTable>)
    requires t.Rectangular()
  {
    if t.Empty() then Ok([])
    else
      match FirstPresent(cc, t.columns)
      case None => Ok([])
      case Some(c) =>
        if LabelCount(t.columns, t.columns[c].name) >= 2 then Err(NoStrAccessor)
        else if LabelCount(t.columns, WeightLabel(t, wc)) >= 2 then Err(NotOneDimensional)
        else Ok(ByWeight(Zip(PaddedCodes(t.columns[c]), WeightsBy(t, wc))))
  }

  /**
   * _normalize: an empty frame, or one without a code column, gives the
   * empty table; the code and weight columns are the first candidates the
   * lower-cased label map has; a repeated code or weight label raises; a
   * missing weight column weighs every row 1.0. The rows are sorted by
   * weight, highest first.
   */
  function Normalize(t: RawTable): (r: Result<WeightTable>)
    requires t.Rectangular()
  {
    NormalizeBy(t, CodeCandidates, WeightCandidates)
  }

  /**
   * The normalised table is empty exactly when the frame is empty or has no
   * code column, and otherwise has the frame's rows; it raises exactly for
   * a repeated chosen label, AttributeError for the code label first and
   * TypeError for the weight label.
   */
  lemma NormalizeEmpty(t: RawTable)
    requires t.Rectangular()
    ensures Normalize(t) == Ok([]) <==> t.Empty() || FirstPresent(CodeCandidates, t.columns).None?
    ensures Normalize(t).Ok? && Normalize(t) != Ok([]) ==> |Normalize(t).value| == t.height
    ensures var c := FirstPresent(CodeCandidates, t.columns);
      Normalize(t).Err? <==> (!t.Empty() && c.Some? &&
        (LabelCount(t.columns, t.columns[c.value].name) >= 2 || LabelCount(t.columns, WeightLabel(t, WeightCandidates)) >= 2))
    ensures var c := FirstPresent(CodeCandidates, t.columns);
      Normalize(t).Err? ==>
        Normalize(t).error == if LabelCount(t.columns, t.columns[c.value].name) >= 2 then NoStrAccessor else NotOneDimensional
  {
    NormalizeByOutcome(t, CodeCandidates, WeightCandidates);
  }

  /** NormalizeEmpty for any candidate lists. */
  lemma NormalizeByOutcome(t: RawTable, cc: seq<string>, wc: seq<string>)
    requires t.Rectangular()
    ensures NormalizeBy(t, cc, wc) == Ok([]) <==> t.Empty() || FirstPresent(cc, t.columns).None?
    ensures NormalizeBy(t, cc, wc).Ok? && NormalizeBy(t, cc, wc) != Ok([]) ==> |NormalizeBy(t, cc, wc).value| == t.height
    ensures var c := FirstPresent(cc, t.columns);
      NormalizeBy(t, cc, wc).Err? <==> (!t.Empty() && c.Some? &&
        (LabelCount(t.columns, t.columns[c.value].name) >= 2 || LabelCount(t.columns, WeightLabel(t, wc)) >= 2))
    ensures var c := FirstPresent(cc, t.columns);
      NormalizeBy(t, cc, wc).Err? ==>
        NormalizeBy(t, cc, wc).error == if LabelCount(t.columns, t.columns[c.value].name) >= 2 then NoStrAccessor else NotOneDimensional
  {
    if !t.Empty() {
      match FirstPresent(cc, t.columns)
      case None =>
      case Some(c) =>
        if LabelCount(t.columns, t.columns[c].name) < 2 && LabelCount(t.columns, WeightLabel(t, wc)) < 2 {
          var rows := ByWeight(Zip(PaddedCodes(t.columns[c]), WeightsBy(t, wc)));
          assert NormalizeBy(t, cc, wc) == Ok(rows);
          assert |rows| == t.height > 0;
        }
    }
  }

  /**
   * Labels "code", "code" and "weight": the code label selects two columns
   * and _normalize raises AttributeError before it reads any weight.
   */
  lemma RepeatedCodeLabelRaises(codes: seq<string>, weights: seq<Option<real>>)
    requires |codes| == |weights| && |codes| > 0
    ensures Normalize(RawTable([RawColumn("code", codes, weights), RawColumn("code", codes, weights),
                                RawColumn("weight", codes, weights)], |codes|)) == Err(NoStrAccessor)
  {
    var cols := [RawColumn("code", codes, weights), RawColumn("code", codes, weights), RawColumn("weight", codes, weights)];
    PyStr.LowerOfLower("code");
    assert LowerLookup(cols, "code").Some? by {
      assert PyStr.Lower(cols[0].name) == "code";
    }
    var t := RawTable(cols, |codes|);
    var c := FirstPresent(CodeCandidates, cols).value;
    assert c < 3 && PyStr.Lower(cols[c].name) == "code";
    assert cols[c].name == "code";
    assert LabelCount(cols, "code") == 2 by {
      assert cols[1..][1..][1..] == [];
    }
  }

  /** Sorting the padded codes of column c zipped with the weights keeps both facts on every row. */
  lemma SortedRows(t: RawTable, c: nat, wc: seq<string>)
    requires t.Rectangular() && c < |t.columns|
    ensures var rows := ByWeight(Zip(PaddedCodes(t.columns[c]), WeightsBy(t, wc)));
      && (forall k :: 0 <= k < |rows| ==> rows[k].weight.Some? && |rows[k].code| >= 6)
      && (FirstPresent(wc, t.columns).None? ==> forall k :: 0 <= k < |rows| ==> rows[k].weight == Some(1.0))
  {
    var zipped := Zip(PaddedCodes(t.columns[c]), WeightsBy(t, wc));
    ByWeightKeeps(zipped, (r: WeightRow) => r.weight.Some? && |r.code| >= 6);
    if FirstPresent(wc, t.columns).None? {
      ByWeightKeeps(zipped, (r: WeightRow) => r.weight == Some(1.0));
    }
  }

  /** Whatever the candidates, every row has a weight and a padded code, and the weight is 1.0 without a weight column. */
  lemma NormalizeByRows(t: RawTable, cc: seq<string>, wc: seq<string>)
    requires t.Rectangular()
    ensures NormalizeBy(t, cc, wc).Ok? ==> var rows := NormalizeBy(t, cc, wc).value;
      && (forall k :: 0 <= k < |rows| ==> rows[k].weight.Some? && |rows[k].code| >= 6)
      && (FirstPresent(wc, t.columns).None? ==> forall k :: 0 <= k < |rows| ==> rows[k].weight == Some(1.0))
  {
    var fc := FirstPresent(cc, t.columns);
    if !t.Empty() && fc.Some? {
      SortedRows(t, fc.value, wc);
    }
  }

  /**
   * Every normalised row has a numeric weight (1.0 when the frame has no
   * weight column) and a code of at least six characters.
   */
  lemma NormalizeRows(t: RawTable)
    requires t.Rectangular()
    ensures Normalize(t).Ok? ==> var rows := Normalize(t).value;
      && (forall k :: 0 <= k < |rows| ==> rows[k].weight.Some? && |rows[k].code| >= 6)
      && (FirstPresent(WeightCandidates, t.columns).None? ==> forall k :: 0 <= k < |rows| ==> rows[k].weight == Some(1.0))
  {
    NormalizeByRows(t, CodeCandidates, WeightCandidates);
  }

  /** The normalised rows are sorted by weight, highest first. */
  lemma NormalizeSorted(t: RawTable)
    requires t.Rectangular()
    ensures Normalize(t).Ok? ==> var rows := Normalize(t).value;
      && (forall k :: 0 <= k < |rows| ==> rows[k].weight.Some?)
      && (forall i, j :: 0 <= i < j < |rows| ==> rows[i].weight.value >= rows[j].weight.value)
  {
    NormalizeRows(t);
  }

  /**
   * The candidates are already lower case, so a label equal to a candidate
   * is found through the lower-cased map: the exact-match loop after each
   * map lookup never runs to a hit.
   */
  lemma ExactMatchFoundByMap(cols: seq<RawColumn>, cand: string, k: nat)
    requires cand in CodeCandidates || cand in WeightCandidates
    requires k < |cols| && cols[k].name == cand
    ensures LowerLookup(cols, cand).Some?
  {
    PyStr.LowerOfLower(cand);
    assert PyStr.Lower(cols[k].name) == cand;
  }

  /** The lower-cased source type and whether it is one _get_weights fetches. */
  predicate Fetches(sourceType: string)
  {
    sourceType == "index" || sourceType == "etf"
  }

  /** A source type that is a float, a list or a dict is never one that is fetched. */
  lemma NonStringSourceNotFetched(sourceType: Value)
    requires sourceType.VFloat? || sourceType.VList? || sourceType.VDict?
    ensures !Fetches(PyStr.Lower(Str(sourceType)))
  {
    StrOfNonScalarIsNoWord(sourceType, "index");
    StrOfNonScalarIsNoWord(sourceType, "etf");
  }

  /** f"{str(source_type).lower()}:{str(code)}". */
  function CacheKey(params: map<string, Value>): (key: string)
    requires "source_type" in params && "code" in params
    ensures key == PyStr.Lower(Str(params["source_type"])) + ":" + Str(params["code"])
  {
    PyStr.Lower(Str(params["source_type"])) + ":" + Str(params["code"])
  }

  /**
   * What _get_weights produces on a cache miss: the normalised fetch for
   * "index" and "etf" (empty when the fetch failed), whose raise escapes
   * the fetch's try, and the empty table for any other source type, without
   * fetching.
   */
  function Fetched(sourceType: string, fetched: Option<RawTable>): (r: Result<WeightTable>)
    requires fetched.Some? ==> fetched.value.Rectangular()
    ensures !Fetches(sourceType) || fetched.None? ==> r == Ok([])
    ensures Fetches(sourceType) && fetched.Some? ==> r == Normalize(fetched.value)
  {
    if Fetches(sourceType) && fetched.Some? then Normalize(fetched.value) else Ok([])
  }

  /**
   * select on a weight table: int(top_k), then bool(allow_missing); an
   * empty table gives the first top_k keys when missing data is allowed and
   * nothing otherwise; else the pick loop, falling back to the first top_k
   * keys when nothing was picked and missing data is allowed.
   */
  function SelectFrom(rows: WeightTable, topK: Value, allowMissing: Value, md: Listing): (r: Result<seq<string>>)
    ensures r.Err? <==> IntOf(topK).Err?
  {
    match IntOf(topK)
    case Err(e) => Err(e)
    case Ok(n) =>
      if rows == [] then Ok(if Truthy(allowMissing) then PyStr.Take(Keys(md), n) else [])
      else
        var picked := TakeMembers(Codes(rows), Keys(md), n);
        Ok(if picked == [] && Truthy(allowMissing) then PyStr.Take(Keys(md), n) else picked)
  }

  /**
   * Every returned symbol is a market-data key. Without a table the result
   * is the key prefix or, with missing data disallowed, empty. With a table
   * it is the picked codes in weight order when any were picked, and the
   * key prefix or nothing when none were.
   */
  lemma SelectFromFacts(rows: WeightTable, topK: Value, allowMissing: Value, md: Listing)
    requires SelectFrom(rows, topK, allowMissing, md).Ok?
    ensures var r := SelectFrom(rows, topK, allowMissing, md).value;
      var n := IntOf(topK).value;
      var picked := TakeMembers(Codes(rows), Keys(md), n);
      && (forall s :: s in r ==> s in Keys(md))
      && (rows == [] && !Truthy(allowMissing) ==> r == [])
      && (rows == [] && Truthy(allowMissing) ==> r == PyStr.Take(Keys(md), n))
      && (rows != [] && picked != [] ==> r == picked && Subsequence(r, Codes(rows)) && |r| <= (if n >= 1 then n else 1))
      && (rows != [] && picked == [] ==> r == if Truthy(allowMissing) then PyStr.Take(Keys(md), n) else [])
  {
    var n := IntOf(topK).value;
    TakeMembersKeys(Codes(rows), Keys(md), n);
    TakeMembersBound(Codes(rows), Keys(md), n);
  }

  /** bool(params.get('allow_missing', True)). */
  function AllowMissing(params: map<string, Value>): Value
  {
    if "allow_missing" in params then params["allow_missing"] else VBool(true)
  }

  /**
   * select: _get_weights first, through the class-level _cache keyed by
   * "source_type:code" (a miss stores the normalised fetch, or [] for an
   * unknown source type, and is never retried; a raising _normalize stores
   * nothing and the raise escapes), then the selection on the table.
   */
  method Select(params: map<string, Value>, cache: TableCache<string, WeightTable>, md: Listing, fetched: Option<RawTable>)
    returns (r: Result<seq<string>>)
    requires "source_type" in params && "code" in params && "top_k" in params
    requires fetched.Some? ==> fetched.value.Rectangular()
    modifies cache
    ensures var key := CacheKey(params);
      var f := Fetched(PyStr.Lower(Str(params["source_type"])), fetched);
      && (key in old(cache.tables) ==>
            cache.tables == old(cache.tables) && r == SelectFrom(cache.tables[key], params["top_k"], AllowMissing(params), md))
      && (key !in old(cache.tables) && f.Err? ==> cache.tables == old(cache.tables) && r == Err(f.error))
      && (key !in old(cache.tables) && f.Ok? ==>
            cache.tables == old(cache.tables)[key := f.value] && r == SelectFrom(f.value, params["top_k"], AllowMissing(params), md))
  {
    var key := CacheKey(params);
    var rows: WeightTable;
    if key in cache.tables {
      rows := cache.tables[key];
    } else {
      var f := Fetched(PyStr.Lower(Str(params["source_type"])), fetched);
      if f.Err? {
        return Err(f.error);
      }
      rows := cache.Get(key, f.value);
    }
    match IntOf(params["top_k"])
    case Err(e) => return Err(e);
    case Ok(n) =>
      var allow := Truthy(AllowMissing(params));
      if rows == [] {
        return Ok(if allow then PyStr.Take(Keys(md), n) else []);
      }
      var picked := PickTop(Codes(rows), Keys(md), n);
      if picked == [] && allow {
        return Ok(PyStr.Take(Keys(md), n));
      }
      return Ok(picked);
  }

  /** The detail records: score 1.0, reasons ["weight_top"], meta {source_type, code} as given, in select order. */
  function ContributeDetails(symbols: seq<string>, sourceType: Value, code: Value): (r: seq<SelectionResult>)
    ensures Symbols(r) == symbols
    ensures forall k :: 0 <= k < |r| ==> (r[k].score == Some(1.0) && r[k].reasons == ["weight_top"] &&
      r[k].meta == map["source_type" := sourceType, "code" := code])
  {
    seq(|symbols|, k requires 0 <= k < |symbols| =>
      SelectionResult(symbols[k], Some(1.0), ["weight_top"], map["source_type" := sourceType, "code" := code]))
  }

  /** select_with_details: one record per selected symbol; errors of select, a raising _normalize included, propagate. */
  method SelectWithDetails(params: map<string, Value>, cache: TableCache<string, WeightTable>, md: Listing, fetched: Option<RawTable>)
    returns (r: Result<seq<SelectionResult>>)
    requires "source_type" in params && "code" in params && "top_k" in params
    requires fetched.Some? ==> fetched.value.Rectangular()
    modifies cache
    ensures var key := CacheKey(params);
      var f := Fetched(PyStr.Lower(Str(params["source_type"])), fetched);
      && (key in old(cache.tables) || f.Ok? ==>
            var rows := if key in old(cache.tables) then old(cache.tables)[key] else f.value;
            && cache.tables == old(cache.tables)[key := rows]
            && var s := SelectFrom(rows, params["top_k"], AllowMissing(params), md);
               r == if s.Ok? then Ok(ContributeDetails(s.value, params["source_type"], params["code"])) else Err(s.error))
      && (key !in old(cache.tables) && f.Err? ==> cache.tables == old(cache.tables) && r == Err(f.error))
  {
    var s := Select(params, cache, md, fetched);
    if s.Err? {
      return Err(s.error);
    }
    return Ok(ContributeDetails(s.value, params["source_type"], params["code"]));
  }
}
