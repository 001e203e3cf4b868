/**
 * The selection layer's common ground: the ordered market-data dict a
 * selector reads, the SelectionResult record, the default
 * select_with_details wrapper and the ordering visualize() presents results in.
 */
module Selection {
  import opened Wrappers
  import opened Bars
  import opened Values
  import opened Sorting
  import PyStr

  /** Dict[str, DataFrame] in insertion order. */
  type Listing = seq<(string, Frame)>

  /** list(market_data.keys()). */
  function Keys(md: Listing): (ks: seq<string>)
    ensures |ks| == |md| && forall k :: 0 <= k < |md| ==> ks[k] == md[k].0
  {
    seq(|md|, k requires 0 <= k < |md| => md[k].0)
  }

  /** A dict has each key once. */
  predicate UniqueKeys(md: Listing)
  {
    forall a, b :: 0 <= a < b < |md| ==> md[a].0 != md[b].0
  }

  /** `sym in market_data`. */
  predicate HasKey(md: Listing, sym: string)
  {
    sym in Keys(md)
  }

  /** The dict itself, forgetting the order. */
  function ToMap(md: Listing): (m: map<string, Frame>)
    ensures m.Keys == set k | 0 <= k < |md| :: md[k].0
    ensures UniqueKeys(md) ==> forall k :: 0 <= k < |md| ==> m[md[k].0] == md[k].1
  {
    if md == [] then map[]
    else
      var m := ToMap(md[..|md| - 1])[md[|md| - 1].0 := md[|md| - 1].1];
      assert forall k :: 0 <= k < |md| - 1 ==> md[..|md| - 1][k] == md[k];
      m
  }

  /** a keeps some of b's elements, in b's order. */
  predicate Subsequence<T(==)>(a: seq<T>, b: seq<T>)
  {
    if a == [] then true
    else if b == [] then false
    else if a[0] == b[0] then Subsequence(a[1..], b[1..])
    else Subsequence(a, b[1..])
  }

  /** A subsequence of b's tail is a subsequence of b. */
  lemma {:induction false} SubsequenceSkip<T>(a: seq<T>, b: seq<T>)
    requires b != [] && Subsequence(a, b[1..])
    ensures Subsequence(a, b)
    decreases |b|, 1
  {
    if a != [] && a[0] == b[0] {
      SubsequenceDrop(a, b[1..]);
    }
  }

  /** Dropping a's head keeps it a subsequence. */
  lemma {:induction false} SubsequenceDrop<T>(a: seq<T>, b: seq<T>)
    requires a != [] && Subsequence(a, b)
    ensures Subsequence(a[1..], b)
    decreases |b|, 2
  {
    if a[0] == b[0] {
      SubsequenceSkip(a[1..], b);
    } else {
      SubsequenceDrop(a, b[1..]);
      SubsequenceSkip(a[1..], b);
    }
  }

  /** Every element of a subsequence of b is an element of b. */
  lemma {:induction false} SubsequenceIn<T>(a: seq<T>, b: seq<T>, x: T)
    requires Subsequence(a, b) && x in a
    ensures x in b
    decreases |b|
  {
    if a[0] == b[0] {
      if x != a[0] {
        SubsequenceIn(a[1..], b[1..], x);
      }
    } else {
      SubsequenceIn(a, b[1..], x);
    }
  }

  /** One selected stock: score, the condition labels it met, extra information. */
  datatype SelectionResult = SelectionResult(symbol: string, score: Option<real>, reasons: seq<string>, meta: map<string, Value>)

  /** SelectionResult(symbol=s): the dataclass defaults score None, reasons [] and meta {}. */
  function Plain(symbol: string): (r: SelectionResult)
    ensures r.symbol == symbol && r.score.None? && r.reasons == [] && r.meta == map[]
  {
    SelectionResult(symbol, None, [], map[])
  }

  function Symbols(rs: seq<SelectionResult>): (ss: seq<string>)
    ensures |ss| == |rs| && forall k :: 0 <= k < |rs| ==> ss[k] == rs[k].symbol
  {
    seq(|rs|, k requires 0 <= k < |rs| => rs[k].symbol)
  }

  /** The base select_with_details: one default record per selected symbol. */
  function DefaultDetails(symbols: seq<string>): (r: seq<SelectionResult>)
    ensures Symbols(r) == symbols
    ensures forall k :: 0 <= k < |r| ==> r[k].score.None? && r[k].reasons == [] && r[k].meta == map[]
  {
    seq(|symbols|, k requires 0 <= k < |symbols| => Plain(symbols[k]))
  }

  function Score(r: SelectionResult): Option<real> { r.score }

  function SymbolOf(r: SelectionResult): string { r.symbol }

  predicate AnyScore(rs: seq<SelectionResult>)
  {
    exists k :: 0 <= k < |rs| && rs[k].score.Some?
  }

  /**
   * The order visualize() presents results in: by score, highest first and
   * the unscored last, when any result is scored; otherwise by symbol.
   * Both sorts are stable. Then the first top_n, by Python slicing.
   */
  function VisualOrder(rs: seq<SelectionResult>, topN: Option<int>): (r: seq<SelectionResult>)
  {
    var ordered := Ordered(rs);
    if topN.Some? then PyStr.Take(ordered, topN.value) else ordered
  }

  function Ordered(rs: seq<SelectionResult>): seq<SelectionResult>
  {
    if AnyScore(rs) then SortDescMissingLast(rs, Score) else SortAsc(rs, SymbolOf)
  }

  /**
   * visualize() shows a prefix of a reordering of the results: all of them
   * without top_n, and min(top_n, count) of them for a non-negative top_n.
   */
  lemma VisualOrderPrefix(rs: seq<SelectionResult>, topN: Option<int>)
    ensures var r := VisualOrder(rs, topN);
      && multiset(r) <= multiset(rs)
      && (topN.None? ==> r == Ordered(rs) && multiset(r) == multiset(rs))
      && (topN.Some? && topN.value >= 0 ==> |r| == if topN.value < |rs| then topN.value else |rs|)
  {
    var ordered := Ordered(rs);
    OrderedPermutes(rs);
    if topN.Some? {
      assert VisualOrder(rs, topN) == PyStr.Take(ordered, topN.value);
      PyStr.TakeMultiset(ordered, topN.value);
    } else {
      assert VisualOrder(rs, topN) == ordered;
    }
  }

  /** Either sort reorders the results without adding or dropping any. */
  lemma OrderedPermutes(rs: seq<SelectionResult>)
    ensures multiset(Ordered(rs)) == multiset(rs)
  {
    if AnyScore(rs) {
      assert Ordered(rs) == SortDescMissingLast(rs, Score);
    } else {
      assert Ordered(rs) == SortAsc(rs, SymbolOf);
    }
  }

  /**
   * The shown results are ordered by score, highest first and unscored
   * results after scored ones, when any score exists, and by ascending
   * symbol otherwise.
   */
  lemma VisualOrderSorted(rs: seq<SelectionResult>, topN: Option<int>)
    ensures var r := VisualOrder(rs, topN);
      && (AnyScore(rs) ==> forall i, j :: 0 <= i < j < |r| && r[j].score.Some? ==>
            r[i].score.Some? && r[i].score.value >= r[j].score.value)
      && (!AnyScore(rs) ==> forall i :: 0 <= i < |r| - 1 ==> StrLe(r[i].symbol, r[i + 1].symbol))
  {
    var ordered := Ordered(rs);
    var r := VisualOrder(rs, topN);
    assert r == ordered[..|r|];
    if AnyScore(rs) {
      assert ordered == SortDescMissingLast(rs, Score);
      forall i, j | 0 <= i < j < |r| && r[j].score.Some?
        ensures r[i].score.Some? && r[i].score.value >= r[j].score.value
      {
        assert r[i] == ordered[i] && r[j] == ordered[j];
        assert Score(ordered[j]).Some?;
      }
    } else {
      assert ordered == SortAsc(rs, SymbolOf);
      forall i | 0 <= i < |r| - 1 ensures StrLe(r[i].symbol, r[i + 1].symbol) {
        assert r[i] == ordered[i] && r[i + 1] == ordered[i + 1];
        assert StrLe(SymbolOf(ordered[i]), SymbolOf(ordered[i + 1]));
      }
    }
  }
}
