/**
 * What the weight-ranked selectors share: the fetched table as the model
 * sees it (named columns, each with its cells' str() text and numeric
 * value), the normalised (code, weight) table sorted by weight, Python's
 * {c.lower(): c} column map, and the pick loop that walks codes in weight
 * order keeping market-data members until it has enough.
 */
module WeightTables {
  import opened Wrappers
  import opened Sorting
  import opened Selection
  import PyStr

  /**
   * One column of a fetched DataFrame: its label, the cells as
   * `astype(str)` renders them, and the cells as numbers (None for NaN and
   * for cells that are not numeric). The column's dtype is not kept: codes
   * are read as their text and weights are sorted by their numbers, so the
   * row upcast of `iterrows()` and the string order of a text weight column
   * are outside this model.
   */
  datatype RawColumn = RawColumn(name: string, text: seq<string>, numbers: seq<Option<real>>)

  /** A fetched DataFrame: its columns, all `height` cells tall. */
  datatype RawTable = RawTable(columns: seq<RawColumn>, height: nat)
  {
    predicate Rectangular()
    {
      forall k :: 0 <= k < |columns| ==> |columns[k].text| == height && |columns[k].numbers| == height
    }

    /** DataFrame.empty: no columns or no rows. */
    predicate Empty()
    {
      columns == [] || height == 0
    }
  }

  /** One row of a normalised weight table; None is a NaN weight. */
  datatype WeightRow = WeightRow(code: string, weight: Option<real>)

  /** A normalised weight table; the empty DataFrame is []. */
  type WeightTable = seq<WeightRow>

  function Weight(r: WeightRow): Option<real> { r.weight }

  /** Codes paired with weights, row by row. */
  function Zip(codes: seq<string>, weights: seq<Option<real>>): (rows: WeightTable)
    requires |codes| == |weights|
    ensures |rows| == |codes| && forall k :: 0 <= k < |rows| ==> rows[k] == WeightRow(codes[k], weights[k])
  {
    seq(|codes|, k requires 0 <= k < |codes| => WeightRow(codes[k], weights[k]))
  }

  /** sort_values('weight', ascending=False): descending weight, NaN last. */
  function ByWeight(rows: WeightTable): (r: WeightTable)
    ensures multiset(r) == multiset(rows) && |r| == |rows|
    ensures forall i, j :: 0 <= i < j < |r| && r[j].weight.Some? ==> r[i].weight.Some? && r[i].weight.value >= r[j].weight.value
  {
    SortDescMissingLast(rows, Weight)
  }

  /** A property every row has survives the sort. */
  lemma ByWeightKeeps(rows: WeightTable, p: WeightRow -> bool)
    requires forall k :: 0 <= k < |rows| ==> p(rows[k])
    ensures forall k :: 0 <= k < |ByWeight(rows)| ==> p(ByWeight(rows)[k])
  {
    var r := ByWeight(rows);
    forall k | 0 <= k < |r|
      ensures p(r[k])
    {
      assert r[k] in multiset(rows);
      var i :| 0 <= i < |rows| && rows[i] == r[k];
    }
  }

  function Codes(rows: WeightTable): (cs: seq<string>)
    ensures |cs| == |rows| && forall k :: 0 <= k < |rows| ==> cs[k] == rows[k].code
  {
    seq(|rows|, k requires 0 <= k < |rows| => rows[k].code)
  }

  /** Reordering rows keeps every code. */
  lemma CodesOfPermutation(a: WeightTable, b: WeightTable, c: string)
    requires multiset(a) == multiset(b) && c in Codes(a)
    ensures c in Codes(b)
  {
    var i :| 0 <= i < |a| && Codes(a)[i] == c;
    assert a[i] in multiset(b);
    var j :| 0 <= j < |b| && b[j] == a[i];
    assert Codes(b)[j] == c;
  }

  /**
   * lower_map.get(key) for lower_map = {c.lower(): c for c in df.columns}:
   * the last column whose label lowers to key, as later columns overwrite
   * earlier ones.
   */
  function LowerLookup(cols: seq<RawColumn>, key: string): (r: Option<nat>)
    ensures r.None? <==> forall k :: 0 <= k < |cols| ==> PyStr.Lower(cols[k].name) != key
    ensures r.Some? ==> (r.value < |cols| && PyStr.Lower(cols[r.value].name) == key &&
      forall j :: r.value < j < |cols| ==> PyStr.Lower(cols[j].name) != key)
  {
    if cols == [] then None
    else if PyStr.Lower(cols[|cols| - 1].name) == key then Some(|cols| - 1)
    else
      var r := LowerLookup(cols[..|cols| - 1], key);
      assert forall k :: 0 <= k < |cols| - 1 ==> cols[..|cols| - 1][k] == cols[k];
      r
  }

  /** The column of the first candidate lower_map has (the loop over candidates that breaks at the first hit). */
  function FirstPresent(cands: seq<string>, cols: seq<RawColumn>): (r: Option<nat>)
    ensures r.None? <==> forall k :: 0 <= k < |cands| ==> LowerLookup(cols, cands[k]).None?
    ensures r.Some? ==> exists k :: (0 <= k < |cands| && r == LowerLookup(cols, cands[k]) &&
      forall j :: 0 <= j < k ==> LowerLookup(cols, cands[j]).None?)
  {
    if cands == [] then None
    else if LowerLookup(cols, cands[0]).Some? then LowerLookup(cols, cands[0])
    else
      var r := FirstPresent(cands[1..], cols);
      assert forall k :: 1 <= k < |cands| ==> cands[k] == cands[1..][k - 1];
      if r.Some? then
        ghost var k :| 0 <= k < |cands[1..]| && r == LowerLookup(cols, cands[1..][k]) &&
          forall j :: 0 <= j < k ==> LowerLookup(cols, cands[1..][j]).None?;
        assert cands[k + 1] == cands[1..][k];
        r
      else r
  }

  /** The first column whose label is exactly `name`. */
  function ColumnNamed(cols: seq<RawColumn>, name: string): (r: Option<nat>)
    ensures r.None? <==> forall k :: 0 <= k < |cols| ==> cols[k].name != name
    ensures r.Some? ==> (r.value < |cols| && cols[r.value].name == name &&
      forall j :: 0 <= j < r.value ==> cols[j].name != name)
  {
    if cols == [] then None
    else if cols[0].name == name then Some(0)
    else
      var r := ColumnNamed(cols[1..], name);
      assert forall k :: 1 <= k < |cols| ==> cols[k] == cols[1..][k - 1];
      if r.Some? then Some(r.value + 1) else None
  }

  /** How many columns carry exactly the label `name`. */
  function LabelCount(cols: seq<RawColumn>, name: string): (n: nat)
    ensures n <= |cols|
    ensures n == 0 <==> forall k :: 0 <= k < |cols| ==> cols[k].name != name
  {
    if cols == [] then 0
    else
      assert forall k :: 1 <= k < |cols| ==> cols[k] == cols[1..][k - 1];
      (if cols[0].name == name then 1 else 0) + LabelCount(cols[1..], name)
  }

  /** A label is repeated exactly when two distinct columns carry it. */
  lemma {:induction false} LabelRepeated(cols: seq<RawColumn>, name: string)
    ensures LabelCount(cols, name) >= 2 <==>
      exists i, j :: 0 <= i < j < |cols| && cols[i].name == name && cols[j].name == name
  {
    if cols != [] {
      var tail := cols[1..];
      LabelRepeated(tail, name);
      assert forall k :: 1 <= k < |cols| ==> cols[k] == tail[k - 1];
      if LabelCount(cols, name) >= 2 {
        if cols[0].name == name {
          var j :| 0 <= j < |tail| && tail[j].name == name;
          assert cols[j + 1].name == name;
        } else {
          var i, j :| 0 <= i < j < |tail| && tail[i].name == name && tail[j].name == name;
          assert cols[i + 1].name == name && cols[j + 1].name == name;
        }
      }
      if exists i, j :: 0 <= i < j < |cols| && cols[i].name == name && cols[j].name == name {
        var i, j :| 0 <= i < j < |cols| && cols[i].name == name && cols[j].name == name;
        if i >= 1 {
          assert tail[i - 1].name == name && tail[j - 1].name == name;
        } else {
          assert tail[j - 1].name == name;
        }
      }
    }
  }

  /** A label carried once belongs to one column only. */
  lemma LabelOnce(cols: seq<RawColumn>, name: string, k: nat)
    requires LabelCount(cols, name) == 1 && k < |cols| && cols[k].name == name
    ensures forall j :: 0 <= j < |cols| && j != k ==> cols[j].name != name
  {
    LabelRepeated(cols, name);
  }

  /**
   * A weight frame as a selector reads it: a (code, weight) table, or a
   * frame of `height` rows whose label 'code' names `labels` (two or more)
   * columns, so that frame['code'] is itself a DataFrame.
   */
  datatype Frame = Table(rows: WeightTable) | CodeRepeated(labels: nat, height: nat)

  /** The codes that are market-data keys, in order. */
  function Members(codes: seq<string>, keys: seq<string>): (r: seq<string>)
    ensures |r| <= |codes|
  {
    if codes == [] then [] else (if codes[0] in keys then [codes[0]] else []) + Members(codes[1..], keys)
  }

  /**
   * The pick loop: walk the codes, append each one that is a market-data
   * key, and stop as soon as at least `budget` have been picked. The length
   * test follows the append and runs for every code.
   */
  function TakeMembers(codes: seq<string>, keys: seq<string>, budget: int): seq<string>
  {
    if codes == [] then []
    else
      var p := if codes[0] in keys then [codes[0]] else [];
      if |p| >= budget then p else p + TakeMembers(codes[1..], keys, budget - |p|)
  }

  /** The picks are market-data keys, in the codes' order. */
  lemma {:induction false} TakeMembersKeys(codes: seq<string>, keys: seq<string>, budget: int)
    ensures forall c :: c in TakeMembers(codes, keys, budget) ==> c in keys
    ensures Subsequence(TakeMembers(codes, keys, budget), codes)
  {
    if codes != [] {
      var p := if codes[0] in keys then [codes[0]] else [];
      var r := TakeMembers(codes, keys, budget);
      if |p| < budget {
        TakeMembersKeys(codes[1..], keys, budget - |p|);
        var rest := TakeMembers(codes[1..], keys, budget - |p|);
        if p == [] {
          assert r == rest;
          SubsequenceSkip(r, codes);
        } else {
          assert r == [codes[0]] + rest && r[1..] == rest;
        }
      } else if p != [] {
        assert r == [codes[0]] && r[1..] == [];
      }
    }
  }

  /** For a positive budget the picks are the first `budget` members; otherwise only the first code is looked at. */
  lemma {:induction false} TakeMembersPrefix(codes: seq<string>, keys: seq<string>, budget: int)
    ensures budget >= 1 ==> TakeMembers(codes, keys, budget) == PyStr.Take(Members(codes, keys), budget)
    ensures budget <= 0 ==> TakeMembers(codes, keys, budget) == if codes != [] && codes[0] in keys then [codes[0]] else []
  {
    if codes != [] && budget >= 1 {
      var p := if codes[0] in keys then [codes[0]] else [];
      var rest := Members(codes[1..], keys);
      assert Members(codes, keys) == p + rest;
      if |p| < budget {
        TakeMembersPrefix(codes[1..], keys, budget - |p|);
        if p == [] {
          assert p + rest == rest;
        } else {
          assert PyStr.Take(p + rest, budget) == p + PyStr.Take(rest, budget - 1);
        }
      } else {
        assert PyStr.Take(p + rest, budget) == p;
      }
    }
  }

  /** At most max(budget, 1) codes are picked. */
  lemma TakeMembersBound(codes: seq<string>, keys: seq<string>, budget: int)
    ensures |TakeMembers(codes, keys, budget)| <= if budget >= 1 then budget else 1
  {
    TakeMembersPrefix(codes, keys, budget);
  }

  /** The loop of select: codes in table order, members only, stopping once top_n are picked. */
  method PickTop(codes: seq<string>, keys: seq<string>, topN: int) returns (picked: seq<string>)
    ensures picked == TakeMembers(codes, keys, topN)
  {
    picked := [];
    assert codes[0..] == codes;
    for k := 0 to |codes|
      invariant TakeMembers(codes, keys, topN) == picked + TakeMembers(codes[k..], keys, topN - |picked|)
    {
      assert codes[k..][0] == codes[k] && codes[k..][1..] == codes[k + 1..];
      var before := picked;
      if codes[k] in keys {
        picked := picked + [codes[k]];
      }
      if |picked| >= topN {
        assert picked == before + TakeMembers(codes[k..], keys, topN - |before|);
        return;
      }
      assert picked + TakeMembers(codes[k + 1..], keys, topN - |picked|) ==
        before + TakeMembers(codes[k..], keys, topN - |before|);
    }
    assert codes[|codes|..] == [];
  }

  /**
   * A class-level table cache (a dict shared by every instance of a
   * selector class). A hit returns the stored table and fetches nothing; a
   * miss stores what the fetch produced, an empty table included, so a
   * failed fetch is never retried.
   */
  class TableCache<K(==), V> {
    var tables: map<K, V>

    constructor()
      ensures tables == map[]
    {
      tables := map[];
    }

    /** The cached table for key, storing `fetched` on a miss. */
    method Get(key: K, fetched: V) returns (rows: V)
      modifies this
      ensures key in old(tables) ==> rows == old(tables)[key] && tables == old(tables)
      ensures key !in old(tables) ==> rows == fetched && tables == old(tables)[key := fetched]
    {
      if key in tables {
        return tables[key];
      }
      rows := fetched;
      tables := tables[key := rows];
    }
  }
}
