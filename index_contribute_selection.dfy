/**
 * IndexContributeSelection: the top-N constituents of an index by index
 * weight, or of a concept or industry board by market value from a market
 * snapshot. The three fetches (index weights, board members, snapshot) are
 * inputs, None when the fetch library is missing or the call raises; there
 * is no cache.
 */
module IndexContributeSelection {
  import opened Wrappers
  import opened Values
  import opened Selection
  import opened WeightTables
  import PyStr

  /** DEFAULT_PARAMS. */
  const DefaultParams: map<string, Value> :=
    map["mode" := VStr("index"), "code" := VStr("000300"), "top_n" := VInt(20), "date" := VNone, "use_float_mv" := VBool(true)]

  /** {**DEFAULT_PARAMS, **(params or {})}. */
  function Params(overrides: map<string, Value>): (p: map<string, Value>)
    ensures "mode" in p && "code" in p && "top_n" in p && "date" in p && "use_float_mv" in p
    ensures forall k :: k in overrides ==> k in p && p[k] == overrides[k]
    ensures forall k :: k in p && k !in overrides ==> k in DefaultParams && p[k] == DefaultParams[k]
  {
    DefaultParams + overrides
  }

  /**
   * _fetch_index_weights: the first of code/con_code/symbol and of
   * weight/i_weight in the lower-cased label map; both must exist, else the
   * empty table. A chosen label that two columns carry widens
   * df[[code_col, weight_col]] past two columns, so the assignment of the
   * two new labels raises and the caught raise gives the empty table. The
   * rows keep the code cells' text and are sorted by weight, highest
   * first, NaN last.
   */
  function IndexTable(fetched: Option<RawTable>): (rows: WeightTable)
    requires fetched.Some? ==> fetched.value.Rectangular()
  {
    if fetched.None? then []
    else
      var cols := fetched.value.columns;
      match (FirstPresent(["code", "con_code", "symbol"], cols), FirstPresent(["weight", "i_weight"], cols))
      case (Some(c), Some(w)) =>
        if LabelCount(cols, cols[c].name) >= 2 || LabelCount(cols, cols[w].name) >= 2 then []
        else ByWeight(Zip(cols[c].text, cols[w].numbers))
      case _ => []
  }

  /**
   * The index table holds the fetched rows, sorted, when both columns are
   * found and their labels are carried once; it is empty otherwise.
   */
  lemma IndexTableFacts(fetched: Option<RawTable>)
    requires fetched.Some? ==> fetched.value.Rectangular()
    ensures var rows := IndexTable(fetched);
      && (forall i, j :: 0 <= i < j < |rows| && rows[j].weight.Some? ==>
            rows[i].weight.Some? && rows[i].weight.value >= rows[j].weight.value)
      && (rows != [] ==> |rows| == fetched.value.height)
      && (fetched.None? ==> rows == [])
      && (fetched.Some? && (FirstPresent(["code", "con_code", "symbol"], fetched.value.columns).None? ||
            FirstPresent(["weight", "i_weight"], fetched.value.columns).None?)
          ==> rows == [])
      && (fetched.Some? ==>
            var cols := fetched.value.columns;
            var c := FirstPresent(["code", "con_code", "symbol"], cols);
            var w := FirstPresent(["weight", "i_weight"], cols);
            c.Some? && w.Some? ==>
              if LabelCount(cols, cols[c.value].name) >= 2 || LabelCount(cols, cols[w.value].name) >= 2 then rows == []
              else multiset(rows) == multiset(Zip(cols[c.value].text, cols[w.value].numbers)))
  {
  }

  /** The labels the member and snapshot frames' code column may carry, in the order they are tried. */
  const CodeLabels: seq<string> := ["代码", "股票代码", "code"]

  /** The column of the first label in `labels` that some column carries exactly (renamed to 'code'). */
  function FirstExact(labels: seq<string>, cols: seq<RawColumn>): (r: Option<nat>)
    ensures r.None? <==> forall k :: 0 <= k < |labels| ==> ColumnNamed(cols, labels[k]).None?
    ensures r.Some? ==> r.value < |cols| && cols[r.value].name in labels
  {
    if labels == [] then None
    else if ColumnNamed(cols, labels[0]).Some? then ColumnNamed(cols, labels[0])
    else
      var r := FirstExact(labels[1..], cols);
      assert forall k :: 1 <= k < |labels| ==> labels[k] == labels[1..][k - 1];
      r
  }

  /** The first column whose label contains `part` (the first of a list comprehension's hits). */
  function FirstContaining(cols: seq<RawColumn>, part: string): (r: Option<nat>)
    ensures r.None? <==> forall k :: 0 <= k < |cols| ==> !PyStr.Contains(cols[k].name, part)
    ensures r.Some? ==> (r.value < |cols| && PyStr.Contains(cols[r.value].name, part) &&
      forall j :: 0 <= j < r.value ==> !PyStr.Contains(cols[j].name, part))
  {
    if cols == [] then None
    else if PyStr.Contains(cols[0].name, part) then Some(0)
    else
      var r := FirstContaining(cols[1..], part);
      assert forall k :: 1 <= k < |cols| ==> cols[k] == cols[1..][k - 1];
      if r.Some? then Some(r.value + 1) else None
  }

  /**
   * The market-value column: the first '流通市值' column when use_float_mv
   * is truthy and one exists, else the first '总市值' column.
   */
  function ValueColumn(cols: seq<RawColumn>, useFloat: bool): (r: Option<nat>)
    ensures useFloat && FirstContaining(cols, "流通市值").Some? ==> r == FirstContaining(cols, "流通市值")
    ensures !(useFloat && FirstContaining(cols, "流通市值").Some?) ==> r == FirstContaining(cols, "总市值")
  {
    if useFloat && FirstContaining(cols, "流通市值").Some? then FirstContaining(cols, "流通市值")
    else FirstContaining(cols, "总市值")
  }

  /** The snapshot rows whose code equals `code`, in snapshot order, with their market value. */
  function Matches(code: string, snapCodes: seq<string>, values: seq<Option<real>>): (rows: WeightTable)
    requires |snapCodes| == |values|
    ensures forall k :: 0 <= k < |rows| ==> rows[k].code == code
    ensures |rows| <= |snapCodes|
  {
    if snapCodes == [] then []
    else
      (if snapCodes[0] == code then [WeightRow(code, values[0])] else []) + Matches(code, snapCodes[1..], values[1..])
  }

  /** How many snapshot codes equal `code`. */
  function Count(code: string, snapCodes: seq<string>): nat
  {
    if snapCodes == [] then 0 else (if snapCodes[0] == code then 1 else 0) + Count(code, snapCodes[1..])
  }

  /**
   * members.merge(snap[['code', mv]], on='code', how='left'): per member,
   * in member order, every matching snapshot row, or one row with a NaN
   * value when none matches.
   */
  function LeftJoin(codes: seq<string>, snapCodes: seq<string>, values: seq<Option<real>>): (rows: WeightTable)
    requires |snapCodes| == |values|
  {
    if codes == [] then []
    else
      var m := Matches(codes[0], snapCodes, values);
      (if m == [] then [WeightRow(codes[0], None)] else m) + LeftJoin(codes[1..], snapCodes, values)
  }

  lemma {:induction false} MatchesCount(code: string, snapCodes: seq<string>, values: seq<Option<real>>)
    requires |snapCodes| == |values|
    ensures |Matches(code, snapCodes, values)| == Count(code, snapCodes)
  {
    if snapCodes != [] {
      MatchesCount(code, snapCodes[1..], values[1..]);
    }
  }

  /**
   * With each code at most once in the snapshot, the join keeps the members
   * one row each, in order.
   */
  lemma {:induction false} LeftJoinUnique(codes: seq<string>, snapCodes: seq<string>, values: seq<Option<real>>)
    requires |snapCodes| == |values|
    requires forall k :: 0 <= k < |codes| ==> Count(codes[k], snapCodes) <= 1
    ensures Codes(LeftJoin(codes, snapCodes, values)) == codes
  {
    if codes != [] {
      JoinHead(codes, snapCodes, values);
      var tail := codes[1..];
      assert forall k :: 0 <= k < |tail| ==> tail[k] == codes[k + 1];
      LeftJoinUnique(tail, snapCodes, values);
      var r := LeftJoin(codes, snapCodes, values);
      assert Codes(r[1..]) == tail;
      var cr := Codes(r);
      assert |cr| == |codes|;
      forall k | 0 <= k < |codes| ensures cr[k] == codes[k] {
        if k > 0 { assert r[k] == r[1..][k - 1] && Codes(r[1..])[k - 1] == r[1..][k - 1].code; }
      }
    }
  }

  /** A member matched at most once heads the join with a single row. */
  lemma JoinHead(codes: seq<string>, snapCodes: seq<string>, values: seq<Option<real>>)
    requires |snapCodes| == |values| && codes != [] && Count(codes[0], snapCodes) <= 1
    ensures var r := LeftJoin(codes, snapCodes, values);
      |r| >= 1 && r[0].code == codes[0] && r[1..] == LeftJoin(codes[1..], snapCodes, values)
  {
    var m := Matches(codes[0], snapCodes, values);
    MatchesCount(codes[0], snapCodes, values);
    var head := if m == [] then [WeightRow(codes[0], None)] else m;
    assert |head| == 1 && head[0].code == codes[0];
    var rest := LeftJoin(codes[1..], snapCodes, values);
    assert LeftJoin(codes, snapCodes, values) == head + rest;
    assert (head + rest)[1..] == rest;
  }

  /** The join has a row for every member and only members' codes. */
  lemma LeftJoinCodes(codes: seq<string>, snapCodes: seq<string>, values: seq<Option<real>>)
    requires |snapCodes| == |values|
    ensures var rows := LeftJoin(codes, snapCodes, values);
      && |rows| >= |codes|
      && (forall k :: 0 <= k < |rows| ==> rows[k].code in codes)
      && (forall c :: c in codes ==> c in Codes(rows))
  {
    LeftJoinOnlyMembers(codes, snapCodes, values);
    LeftJoinAllMembers(codes, snapCodes, values);
  }

  lemma {:induction false} LeftJoinOnlyMembers(codes: seq<string>, snapCodes: seq<string>, values: seq<Option<real>>)
    requires |snapCodes| == |values|
    ensures var rows := LeftJoin(codes, snapCodes, values);
      |rows| >= |codes| && forall k :: 0 <= k < |rows| ==> rows[k].code in codes
  {
    if codes != [] {
      var m := Matches(codes[0], snapCodes, values);
      var head := if m == [] then [WeightRow(codes[0], None)] else m;
      LeftJoinOnlyMembers(codes[1..], snapCodes, values);
      var rest := LeftJoin(codes[1..], snapCodes, values);
      var rows := head + rest;
      forall k | 0 <= k < |rows| ensures rows[k].code in codes {
        if k < |head| {
          assert rows[k] == head[k];
        } else {
          assert rows[k] == rest[k - |head|];
          assert rest[k - |head|].code in codes[1..];
        }
      }
    }
  }

  lemma {:induction false} LeftJoinAllMembers(codes: seq<string>, snapCodes: seq<string>, values: seq<Option<real>>)
    requires |snapCodes| == |values|
    ensures forall c :: c in codes ==> c in Codes(LeftJoin(codes, snapCodes, values))
  {
    if codes != [] {
      var m := Matches(codes[0], snapCodes, values);
      var head := if m == [] then [WeightRow(codes[0], None)] else m;
      LeftJoinAllMembers(codes[1..], snapCodes, values);
      var rest := LeftJoin(codes[1..], snapCodes, values);
      assert Codes(head + rest) == Codes(head) + Codes(rest);
      assert Codes(head)[0] == codes[0];
      forall c | c in codes ensures c in Codes(head + rest) {
        if c != codes[0] {
          assert c in codes[1..];
        }
      }
    }
  }

  /** Member codes with no market value (assign(weight=None)), in member order. */
  function NoValues(codes: seq<string>): (rows: WeightTable)
    ensures Codes(rows) == codes && forall k :: 0 <= k < |rows| ==> rows[k].weight.None?
  {
    seq(|codes|, k requires 0 <= k < |codes| => WeightRow(codes[k], None))
  }

  /**
   * How many columns carry the label 'code' once the first code label
   * found, `label`, has been renamed to 'code' (every column carrying
   * `label` is renamed).
   */
  function CodeCount(cols: seq<RawColumn>, name: string): nat
  {
    LabelCount(cols, name) + if name == "code" then 0 else LabelCount(cols, "code")
  }

  /** The ValueErrors pandas raises when merge or sort_values meets a label that several columns carry. */
  const NotUniqueCode := ValueError("The column label 'code' is not unique.")
  const NotUniqueWeight := ValueError("The column label 'weight' is not unique.")

  /**
   * members.assign(weight=None) for a board with rows: the member codes,
   * unvalued, or the frame whose 'code' label several columns carry.
   */
  function Unvalued(m: RawTable, c: nat): (f: Frame)
    requires m.Rectangular() && c < |m.columns|
    ensures CodeCount(m.columns, m.columns[c].name) >= 2 ==> f == CodeRepeated(CodeCount(m.columns, m.columns[c].name), m.height)
    ensures CodeCount(m.columns, m.columns[c].name) < 2 ==> f == Table(NoValues(m.columns[c].text))
  {
    var k := CodeCount(m.columns, m.columns[c].name);
    if k >= 2 then CodeRepeated(k, m.height) else Table(NoValues(m.columns[c].text))
  }

  /**
   * Per member, in member order, one row per matching snapshot row (one
   * when none matches), valued by the member's own 'weight' cell: the merge
   * when the snapshot's value column was suffixed away and the members'
   * own 'weight' column is what gets sorted.
   */
  function OwnJoin(codes: seq<string>, own: seq<Option<real>>, snapCodes: seq<string>): (rows: WeightTable)
    requires |own| == |codes|
  {
    if codes == [] then []
    else
      var k := Count(codes[0], snapCodes);
      seq(if k == 0 then 1 else k, _ => WeightRow(codes[0], own[0])) + OwnJoin(codes[1..], own[1..], snapCodes)
  }

  /** The own-weight join has a row for every member and only members' codes. */
  lemma {:induction false} OwnJoinCodes(codes: seq<string>, own: seq<Option<real>>, snapCodes: seq<string>)
    requires |own| == |codes|
    ensures var rows := OwnJoin(codes, own, snapCodes);
      && |rows| >= |codes|
      && (forall k :: 0 <= k < |rows| ==> rows[k].code in codes)
      && (forall c :: c in codes ==> c in Codes(rows))
  {
    if codes != [] {
      var n := Count(codes[0], snapCodes);
      var head := seq(if n == 0 then 1 else n, _ => WeightRow(codes[0], own[0]));
      OwnJoinCodes(codes[1..], own[1..], snapCodes);
      var rest := OwnJoin(codes[1..], own[1..], snapCodes);
      var rows := head + rest;
      assert OwnJoin(codes, own, snapCodes) == rows;
      forall k | 0 <= k < |rows| ensures rows[k].code in codes {
        if k < |head| {
          assert rows[k] == head[k];
        } else {
          assert rows[k] == rest[k - |head|];
          assert rest[k - |head|].code in codes[1..];
        }
      }
      assert Codes(rows) == Codes(head) + Codes(rest);
      assert Codes(head)[0] == codes[0];
      forall c | c in codes ensures c in Codes(rows) {
        if c != codes[0] {
          assert c in codes[1..];
        }
      }
    }
  }

  /**
   * The merged frame once the snapshot's code column sc is unique on both
   * sides, with value column v of label V: a member column also labelled V
   * is suffixed away in the merge, so sort_values('weight') reads the
   * members' own 'weight' column (KeyError without one); otherwise V itself
   * becomes 'weight'. A 'weight' label carried twice makes the sort raise.
   */
  function ValuedTable(codes: seq<string>, mcols: seq<RawColumn>, s: RawTable, sc: nat, v: nat): (r: Result<Frame>)
    requires s.Rectangular() && sc < |s.columns| && v < |s.columns|
    requires forall k :: 0 <= k < |mcols| ==> |mcols[k].numbers| == |codes|
  {
    var name := s.columns[v].name;
    var mw := LabelCount(mcols, "weight");
    if LabelCount(mcols, name) == 0 then
      if mw + LabelCount(s.columns, name) >= 2 then Err(NotUniqueWeight)
      else Ok(Table(ByWeight(LeftJoin(codes, s.columns[sc].text, s.columns[v].numbers))))
    else if mw == 0 then Err(KeyError("weight"))
    else if mw >= 2 then Err(NotUniqueWeight)
    else Ok(Table(ByWeight(OwnJoin(codes, mcols[ColumnNamed(mcols, "weight").value].numbers, s.columns[sc].text))))
  }

  /**
   * The outcomes of the valued merge: the sort raises ValueError when
   * 'weight' ends up carried twice and KeyError when the members' value
   * column pushed the snapshot's aside and no 'weight' is left; otherwise
   * the table is read, and without that collision it is the
   * snapshot-valued join sorted by value.
   */
  lemma ValuedTableFacts(codes: seq<string>, mcols: seq<RawColumn>, s: RawTable, sc: nat, v: nat)
    requires s.Rectangular() && sc < |s.columns| && v < |s.columns|
    requires forall k :: 0 <= k < |mcols| ==> |mcols[k].numbers| == |codes|
    ensures var r := ValuedTable(codes, mcols, s, sc, v);
      var mv := LabelCount(mcols, s.columns[v].name);
      var mw := LabelCount(mcols, "weight");
      var sv := LabelCount(s.columns, s.columns[v].name);
      && sv >= 1
      && (r == Err(NotUniqueWeight) <==> (mv == 0 && mw + sv >= 2) || (mv >= 1 && mw >= 2))
      && (r == Err(KeyError("weight")) <==> mv >= 1 && mw == 0)
      && (r.Ok? <==> (mv == 0 && mw == 0 && sv == 1) || (mv >= 1 && mw == 1))
      && (r.Ok? ==> r.value.Table?)
      && (r.Ok? && mv == 0 ==> r.value == Table(ByWeight(LeftJoin(codes, s.columns[sc].text, s.columns[v].numbers))))
  {
    var r := ValuedTable(codes, mcols, s, sc, v);
    var mv := LabelCount(mcols, s.columns[v].name);
    var mw := LabelCount(mcols, "weight");
    var sv := LabelCount(s.columns, s.columns[v].name);
    assert sv >= 1;
    if mv == 0 {
      if mw + sv >= 2 {
        assert r == Err(NotUniqueWeight);
      } else {
        assert r.Ok?;
      }
    } else if mw == 0 {
      assert r == Err(KeyError("weight"));
    } else if mw >= 2 {
      assert r == Err(NotUniqueWeight);
    } else {
      assert r.Ok?;
    }
  }

  /**
   * A read valued table holds only members' codes, each of them at least
   * once, sorted by value with unvalued rows last.
   */
  lemma ValuedTableRows(codes: seq<string>, mcols: seq<RawColumn>, s: RawTable, sc: nat, v: nat)
    requires s.Rectangular() && sc < |s.columns| && v < |s.columns|
    requires forall k :: 0 <= k < |mcols| ==> |mcols[k].numbers| == |codes|
    ensures var r := ValuedTable(codes, mcols, s, sc, v);
      r.Ok? ==>
        && r.value.Table?
        && (forall k :: 0 <= k < |r.value.rows| ==> r.value.rows[k].code in codes)
        && (forall c :: c in codes ==> c in Codes(r.value.rows))
        && (forall i, j :: 0 <= i < j < |r.value.rows| && r.value.rows[j].weight.Some? ==>
              r.value.rows[i].weight.Some? && r.value.rows[i].weight.value >= r.value.rows[j].weight.value)
  {
    var r := ValuedTable(codes, mcols, s, sc, v);
    if r.Ok? {
      var joined: WeightTable;
      if LabelCount(mcols, s.columns[v].name) == 0 {
        joined := LeftJoin(codes, s.columns[sc].text, s.columns[v].numbers);
        LeftJoinCodes(codes, s.columns[sc].text, s.columns[v].numbers);
      } else {
        joined := OwnJoin(codes, mcols[ColumnNamed(mcols, "weight").value].numbers, s.columns[sc].text);
        OwnJoinCodes(codes, mcols[ColumnNamed(mcols, "weight").value].numbers, s.columns[sc].text);
      }
      assert r == Ok(Table(ByWeight(joined)));
      SortedCodes(joined, codes);
    }
  }

  /**
   * _board_with_weights for a concept or industry board: members without
   * a code column, or without rows, give the empty table; without a
   * snapshot or a market-value column every member gets no value; a valued
   * snapshot without a code column raises KeyError, a 'code' label carried
   * twice on either side of the merge raises ValueError, and otherwise the
   * valued merge decides. Any other mode fetches no members and gives the
   * empty table.
   */
  function BoardTable(mode: string, useFloat: bool, members: Option<RawTable>, snapshot: Option<RawTable>): (r: Result<Frame>)
    requires members.Some? ==> members.value.Rectangular()
    requires snapshot.Some? ==> snapshot.value.Rectangular()
  {
    if !(mode == "concept" || mode == "industry") || members.None? then Ok(Table([]))
    else
      var m := members.value;
      match FirstExact(CodeLabels, m.columns)
      case None => Ok(Table([]))
      case Some(c) =>
        if m.height == 0 then Ok(Table([]))
        else if snapshot.None? || snapshot.value.Empty() then Ok(Unvalued(m, c))
        else SnapshotTable(m, c, snapshot.value, useFloat)
  }

  /** The members, with code column c, valued from a non-empty snapshot. */
  function SnapshotTable(m: RawTable, c: nat, s: RawTable, useFloat: bool): (r: Result<Frame>)
    requires m.Rectangular() && c < |m.columns| && s.Rectangular()
  {
    match ValueColumn(s.columns, useFloat)
    case None => Ok(Unvalued(m, c))
    case Some(v) =>
      match FirstExact(CodeLabels, s.columns)
      case None => Err(KeyError("code"))
      case Some(sc) =>
        if CodeCount(m.columns, m.columns[c].name) >= 2 || CodeCount(s.columns, s.columns[sc].name) >= 2 then Err(NotUniqueCode)
        else ValuedTable(m.columns[c].text, m.columns, s, sc, v)
  }

  /** A table holding only members' codes, each at least once, keeps both facts through the sort. */
  lemma SortedCodes(joined: WeightTable, codes: seq<string>)
    requires forall k :: 0 <= k < |joined| ==> joined[k].code in codes
    requires forall c :: c in codes ==> c in Codes(joined)
    ensures var rows := ByWeight(joined);
      && (forall k :: 0 <= k < |rows| ==> rows[k].code in codes)
      && (forall c :: c in codes ==> c in Codes(rows))
  {
    var rows := ByWeight(joined);
    forall k | 0 <= k < |rows| ensures rows[k].code in codes {
      assert rows[k] in multiset(joined);
    }
    forall c | c in codes ensures c in Codes(rows) {
      CodesOfPermutation(joined, rows, c);
    }
  }

  /** The sorted join holds only members' codes, each of them at least once, sorted by value. */
  lemma JoinedFacts(codes: seq<string>, snapCodes: seq<string>, values: seq<Option<real>>)
    requires |snapCodes| == |values|
    ensures var rows := ByWeight(LeftJoin(codes, snapCodes, values));
      && (forall k :: 0 <= k < |rows| ==> rows[k].code in codes)
      && (forall c :: c in codes ==> c in Codes(rows))
  {
    LeftJoinCodes(codes, snapCodes, values);
    SortedCodes(LeftJoin(codes, snapCodes, values), codes);
  }

  /**
   * Without snapshot values every member is kept unvalued, in member
   * order, unless the 'code' label is carried twice, which keeps that frame.
   */
  lemma BoardUnvalued(mode: string, useFloat: bool, members: Option<RawTable>, snapshot: Option<RawTable>)
    requires members.Some? ==> members.value.Rectangular()
    requires snapshot.Some? ==> snapshot.value.Rectangular()
    requires mode == "concept" || mode == "industry"
    requires members.Some? && FirstExact(CodeLabels, members.value.columns).Some? && members.value.height > 0
    requires snapshot.None? || snapshot.value.Empty() || ValueColumn(snapshot.value.columns, useFloat).None?
    ensures var r := BoardTable(mode, useFloat, members, snapshot);
      var m := members.value;
      var c := FirstExact(CodeLabels, m.columns).value;
      && r.Ok?
      && (CodeCount(m.columns, m.columns[c].name) >= 2 ==> r.value == CodeRepeated(CodeCount(m.columns, m.columns[c].name), m.height))
      && (CodeCount(m.columns, m.columns[c].name) < 2 ==>
            r.value.Table? && Codes(r.value.rows) == m.columns[c].text &&
            forall k :: 0 <= k < |r.value.rows| ==> r.value.rows[k].weight.None?)
  {
  }

  /**
   * With snapshot values and a snapshot code column, the table is the
   * merge's ValueError when 'code' is carried twice on either side, and the
   * valued merge otherwise.
   */
  lemma BoardValued(mode: string, useFloat: bool, members: Option<RawTable>, snapshot: Option<RawTable>)
    requires members.Some? ==> members.value.Rectangular()
    requires snapshot.Some? ==> snapshot.value.Rectangular()
    requires mode == "concept" || mode == "industry"
    requires members.Some? && FirstExact(CodeLabels, members.value.columns).Some? && members.value.height > 0
    requires snapshot.Some? && !snapshot.value.Empty() && ValueColumn(snapshot.value.columns, useFloat).Some?
    requires FirstExact(CodeLabels, snapshot.value.columns).Some?
    ensures var m := members.value;
      var s := snapshot.value;
      var c := FirstExact(CodeLabels, m.columns).value;
      var sc := FirstExact(CodeLabels, s.columns).value;
      BoardTable(mode, useFloat, members, snapshot) ==
        if CodeCount(m.columns, m.columns[c].name) >= 2 || CodeCount(s.columns, s.columns[sc].name) >= 2 then Err(NotUniqueCode)
        else ValuedTable(m.columns[c].text, m.columns, s, sc, ValueColumn(s.columns, useFloat).value)
  {
    BoardJoin(mode, useFloat, members.value, snapshot.value, FirstExact(CodeLabels, members.value.columns).value,
              ValueColumn(snapshot.value.columns, useFloat).value, FirstExact(CodeLabels, snapshot.value.columns).value);
  }

  /**
   * BoardValued with the member code column c, the value column v and the
   * snapshot code column sc named: with every label involved carried once
   * (and no member column labelled like the value column) the table is the
   * left join of members on the snapshot, sorted by value.
   */
  lemma BoardJoin(mode: string, useFloat: bool, m: RawTable, s: RawTable, c: nat, v: nat, sc: nat)
    requires m.Rectangular() && s.Rectangular() && m.height > 0 && !s.Empty()
    requires mode == "concept" || mode == "industry"
    requires FirstExact(CodeLabels, m.columns) == Some(c) && ValueColumn(s.columns, useFloat) == Some(v)
    requires FirstExact(CodeLabels, s.columns) == Some(sc)
    ensures c < |m.columns| && v < |s.columns| && sc < |s.columns|
    ensures BoardTable(mode, useFloat, Some(m), Some(s)) ==
      if CodeCount(m.columns, m.columns[c].name) >= 2 || CodeCount(s.columns, s.columns[sc].name) >= 2 then Err(NotUniqueCode)
      else ValuedTable(m.columns[c].text, m.columns, s, sc, v)
    ensures (CodeCount(m.columns, m.columns[c].name) == 1 && CodeCount(s.columns, s.columns[sc].name) == 1 &&
             LabelCount(m.columns, s.columns[v].name) == 0 && LabelCount(m.columns, "weight") == 0 &&
             LabelCount(s.columns, s.columns[v].name) == 1) ==>
        BoardTable(mode, useFloat, Some(m), Some(s)) ==
          Ok(Table(ByWeight(LeftJoin(m.columns[c].text, s.columns[sc].text, s.columns[v].numbers))))
  {
    assert BoardTable(mode, useFloat, Some(m), Some(s)) == SnapshotTable(m, c, s, useFloat);
  }

  /**
   * The board table: empty for other modes, missing members or memberless
   * boards; its errors are the snapshot's KeyError('code'), the merge's and
   * the sort's ValueError, and the sort's KeyError('weight'); a readable
   * table has only members' codes, each at least once when any row
   * exists, sorted by value with unvalued rows last.
   */
  lemma BoardTableFacts(mode: string, useFloat: bool, members: Option<RawTable>, snapshot: Option<RawTable>)
    requires members.Some? ==> members.value.Rectangular()
    requires snapshot.Some? ==> snapshot.value.Rectangular()
    ensures var r := BoardTable(mode, useFloat, members, snapshot);
      && (!(mode == "concept" || mode == "industry") || members.None? ==> r == Ok(Table([])))
      && (r.Err? ==> r.error in {KeyError("code"), NotUniqueCode, NotUniqueWeight, KeyError("weight")})
      && (r.Ok? && r.value.Table? && members.Some? && FirstExact(CodeLabels, members.value.columns).Some? ==>
            var codes := members.value.columns[FirstExact(CodeLabels, members.value.columns).value].text;
            var rows := r.value.rows;
            && (forall k :: 0 <= k < |rows| ==> rows[k].code in codes)
            && (rows != [] ==> forall c :: c in codes ==> c in Codes(rows))
            && (forall i, j :: 0 <= i < j < |rows| && rows[j].weight.Some? ==>
                  rows[i].weight.Some? && rows[i].weight.value >= rows[j].weight.value))
  {
    BoardTableOutcome(mode, useFloat, members, snapshot);
    BoardTableRows(mode, useFloat, members, snapshot);
  }

  /**
   * Outside the concept and industry modes or without members the board
   * table is empty. A valued snapshot without a code column raises
   * KeyError('code'); once it has one, a 'code' label carried twice on
   * either side raises the merge's ValueError; the other errors are the
   * sort's.
   */
  lemma BoardTableOutcome(mode: string, useFloat: bool, members: Option<RawTable>, snapshot: Option<RawTable>)
    requires members.Some? ==> members.value.Rectangular()
    requires snapshot.Some? ==> snapshot.value.Rectangular()
    ensures var r := BoardTable(mode, useFloat, members, snapshot);
      && (!(mode == "concept" || mode == "industry") || members.None? ==> r == Ok(Table([])))
      && (r.Err? ==> r.error in {KeyError("code"), NotUniqueCode, NotUniqueWeight, KeyError("weight")})
    ensures (mode == "concept" || mode == "industry") && members.Some? && snapshot.Some? ==>
      var m := members.value;
      var s := snapshot.value;
      var c := FirstExact(CodeLabels, m.columns);
      var sc := FirstExact(CodeLabels, s.columns);
      c.Some? && m.height > 0 && !s.Empty() && ValueColumn(s.columns, useFloat).Some? ==>
        && (sc.None? <==> BoardTable(mode, useFloat, members, snapshot) == Err(KeyError("code")))
        && (sc.Some? ==>
              (CodeCount(m.columns, m.columns[c.value].name) >= 2 || CodeCount(s.columns, s.columns[sc.value].name) >= 2
               <==> BoardTable(mode, useFloat, members, snapshot) == Err(NotUniqueCode)))
  {
    if (mode == "concept" || mode == "industry") && members.Some? {
      var m := members.value;
      match FirstExact(CodeLabels, m.columns)
      case None =>
      case Some(c) =>
        if m.height > 0 && snapshot.Some? && !snapshot.value.Empty() {
          assert BoardTable(mode, useFloat, members, snapshot) == SnapshotTable(m, c, snapshot.value, useFloat);
          SnapshotTableOutcome(m, c, snapshot.value, useFloat);
        }
    }
  }

  /**
   * SnapshotTable's errors: KeyError('code') exactly when a valued
   * snapshot has no code column, the merge's ValueError exactly when a
   * 'code' label is carried twice on either side, and the sort's errors.
   */
  lemma SnapshotTableOutcome(m: RawTable, c: nat, s: RawTable, useFloat: bool)
    requires m.Rectangular() && c < |m.columns| && s.Rectangular()
    ensures var r := SnapshotTable(m, c, s, useFloat);
      && (r.Err? ==> r.error in {KeyError("code"), NotUniqueCode, NotUniqueWeight, KeyError("weight")})
      && (ValueColumn(s.columns, useFloat).Some? ==>
            && (FirstExact(CodeLabels, s.columns).None? <==> r == Err(KeyError("code")))
            && (FirstExact(CodeLabels, s.columns).Some? ==>
                  (CodeCount(m.columns, m.columns[c].name) >= 2 ||
                   CodeCount(s.columns, s.columns[FirstExact(CodeLabels, s.columns).value].name) >= 2
                   <==> r == Err(NotUniqueCode))))
  {
    var r := SnapshotTable(m, c, s, useFloat);
    match ValueColumn(s.columns, useFloat)
    case None =>
    case Some(v) =>
      match FirstExact(CodeLabels, s.columns)
      case None =>
      case Some(sc) =>
        if CodeCount(m.columns, m.columns[c].name) < 2 && CodeCount(s.columns, s.columns[sc].name) < 2 {
          assert r == ValuedTable(m.columns[c].text, m.columns, s, sc, v);
          ValuedTableFacts(m.columns[c].text, m.columns, s, sc, v);
          assert r != Err(NotUniqueCode);
          assert r != Err(KeyError("code"));
        }
  }

  lemma BoardTableRows(mode: string, useFloat: bool, members: Option<RawTable>, snapshot: Option<RawTable>)
    requires members.Some? ==> members.value.Rectangular()
    requires snapshot.Some? ==> snapshot.value.Rectangular()
    ensures var r := BoardTable(mode, useFloat, members, snapshot);
      r.Ok? && r.value.Table? && members.Some? && FirstExact(CodeLabels, members.value.columns).Some? ==>
        var codes := members.value.columns[FirstExact(CodeLabels, members.value.columns).value].text;
        var rows := r.value.rows;
        && (forall k :: 0 <= k < |rows| ==> rows[k].code in codes)
        && (rows != [] ==> forall c :: c in codes ==> c in Codes(rows))
        && (forall i, j :: 0 <= i < j < |rows| && rows[j].weight.Some? ==>
              rows[i].weight.Some? && rows[i].weight.value >= rows[j].weight.value)
  {
    var r := BoardTable(mode, useFloat, members, snapshot);
    if (mode == "concept" || mode == "industry") && members.Some? && FirstExact(CodeLabels, members.value.columns).Some? && r.Ok? && r.value.Table? {
      var m := members.value;
      var c := FirstExact(CodeLabels, m.columns).value;
      var codes := m.columns[c].text;
      if m.height == 0 {
        assert r == Ok(Table([]));
      } else if snapshot.None? || snapshot.value.Empty() || ValueColumn(snapshot.value.columns, useFloat).None? {
        BoardUnvalued(mode, useFloat, members, snapshot);
        assert Codes(r.value.rows) == codes;
      } else {
        var s := snapshot.value;
        var v := ValueColumn(s.columns, useFloat).value;
        assert r == SnapshotTable(m, c, s, useFloat);
        var sc := FirstExact(CodeLabels, s.columns).value;
        ValuedTableRows(codes, m.columns, s, sc, v);
      }
    }
  }

  /**
   * select on a fetched table: the table's codes in order, kept when they
   * are market-data keys, stopping once top_n are picked (no fallback).
   */
  function Pick(rows: WeightTable, n: int, md: Listing): (r: seq<string>)
  {
    if rows == [] then [] else TakeMembers(Codes(rows), Keys(md), n)
  }

  /** The picks are market-data keys in table order, the first top_n members for top_n >= 1, at most max(top_n, 1). */
  lemma PickFacts(rows: WeightTable, n: int, md: Listing)
    ensures var r := Pick(rows, n, md);
      && (forall s :: s in r ==> s in Keys(md))
      && Subsequence(r, Codes(rows))
      && |r| <= (if n >= 1 then n else 1)
      && (n >= 1 ==> r == PyStr.Take(Members(Codes(rows), Keys(md)), n))
  {
    TakeMembersKeys(Codes(rows), Keys(md), n);
    TakeMembersPrefix(Codes(rows), Keys(md), n);
    TakeMembersBound(Codes(rows), Keys(md), n);
  }

  /**
   * select on the board frame: the table's codes, or, when frame['code']
   * is itself a DataFrame, its column labels, which is what iterating it
   * yields ('code' once per column carrying the label).
   */
  function FramePick(f: Frame, n: int, md: Listing): seq<string>
  {
    match f
    case Table(rows) => Pick(rows, n, md)
    case CodeRepeated(k, h) => if h == 0 then [] else TakeMembers(seq(k, _ => "code"), Keys(md), n)
  }

  /**
   * The picks are market-data keys; a table's picks are as for Pick, and a
   * frame with a repeated 'code' label picks the label itself, max(top_n, 1)
   * times at most, and only when 'code' is a market-data key.
   */
  lemma FramePickFacts(f: Frame, n: int, md: Listing)
    ensures var r := FramePick(f, n, md);
      && (forall s :: s in r ==> s in Keys(md))
      && (f.Table? ==> r == Pick(f.rows, n, md))
      && (f.CodeRepeated? ==> (forall s :: s in r ==> s == "code") && |r| <= (if n >= 1 then n else 1))
      && (f.CodeRepeated? && "code" !in Keys(md) ==> r == [])
  {
    match f
    case Table(rows) => PickFacts(rows, n, md);
    case CodeRepeated(k, h) =>
      var labels := seq(k, _ => "code");
      TakeMembersKeys(labels, Keys(md), n);
      TakeMembersBound(labels, Keys(md), n);
      if h > 0 {
        var r := TakeMembers(labels, Keys(md), n);
        forall s | s in r ensures s == "code" {
          Selection.SubsequenceIn(r, labels, s);
        }
        if r != [] {
          assert r[0] in r;
        }
      }
  }

  /**
   * select: str(mode).lower(), str(code) and int(top_n) first; 'etf' raises
   * NotImplementedError, 'index' reads the index table, 'concept' and
   * 'industry' the board table (whose KeyError propagates), anything else
   * raises ValueError.
   */
  function SelectOf(params: map<string, Value>, md: Listing, index: Option<RawTable>,
                    members: Option<RawTable>, snapshot: Option<RawTable>): (r: Result<seq<string>>)
    requires "mode" in params && "code" in params && "top_n" in params
    requires index.Some? ==> index.value.Rectangular()
    requires members.Some? ==> members.value.Rectangular()
    requires snapshot.Some? ==> snapshot.value.Rectangular()
  {
    var mode := PyStr.Lower(Str(params["mode"]));
    match IntOf(params["top_n"])
    case Err(e) => Err(e)
    case Ok(n) =>
      if mode == "etf" then Err(NotImplementedError("ETF 成分权重获取暂未实现"))
      else if mode == "index" then Ok(Pick(IndexTable(index), n, md))
      else if mode == "concept" || mode == "industry" then
        match BoardTable(mode, UseFloat(params), members, snapshot)
        case Err(e) => Err(e)
        case Ok(f) => Ok(FramePick(f, n, md))
      else Err(ValueError("未知 mode: " + mode))
  }

  /** self.params.get('use_float_mv'), as a truth value. */
  predicate UseFloat(params: map<string, Value>)
  {
    "use_float_mv" in params && Truthy(params["use_float_mv"])
  }

  /**
   * The mode decides the outcome: int(top_n) errors come first; then 'etf'
   * raises NotImplementedError and any mode but index/concept/industry
   * raises ValueError; index never fails; a board fails only with the
   * snapshot's KeyError('code'), the merge's or the sort's ValueError, or
   * the sort's KeyError('weight'); every success lists market-data keys.
   */
  lemma SelectOfFacts(params: map<string, Value>, md: Listing, index: Option<RawTable>,
                      members: Option<RawTable>, snapshot: Option<RawTable>)
    requires "mode" in params && "code" in params && "top_n" in params
    requires index.Some? ==> index.value.Rectangular()
    requires members.Some? ==> members.value.Rectangular()
    requires snapshot.Some? ==> snapshot.value.Rectangular()
    ensures var r := SelectOf(params, md, index, members, snapshot);
      var mode := PyStr.Lower(Str(params["mode"]));
      && (IntOf(params["top_n"]).Err? ==> r == Err(IntOf(params["top_n"]).error))
      && (IntOf(params["top_n"]).Ok? && mode == "etf" ==> r.Err? && r.error.NotImplementedError?)
      && (IntOf(params["top_n"]).Ok? && !(mode in {"etf", "index", "concept", "industry"}) ==> r.Err? && r.error.ValueError?)
      && (IntOf(params["top_n"]).Ok? && mode == "index" ==> r.Ok?)
      && (r.Err? && (mode == "concept" || mode == "industry") && IntOf(params["top_n"]).Ok? ==>
            r.error in {KeyError("code"), NotUniqueCode, NotUniqueWeight, KeyError("weight")})
      && (r.Ok? ==> forall s :: s in r.value ==> s in Keys(md))
  {
    var mode := PyStr.Lower(Str(params["mode"]));
    var r := SelectOf(params, md, index, members, snapshot);
    if IntOf(params["top_n"]).Ok? {
      var n := IntOf(params["top_n"]).value;
      if mode == "index" {
        PickFacts(IndexTable(index), n, md);
      } else if mode == "concept" || mode == "industry" {
        BoardTableFacts(mode, UseFloat(params), members, snapshot);
        var b := BoardTable(mode, UseFloat(params), members, snapshot);
        if b.Ok? {
          FramePickFacts(b.value, n, md);
        }
      }
    }
  }

  /**
   * A mode that is a float, a list or a dict renders as a string that is
   * none of the four modes, so select raises ValueError for it.
   */
  lemma NonStringModeRaises(params: map<string, Value>, md: Listing, index: Option<RawTable>,
                            members: Option<RawTable>, snapshot: Option<RawTable>)
    requires "mode" in params && "code" in params && "top_n" in params
    requires index.Some? ==> index.value.Rectangular()
    requires members.Some? ==> members.value.Rectangular()
    requires snapshot.Some? ==> snapshot.value.Rectangular()
    requires params["mode"].VFloat? || params["mode"].VList? || params["mode"].VDict?
    requires IntOf(params["top_n"]).Ok?
    ensures SelectOf(params, md, index, members, snapshot).Err?
    ensures SelectOf(params, md, index, members, snapshot).error.ValueError?
  {
    StrOfNonScalarIsNoWord(params["mode"], "etf");
    StrOfNonScalarIsNoWord(params["mode"], "index");
    StrOfNonScalarIsNoWord(params["mode"], "concept");
    StrOfNonScalarIsNoWord(params["mode"], "industry");
  }

  /** select, with its pick loop. */
  method Select(params: map<string, Value>, md: Listing, index: Option<RawTable>,
                members: Option<RawTable>, snapshot: Option<RawTable>) returns (r: Result<seq<string>>)
    requires "mode" in params && "code" in params && "top_n" in params
    requires index.Some? ==> index.value.Rectangular()
    requires members.Some? ==> members.value.Rectangular()
    requires snapshot.Some? ==> snapshot.value.Rectangular()
    ensures r == SelectOf(params, md, index, members, snapshot)
  {
    var mode := PyStr.Lower(Str(params["mode"]));
    if IntOf(params["top_n"]).Err? {
      return Err(IntOf(params["top_n"]).error);
    }
    var n := IntOf(params["top_n"]).value;
    if mode == "etf" {
      return Err(NotImplementedError("ETF 成分权重获取暂未实现"));
    }
    var f: Frame;
    if mode == "index" {
      f := Table(IndexTable(index));
    } else if mode == "concept" || mode == "industry" {
      var b := BoardTable(mode, UseFloat(params), members, snapshot);
      if b.Err? {
        return Err(b.error);
      }
      f := b.value;
    } else {
      return Err(ValueError("未知 mode: " + mode));
    }
    var symbols: seq<string>;
    match f {
      case Table(rows) =>
        if rows == [] {
          return Ok([]);
        }
        symbols := Codes(rows);
      case CodeRepeated(k, h) =>
        if h == 0 {
          return Ok([]);
        }
        symbols := seq(k, _ => "code");
    }
    var picked := PickTop(symbols, Keys(md), n);
    return Ok(picked);
  }

  /**
   * The detail loop's picks: market-data members only (others are skipped
   * before the count test), stopping right after the pick that brings the
   * count to top_n.
   */
  function MemberRows(rows: WeightTable, keys: seq<string>, budget: int): (r: WeightTable)
    decreases |rows|
  {
    if rows == [] then []
    else if rows[0].code !in keys then MemberRows(rows[1..], keys, budget)
    else if budget <= 1 then [rows[0]]
    else [rows[0]] + MemberRows(rows[1..], keys, budget - 1)
  }

  /**
   * The detail loop picks the first max(top_n, 1) members, so it agrees
   * with select for top_n >= 1; for top_n <= 0 it still finds the first
   * member, where select looks at the first code only.
   */
  lemma {:induction false} MemberRowsCodes(rows: WeightTable, keys: seq<string>, budget: int)
    ensures Codes(MemberRows(rows, keys, budget)) == PyStr.Take(Members(Codes(rows), keys), if budget >= 1 then budget else 1)
    decreases |rows|
  {
    if rows != [] {
      var cs := Codes(rows);
      assert cs[0] == rows[0].code && cs[1..] == Codes(rows[1..]);
      var rest := Members(cs[1..], keys);
      var b := if budget >= 1 then budget else 1;
      if rows[0].code !in keys {
        MemberRowsCodes(rows[1..], keys, budget);
        assert Members(cs, keys) == [] + rest;
      } else if budget <= 1 {
        assert Members(cs, keys) == [cs[0]] + rest;
        assert PyStr.Take([cs[0]] + rest, 1) == [cs[0]];
      } else {
        MemberRowsCodes(rows[1..], keys, budget - 1);
        assert Members(cs, keys) == [cs[0]] + rest;
        assert PyStr.Take([cs[0]] + rest, b) == [cs[0]] + PyStr.Take(rest, b - 1);
        var tail := MemberRows(rows[1..], keys, budget - 1);
        assert Codes([rows[0]] + tail) == [cs[0]] + Codes(tail);
      }
    }
  }

  /** select and select_with_details pick the same symbols for top_n >= 1. */
  lemma DetailsAgreeWithSelect(rows: WeightTable, keys: seq<string>, budget: int)
    requires budget >= 1
    ensures Codes(MemberRows(rows, keys, budget)) == TakeMembers(Codes(rows), keys, budget)
  {
    MemberRowsCodes(rows, keys, budget);
    TakeMembersPrefix(Codes(rows), keys, budget);
  }

  /** For top_n = 0 the two differ: a non-member first code stops select at nothing, while the details find the member after it. */
  lemma DetailsDifferAtZero()
    ensures TakeMembers(["000001", "000002"], ["000002"], 0) == []
    ensures Codes(MemberRows([WeightRow("000001", None), WeightRow("000002", None)], ["000002"], 0)) == ["000002"]
  {
    var rows := [WeightRow("000001", None), WeightRow("000002", None)];
    assert rows[1..] == [WeightRow("000002", None)];
    assert MemberRows(rows, ["000002"], 0) == [WeightRow("000002", None)];
  }

  /** The detail loop: skip non-members, append members, stop once top_n have been taken. */
  method PickRows(rows: WeightTable, keys: seq<string>, topN: int) returns (picked: WeightTable)
    ensures picked == MemberRows(rows, keys, topN)
  {
    picked := [];
    var taken := 0;
    assert rows[0..] == rows;
    for k := 0 to |rows|
      invariant taken == |picked|
      invariant MemberRows(rows, keys, topN) == picked + MemberRows(rows[k..], keys, topN - taken)
    {
      assert rows[k..][0] == rows[k] && rows[k..][1..] == rows[k + 1..];
      if rows[k].code !in keys {
        continue;
      }
      picked := picked + [rows[k]];
      taken := taken + 1;
      if taken >= topN {
        return;
      }
    }
    assert rows[|rows|..] == [];
  }

  /** One detail record: no score, reasons ["top_weight"], meta {mode, source_code, weight}; a missing weight is None. */
  function Detail(row: WeightRow, mode: string, code: string): (d: SelectionResult)
    ensures d.symbol == row.code && d.score.None? && d.reasons == ["top_weight"]
    ensures d.meta.Keys == {"mode", "source_code", "weight"} && d.meta["mode"] == VStr(mode) && d.meta["source_code"] == VStr(code)
    ensures d.meta["weight"] == if row.weight.Some? then VFloat(row.weight.value) else VNone
  {
    SelectionResult(row.code, None, ["top_weight"],
      map["mode" := VStr(mode), "source_code" := VStr(code), "weight" := if row.weight.Some? then VFloat(row.weight.value) else VNone])
  }

  function Details(rows: WeightTable, mode: string, code: string): (ds: seq<SelectionResult>)
    ensures |ds| == |rows| && forall k :: 0 <= k < |rows| ==> ds[k] == Detail(rows[k], mode, code)
  {
    seq(|rows|, k requires 0 <= k < |rows| => Detail(rows[k], mode, code))
  }

  /**
   * The table select_with_details reads: the index table for 'index', the
   * board table for every other mode (so 'etf' and unknown modes give the
   * empty table), and the empty table when the board raises or its
   * 'code' label is repeated.
   */
  function DetailTable(mode: string, params: map<string, Value>, index: Option<RawTable>,
                       members: Option<RawTable>, snapshot: Option<RawTable>): (rows: WeightTable)
    requires index.Some? ==> index.value.Rectangular()
    requires members.Some? ==> members.value.Rectangular()
    requires snapshot.Some? ==> snapshot.value.Rectangular()
    ensures mode != "index" && !(mode == "concept" || mode == "industry") ==> rows == []
  {
    if mode == "index" then IndexTable(index)
    else
      match BoardTable(mode, UseFloat(params), members, snapshot)
      case Err(_) => []
      case Ok(f) => if f.Table? then f.rows else []
  }

  /**
   * select_with_details: int(top_n) can still raise, but fetch errors and
   * modes without a board give no records; one record per picked member.
   */
  method SelectWithDetails(params: map<string, Value>, md: Listing, index: Option<RawTable>,
                           members: Option<RawTable>, snapshot: Option<RawTable>) returns (r: Result<seq<SelectionResult>>)
    requires "mode" in params && "code" in params && "top_n" in params
    requires index.Some? ==> index.value.Rectangular()
    requires members.Some? ==> members.value.Rectangular()
    requires snapshot.Some? ==> snapshot.value.Rectangular()
    ensures IntOf(params["top_n"]).Err? ==> r == Err(IntOf(params["top_n"]).error)
    ensures IntOf(params["top_n"]).Ok? ==>
      var mode := PyStr.Lower(Str(params["mode"]));
      var rows := DetailTable(mode, params, index, members, snapshot);
      r == Ok(Details(MemberRows(rows, Keys(md), IntOf(params["top_n"]).value), mode, Str(params["code"])))
  {
    var mode := PyStr.Lower(Str(params["mode"]));
    var code := Str(params["code"]);
    if IntOf(params["top_n"]).Err? {
      return Err(IntOf(params["top_n"]).error);
    }
    var n := IntOf(params["top_n"]).value;
    var rows := DetailTable(mode, params, index, members, snapshot);
    var picked := PickRows(rows, Keys(md), n);
    return Ok(Details(picked, mode, code));
  }
}
