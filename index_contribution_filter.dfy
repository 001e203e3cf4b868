/**
 * IndexContributionFilter.get_top_weight_stocks: the market-cap text of a
 * sector's constituents turned into numbers (units of 亿, with an optional
 * 万亿 multiplier and thousands separators), and the top-N constituents by
 * that number. A sector without a market-cap column gives its first N rows.
 * The function works on a copy, so the caller's frame is a value here and
 * nothing the caller holds changes.
 */
module IndexContributionFilter {
  import opened Wrappers
  import opened Values
  import PyStr
  import Sorting

  /** The characters float() accepts once surrounding whitespace is stripped. */
  predicate NumeralChar(c: char)
  {
    PyStr.IsDigit(c) || c == '.' || c == '+' || c == '-'
  }

  function Pow10(n: nat): (p: nat)
    ensures p >= 1
  {
    if n == 0 then 1 else 10 * Pow10(n - 1)
  }

  /** The value of digits ip, a point and digits fp. */
  function DecimalValue(ip: string, fp: string): real
    requires AllDigits(ip) && AllDigits(fp)
  {
    DigitsValue(ip) as real + DigitsValue(fp) as real / Pow10(|fp|) as real
  }

  /** An unsigned numeral: digits with at most one point, and at least one digit. */
  function ParseUnsigned(b: string): Option<real>
  {
    match PyStr.FindFrom(b, ".", 0)
    case None => if b != [] && AllDigits(b) then Some(DigitsValue(b) as real) else None
    case Some(d) =>
      var ip, fp := b[..d], b[d + 1..];
      if (ip != [] || fp != []) && AllDigits(ip) && AllDigits(fp) then Some(DecimalValue(ip, fp)) else None
  }

  /** An unsigned numeral holds only numeral characters. */
  lemma UnsignedChars(b: string)
    requires ParseUnsigned(b).Some?
    ensures forall k :: 0 <= k < |b| ==> NumeralChar(b[k])
  {
    match PyStr.FindFrom(b, ".", 0)
    case None =>
    case Some(d) =>
      var ip, fp := b[..d], b[d + 1..];
      assert forall k :: 0 <= k < |b| ==> (k < d ==> b[k] == ip[k]) && (k > d ==> b[k] == fp[k - d - 1]);
  }

  /** A character that is not whitespace survives strip(). */
  lemma StripKeeps(s: string, c: char)
    requires c in s && !PyStr.IsSpace(c)
    ensures c in PyStr.Strip(s)
  {
    var l := PyStr.StripLeft(s);
    PyStr.StripLeftFacts(s);
    PyStr.StripRightFacts(l);
    var j :| 0 <= j < |s| && s[j] == c;
    assert l[j - (|s| - |l|)] == c;
    var r := PyStr.StripRight(l);
    assert r[j - (|s| - |l|)] == c;
  }

  /** The text float() sees after strip() and an optional sign. */
  function Unsigned(t: string): string
  {
    if t != [] && (t[0] == '-' || t[0] == '+') then t[1..] else t
  }

  /**
   * float(s) for decimal text: surrounding whitespace, an optional sign,
   * digits with at most one point. None where float() raises ValueError.
   */
  function ParseFloat(s: string): Option<real>
  {
    var t := PyStr.Strip(s);
    match ParseUnsigned(Unsigned(t))
    case None => None
    case Some(v) => Some(if t[0] == '-' then -v else v)
  }

  /** Text float() accepts holds only numeral characters once stripped. */
  lemma SignedChars(t: string)
    requires ParseUnsigned(Unsigned(t)).Some?
    ensures forall k :: 0 <= k < |t| ==> NumeralChar(t[k])
  {
    var body := Unsigned(t);
    UnsignedChars(body);
    if body != t {
      assert forall k :: 1 <= k < |t| ==> t[k] == body[k - 1];
    }
  }

  /** Text holding a character that is neither whitespace nor part of a numeral is refused. */
  lemma ParseRefuses(s: string, c: char)
    requires c in s && !PyStr.IsSpace(c) && !NumeralChar(c)
    ensures ParseFloat(s).None?
  {
    var t := PyStr.Strip(s);
    StripKeeps(s, c);
    if ParseUnsigned(Unsigned(t)).Some? {
      SignedChars(t);
      assert false;
    }
  }

  /** Digits, optionally followed by a point and more digits. */
  function Numeral(ip: string, fp: string): string
  {
    if fp == [] then ip else ip + "." + fp
  }

  /** strip() leaves text alone whose ends are not whitespace. */
  lemma StripNothing(s: string)
    requires s != [] && !PyStr.IsSpace(s[0]) && !PyStr.IsSpace(s[|s| - 1])
    ensures PyStr.Strip(s) == s
  {
    assert PyStr.StripLeft(s) == s;
  }

  /** find(".") on text without a point finds nothing. */
  lemma FindNoPoint(s: string)
    requires '.' !in s
    ensures PyStr.FindFrom(s, ".", 0).None?
  {
    forall j ensures !PyStr.OccursAt(s, ".", j) {
      if 0 <= j && j + 1 <= |s| { assert s[j..j + 1][0] == s[j]; }
    }
  }

  /** find(".") on ip + "." + fp, for ip without a point, is |ip|. */
  lemma FindPoint(ip: string, fp: string)
    requires '.' !in ip
    ensures PyStr.FindFrom(ip + "." + fp, ".", 0) == Some(|ip|)
  {
    var s := ip + "." + fp;
    assert PyStr.OccursAt(s, ".", |ip|) by { assert s[|ip|..|ip| + 1] == "."; }
    forall j | 0 <= j < |ip| ensures !PyStr.OccursAt(s, ".", j) { assert s[j..j + 1][0] == ip[j]; }
  }

  /** The unsigned parse of a numeral is its value. */
  lemma UnsignedNumeral(ip: string, fp: string)
    requires ip != [] && AllDigits(ip) && AllDigits(fp)
    ensures ParseUnsigned(Numeral(ip, fp)) == Some(DecimalValue(ip, fp))
  {
    var s := Numeral(ip, fp);
    assert '.' !in ip;
    if fp == [] {
      FindNoPoint(ip);
      assert DecimalValue(ip, fp) == DigitsValue(ip) as real;
    } else {
      FindPoint(ip, fp);
      assert s[..|ip|] == ip && s[|ip| + 1..] == fp;
    }
  }

  /** float() reads back a numeral's value. */
  lemma ParseNumeral(ip: string, fp: string)
    requires ip != [] && AllDigits(ip) && AllDigits(fp)
    ensures ParseFloat(Numeral(ip, fp)) == Some(DecimalValue(ip, fp))
  {
    var s := Numeral(ip, fp);
    assert s[0] == ip[0] && PyStr.IsDigit(s[|s| - 1]);
    StripNothing(s);
    assert Unsigned(s) == s;
    UnsignedNumeral(ip, fp);
  }

  const Yi: char := '亿'
  const Wan: char := '万'
  const WanYi: string := "万亿"

  /** The text with the thousands separators removed, as a number; 0 where float() raises. */
  function Number(s: string): real
  {
    ParseFloat(PyStr.RemoveChar(s, ',')).GetOr(0.0)
  }

  /**
   * The conversion as written: '亿' is tested before '万亿', so text in
   * 万亿 takes the first branch.
   */
  function CapAsWritten(cap: string): real
  {
    if Yi in cap then Number(PyStr.RemoveChar(cap, Yi))
    else if PyStr.Contains(cap, WanYi) then Number(PyStr.RemoveSub(cap, WanYi)) * 10000.0
    else Number(cap)
  }

  /** The conversion with '万亿' tested first: 万亿 text is scaled to 亿. */
  function Cap(cap: string): real
  {
    if PyStr.Contains(cap, WanYi) then Number(PyStr.RemoveSub(cap, WanYi)) * 10000.0
    else if Yi in cap then Number(PyStr.RemoveChar(cap, Yi))
    else Number(cap)
  }

  /** As written, every cap quoted in 万亿 becomes 0: the 万 left behind makes float() raise. */
  lemma TrillionAsWrittenIsZero(cap: string)
    requires PyStr.Contains(cap, WanYi)
    ensures CapAsWritten(cap) == 0.0
  {
    var i :| PyStr.OccursAt(cap, WanYi, i);
    assert cap[i] == Wan && cap[i + 1] == Yi by { assert cap[i..i + 2] == WanYi; }
    var t := PyStr.RemoveChar(cap, Yi);
    PyStr.RemoveCharKeeps(cap, Yi, Wan);
    PyStr.RemoveCharKeeps(t, ',', Wan);
    ParseRefuses(PyStr.RemoveChar(t, ','), Wan);
  }

  /** The two conversions differ only on text holding 万亿. */
  lemma FixOnlyTouchesTrillion(cap: string)
    requires !PyStr.Contains(cap, WanYi)
    ensures CapAsWritten(cap) == Cap(cap)
  {
  }

  /** A numeral holds none of the unit characters. */
  lemma NumeralChars(ip: string, fp: string)
    requires AllDigits(ip) && AllDigits(fp)
    ensures forall c :: c in Numeral(ip, fp) ==> c == '.' || PyStr.IsDigit(c)
  {
    var s := Numeral(ip, fp);
    forall c | c in s ensures c == '.' || PyStr.IsDigit(c) {
      var k :| 0 <= k < |s| && s[k] == c;
      if k < |ip| { assert s[k] == ip[k]; } else if k > |ip| { assert s[k] == fp[k - |ip| - 1]; }
    }
  }

  /** Text without 万 holds no occurrence of 万亿. */
  lemma NoWanNoWanYi(s: string)
    requires Wan !in s
    ensures !PyStr.Contains(s, WanYi)
  {
    forall j ensures !PyStr.OccursAt(s, WanYi, j) {
      if 0 <= j && j + 2 <= |s| { assert s[j..j + 2][0] == s[j]; }
    }
  }

  /** Removing 万亿 from a numeral followed by 万亿 leaves the numeral. */
  lemma {:induction false} RemoveTrailingWanYi(s: string)
    requires Wan !in s
    ensures PyStr.RemoveSub(s + WanYi, WanYi) == s
    decreases |s|
  {
    var t := s + WanYi;
    if s == [] {
      assert t == WanYi && t[2..] == [];
    } else {
      assert t[..2] != WanYi by { assert t[0] == s[0]; }
      assert t[1..] == s[1..] + WanYi;
      assert Wan !in s[1..] by { assert forall k :: 0 <= k < |s[1..]| ==> s[1..][k] == s[k + 1]; }
      RemoveTrailingWanYi(s[1..]);
      assert s == [s[0]] + s[1..];
    }
  }

  /** A numeral holds no thousands separator: Number reads its value. */
  lemma NumberOfNumeral(ip: string, fp: string)
    requires ip != [] && AllDigits(ip) && AllDigits(fp)
    ensures Number(Numeral(ip, fp)) == DecimalValue(ip, fp)
  {
    NumeralChars(ip, fp);
    PyStr.RemoveCharAbsent(Numeral(ip, fp), ',');
    ParseNumeral(ip, fp);
  }

  /** A plain numeral converts to its value, in 亿. */
  lemma CapOfPlain(ip: string, fp: string)
    requires ip != [] && AllDigits(ip) && AllDigits(fp)
    ensures Cap(Numeral(ip, fp)) == DecimalValue(ip, fp)
  {
    var s := Numeral(ip, fp);
    NumeralChars(ip, fp);
    NoWanNoWanYi(s);
    assert Yi !in s;
    NumberOfNumeral(ip, fp);
  }

  /** Removing 亿 from a numeral followed by 亿 leaves the numeral. */
  lemma RemoveTrailingYi(s: string)
    requires Yi !in s
    ensures PyStr.RemoveChar(s + [Yi], Yi) == s
  {
    PyStr.RemoveCharConcat(s, [Yi], Yi);
    PyStr.RemoveCharAbsent(s, Yi);
    assert PyStr.RemoveChar([Yi], Yi) == [] by { assert [Yi][1..] == []; }
  }

  /** A numeral followed by 亿 converts to its value. */
  lemma CapOfYi(ip: string, fp: string)
    requires ip != [] && AllDigits(ip) && AllDigits(fp)
    ensures Cap(Numeral(ip, fp) + [Yi]) == DecimalValue(ip, fp)
  {
    var s := Numeral(ip, fp);
    var t := s + [Yi];
    NumeralChars(ip, fp);
    assert Wan !in t;
    NoWanNoWanYi(t);
    assert t[|s|] == Yi;
    RemoveTrailingYi(s);
    NumberOfNumeral(ip, fp);
  }

  /** A numeral followed by 万亿 converts to ten thousand times its value. */
  lemma CapOfWanYi(ip: string, fp: string)
    requires ip != [] && AllDigits(ip) && AllDigits(fp)
    ensures Cap(Numeral(ip, fp) + WanYi) == DecimalValue(ip, fp) * 10000.0
  {
    var s := Numeral(ip, fp);
    NumeralChars(ip, fp);
    assert PyStr.OccursAt(s + WanYi, WanYi, |s|) by { assert (s + WanYi)[|s|..|s| + 2] == WanYi; }
    RemoveTrailingWanYi(s);
    NumberOfNumeral(ip, fp);
  }

  /** "1.5万亿" as written: the 万 left behind makes the value 0. */
  lemma TrillionAsWrittenExample()
    ensures CapAsWritten("1.5万亿") == 0.0
  {
    var s := Numeral("1", "5") + WanYi;
    assert s == "1.5万亿";
    assert PyStr.OccursAt(s, WanYi, 3) by { assert s[3..5] == WanYi; }
    TrillionAsWrittenIsZero(s);
  }

  /** "1.5万亿" with 万亿 tested first: 15000 亿. */
  lemma TrillionCorrectedExample()
    ensures Cap("1.5万亿") == 15000.0
  {
    var s := Numeral("1", "5") + WanYi;
    assert s == "1.5万亿";
    CapOfWanYi("1", "5");
    assert DigitsValue("1") == 1 by { assert "1"[..0] == []; }
    assert DigitsValue("5") == 5 by { assert "5"[..0] == []; }
    assert DecimalValue("1", "5") == 1.5;
  }

  /** "1.5万亿": 0 as written, 15000 (亿) once 万亿 is tested first. */
  lemma TrillionExample()
    ensures CapAsWritten("1.5万亿") == 0.0
    ensures Cap("1.5万亿") == 15000.0
  {
    TrillionAsWrittenExample();
    TrillionCorrectedExample();
  }

  /**
   * A constituent row: column name to the cell's text (astype(str)). A map
   * holds each label once, so a frame carrying 总市值 twice is outside this
   * model.
   */
  type Row = map<string, string>

  /** A sector's constituents: its column names and its rows. */
  datatype Sector = Sector(columns: seq<string>, rows: seq<Row>)
  {
    /** DataFrame.empty: no columns or no rows. */
    predicate Empty() { columns == [] || rows == [] }
  }

  const CapColumn: string := "总市值"

  /** A row's market-cap text; a missing cell is NaN, whose text is "nan". */
  function CapText(row: Row): string
  {
    if CapColumn in row then row[CapColumn] else "nan"
  }

  /** The result: an empty frame, the first rows, or the ranked rows with their numeric caps. */
  datatype Top = NoRows | Head(rows: seq<Row>) | Largest(ranked: seq<(Row, real)>)

  /** The converted caps, in row order. */
  function CapValues(caps: seq<string>): (v: seq<real>)
    ensures |v| == |caps|
  {
    if caps == [] then [] else CapValues(caps[..|caps| - 1]) + [Cap(caps[|caps| - 1])]
  }

  /** Position k of the converted caps is the conversion of cap k. */
  lemma {:induction false} CapValuesAt(caps: seq<string>, k: nat)
    requires k < |caps|
    ensures CapValues(caps)[k] == Cap(caps[k])
    decreases |caps|
  {
    if k < |caps| - 1 {
      CapValuesAt(caps[..|caps| - 1], k);
    }
  }

  /** The conversion loop over the market-cap column, in row order. */
  method NumericMarketCap(caps: seq<string>) returns (values: seq<real>)
    ensures values == CapValues(caps)
  {
    values := [];
    for i := 0 to |caps|
      invariant values == CapValues(caps[..i])
    {
      assert caps[..i + 1][..i] == caps[..i];
      values := values + [Cap(caps[i])];
    }
    assert caps[..|caps|] == caps;
  }

  /** The cap text of each row. */
  function CapTexts(rows: seq<Row>): (texts: seq<string>)
  {
    seq(|rows|, k requires 0 <= k < |rows| => CapText(rows[k]))
  }

  /** Rows paired with values, position by position. */
  function Zip(rows: seq<Row>, values: seq<real>): (r: seq<(Row, real)>)
    requires |rows| == |values|
  {
    seq(|rows|, k requires 0 <= k < |rows| => (rows[k], values[k]))
  }

  /** Each row paired with its numeric cap (the added 市值_数值 column). */
  function Ranked(rows: seq<Row>): (r: seq<(Row, real)>)
  {
    Zip(rows, CapValues(CapTexts(rows)))
  }

  /** Every ranked pair is a row of the sector with the conversion of its own cap text. */
  lemma RankedMembers(rows: seq<Row>)
    ensures |Ranked(rows)| == |rows|
    ensures forall p :: p in Ranked(rows) ==> p.0 in rows && p.1 == Cap(CapText(p.0))
  {
    var r := Ranked(rows);
    forall p | p in r ensures p.0 in rows && p.1 == Cap(CapText(p.0)) {
      var k :| 0 <= k < |r| && r[k] == p;
      CapValuesAt(CapTexts(rows), k);
    }
  }

  function Value(p: (Row, real)): real { p.1 }

  /** nlargest(n): nothing for n <= 0, else the first n of the descending order. */
  function NLargest(pairs: seq<(Row, real)>, n: int): (r: seq<(Row, real)>)
  {
    if n <= 0 then []
    else
      var s := Sorting.SortDesc(pairs, Value);
      s[..if n < |s| then n else |s|]
  }

  /** get_top_weight_stocks on its value model. */
  function TopWeight(t: Sector, topN: int): Top
  {
    if t.Empty() then NoRows
    else if CapColumn in t.columns then Largest(NLargest(Ranked(t.rows), topN))
    else Head(PyStr.Take(t.rows, topN))
  }

  /** In a descending sequence every element of a prefix is at least every element after it. */
  lemma PrefixDominates(s: seq<(Row, real)>, k: nat)
    requires Sorting.SortedDesc(s, Value) && k <= |s|
    ensures forall p, q :: p in s[..k] && q in s[k..] ==> p.1 >= q.1
  {
    forall p, q | p in s[..k] && q in s[k..] ensures p.1 >= q.1 {
      var i :| 0 <= i < k && s[..k][i] == p;
      var j :| 0 <= j < |s| - k && s[k..][j] == q;
      assert Value(s[i]) >= Value(s[k + j]);
    }
  }

  /** Splitting a sequence splits its multiset. */
  lemma SplitMultiset(s: seq<(Row, real)>, k: nat)
    requires k <= |s|
    ensures multiset(s) - multiset(s[..k]) == multiset(s[k..])
  {
    assert s == s[..k] + s[k..];
  }

  /**
   * nlargest keeps min(n, |pairs|) pairs (none for n <= 0), in descending
   * order, drawn from the input, and no pair left behind has a larger value
   * than a pair kept.
   */
  lemma NLargestRules(pairs: seq<(Row, real)>, n: int)
    ensures var r := NLargest(pairs, n);
      && |r| == (if n <= 0 then 0 else if n < |pairs| then n else |pairs|)
      && Sorting.SortedDesc(r, Value)
      && multiset(r) <= multiset(pairs)
      && forall p, q :: p in r && q in multiset(pairs) - multiset(r) ==> p.1 >= q.1
  {
    NLargestKeeps(pairs, n);
    NLargestDominates(pairs, n);
  }

  /** The kept pairs: how many, in descending order, drawn from the input. */
  lemma NLargestKeeps(pairs: seq<(Row, real)>, n: int)
    ensures var r := NLargest(pairs, n);
      && |r| == (if n <= 0 then 0 else if n < |pairs| then n else |pairs|)
      && Sorting.SortedDesc(r, Value)
      && multiset(r) <= multiset(pairs)
  {
    var s := Sorting.SortDesc(pairs, Value);
    var k := if n <= 0 then 0 else if n < |s| then n else |s|;
    var r := s[..k];
    assert NLargest(pairs, n) == r;
    assert forall i :: 0 <= i < k ==> r[i] == s[i];
    assert s == r + s[k..];
  }

  /** No pair left behind has a larger value than a pair kept. */
  lemma NLargestDominates(pairs: seq<(Row, real)>, n: int)
    ensures var r := NLargest(pairs, n);
      forall p, q :: p in r && q in multiset(pairs) - multiset(r) ==> p.1 >= q.1
  {
    var s := Sorting.SortDesc(pairs, Value);
    var k := if n <= 0 then 0 else if n < |s| then n else |s|;
    var r := s[..k];
    assert NLargest(pairs, n) == r;
    SplitMultiset(s, k);
    PrefixDominates(s, k);
    forall p, q | p in r && q in multiset(pairs) - multiset(r) ensures p.1 >= q.1 {
      assert q in multiset(s[k..]);
      assert q in s[k..];
    }
  }

  /**
   * The promises of get_top_weight_stocks: an empty sector gives an empty
   * frame; without a market-cap column, the first top_n rows in order;
   * with one, at most top_n rows, each carrying the converted value of its
   * own cap text, in descending order of it, taken from the sector, with no
   * row left out that has a larger cap than a row kept.
   */
  lemma TopWeightRules(t: Sector, topN: int)
    ensures TopWeight(t, topN) == NoRows <==> t.Empty()
    ensures !t.Empty() && CapColumn !in t.columns ==> TopWeight(t, topN) == Head(PyStr.Take(t.rows, topN))
    ensures !t.Empty() && CapColumn !in t.columns && topN >= 0 ==>
      |TopWeight(t, topN).rows| == (if topN < |t.rows| then topN else |t.rows|)
    ensures !t.Empty() && CapColumn in t.columns ==>
      var r := TopWeight(t, topN).ranked;
      && |r| == (if topN <= 0 then 0 else if topN < |t.rows| then topN else |t.rows|)
      && Sorting.SortedDesc(r, Value)
      && multiset(r) <= multiset(Ranked(t.rows))
      && (forall p :: p in r ==> p.0 in t.rows && p.1 == Cap(CapText(p.0)))
      && forall p, q :: p in r && q in multiset(Ranked(t.rows)) - multiset(r) ==> p.1 >= q.1
  {
    if !t.Empty() && CapColumn in t.columns {
      var pairs := Ranked(t.rows);
      NLargestRules(pairs, topN);
      RankedMembers(t.rows);
      var r := NLargest(pairs, topN);
      assert forall p :: p in r ==> p in multiset(r);
      assert forall p :: p in multiset(pairs) ==> p in pairs;
    }
  }

  /** get_top_weight_stocks: the conversion loop, then nlargest or head. */
  method GetTopWeightStocks(t: Sector, topN: int) returns (r: Top)
    ensures r == TopWeight(t, topN)
  {
    if t.Empty() {
      return NoRows;
    }
    if CapColumn in t.columns {
      var values := NumericMarketCap(CapTexts(t.rows));
      r := Largest(NLargest(Zip(t.rows, values), topN));
    } else {
      r := Head(PyStr.Take(t.rows, topN));
    }
  }
}
