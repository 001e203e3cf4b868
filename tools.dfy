/**
 * The writer's local tools: the tokenizer, the material analysis (first
 * sentences, source/type perspectives, frequent keywords, risky passages,
 * writing angles) and the placeholder deep research (cleaned, de-duplicated
 * queries with rotated key points). Python's process-salted hash() is a
 * parameter.
 */
module Tools {
  import opened Wrappers
  import PyStr
  import Sorting

  // ----- Tokenizer -----

  /** The characters a token is made of: ASCII letters and digits and the CJK block U+4E00..U+9FA5. */
  predicate WordChar(c: char)
  {
    PyStr.IsAsciiAlnum(c) || ('\U{4E00}' <= c <= '\U{9FA5}')
  }

  /** re.split on the separator characters, one piece between each two (empty pieces are dropped later). */
  function Pieces(s: string): (r: seq<string>)
    ensures |r| >= 1
  {
    if s == [] then [""]
    else
      var p := Pieces(s[..|s| - 1]);
      var c := s[|s| - 1];
      if WordChar(c) then p[..|p| - 1] + [p[|p| - 1] + [c]] else p + [""]
  }

  function Concat(ps: seq<string>): string
  {
    if ps == [] then [] else Concat(ps[..|ps| - 1]) + ps[|ps| - 1]
  }

  /** The word characters of s, in order. */
  function WordChars(s: string): string
  {
    if s == [] then [] else WordChars(s[..|s| - 1]) + (if WordChar(s[|s| - 1]) then [s[|s| - 1]] else [])
  }

  function SeparatorCount(s: string): nat
  {
    if s == [] then 0 else SeparatorCount(s[..|s| - 1]) + (if WordChar(s[|s| - 1]) then 0 else 1)
  }

  /** The pieces hold exactly the word characters, in order, and there is one more piece than separators. */
  lemma {:induction false} PiecesRules(s: string)
    ensures Concat(Pieces(s)) == WordChars(s)
    ensures |Pieces(s)| == SeparatorCount(s) + 1
    ensures forall p, c :: p in Pieces(s) && c in p ==> WordChar(c) && c in s
  {
    if s != [] {
      var s0, c := s[..|s| - 1], s[|s| - 1];
      assert s == s0 + [c];
      PiecesRules(s0);
      var p := Pieces(s0);
      if WordChar(c) {
        var q := p[..|p| - 1] + [p[|p| - 1] + [c]];
        assert q[..|q| - 1] == p[..|p| - 1];
        assert Concat(p) == Concat(p[..|p| - 1]) + p[|p| - 1];
        assert Concat(q) == Concat(p[..|p| - 1]) + (p[|p| - 1] + [c]);
        forall x, d | x in q && d in x
          ensures WordChar(d) && d in s
        {
          if x == p[|p| - 1] + [c] {
            if d != c {
              assert d in p[|p| - 1];
            }
          } else {
            assert x in p;
          }
        }
      } else {
        var q := p + [""];
        assert q[..|q| - 1] == p;
      }
    }
  }

  /** The pieces longer than one character. */
  function LongPieces(ps: seq<string>): (r: seq<string>)
    ensures forall t :: t in r <==> t in ps && |t| > 1
  {
    if ps == [] then []
    else LongPieces(ps[..|ps| - 1]) + (if |ps[|ps| - 1]| > 1 then [ps[|ps| - 1]] else [])
  }

  /** A token's characters are lower-case word characters. */
  predicate TokenChars(t: string)
  {
    forall k :: 0 <= k < |t| ==> WordChar(t[k]) && !('A' <= t[k] <= 'Z')
  }

  /** _tokenize. */
  function Tokenize(text: string): seq<string>
  {
    LongPieces(Pieces(PyStr.Lower(text)))
  }

  /** Every token is longer than one character and made of lower-case word characters. */
  lemma TokenizeRules(text: string)
    ensures forall t :: t in Tokenize(text) ==> |t| > 1 && TokenChars(t)
  {
    var l := PyStr.Lower(text);
    PiecesRules(l);
    forall t | t in Tokenize(text)
      ensures TokenChars(t)
    {
      forall k | 0 <= k < |t|
        ensures WordChar(t[k]) && !('A' <= t[k] <= 'Z')
      {
        assert t[k] in t;
        assert t[k] in l;
      }
    }
  }

  // ----- Material analysis -----

  /** A material's fields, each None when the dict lacks the key. */
  datatype Material = Material(content: Option<string>, source: Option<string>, kind: Option<string>)

  datatype Analysis = Analysis(facts: seq<string>, perspectives: set<string>, trends: seq<string>,
                               controversies: seq<string>, potentialAngles: seq<string>)

  predicate SentenceEnd(c: char)
  {
    c == '\n' || c == '。' || c == '.' || c == '!' || c == '?'
  }

  /** The first piece of re.split(r"[\n。.!?]", s): the text before the first sentence end. */
  function FirstSentence(s: string): (r: string)
    ensures |r| <= |s| && r == s[..|r|]
    ensures forall k :: 0 <= k < |r| ==> !SentenceEnd(r[k])
    ensures |r| < |s| ==> SentenceEnd(s[|r|])
  {
    if s == [] || SentenceEnd(s[0]) then [] else [s[0]] + FirstSentence(s[1..])
  }

  function Content(m: Material): string
  {
    m.content.GetOr("")
  }

  function Fact(m: Material): string
  {
    PyStr.Take(FirstSentence(Content(m)), 160)
  }

  function Perspective(m: Material): string
  {
    "来源:" + m.source.GetOr("?") + " 类型:" + m.kind.GetOr("?")
  }

  /** re.search(r"风险|risk|争议|controvers|legal", content, re.I). */
  predicate Controversial(content: string)
  {
    var l := PyStr.Lower(content);
    PyStr.Contains(l, "风险") || PyStr.Contains(l, "risk") || PyStr.Contains(l, "争议") ||
    PyStr.Contains(l, "controvers") || PyStr.Contains(l, "legal")
  }

  function Facts(ms: seq<Material>): (r: seq<string>)
    ensures |r| == |ms|
  {
    if ms == [] then [] else Facts(ms[..|ms| - 1]) + [Fact(ms[|ms| - 1])]
  }

  function Perspectives(ms: seq<Material>): set<string>
  {
    if ms == [] then {} else Perspectives(ms[..|ms| - 1]) + {Perspective(ms[|ms| - 1])}
  }

  /** Every token fed to the counter, material by material (at most 800 from each). */
  function AllTokens(ms: seq<Material>): seq<string>
  {
    if ms == [] then [] else AllTokens(ms[..|ms| - 1]) + MaterialTokens(ms[|ms| - 1])
  }

  /** The tokens one material contributes: the first 800 of its content's. */
  function MaterialTokens(m: Material): seq<string>
  {
    PyStr.Take(Tokenize(Content(m)), 800)
  }

  function Controversies(ms: seq<Material>): seq<string>
  {
    if ms == [] then []
    else
      var m := ms[|ms| - 1];
      Controversies(ms[..|ms| - 1]) + (if Controversial(Content(m)) then [PyStr.Take(Content(m), 180)] else [])
  }

  const StopWords: set<string> := {"the", "and", "with", "this", "that", "from", "have", "has", "were", "been", "will",
                                   "would", "about", "there", "their", "which", "对于", "以及", "并且", "可以", "我们"}

  /** str.isdigit() on the tokenizer's characters. */
  predicate AllDigits(w: string)
  {
    w != [] && forall k :: 0 <= k < |w| ==> PyStr.IsDigit(w[k])
  }

  predicate Eligible(w: string)
  {
    w !in StopWords && !AllDigits(w)
  }

  /** How often the counter has seen w. */
  function Frequency(tokens: seq<string>): string -> real
  {
    w => multiset(tokens)[w] as real
  }

  /** Counter.most_common(n): the distinct tokens by descending count, ties in first-seen order. */
  function MostCommon(tokens: seq<string>, n: nat): seq<string>
  {
    PyStr.Take(Sorting.SortDesc(PyStr.Dedup(tokens), Frequency(tokens)), n)
  }

  function Eligibles(ws: seq<string>): (r: seq<string>)
    ensures forall w :: w in r <==> w in ws && Eligible(w)
  {
    if ws == [] then [] else Eligibles(ws[..|ws| - 1]) + (if Eligible(ws[|ws| - 1]) then [ws[|ws| - 1]] else [])
  }

  function Trends(tokens: seq<string>): seq<string>
  {
    PyStr.Take(Eligibles(MostCommon(tokens, 120)), 15)
  }

  lemma {:induction false} EligiblesSorted(ws: seq<string>, key: string -> real)
    requires Sorting.SortedDesc(ws, key)
    ensures Sorting.SortedDesc(Eligibles(ws), key)
  {
    if ws != [] {
      var w0 := ws[..|ws| - 1];
      assert Sorting.SortedDesc(w0, key);
      EligiblesSorted(w0, key);
      forall x | x in w0
        ensures key(x) >= key(ws[|ws| - 1])
      {
        var k :| 0 <= k < |w0| && w0[k] == x;
        assert ws[k] == x;
      }
    }
  }

  /** Eligibles keeps each eligible element's count and drops the others. */
  lemma {:induction false} EligiblesCount(ws: seq<string>)
    ensures forall w :: multiset(Eligibles(ws))[w] == if Eligible(w) then multiset(ws)[w] else 0
  {
    if ws != [] {
      var w0 := ws[..|ws| - 1];
      EligiblesCount(w0);
      assert ws == w0 + [ws[|ws| - 1]];
    }
  }

  lemma SameCountEligibles(a: seq<string>, b: seq<string>)
    requires multiset(a) == multiset(b)
    ensures |Eligibles(a)| == |Eligibles(b)|
  {
    EligiblesCount(a);
    EligiblesCount(b);
    assert multiset(Eligibles(a)) == multiset(Eligibles(b));
    assert |Eligibles(a)| == |multiset(Eligibles(a))|;
    assert |Eligibles(b)| == |multiset(Eligibles(b))|;
  }

  /** The counter's ranking holds each counted token once, by non-increasing count. */
  lemma RankingRules(tokens: seq<string>)
    ensures var sorted := Sorting.SortDesc(PyStr.Dedup(tokens), Frequency(tokens));
      && (forall w :: w in sorted <==> w in tokens)
      && multiset(sorted) == multiset(PyStr.Dedup(tokens))
      && Sorting.SortedDesc(sorted, Frequency(tokens))
  {
    var d := PyStr.Dedup(tokens);
    PyStr.DedupRules(tokens);
    var sorted := Sorting.SortDesc(d, Frequency(tokens));
    forall w
      ensures w in sorted <==> w in d
    {
      assert w in sorted <==> w in multiset(sorted);
      assert w in d <==> w in multiset(d);
    }
  }

  /** At most fifteen trends, each a counted token that is neither a stop word nor all digits. */
  lemma TrendsRules(tokens: seq<string>)
    ensures |Trends(tokens)| <= 15
    ensures forall w :: w in Trends(tokens) ==> w in tokens && Eligible(w)
  {
    RankingRules(tokens);
    var sorted := Sorting.SortDesc(PyStr.Dedup(tokens), Frequency(tokens));
    var mc := MostCommon(tokens, 120);
    var e := Eligibles(mc);
    var t := Trends(tokens);
    assert t == e[..|t|] && mc == sorted[..|mc|];
    forall w | w in t ensures w in tokens && Eligible(w) {
      var i :| 0 <= i < |t| && t[i] == w;
      assert w == e[i] && w in e;
      var j :| 0 <= j < |mc| && mc[j] == w;
      assert w == sorted[j];
    }
  }

  /** The trends come in order of non-increasing count. */
  lemma TrendsSorted(tokens: seq<string>)
    ensures Sorting.SortedDesc(Trends(tokens), Frequency(tokens))
  {
    RankingRules(tokens);
    var mc := MostCommon(tokens, 120);
    assert Sorting.SortedDesc(mc, Frequency(tokens));
    EligiblesSorted(mc, Frequency(tokens));
    var e := Eligibles(mc);
    var t := Trends(tokens);
    assert forall i :: 0 <= i < |t| ==> t[i] == e[i];
  }

  /** Asking for at least as many entries as there are distinct tokens returns the whole ranking. */
  lemma MostCommonAll(tokens: seq<string>, n: nat)
    requires |PyStr.Dedup(tokens)| <= n
    ensures MostCommon(tokens, n) == Sorting.SortDesc(PyStr.Dedup(tokens), Frequency(tokens))
  {
    var sorted := Sorting.SortDesc(PyStr.Dedup(tokens), Frequency(tokens));
    assert |sorted| <= n;
  }

  /** With at most 120 distinct tokens, of which at most fifteen are eligible, the trends are exactly the eligible tokens. */
  lemma TrendsComplete(tokens: seq<string>)
    requires |PyStr.Dedup(tokens)| <= 120 && |Eligibles(PyStr.Dedup(tokens))| <= 15
    ensures forall w :: w in Trends(tokens) <==> w in tokens && Eligible(w)
  {
    var d := PyStr.Dedup(tokens);
    var sorted := Sorting.SortDesc(d, Frequency(tokens));
    RankingRules(tokens);
    MostCommonAll(tokens, 120);
    SameCountEligibles(sorted, d);
    var e := Eligibles(sorted);
    var t := Trends(tokens);
    assert t == PyStr.Take(e, 15);
    assert t == e;
  }

  function Angle(trend: string): string
  {
    "围绕 " + trend + " 的发展与影响"
  }

  const WideAngle: string := "综合材料的宏观视角分析"

  function AnglesOf(trends: seq<string>): (r: seq<string>)
    ensures |r| == |trends| && forall i :: 0 <= i < |trends| ==> r[i] == Angle(trends[i])
  {
    if trends == [] then [] else AnglesOf(trends[..|trends| - 1]) + [Angle(trends[|trends| - 1])]
  }

  function Angles(trends: seq<string>): seq<string>
  {
    if trends == [] then [WideAngle] else AnglesOf(PyStr.Take(trends, 6))
  }

  /** analyze_materials as a value. */
  function Analyze(ms: seq<Material>): Analysis
  {
    Assemble(Facts(ms), Perspectives(ms), AllTokens(ms), Controversies(ms))
  }

  /** The returned dict, from what the loop gathered. */
  function Assemble(facts: seq<string>, perspectives: set<string>, tokens: seq<string>, controversies: seq<string>): Analysis
  {
    var trends := Trends(tokens);
    Analysis(facts, perspectives, trends, PyStr.Take(controversies, 5), PyStr.Take(Angles(trends), 8))
  }

  /** Material k's fact is its first sentence, cut to 160 characters. */
  lemma {:induction false} FactsRules(ms: seq<Material>)
    ensures forall k :: 0 <= k < |ms| ==> Facts(ms)[k] == Fact(ms[k])
  {
    if ms != [] {
      FactsRules(ms[..|ms| - 1]);
    }
  }

  lemma {:induction false} PerspectivesRules(ms: seq<Material>)
    ensures forall p :: p in Perspectives(ms) <==> exists k :: 0 <= k < |ms| && p == Perspective(ms[k])
  {
    if ms != [] {
      var m0 := ms[..|ms| - 1];
      PerspectivesRules(m0);
      forall p | p in Perspectives(ms)
        ensures exists k :: 0 <= k < |ms| && p == Perspective(ms[k])
      {
        if p in Perspectives(m0) {
          var k :| 0 <= k < |m0| && p == Perspective(m0[k]);
          assert ms[k] == m0[k];
        }
      }
      forall p | exists k :: 0 <= k < |ms| && p == Perspective(ms[k])
        ensures p in Perspectives(ms)
      {
        var k :| 0 <= k < |ms| && p == Perspective(ms[k]);
        if k < |m0| {
          assert m0[k] == ms[k];
        }
      }
    }
  }

  lemma {:induction false} ControversiesRules(ms: seq<Material>)
    ensures |Controversies(ms)| <= |ms|
    ensures forall x :: x in Controversies(ms) ==>
      |x| <= 180 && exists k :: 0 <= k < |ms| && Controversial(Content(ms[k])) && x == PyStr.Take(Content(ms[k]), 180)
  {
    if ms != [] {
      var m0 := ms[..|ms| - 1];
      ControversiesRules(m0);
      forall x | x in Controversies(ms)
        ensures exists k :: 0 <= k < |ms| && Controversial(Content(ms[k])) && x == PyStr.Take(Content(ms[k]), 180)
      {
        if x in Controversies(m0) {
          var k :| 0 <= k < |m0| && Controversial(Content(m0[k])) && x == PyStr.Take(Content(m0[k]), 180);
          assert ms[k] == m0[k];
        }
      }
    }
  }

  /** A fact is the text before the content's first sentence end, cut to at most 160 characters. */
  lemma FactShape(m: Material)
    ensures var f, c := Fact(m), Content(m);
      && |f| <= 160 && |f| <= |c| && f == c[..|f|] && (forall i :: 0 <= i < |f| ==> !SentenceEnd(f[i]))
      && (|f| < 160 && |f| < |c| ==> SentenceEnd(c[|f|]))
  {
    var s := FirstSentence(Content(m));
    var f := Fact(m);
    assert forall i :: 0 <= i < |f| ==> f[i] == s[i];
  }

  /** One fact per material, in order. */
  lemma AnalyzeFacts(ms: seq<Material>)
    ensures |Analyze(ms).facts| == |ms|
    ensures forall k :: 0 <= k < |ms| ==> Analyze(ms).facts[k] == Fact(ms[k])
  {
    FactsRules(ms);
  }

  /** One perspective per distinct source and type among the materials. */
  lemma AnalyzePerspectives(ms: seq<Material>)
    ensures forall p :: p in Analyze(ms).perspectives <==> exists k :: 0 <= k < |ms| && p == Perspective(ms[k])
  {
    PerspectivesRules(ms);
  }

  /** At most five controversies, each the first 180 characters of a material that mentions a risk. */
  lemma AnalyzeControversies(ms: seq<Material>)
    ensures |Analyze(ms).controversies| <= 5
    ensures forall x :: x in Analyze(ms).controversies ==>
      |x| <= 180 && exists k :: 0 <= k < |ms| && Controversial(Content(ms[k])) && x == PyStr.Take(Content(ms[k]), 180)
  {
    ControversiesRules(ms);
    var cs := Controversies(ms);
    var t := PyStr.Take(cs, 5);
    assert t == Analyze(ms).controversies;
    assert forall x :: x in t ==> x in cs;
  }

  /** One angle per trend among the first six, or the single wide angle when there are no trends. */
  lemma AnalyzeAngles(ms: seq<Material>)
    ensures var a := Analyze(ms);
      && |a.potentialAngles| == (if a.trends == [] then 1 else if |a.trends| < 6 then |a.trends| else 6)
      && (a.trends == [] ==> a.potentialAngles == [WideAngle])
      && forall i :: 0 <= i < |a.potentialAngles| && a.trends != [] ==> a.potentialAngles[i] == Angle(a.trends[i])
  {
    var trends := Trends(AllTokens(ms));
    TrendsRules(AllTokens(ms));
    var t6 := PyStr.Take(trends, 6);
    assert forall i :: 0 <= i < |t6| ==> t6[i] == trends[i];
    var angles := Angles(trends);
    assert |angles| <= 8;
    assert PyStr.Take(angles, 8) == angles;
  }

  /** What one more material adds to each of the loop's accumulators. */
  lemma GatherStep(ms: seq<Material>, i: nat)
    requires i < |ms|
    ensures Facts(ms[..i + 1]) == Facts(ms[..i]) + [Fact(ms[i])]
    ensures Perspectives(ms[..i + 1]) == Perspectives(ms[..i]) + {Perspective(ms[i])}
    ensures AllTokens(ms[..i + 1]) == AllTokens(ms[..i]) + MaterialTokens(ms[i])
    ensures Controversies(ms[..i + 1]) == Controversies(ms[..i]) +
      (if Controversial(Content(ms[i])) then [PyStr.Take(Content(ms[i]), 180)] else [])
  {
    assert ms[..i + 1][..i] == ms[..i];
  }

  /** analyze_materials: the loop over the materials, then the trends and the angles. */
  method AnalyzeMaterials(materials: seq<Material>) returns (r: Analysis)
    ensures r == Analyze(materials)
  {
    var facts: seq<string> := [];
    var perspectives: set<string> := {};
    var allTokens: seq<string> := [];   // the Counter, as the tokens it was updated with
    var controversies: seq<string> := [];
    for i := 0 to |materials|
      invariant facts == Facts(materials[..i]) && perspectives == Perspectives(materials[..i])
      invariant allTokens == AllTokens(materials[..i]) && controversies == Controversies(materials[..i])
    {
      var m := materials[i];
      var content := m.content.GetOr("");
      GatherStep(materials, i);
      facts := facts + [Fact(m)];
      perspectives := perspectives + {Perspective(m)};
      allTokens := allTokens + MaterialTokens(m);
      if Controversial(content) {
        controversies := controversies + [PyStr.Take(content, 180)];
      }
    }
    assert materials[..|materials|] == materials;
    var trends := PyStr.Take(Eligibles(MostCommon(allTokens, 120)), 15);
    assert trends == Trends(AllTokens(materials));
    var potentialAngles := PotentialAngles(trends);
    r := Analysis(facts, perspectives, trends, PyStr.Take(controversies, 5), PyStr.Take(potentialAngles, 8));
    assert r == Assemble(Facts(materials), Perspectives(materials), AllTokens(materials), Controversies(materials));
  }

  /** The angle loop of analyze_materials: one angle per trend among the first six, else the wide angle. */
  method PotentialAngles(trends: seq<string>) returns (potentialAngles: seq<string>)
    ensures potentialAngles == Angles(trends)
  {
    potentialAngles := [];
    var first := PyStr.Take(trends, 6);
    for i := 0 to |first|
      invariant potentialAngles == AnglesOf(first[..i])
    {
      assert first[..i + 1][..i] == first[..i];
      potentialAngles := potentialAngles + ["围绕 " + first[i] + " 的发展与影响"];
    }
    assert first[..|first|] == first;
    if |potentialAngles| == 0 {
      potentialAngles := potentialAngles + [WideAngle];
    }
  }

  // ----- Deep research -----

  const BasePoints: seq<string> := ["市场现状", "驱动因素", "增长瓶颈", "竞争格局", "未来展望"]
  const RiskList: seq<string> := ["监管不确定性", "技术替代", "宏观波动"]

  datatype Finding = Finding(query: string, keyPoints: seq<string>, risks: seq<string>)

  /** abs(hash(q)) % len(base_points). */
  function Rotation(h: int): (rot: nat)
    ensures rot < |BasePoints|
  {
    (if h < 0 then -h else h) % |BasePoints|
  }

  function Research(q: string, hash: string -> int): Finding
  {
    var rot := Rotation(hash(q));
    var sel := BasePoints[rot..] + BasePoints[..rot];
    Finding(q, sel[..3], RiskList[..rot % 3 + 1])
  }

  /** The five base points differ (their first characters already do). */
  lemma BasePointsDistinct()
    ensures forall i, j :: 0 <= i < j < |BasePoints| ==> BasePoints[i] != BasePoints[j]
  {
    assert forall i, j :: 0 <= i < j < |BasePoints| ==> BasePoints[i][0] != BasePoints[j][0];
  }

  /** The rotated list starts with the point at rot and wraps around. */
  lemma RotatedPoints(rot: nat)
    requires rot < |BasePoints|
    ensures var sel := BasePoints[rot..] + BasePoints[..rot];
      |sel| == 5 && forall i :: 0 <= i < 3 ==> sel[i] == BasePoints[(rot + i) % 5]
  {
    var sel := BasePoints[rot..] + BasePoints[..rot];
    forall i | 0 <= i < 3
      ensures sel[i] == BasePoints[(rot + i) % 5]
    {
      if rot + i < 5 {
        assert sel[i] == BasePoints[rot + i];
      } else {
        assert sel[i] == BasePoints[rot + i - 5];
      }
    }
  }

  /** Three distinct key points, consecutive in the rotation of the five. */
  lemma ResearchKeyPoints(q: string, hash: string -> int)
    ensures var f, rot := Research(q, hash), Rotation(hash(q));
      && f.query == q
      && |f.keyPoints| == 3 && (forall i :: 0 <= i < 3 ==> f.keyPoints[i] == BasePoints[(rot + i) % 5])
      && (forall i, j :: 0 <= i < j < 3 ==> f.keyPoints[i] != f.keyPoints[j])
  {
    var rot := Rotation(hash(q));
    RotatedPoints(rot);
    BasePointsDistinct();
    var kp := Research(q, hash).keyPoints;
    assert forall i :: 0 <= i < 3 ==> kp[i] == BasePoints[(rot + i) % 5];
  }

  /** One to three risks, taken from the front of the list. */
  lemma ResearchRisks(q: string, hash: string -> int)
    ensures var f := Research(q, hash);
      1 <= |f.risks| <= 3 && f.risks == RiskList[..|f.risks|]
  {
  }

  /** The cleaning loop: the kept queries and the set of their lower-case forms. */
  function Cleaned(qs: seq<string>): (seq<string>, set<string>)
  {
    if qs == [] then ([], {})
    else
      var (d, seen) := Cleaned(qs[..|qs| - 1]);
      var qn := PyStr.Strip(qs[|qs| - 1]);
      if qn != [] && PyStr.Lower(qn) !in seen then (d + [qn], seen + {PyStr.Lower(qn)}) else (d, seen)
  }

  /** Some query strips to qn. */
  predicate FromQuery(qs: seq<string>, qn: string)
  {
    exists j :: 0 <= j < |qs| && PyStr.Strip(qs[j]) == qn
  }

  /** The loop's set holds exactly the lower-case forms of the kept queries. */
  lemma {:induction false} CleanedSeen(qs: seq<string>)
    ensures var (d, seen) := Cleaned(qs);
      forall x :: x in seen <==> exists k :: 0 <= k < |d| && x == PyStr.Lower(d[k])
  {
    if qs != [] {
      var q0 := qs[..|qs| - 1];
      CleanedSeen(q0);
      assert var (d, seen) := Cleaned(q0); forall x :: x in seen <==> exists k :: 0 <= k < |d| && x == PyStr.Lower(d[k]);
      var d0, seen0 := Cleaned(q0).0, Cleaned(q0).1;
      assert forall x :: x in seen0 <==> exists k :: 0 <= k < |d0| && x == PyStr.Lower(d0[k]);
      var qn := PyStr.Strip(qs[|qs| - 1]);
      if qn != [] && PyStr.Lower(qn) !in seen0 {
        var d, seen := d0 + [qn], seen0 + {PyStr.Lower(qn)};
        assert Cleaned(qs) == (d, seen);
        forall x
          ensures x in seen <==> exists k :: 0 <= k < |d| && x == PyStr.Lower(d[k])
        {
          if x in seen0 {
            var k :| 0 <= k < |d0| && x == PyStr.Lower(d0[k]);
            assert d[k] == d0[k];
          } else if x == PyStr.Lower(qn) {
            assert d[|d0|] == qn;
          } else {
            forall k | 0 <= k < |d|
              ensures x != PyStr.Lower(d[k])
            {
              if k < |d0| {
                assert d[k] == d0[k];
              }
            }
          }
        }
      } else {
        assert Cleaned(qs) == (d0, seen0);
      }
    }
  }

  /** Every kept query is a non-blank query, stripped. */
  lemma {:induction false} CleanedFrom(qs: seq<string>)
    ensures var d := Cleaned(qs).0;
      forall k :: 0 <= k < |d| ==> d[k] != [] && FromQuery(qs, d[k])
  {
    if qs != [] {
      var q0 := qs[..|qs| - 1];
      CleanedFrom(q0);
      var d0, seen0 := Cleaned(q0).0, Cleaned(q0).1;
      assert var d := Cleaned(q0).0; forall k :: 0 <= k < |d| ==> d[k] != [] && FromQuery(q0, d[k]);
      assert forall k :: 0 <= k < |d0| ==> d0[k] != [] && FromQuery(q0, d0[k]);
      forall k | 0 <= k < |d0|
        ensures FromQuery(qs, d0[k])
      {
        assert FromQuery(q0, d0[k]);
        var j :| 0 <= j < |q0| && PyStr.Strip(q0[j]) == d0[k];
        assert qs[j] == q0[j];
      }
      var qn := PyStr.Strip(qs[|qs| - 1]);
      if qn != [] && PyStr.Lower(qn) !in seen0 {
        var d := d0 + [qn];
        assert FromQuery(qs, qn);
        assert forall k :: 0 <= k < |d0| ==> d[k] == d0[k];
      }
    }
  }

  /** No two kept queries have the same lower-case form. */
  lemma {:induction false} CleanedDistinct(qs: seq<string>)
    ensures var d := Cleaned(qs).0;
      forall a, b :: 0 <= a < b < |d| ==> PyStr.Lower(d[a]) != PyStr.Lower(d[b])
  {
    if qs != [] {
      var q0 := qs[..|qs| - 1];
      CleanedDistinct(q0);
      CleanedSeen(q0);
      assert var d := Cleaned(q0).0; forall a, b :: 0 <= a < b < |d| ==> PyStr.Lower(d[a]) != PyStr.Lower(d[b]);
      assert var (d, seen) := Cleaned(q0); forall x :: x in seen <==> exists k :: 0 <= k < |d| && x == PyStr.Lower(d[k]);
      var d0, seen0 := Cleaned(q0).0, Cleaned(q0).1;
      assert forall a, b :: 0 <= a < b < |d0| ==> PyStr.Lower(d0[a]) != PyStr.Lower(d0[b]);
      assert forall x :: x in seen0 <==> exists k :: 0 <= k < |d0| && x == PyStr.Lower(d0[k]);
      var qn := PyStr.Strip(qs[|qs| - 1]);
      if qn != [] && PyStr.Lower(qn) !in seen0 {
        var d := d0 + [qn];
        assert Cleaned(qs).0 == d;
        forall a, b | 0 <= a < b < |d|
          ensures PyStr.Lower(d[a]) != PyStr.Lower(d[b])
        {
          assert d[a] == d0[a];
          if b < |d0| {
            assert d[b] == d0[b];
          } else {
            assert d[b] == qn;
            assert PyStr.Lower(d0[a]) in seen0;
          }
        }
      } else {
        assert Cleaned(qs).0 == d0;
      }
    }
  }

  /** Every non-blank query's lower-cased strip is in the loop's set. */
  lemma {:induction false} CleanedCovers(qs: seq<string>)
    ensures var seen := Cleaned(qs).1;
      forall j :: 0 <= j < |qs| && PyStr.Strip(qs[j]) != [] ==> PyStr.Lower(PyStr.Strip(qs[j])) in seen
  {
    if qs != [] {
      var q0 := qs[..|qs| - 1];
      CleanedCovers(q0);
      forall j | 0 <= j < |q0| && PyStr.Strip(qs[j]) != []
        ensures PyStr.Lower(PyStr.Strip(qs[j])) in Cleaned(q0).1
      {
        assert qs[j] == q0[j];
      }
    }
  }

  /** A lower-case form that no query strips to is not in the loop's set. */
  lemma NotSeen(qs: seq<string>, x: string)
    requires forall i :: 0 <= i < |qs| ==> PyStr.Lower(PyStr.Strip(qs[i])) != x
    ensures x !in Cleaned(qs).1
  {
    CleanedSeen(qs);
    CleanedFrom(qs);
    var d := Cleaned(qs).0;
    forall k | 0 <= k < |d|
      ensures PyStr.Lower(d[k]) != x
    {
      var i :| 0 <= i < |qs| && PyStr.Strip(qs[i]) == d[k];
    }
  }

  /** A query whose lower-cased strip no earlier query shares is kept with its own spelling. */
  lemma {:induction false} CleanedKeepsFirst(qs: seq<string>, j: nat)
    requires j < |qs| && PyStr.Strip(qs[j]) != []
    requires forall i :: 0 <= i < j ==> PyStr.Lower(PyStr.Strip(qs[i])) != PyStr.Lower(PyStr.Strip(qs[j]))
    ensures PyStr.Strip(qs[j]) in Cleaned(qs).0
    decreases |qs|
  {
    var q0 := qs[..|qs| - 1];
    var d0, seen0 := Cleaned(q0).0, Cleaned(q0).1;
    var qn := PyStr.Strip(qs[|qs| - 1]);
    if j < |qs| - 1 {
      assert q0[j] == qs[j];
      assert forall i :: 0 <= i < j ==> q0[i] == qs[i];
      CleanedKeepsFirst(q0, j);
      assert PyStr.Strip(qs[j]) in d0;
      if qn != [] && PyStr.Lower(qn) !in seen0 {
        assert Cleaned(qs).0 == d0 + [qn];
      } else {
        assert Cleaned(qs).0 == d0;
      }
    } else {
      assert forall i :: 0 <= i < |q0| ==> q0[i] == qs[i];
      NotSeen(q0, PyStr.Lower(qn));
      assert Cleaned(qs).0 == d0 + [qn];
    }
  }

  /** deep_research as a value: the first eight kept queries, each researched. */
  function DeepResearch(queries: seq<string>, hash: string -> int): (r: seq<Finding>)
  {
    var d := PyStr.Take(Cleaned(queries).0, 8);
    seq(|d|, i requires 0 <= i < |d| => Research(d[i], hash))
  }

  /** At most eight findings, one per kept query in order. */
  lemma DeepResearchRules(queries: seq<string>, hash: string -> int)
    ensures var r, d := DeepResearch(queries, hash), Cleaned(queries).0;
      && |r| == (if |d| < 8 then |d| else 8)
      && forall i :: 0 <= i < |r| ==> r[i].query == d[i] && r[i] == Research(d[i], hash)
  {
  }

  /** deep_research: the cleaning loop, then one finding per kept query. */
  method DeepResearchQueries(theme: string, queries: seq<string>, hash: string -> int) returns (results: seq<Finding>)
    ensures results == DeepResearch(queries, hash)
  {
    var dedupQ: seq<string> := [];
    var seen: set<string> := {};
    for i := 0 to |queries|
      invariant (dedupQ, seen) == Cleaned(queries[..i])
    {
      assert queries[..i + 1][..i] == queries[..i];
      var qn := PyStr.Strip(queries[i]);
      if qn != [] && PyStr.Lower(qn) !in seen {
        dedupQ := dedupQ + [qn];
        seen := seen + {PyStr.Lower(qn)};
      }
    }
    assert queries[..|queries|] == queries;
    results := [];
    var first := PyStr.Take(dedupQ, 8);
    for i := 0 to |first|
      invariant |results| == i && forall k :: 0 <= k < i ==> results[k] == Research(first[k], hash)
    {
      var q := first[i];
      var rot := Rotation(hash(q));
      var sel := BasePoints[rot..] + BasePoints[..rot];
      results := results + [Finding(q, sel[..3], RiskList[..rot % 3 + 1])];
    }
  }
}
