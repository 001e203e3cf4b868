/**
 * The fact-check tool: a heuristic confidence per claim from the phrases
 * and digits it contains, clamped to [0.1, 0.95]; a status band per
 * confidence; the per-claim record with its canned explanation, sources and
 * recommendations; and the summary over at most five claims.
 */
module FactCheck {
  import opened Wrappers
  import opened Values
  import PyStr

  /** The regular expressions the scorer searches for. */
  datatype Pattern =
    | Phrase(text: string)            // the literal text
    | Spanning(first: string, last: string)  // first, then last later on the same line (first.*last)
    | DigitBefore(c: char)            // a digit immediately followed by c (\d+c)

  predicate Matches(p: Pattern, claim: string)
  {
    match p
    case Phrase(t) => PyStr.Contains(claim, t)
    case Spanning(a, b) =>
      exists i, j :: 0 <= i <= j <= |claim| && PyStr.OccursAt(claim, a, i) && PyStr.OccursAt(claim, b, j) && i + |a| <= j &&
        forall k :: i + |a| <= k < j ==> claim[k] != '\n'
    case DigitBefore(c) => exists i :: 0 <= i < |claim| - 1 && PyStr.IsDigit(claim[i]) && claim[i + 1] == c
  }

  /** Phrases that signal a sourced statement: reports, data, research, statistics, officials, figures. */
  const Reliable: seq<Pattern> := [
    Spanning("根据", "报告"), Phrase("数据显示"), Phrase("研究表明"), Phrase("统计显示"),
    Spanning("官方", "表示"), DigitBefore('%'), DigitBefore('所'), DigitBefore('年')]

  /** Hedges: hearsay, maybe, seems, probably, rumour. */
  const Unreliable: seq<Pattern> := [Phrase("据说"), Phrase("可能"), Phrase("似乎"), Phrase("大概"), Phrase("传闻")]

  /** How many of the patterns occur in the claim. */
  function MatchCount(ps: seq<Pattern>, claim: string): (n: nat)
    ensures n <= |ps|
  {
    if ps == [] then 0
    else MatchCount(ps[..|ps| - 1], claim) + (if Matches(ps[|ps| - 1], claim) then 1 else 0)
  }

  predicate HasDigit(claim: string)
  {
    exists i :: 0 <= i < |claim| && PyStr.IsDigit(claim[i])
  }

  /** max(0.1, min(0.95, x)). */
  function Clamp(x: real): real
  {
    if x > 0.95 then 0.95 else if x < 0.1 then 0.1 else x
  }

  /**
   * _calculate_confidence: 0.5, plus 0.1 per reliable pattern found, minus
   * 0.15 per hedge, plus 0.05 for any digit and 0.05 for more than 100
   * characters, clamped.
   */
  function Confidence(claim: string): (c: real)
    ensures 0.1 <= c <= 0.95
  {
    Clamp(0.5 + 0.1 * MatchCount(Reliable, claim) as real - 0.15 * MatchCount(Unreliable, claim) as real
          + (if HasDigit(claim) then 0.05 else 0.0) + (if |claim| > 100 then 0.05 else 0.0))
  }

  /** The clamp changes nothing inside [0.1, 0.95] and maps everything else onto its nearer end. */
  lemma ClampRange(x: real)
    ensures 0.1 <= x <= 0.95 ==> Clamp(x) == x
    ensures x > 0.95 ==> Clamp(x) == 0.95
    ensures x < 0.1 ==> Clamp(x) == 0.1
  {
  }

  /** A short claim with no pattern and no digit keeps the base confidence. */
  lemma PlainClaim(claim: string)
    requires MatchCount(Reliable, claim) == 0 && MatchCount(Unreliable, claim) == 0
    requires !HasDigit(claim) && |claim| <= 100
    ensures Confidence(claim) == 0.5
  {
  }

  /** A claim with k hedges and nothing else scores 0.5 - 0.15k, floored at 0.1. */
  lemma HedgedClaim(claim: string)
    requires MatchCount(Reliable, claim) == 0 && !HasDigit(claim) && |claim| <= 100
    ensures var k := MatchCount(Unreliable, claim);
      Confidence(claim) == if k >= 3 then 0.1 else 0.5 - 0.15 * k as real
  {
  }

  /** _calculate_confidence: the two pattern loops, then the digit and length bonuses. */
  method CalculateConfidence(claim: string) returns (confidence: real)
    ensures confidence == Confidence(claim)
  {
    confidence := 0.5;
    for i := 0 to |Reliable|
      invariant confidence == 0.5 + 0.1 * MatchCount(Reliable[..i], claim) as real
    {
      assert Reliable[..i + 1][..i] == Reliable[..i];
      if Matches(Reliable[i], claim) {
        confidence := confidence + 0.1;
      }
    }
    assert Reliable[..|Reliable|] == Reliable;
    ghost var reliable := confidence;
    for i := 0 to |Unreliable|
      invariant confidence == reliable - 0.15 * MatchCount(Unreliable[..i], claim) as real
    {
      assert Unreliable[..i + 1][..i] == Unreliable[..i];
      if Matches(Unreliable[i], claim) {
        confidence := confidence - 0.15;
      }
    }
    assert Unreliable[..|Unreliable|] == Unreliable;
    if HasDigit(claim) {
      confidence := confidence + 0.05;
    }
    if |claim| > 100 {
      confidence := confidence + 0.05;
    }
    confidence := Clamp(confidence);
  }

  datatype Status = Verified | LikelyTrue | Uncertain | Questionable
  {
    function Name(): string
    {
      match this
      case Verified => "verified"
      case LikelyTrue => "likely_true"
      case Uncertain => "uncertain"
      case Questionable => "questionable"
    }

    /** 3 for verified down to 0 for questionable. */
    function Rank(): nat
    {
      match this
      case Verified => 3
      case LikelyTrue => 2
      case Uncertain => 1
      case Questionable => 0
    }
  }

  /** _determine_status: the bands at 0.8, 0.6 and 0.4. */
  function DetermineStatus(confidence: real): Status
  {
    if confidence >= 0.8 then Verified
    else if confidence >= 0.6 then LikelyTrue
    else if confidence >= 0.4 then Uncertain
    else Questionable
  }

  /** A higher confidence never gets a lower status. */
  lemma StatusMonotone(a: real, b: real)
    requires a <= b
    ensures DetermineStatus(a).Rank() <= DetermineStatus(b).Rank()
  {
  }

  /** Each status covers exactly its band. */
  lemma StatusBands(c: real)
    ensures DetermineStatus(c) == Verified <==> c >= 0.8
    ensures DetermineStatus(c) == LikelyTrue <==> 0.6 <= c < 0.8
    ensures DetermineStatus(c) == Uncertain <==> 0.4 <= c < 0.6
    ensures DetermineStatus(c) == Questionable <==> c < 0.4
  {
  }

  /** The confidence as the one-decimal percent format renders it, for the multiples of 0.05 the scorer produces. */
  function Percent(confidence: real): string
  {
    var tenths := (confidence * 1000.0 + 0.5).Floor;
    var t: nat := if tenths < 0 then 0 else tenths;
    NatDigits(t / 10) + "." + NatDigits(t % 10) + "%"
  }

  /** _generate_explanation: one sentence per status with the confidence as a percentage. */
  function Explanation(status: Status, confidence: real): string
  {
    var p := Percent(confidence);
    match status
    case Verified => "该声明包含具体数据和可靠来源，置信度较高(" + p + ")。建议进一步核实具体数据来源。"
    case LikelyTrue => "该声明具有一定可信度(" + p + ")，但建议核实相关数据和来源。"
    case Uncertain => "该声明的可信度一般(" + p + ")，缺乏充分的证据支持，需要更多验证。"
    case Questionable => "该声明的可信度较低(" + p + ")，可能存在不准确信息，建议谨慎使用。"
  }

  const MockSources: seq<string> := ["权威机构研究报告", "官方统计数据", "学术期刊文献", "新闻媒体报道"]

  /** _get_recommendations: two pieces of advice per status. */
  function Recommendations(status: Status): (r: seq<string>)
    ensures |r| == 2
  {
    match status
    case Verified => ["可以引用该信息，但建议标注具体来源", "如有可能，提供原始数据链接"]
    case LikelyTrue => ["建议进一步验证数据来源", "可以使用，但应注明信息来源的局限性"]
    case Uncertain => ["需要寻找更多可靠来源进行验证", "如果使用，应明确标注信息的不确定性"]
    case Questionable => ["建议不要使用该信息", "如必须使用，应添加免责声明"]
  }

  datatype ClaimResult = ClaimResult(claim: string, status: Status, confidence: real, explanation: string,
                                     sources: seq<string>, recommendations: seq<string>)

  /** _verify_claim. */
  function VerifyClaim(claim: string): (r: ClaimResult)
    ensures r.claim == claim && r.confidence == Confidence(claim)
    ensures r.status == DetermineStatus(r.confidence) && r.recommendations == Recommendations(r.status)
    ensures r.sources == MockSources[..3] && |r.sources| == 3
    ensures r.explanation == Explanation(r.status, r.confidence)
  {
    var c := Confidence(claim);
    var s := DetermineStatus(c);
    ClaimResult(claim, s, c, Explanation(s, c), MockSources[..3], Recommendations(s))
  }

  /** How many results have the status. */
  function CountStatus(results: seq<ClaimResult>, s: Status): (n: nat)
    ensures n <= |results|
  {
    if results == [] then 0
    else CountStatus(results[..|results| - 1], s) + (if results[|results| - 1].status == s then 1 else 0)
  }

  function SumConfidence(results: seq<ClaimResult>): real
  {
    if results == [] then 0.0 else SumConfidence(results[..|results| - 1]) + results[|results| - 1].confidence
  }

  datatype Reliability = High | Medium | Low

  datatype Summary = Summary(total: nat, verified: nat, likelyTrue: nat, uncertain: nat, questionable: nat,
                             averageConfidence: real, reliability: Reliability)

  /** _generate_summary. */
  function GenerateSummary(results: seq<ClaimResult>): Summary
  {
    var avg := if |results| > 0 then SumConfidence(results) / |results| as real else 0.0;
    Summary(|results|, CountStatus(results, Verified), CountStatus(results, LikelyTrue),
            CountStatus(results, Uncertain), CountStatus(results, Questionable), Round2(avg),
            if avg >= 0.7 then High else if avg >= 0.5 then Medium else Low)
  }

  /** The four status counts add up to the number of results. */
  lemma {:induction false} CountsAddUp(results: seq<ClaimResult>)
    ensures CountStatus(results, Verified) + CountStatus(results, LikelyTrue) +
      CountStatus(results, Uncertain) + CountStatus(results, Questionable) == |results|
  {
    if results != [] {
      CountsAddUp(results[..|results| - 1]);
    }
  }

  /** Every result's confidence lies in [0.1, 0.95], so their sum lies between n/10 and 0.95n. */
  lemma {:induction false} SumBounds(results: seq<ClaimResult>)
    requires forall k :: 0 <= k < |results| ==> 0.1 <= results[k].confidence <= 0.95
    ensures 0.1 * |results| as real <= SumConfidence(results) <= 0.95 * |results| as real
  {
    if results != [] {
      SumBounds(results[..|results| - 1]);
    }
  }

  /** The average of n values in [0.1, 0.95] stays in that range. */
  lemma AverageRange(sum: real, n: nat)
    requires n > 0 && 0.1 * n as real <= sum <= 0.95 * n as real
    ensures 0.1 <= sum / n as real <= 0.95
  {
    var avg := sum / n as real;
    assert avg * n as real == sum;
  }

  /**
   * The summary counts every result once; with no results the average is
   * 0 and the reliability low.
   */
  lemma SummaryCounts(results: seq<ClaimResult>)
    ensures var s := GenerateSummary(results);
      s.total == |results| && s.verified + s.likelyTrue + s.uncertain + s.questionable == s.total
    ensures results == [] ==> GenerateSummary(results).averageConfidence == 0.0 && GenerateSummary(results).reliability == Low
  {
    CountsAddUp(results);
    if results == [] {
      assert Round2(0.0) == 0.0;
    }
  }

  /** The unrounded average of scored claims lies in [0.1, 0.95]. */
  lemma AverageBounds(results: seq<ClaimResult>)
    requires forall k :: 0 <= k < |results| ==> results[k].confidence == Confidence(results[k].claim)
    ensures results != [] ==> 0.1 <= SumConfidence(results) / |results| as real <= 0.95
  {
    assert forall k :: 0 <= k < |results| ==> 0.1 <= results[k].confidence <= 0.95;
    SumBounds(results);
    if results != [] {
      AverageRange(SumConfidence(results), |results|);
    }
  }

  /** The tool's reply: the results with their summary, or an error message. */
  datatype Reply = Checked(results: seq<ClaimResult>, summary: Summary) | Error(message: string) | Failed

  /** The results for the first five claims, or None at the first one that is not a string. */
  function VerifyAll(claims: seq<Value>): (r: Option<seq<ClaimResult>>)
    ensures r.Some? <==> forall k :: 0 <= k < |claims| ==> claims[k].VStr?
    ensures r.Some? ==> |r.value| == |claims| && forall k :: 0 <= k < |claims| ==> r.value[k] == VerifyClaim(claims[k].s)
  {
    if claims == [] then Some([])
    else
      var rest := VerifyAll(claims[1..]);
      assert forall k :: 1 <= k < |claims| ==> claims[k] == claims[1..][k - 1];
      if !claims[0].VStr? || rest.None? then None
      else Some([VerifyClaim(claims[0].s)] + rest.value)
  }

  /**
   * execute: a missing or falsy "claims" is refused; one string is wrapped
   * in a list; the first five claims are verified in order. Anything else
   * (a number, a dict, a claim that is not text) makes the search raise,
   * which the tool reports as a failure.
   */
  function Execute(arguments: map<string, Value>): (r: Reply)
  {
    var claims := if "claims" in arguments then arguments["claims"] else VList([]);
    if !Truthy(claims) then Error("Claims parameter is required")
    else
      var list := if claims.VStr? then [claims] else if claims.VList? then claims.items else [];
      if !claims.VStr? && !claims.VList? then Failed
      else
        var first := PyStr.Take(list, 5);
        match VerifyAll(first)
        case None => Failed
        case Some(results) => Checked(results, GenerateSummary(results))
  }

  /** A missing or falsy "claims" argument is refused. */
  lemma ExecuteRefuses(arguments: map<string, Value>)
    ensures "claims" !in arguments ==> Execute(arguments) == Error("Claims parameter is required")
    ensures "claims" in arguments && !Truthy(arguments["claims"]) ==> Execute(arguments) == Error("Claims parameter is required")
  {
  }

  /** A single non-empty string is checked as a one-claim list. */
  lemma ExecuteOneClaim(arguments: map<string, Value>, claim: string)
    requires "claims" in arguments && arguments["claims"] == VStr(claim) && claim != []
    ensures Execute(arguments) == Checked([VerifyClaim(claim)], GenerateSummary([VerifyClaim(claim)]))
  {
    assert PyStr.Take([VStr(claim)], 5) == [VStr(claim)];
  }

  /**
   * For a non-empty list, the reply is a check exactly when the first five
   * (or fewer) items are all text, and it then holds one result per item,
   * in order.
   */
  lemma ExecuteList(arguments: map<string, Value>, items: seq<Value>)
    requires "claims" in arguments && arguments["claims"] == VList(items) && items != []
    ensures var n := if |items| < 5 then |items| else 5;
      && (Execute(arguments).Checked? <==> forall k :: 0 <= k < n ==> items[k].VStr?)
      && (Execute(arguments).Failed? <==> !Execute(arguments).Checked?)
      && (Execute(arguments).Checked? ==>
            |Execute(arguments).results| == n &&
            forall k :: 0 <= k < n ==> Execute(arguments).results[k] == VerifyClaim(items[k].s))
  {
    var first := PyStr.Take(items, 5);
    assert forall k :: 0 <= k < |first| ==> first[k] == items[k];
  }

  /** Any other truthy value (a number, a dict, true) makes the check fail. */
  lemma ExecuteOther(arguments: map<string, Value>)
    requires "claims" in arguments && Truthy(arguments["claims"])
    requires !arguments["claims"].VStr? && !arguments["claims"].VList?
    ensures Execute(arguments) == Failed
  {
  }
}
