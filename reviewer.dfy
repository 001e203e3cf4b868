/**
 * The reviewer agent's scoring: the weighted mean of the dimension scores
 * the model returns, over the configured criteria it scored, rounded to
 * two places; the verbal band of a score; the acceptance test against the
 * quality threshold; and the fixed review used when the model's reply is
 * not JSON. The model call itself is not part of this model: the reply
 * text and the JSON parser are parameters.
 */
module Reviewer {
  import opened Wrappers
  import opened Values
  import JsonReply
  import PyStr

  /** One entry of evaluation_criteria: its name and weight, in the configuration's order. */
  datatype Criterion = Criterion(name: string, weight: real)

  /** A dimension score as a number (bool counts as 0/1); anything else makes score * weight fail. */
  function Score(v: Value): Option<real>
  {
    match v
    case VInt(i) => Some(i as real)
    case VFloat(f) => Some(f)
    case VBool(b) => Some(if b then 1.0 else 0.0)
    case _ => None
  }

  /** (Σ score×weight, Σ weight) over the criteria the dimensions score, in order; TypeError at a non-number. */
  function Totals(criteria: seq<Criterion>, dims: map<string, Value>): Result<(real, real)>
  {
    if criteria == [] then Ok((0.0, 0.0))
    else match Totals(criteria[..|criteria| - 1], dims)
      case Err(e) => Err(e)
      case Ok(acc) => Add(acc, criteria[|criteria| - 1], dims)
  }

  /** One step of the loop: a scored criterion adds its weighted score and its weight. */
  function Add(acc: (real, real), c: Criterion, dims: map<string, Value>): Result<(real, real)>
  {
    if c.name !in dims then Ok(acc)
    else match Score(dims[c.name])
      case None => Err(TypeError("unsupported operand type(s) for *"))
      case Some(x) => Ok((acc.0 + Weighted(x, c.weight), acc.1 + c.weight))
  }

  /** The sum over one more criterion is one more step. */
  lemma TotalsStep(criteria: seq<Criterion>, dims: map<string, Value>, i: nat)
    requires i < |criteria| && Totals(criteria[..i], dims).Ok?
    ensures Totals(criteria[..i + 1], dims) == Add(Totals(criteria[..i], dims).value, criteria[i], dims)
  {
    assert criteria[..i + 1][..i] == criteria[..i];
  }

  /** score * weight. */
  function Weighted(score: real, weight: real): real
  {
    score * weight
  }

  lemma AddScored(acc: (real, real), c: Criterion, dims: map<string, Value>)
    requires c.name in dims && Score(dims[c.name]).Some?
    ensures Add(acc, c, dims) == Ok((acc.0 + Weighted(Score(dims[c.name]).value, c.weight), acc.1 + c.weight))
  {
  }

  /** total_score / total_weight, or 0.0 when the weight is not positive. */
  function WeightedMean(t: (real, real)): real
  {
    if t.1 > 0.0 then t.0 / t.1 else 0.0
  }

  /**
   * review_data.get("dimensions", {}) as the loop reads it: a missing entry
   * is no scores and a dict is its entries. For a string, `criterion in`
   * is a substring test and for a list a membership test; the first
   * criterion found is then indexed by a string, which raises TypeError,
   * and when none is found nothing is scored. Any other value raises
   * TypeError at the first criterion, as it is not iterable.
   */
  function Dimensions(criteria: seq<Criterion>, data: map<string, Value>): (r: Result<map<string, Value>>)
    ensures r.Ok? ==> "dimensions" !in data || data["dimensions"].VDict? || forall k :: 0 <= k < |criteria| ==> criteria[k].name !in r.value
    ensures r.Err? ==> r.error.TypeError? && criteria != []
  {
    if "dimensions" !in data then Ok(map[])
    else
      match data["dimensions"]
      case VDict(entries) => Ok(entries)
      case VStr(t) =>
        if exists k :: 0 <= k < |criteria| && PyStr.Contains(t, criteria[k].name) then Err(TypeError("string indices must be integers"))
        else Ok(map[])
      case VList(items) =>
        if exists k :: 0 <= k < |criteria| && VStr(criteria[k].name) in items then
          Err(TypeError("list indices must be integers or slices, not str"))
        else Ok(map[])
      case other =>
        if criteria == [] then Ok(map[]) else Err(TypeError("argument of type '" + TypeName(other) + "' is not iterable"))
  }

  /** type(v).__name__ for the values that are not containers. */
  function TypeName(v: Value): string
  {
    match v
    case VNone => "NoneType"
    case VBool(_) => "bool"
    case VInt(_) => "int"
    case VFloat(_) => "float"
    case VStr(_) => "str"
    case VList(_) => "list"
    case VDict(_) => "dict"
  }

  /**
   * A "dimensions" entry that is not a dict: the score is 0.0 when no
   * criterion is found in it (a substring of a string, an item of a list;
   * never for any other value unless there are no criteria), and
   * _calculate_total_score raises TypeError otherwise.
   */
  lemma NonDictDimensions(criteria: seq<Criterion>, data: map<string, Value>)
    requires "dimensions" in data && !data["dimensions"].VDict?
    ensures var found := exists k :: 0 <= k < |criteria| && Reaches(data["dimensions"], criteria[k].name);
      && (found ==> TotalScore(criteria, data).Err? && TotalScore(criteria, data).error.TypeError?)
      && (!found ==> TotalScore(criteria, data) == Ok(0.0))
  {
    var v := data["dimensions"];
    var found := exists k :: 0 <= k < |criteria| && Reaches(v, criteria[k].name);
    if !found {
      assert !v.VStr? && !v.VList? ==> criteria == [] by {
        if criteria != [] {
          assert Reaches(v, criteria[0].name) ==> found;
        }
      }
      ZeroTotals(criteria, map[]);
      assert Round2(0.0) == 0.0;
    }
  }

  /**
   * Whether the loop gets past `criterion in dimensions` to the indexing,
   * for a value that is not a dict: a substring of a string, an item of a
   * list; any other value raises at the test itself.
   */
  predicate Reaches(v: Value, name: string)
  {
    if v.VStr? then PyStr.Contains(v.s, name) else if v.VList? then VStr(name) in v.items else true
  }

  /** With nothing scored the sums stay zero. */
  lemma {:induction false} ZeroTotals(criteria: seq<Criterion>, dims: map<string, Value>)
    requires forall k :: 0 <= k < |criteria| ==> criteria[k].name !in dims
    ensures Totals(criteria, dims) == Ok((0.0, 0.0))
  {
    if criteria != [] {
      var init := criteria[..|criteria| - 1];
      assert forall k :: 0 <= k < |init| ==> init[k] == criteria[k];
      ZeroTotals(init, dims);
    }
  }

  /** _calculate_total_score as a value. */
  function TotalScore(criteria: seq<Criterion>, data: map<string, Value>): Result<real>
  {
    var dims :- Dimensions(criteria, data);
    var t :- Totals(criteria, dims);
    Ok(Round2(WeightedMean(t)))
  }

  /** Once a prefix of the criteria fails, the whole sum fails the same way. */
  lemma {:induction false} TotalsErrSticks(criteria: seq<Criterion>, dims: map<string, Value>, k: nat)
    requires k <= |criteria| && Totals(criteria[..k], dims).Err?
    ensures Totals(criteria, dims) == Totals(criteria[..k], dims)
    decreases |criteria| - k
  {
    if k < |criteria| {
      assert criteria[..k + 1][..k] == criteria[..k];
      TotalsErrSticks(criteria, dims, k + 1);
    } else {
      assert criteria[..k] == criteria;
    }
  }

  /** Only the criteria's own names are read: dimensions that are not criteria make no difference. */
  lemma {:induction false} TotalsIgnoresOthers(criteria: seq<Criterion>, dims: map<string, Value>, other: map<string, Value>)
    requires forall k :: 0 <= k < |criteria| ==>
      (criteria[k].name in dims <==> criteria[k].name in other) &&
      (criteria[k].name in dims ==> dims[criteria[k].name] == other[criteria[k].name])
    ensures Totals(criteria, dims) == Totals(criteria, other)
  {
    if criteria != [] {
      var init := criteria[..|criteria| - 1];
      assert forall k :: 0 <= k < |init| ==> init[k] == criteria[k];
      TotalsIgnoresOthers(init, dims, other);
      AddReadsOwnName(criteria[|criteria| - 1], dims, other);
    }
  }

  lemma AddReadsOwnName(c: Criterion, dims: map<string, Value>, other: map<string, Value>)
    requires c.name in dims <==> c.name in other
    requires c.name in dims ==> dims[c.name] == other[c.name]
    ensures forall acc :: Add(acc, c, dims) == Add(acc, c, other)
  {
  }

  /** Some criterion has an entry in the dimensions. */
  predicate AnyScored(criteria: seq<Criterion>, dims: map<string, Value>)
  {
    criteria != [] && (AnyScored(criteria[..|criteria| - 1], dims) || criteria[|criteria| - 1].name in dims)
  }

  lemma {:induction false} AnyScoredExists(criteria: seq<Criterion>, dims: map<string, Value>)
    ensures AnyScored(criteria, dims) <==> exists k :: 0 <= k < |criteria| && criteria[k].name in dims
  {
    if criteria != [] {
      var init := criteria[..|criteria| - 1];
      AnyScoredExists(init, dims);
      assert forall k :: 0 <= k < |init| ==> init[k] == criteria[k];
      if exists k :: 0 <= k < |criteria| && criteria[k].name in dims {
        var k :| 0 <= k < |criteria| && criteria[k].name in dims;
        assert k < |init| ==> init[k].name in dims;
      }
    }
  }

  lemma ScaleBounds(lo: real, x: real, hi: real, w: real)
    requires lo <= x <= hi && w > 0.0
    ensures lo * w <= x * w <= hi * w
  {
  }

  /**
   * With positive weights and every scored criterion scored by a number in
   * [lo, hi], the sums succeed, the weight is positive exactly when some
   * criterion is scored, and the weighted score sum lies between lo and hi
   * times the weight.
   */
  lemma {:induction false} TotalsBounds(criteria: seq<Criterion>, dims: map<string, Value>, lo: real, hi: real)
    requires forall k :: 0 <= k < |criteria| ==> criteria[k].weight > 0.0
    requires forall k :: 0 <= k < |criteria| && criteria[k].name in dims ==>
      Score(dims[criteria[k].name]).Some? && lo <= Score(dims[criteria[k].name]).value <= hi
    ensures Totals(criteria, dims).Ok?
    ensures Bounded(Totals(criteria, dims).value, lo, hi)
    ensures Totals(criteria, dims).value.1 > 0.0 <==> AnyScored(criteria, dims)
  {
    if criteria != [] {
      var init := criteria[..|criteria| - 1];
      assert forall k :: 0 <= k < |init| ==> init[k] == criteria[k];
      TotalsBounds(init, dims, lo, hi);
      var c := criteria[|criteria| - 1];
      var t0 := Totals(init, dims).value;
      assert Totals(criteria, dims) == Add(t0, c, dims);
      AddBounds(t0, c, dims, lo, hi);
      assert AnyScored(criteria, dims) <==> AnyScored(init, dims) || c.name in dims;
    }
  }

  /** A non-negative weight with a weighted score sum between lo and hi times it. */
  predicate Bounded(t: (real, real), lo: real, hi: real)
  {
    t.1 >= 0.0 && lo * t.1 <= t.0 <= hi * t.1
  }

  lemma AddBounds(acc: (real, real), c: Criterion, dims: map<string, Value>, lo: real, hi: real)
    requires c.weight > 0.0 && Bounded(acc, lo, hi)
    requires c.name in dims ==> Score(dims[c.name]).Some? && lo <= Score(dims[c.name]).value <= hi
    ensures Add(acc, c, dims).Ok? && Bounded(Add(acc, c, dims).value, lo, hi)
    ensures Add(acc, c, dims).value.1 > 0.0 <==> acc.1 > 0.0 || c.name in dims
  {
    if c.name in dims {
      var x := Score(dims[c.name]).value;
      ScaleBounds(lo, x, hi, c.weight);
      assert lo * (acc.1 + c.weight) == lo * acc.1 + lo * c.weight;
      assert hi * (acc.1 + c.weight) == hi * acc.1 + hi * c.weight;
    }
  }

  /** A positive weight keeps the weighted mean between the bounds of the scores. */
  lemma MeanBounds(t: (real, real), lo: real, hi: real)
    requires t.1 > 0.0 && Bounded(t, lo, hi)
    ensures lo <= WeightedMean(t) <= hi
  {
    var m := t.0 / t.1;
    assert m * t.1 == t.0;
  }

  /**
   * With positive weights and scores in [lo, hi], the total is 0.0 when no
   * criterion is scored, and otherwise lies in [lo, hi] up to the rounding
   * to hundredths.
   */
  lemma TotalScoreBounds(criteria: seq<Criterion>, data: map<string, Value>, lo: real, hi: real)
    requires Dimensions(criteria, data).Ok?
    requires forall k :: 0 <= k < |criteria| ==> criteria[k].weight > 0.0
    requires forall k :: 0 <= k < |criteria| && criteria[k].name in Dimensions(criteria, data).value ==>
      Score(Dimensions(criteria, data).value[criteria[k].name]).Some? &&
      lo <= Score(Dimensions(criteria, data).value[criteria[k].name]).value <= hi
    ensures TotalScore(criteria, data).Ok?
    ensures (forall k :: 0 <= k < |criteria| ==> criteria[k].name !in Dimensions(criteria, data).value) ==>
      TotalScore(criteria, data).value == 0.0
    ensures (exists k :: 0 <= k < |criteria| && criteria[k].name in Dimensions(criteria, data).value) ==>
      lo - 0.005 <= TotalScore(criteria, data).value <= hi + 0.005
  {
    var dims := Dimensions(criteria, data).value;
    TotalsBounds(criteria, dims, lo, hi);
    AnyScoredExists(criteria, dims);
    var t := Totals(criteria, dims).value;
    if t.1 > 0.0 {
      MeanBounds(t, lo, hi);
    } else {
      assert Round2(0.0) == 0.0;
    }
  }

  /** The six dimensions the prompt asks for. */
  const Dimensions6: seq<string> := ["factual_accuracy", "originality", "readability", "platform_compliance", "logical_clarity", "engagement"]

  /** The review _parse_json_response substitutes for a reply that is not JSON. */
  function Fallback(): Value
  {
    VDict(map[
      "dimensions" := VDict(FallbackScores()),
      "feedback" := VStr("无法解析评审结果"),
      "suggestions" := VList([VStr("请检查内容生成质量")]),
      "strengths" := VList([]),
      "weaknesses" := VList([VStr("评审过程出现错误")]),
      "risks" := VList([])])
  }

  /** Each of the six dimensions scored 5. */
  function FallbackScores(): (dims: map<string, Value>)
    ensures forall name :: name in dims <==> name in Dimensions6
    ensures forall name :: name in dims ==> dims[name] == VInt(5)
  {
    map name | name in Dimensions6 :: VInt(5)
  }

  /**
   * With positive weights the fallback scores 5.0 when some criterion is
   * one of the six dimensions, and 0.0 otherwise.
   */
  lemma FallbackScore(criteria: seq<Criterion>)
    requires forall k :: 0 <= k < |criteria| ==> criteria[k].weight > 0.0
    ensures Fallback().VDict? && Dimensions(criteria, Fallback().entries) == Ok(FallbackScores())
    ensures TotalScore(criteria, Fallback().entries) ==
      Ok(if exists k :: 0 <= k < |criteria| && criteria[k].name in Dimensions6 then 5.0 else 0.0)
  {
    var dims := FallbackScores();
    assert Dimensions(criteria, Fallback().entries) == Ok(dims);
    TotalsBounds(criteria, dims, 5.0, 5.0);
    AnyScoredExists(criteria, dims);
    var t := Totals(criteria, dims).value;
    if t.1 > 0.0 {
      MeanBounds(t, 5.0, 5.0);
      assert Round2(5.0) == 5.0;
    } else {
      assert Round2(0.0) == 0.0;
    }
  }

  /** _parse_json_response: the cleaned reply parsed, or the fallback when it is not JSON. */
  function ParseJsonResponse(reply: string, parse: string -> Option<Value>): Value
  {
    match parse(JsonReply.Clean(JsonReply.Unfence(reply)))
    case Some(v) => v
    case None => Fallback()
  }

  datatype ReviewResult = ReviewResult(score: real, dimensions: Value, feedback: Value, suggestions: Value,
                                       overallAssessment: string)

  function Get(data: map<string, Value>, key: string, default: Value): Value
  {
    if key in data then data[key] else default
  }

  class ReviewerAgent {
    const criteria: seq<Criterion>
    const qualityThreshold: real
    /** reviewer.excellent_threshold, when the configuration has one. */
    const excellentThreshold: Option<real>

    constructor(criteria: seq<Criterion>, qualityThreshold: real, excellentThreshold: Option<real>)
      ensures this.criteria == criteria && this.qualityThreshold == qualityThreshold
      ensures this.excellentThreshold == excellentThreshold
    {
      this.criteria := criteria;
      this.qualityThreshold := qualityThreshold;
      this.excellentThreshold := excellentThreshold;
    }

    /** _calculate_total_score: the accumulating loop over the criteria. */
    method CalculateTotalScore(data: map<string, Value>) returns (r: Result<real>)
      ensures r == TotalScore(criteria, data)
    {
      var dims :- Dimensions(criteria, data);
      var totalScore := 0.0;
      var totalWeight := 0.0;
      for i := 0 to |criteria|
        invariant Totals(criteria[..i], dims) == Ok((totalScore, totalWeight))
      {
        TotalsStep(criteria, dims, i);
        var c := criteria[i];
        if c.name in dims {
          var s := Score(dims[c.name]);
          if s.None? {
            TotalsErrSticks(criteria, dims, i + 1);
            return Err(TypeError("unsupported operand type(s) for *"));
          }
          AddScored((totalScore, totalWeight), c, dims);
          totalScore := totalScore + Weighted(s.value, c.weight);
          totalWeight := totalWeight + c.weight;
        }
      }
      assert criteria[..|criteria|] == criteria;
      r := Ok(Round2(if totalWeight > 0.0 then totalScore / totalWeight else 0.0));
    }

    function ExcellentThreshold(): real
    {
      excellentThreshold.GetOr(8.5)
    }

    /** _get_overall_assessment: the bands checked from the top. */
    function OverallAssessment(score: real): string
    {
      if score >= ExcellentThreshold() then "优秀"
      else if score >= qualityThreshold then "良好"
      else if score >= 5.0 then "一般"
      else "需要改进"
    }

    /** Each band holds exactly the scores that pass every higher test and fail none of its own. */
    lemma AssessmentBands(score: real)
      ensures OverallAssessment(score) == "优秀" <==> score >= ExcellentThreshold()
      ensures OverallAssessment(score) == "良好" <==> score < ExcellentThreshold() && score >= qualityThreshold
      ensures OverallAssessment(score) == "一般" <==> score < ExcellentThreshold() && score < qualityThreshold && score >= 5.0
      ensures OverallAssessment(score) == "需要改进" <==> score < ExcellentThreshold() && score < qualityThreshold && score < 5.0
    {
    }

    predicate IsQualityAcceptable(review: ReviewResult)
    {
      review.score >= qualityThreshold
    }

    /** When the excellent mark is not below the threshold, acceptable reviews are exactly those rated 优秀 or 良好. */
    lemma AcceptableIsGood(review: ReviewResult)
      requires ExcellentThreshold() >= qualityThreshold
      ensures IsQualityAcceptable(review) <==> OverallAssessment(review.score) in {"优秀", "良好"}
    {
    }

    /** review_content after the model call: parse, score, and assemble the result; a non-dict reply raises. */
    function Review(reply: string, parse: string -> Option<Value>): Result<ReviewResult>
    {
      var data := ParseJsonResponse(reply, parse);
      if !data.VDict? then Err(AttributeError("object has no attribute 'get'"))
      else
        var score :- TotalScore(criteria, data.entries);
        Ok(ReviewResult(score, Get(data.entries, "dimensions", VDict(map[])), Get(data.entries, "feedback", VStr("")),
                        Get(data.entries, "suggestions", VList([])), OverallAssessment(score)))
    }

    method ReviewContent(reply: string, parse: string -> Option<Value>) returns (r: Result<ReviewResult>)
      ensures r == Review(reply, parse)
    {
      var data := ParseJsonResponse(reply, parse);
      if !data.VDict? {
        return Err(AttributeError("object has no attribute 'get'"));
      }
      var score :- CalculateTotalScore(data.entries);
      r := Ok(ReviewResult(score, Get(data.entries, "dimensions", VDict(map[])), Get(data.entries, "feedback", VStr("")),
                           Get(data.entries, "suggestions", VList([])), OverallAssessment(score)));
    }

    /**
     * A reply that does not parse is reviewed as the fallback: with positive
     * weights it scores 5.0 when some criterion is one of the six dimensions
     * and 0.0 otherwise, with the fallback's feedback.
     */
    lemma FallbackReview(reply: string, parse: string -> Option<Value>)
      requires parse(JsonReply.Clean(JsonReply.Unfence(reply))).None?
      requires forall k :: 0 <= k < |criteria| ==> criteria[k].weight > 0.0
      ensures Review(reply, parse).Ok?
      ensures Review(reply, parse).value.score ==
        if exists k :: 0 <= k < |criteria| && criteria[k].name in Dimensions6 then 5.0 else 0.0
      ensures Review(reply, parse).value.feedback == VStr("无法解析评审结果")
      ensures Review(reply, parse).value.overallAssessment == OverallAssessment(Review(reply, parse).value.score)
    {
      assert ParseJsonResponse(reply, parse) == Fallback();
      FallbackScore(criteria);
    }
  }
}
