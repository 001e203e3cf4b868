/**
 * The content synchronizer: up to three write-and-review attempts per
 * request, keeping the best-scored article, stopping as soon as a review
 * meets the quality threshold, and reporting success, timeout or failure.
 * The writer agent and the reviewing model are oracles: for each attempt
 * the model is given what the writer returned (or that it raised) and the
 * reviewing model's reply text (or that the call raised); the reply goes
 * through the reviewer's own parsing and scoring.
 */
module Synchronizer {
  import opened Wrappers
  import opened Values
  import Reviewer

  datatype ContentRequest = ContentRequest(theme: string, requirements: string, materials: seq<string>,
                                           targetAudience: Option<string>, contentType: string,
                                           minWordCount: int, maxIterations: int)

  /** The writer's article; every field, sources included, is required by its constructor. */
  datatype Draft = Draft(title: string, content: string, summary: string, hashtags: seq<string>, wordCount: int,
                         sources: seq<string>)

  /** One attempt's two agent calls: the writer's article or its exception, the reviewing model's reply or its exception. */
  datatype Attempt = Attempt(article: Result<Draft>, reply: Result<string>)

  /** An attempt either raised or produced an article with its review. */
  type Outcome = Result<(Draft, Reviewer.ReviewResult)>

  datatype Status = Success | Failed | Timeout
  {
    function Name(): string
    {
      match this
      case Success => "success"
      case Failed => "failed"
      case Timeout => "timeout"
    }
  }

  datatype ContentOutput = ContentOutput(article: Draft, review: Reviewer.ReviewResult, iterations: int,
                                         generationTime: real, finalScore: real, status: Status)

  /** The loop's variables: the iterations run, the best article with its review, the best score, and whether it broke out. */
  datatype Progress = Progress(iterations: nat, best: Option<(Draft, Reviewer.ReviewResult)>, bestScore: real, stopped: bool)

  /** A review that meets the quality threshold ends the loop. */
  predicate Accepted(o: Outcome, threshold: real)
  {
    o.Ok? && o.value.1.score >= threshold
  }

  /** One iteration: an exception only counts; a review replaces the best on a strictly higher score. */
  function Step(p: Progress, o: Outcome, threshold: real): Progress
  {
    match o
    case Err(_) => Progress(p.iterations + 1, p.best, p.bestScore, false)
    case Ok(pair) =>
      if pair.1.score > p.bestScore then Progress(p.iterations + 1, Some(pair), pair.1.score, pair.1.score >= threshold)
      else Progress(p.iterations + 1, p.best, p.bestScore, pair.1.score >= threshold)
  }

  /** The loop over at most n attempts, with attempt k's outcome o(k). */
  function Run(o: nat -> Outcome, threshold: real, n: nat): Progress
  {
    if n == 0 then Progress(0, None, 0.0, false)
    else
      var p := Run(o, threshold, n - 1);
      if p.stopped then p else Step(p, o(n - 1), threshold)
  }

  /** Once the loop has broken out, later bounds change nothing. */
  lemma {:induction false} RunStops(o: nat -> Outcome, threshold: real, m: nat, n: nat)
    requires m <= n && Run(o, threshold, m).stopped
    ensures Run(o, threshold, n) == Run(o, threshold, m)
    decreases n - m
  {
    if m < n {
      RunStops(o, threshold, m, n - 1);
    }
  }

  /**
   * The loop runs until the first accepted review or the bound: every
   * attempt before the last one run fell short (or raised), it broke out
   * exactly when some attempt within the bound was accepted, and then the
   * last attempt run is that one.
   */
  lemma {:induction false} RunStopping(o: nat -> Outcome, threshold: real, n: nat)
    ensures Run(o, threshold, n).iterations <= n
    ensures forall j :: 0 <= j < Run(o, threshold, n).iterations - 1 ==> !Accepted(o(j), threshold)
    ensures Run(o, threshold, n).stopped ==>
      Run(o, threshold, n).iterations >= 1 && Accepted(o(Run(o, threshold, n).iterations - 1), threshold)
    ensures !Run(o, threshold, n).stopped ==>
      Run(o, threshold, n).iterations == n && forall j :: 0 <= j < n ==> !Accepted(o(j), threshold)
  {
    if n > 0 {
      RunStopping(o, threshold, n - 1);
    }
  }

  /**
   * The best score is never negative and is at least every score reviewed
   * in the attempts run; it is positive exactly when an article was kept,
   * and zero (with none kept) otherwise.
   */
  lemma {:induction false} RunBest(o: nat -> Outcome, threshold: real, n: nat)
    ensures Run(o, threshold, n).bestScore >= 0.0
    ensures forall j :: 0 <= j < Run(o, threshold, n).iterations && o(j).Ok? ==> o(j).value.1.score <= Run(o, threshold, n).bestScore
    ensures Run(o, threshold, n).best.Some? <==> Run(o, threshold, n).bestScore > 0.0
    ensures Run(o, threshold, n).best.Some? ==> Run(o, threshold, n).best.value.1.score == Run(o, threshold, n).bestScore
  {
    if n > 0 {
      RunBest(o, threshold, n - 1);
      RunStopping(o, threshold, n - 1);
    }
  }

  /** The kept article is the earliest of those with the best score: it is one that was reviewed, and every one before it scored lower. */
  lemma {:induction false} RunBestIndex(o: nat -> Outcome, threshold: real, n: nat) returns (k: nat)
    requires Run(o, threshold, n).best.Some?
    ensures k < Run(o, threshold, n).iterations && o(k) == Ok(Run(o, threshold, n).best.value)
    ensures forall j :: 0 <= j < k && o(j).Ok? ==> o(j).value.1.score < Run(o, threshold, n).bestScore
  {
    var p := Run(o, threshold, n - 1);
    var q := Run(o, threshold, n);
    if p.stopped {
      k := RunBestIndex(o, threshold, n - 1);
    } else {
      RunStopping(o, threshold, n - 1);
      assert q == Step(p, o(n - 1), threshold);
      if o(n - 1).Ok? && o(n - 1).value.1.score > p.bestScore {
        RunBest(o, threshold, n - 1);
        k := n - 1;
        assert q.bestScore == o(n - 1).value.1.score && q.best == Some(o(n - 1).value);
      } else {
        assert q.best == p.best && q.bestScore == p.bestScore && q.iterations == p.iterations + 1;
        k := RunBestIndex(o, threshold, n - 1);
      }
    }
  }

  /**
   * The final record: the fallback article when nothing was kept, else the
   * best one with success or timeout against the threshold. This is the
   * corrected finish, whose fallback article is given the empty list of
   * sources its constructor requires; FinishAsWritten is the code as it
   * stands.
   */
  function Finish(p: Progress, qualityThreshold: real, generationTime: real): ContentOutput
  {
    match p.best
    case None => ContentOutput(FailedArticle, FailedReview, p.iterations, generationTime, 0.0, Failed)
    case Some(pair) =>
      ContentOutput(pair.0, pair.1, p.iterations, generationTime, p.bestScore,
                    if p.bestScore >= qualityThreshold then Success else Timeout)
  }

  const FailedArticle: Draft := Draft("内容生成失败", "抱歉，暂时无法生成高质量内容，请稍后重试。", "内容生成过程中遇到技术问题", ["技术问题"], 15, [])
  const FailedReview: Reviewer.ReviewResult :=
    Reviewer.ReviewResult(0.0, VDict(map[]), VStr("内容生成失败"), VList([VStr("请检查系统配置")]), "失败")

  /** The placeholder batch_generate records for a request whose generation raised: no iterations, score 0, failed. */
  const BatchFailed: ContentOutput :=
    ContentOutput(Draft("批量生成失败", "此条内容生成失败", "批量处理中的失败项", ["生成失败"], 8, []),
                  Reviewer.ReviewResult(0.0, VDict(map[]), VStr("批量生成失败"), VList([]), "失败"),
                  0, 0.0, 0.0, Failed)

  /** What constructing either fallback article without its sources raises. */
  const MissingSources: Exc := TypeError("__init__() missing 1 required positional argument: 'sources'")

  /**
   * The finish as written: the fallback article is built without sources,
   * so when nothing was kept the constructor raises; otherwise the record
   * is the corrected one.
   */
  function FinishAsWritten(p: Progress, qualityThreshold: real, generationTime: real): (r: Result<ContentOutput>)
    ensures r.Err? <==> p.best.None?
    ensures r.Err? ==> r.error == MissingSources
    ensures r.Ok? ==> r.value == Finish(p, qualityThreshold, generationTime) && r.value.status != Failed
  {
    if p.best.None? then Err(MissingSources) else Ok(Finish(p, qualityThreshold, generationTime))
  }

  class ContentSynchronizer {
    const reviewer: Reviewer.ReviewerAgent
    const maxIterations: int
    /** reviewer.quality_threshold, read from the same configuration the reviewer agent reads. */
    const qualityThreshold: real

    constructor(criteria: seq<Reviewer.Criterion>, qualityThreshold: real, excellentThreshold: Option<real>)
      ensures maxIterations == 3 && this.qualityThreshold == qualityThreshold
      ensures reviewer.qualityThreshold == qualityThreshold && reviewer.criteria == criteria
    {
      reviewer := new Reviewer.ReviewerAgent(criteria, qualityThreshold, excellentThreshold);
      maxIterations := 3;
      this.qualityThreshold := qualityThreshold;
    }

    /** min(request.max_iterations, self.max_iterations), as a loop bound. */
    function Limit(request: ContentRequest): (n: nat)
      ensures n <= request.maxIterations || n == 0
      ensures n <= maxIterations || n == 0
      ensures n == request.maxIterations || n == maxIterations || n == 0
    {
      var m := if request.maxIterations < maxIterations then request.maxIterations else maxIterations;
      if m < 0 then 0 else m
    }

    /** An attempt's outcome: either agent call raising, or the review of the reply raising, is an exception. */
    function OutcomeOf(a: Attempt, parse: string -> Option<Value>): Outcome
    {
      match a.article
      case Err(e) => Err(e)
      case Ok(d) =>
        match a.reply
        case Err(e) => Err(e)
        case Ok(reply) =>
          match reviewer.Review(reply, parse)
          case Err(e) => Err(e)
          case Ok(review) => Ok((d, review))
    }

    function Outcomes(attempts: nat -> Attempt, parse: string -> Option<Value>): nat -> Outcome
    {
      (k: nat) => OutcomeOf(attempts(k), parse)
    }

    /** generate_content's record: the loop, then the final status. */
    function Generated(request: ContentRequest, attempts: nat -> Attempt, parse: string -> Option<Value>,
                       generationTime: real): ContentOutput
    {
      Finish(Run(Outcomes(attempts, parse), reviewer.qualityThreshold, Limit(request)), qualityThreshold, generationTime)
    }

    /**
     * generate_content as a value. The event-loop clock is a parameter;
     * its raising stands for any exception outside the per-attempt
     * handler, which generate_content re-raises.
     */
    function Generate(request: ContentRequest, attempts: nat -> Attempt, parse: string -> Option<Value>,
                      clock: Result<real>): Result<ContentOutput>
    {
      match clock
      case Err(e) => Err(e)
      case Ok(t) => Ok(Generated(request, attempts, parse, t))
    }

    /**
     * generate_content as written: the outer handler re-raises the
     * TypeError of the fallback article, so a request on which nothing
     * scored above zero raises instead of reporting failure.
     */
    function GenerateAsWritten(request: ContentRequest, attempts: nat -> Attempt, parse: string -> Option<Value>,
                               clock: Result<real>): (r: Result<ContentOutput>)
      ensures r.Ok? <==> Generate(request, attempts, parse, clock).Ok? &&
                         Generate(request, attempts, parse, clock).value.status != Failed
      ensures r.Ok? ==> r == Generate(request, attempts, parse, clock)
    {
      match clock
      case Err(e) => Err(e)
      case Ok(t) => FinishAsWritten(Run(Outcomes(attempts, parse), reviewer.qualityThreshold, Limit(request)), qualityThreshold, t)
    }

    /**
     * batch_generate as written: the placeholder article of its handler is
     * built without sources too, so the first request that raises makes the
     * whole batch raise; otherwise the outputs are those of the requests.
     */
    function BatchAsWritten(requests: seq<ContentRequest>, attempts: nat -> nat -> Attempt, parse: string -> Option<Value>,
                            clocks: nat -> Result<real>): (r: Result<seq<ContentOutput>>)
      ensures r.Ok? <==> forall i :: 0 <= i < |requests| ==> GenerateAsWritten(requests[i], attempts(i), parse, clocks(i)).Ok?
      ensures r.Ok? ==> |r.value| == |requests|
      ensures r.Ok? ==> forall i :: 0 <= i < |requests| ==>
        r.value[i] == GenerateAsWritten(requests[i], attempts(i), parse, clocks(i)).value
      ensures r.Err? ==> r.error == MissingSources
      decreases |requests|
    {
      if requests == [] then Ok([])
      else
        var n := |requests| - 1;
        match BatchAsWritten(requests[..n], attempts, parse, clocks)
        case Err(e) => Err(e)
        case Ok(outs) =>
          match GenerateAsWritten(requests[n], attempts(n), parse, clocks(n))
          case Err(_) => Err(MissingSources)
          case Ok(out) => Ok(outs + [out])
    }

    /**
     * The discrepancy: a request with max_iterations 0 runs no attempt;
     * corrected, it reports failure with the fallback article; as written,
     * generate_content raises TypeError, and so does batch_generate on a
     * batch holding it.
     */
    lemma NoAttemptRaisesAsWritten(request: ContentRequest, attempts: nat -> Attempt, parse: string -> Option<Value>, t: real)
      requires request.maxIterations == 0
      ensures Generate(request, attempts, parse, Ok(t)) ==
        Ok(ContentOutput(FailedArticle, FailedReview, 0, t, 0.0, Failed))
      ensures GenerateAsWritten(request, attempts, parse, Ok(t)) == Err(MissingSources)
      ensures BatchAsWritten([request], (i: nat) => attempts, parse, (i: nat) => Ok(t)) == Err(MissingSources)
    {
      assert Limit(request) == 0;
      assert Run(Outcomes(attempts, parse), reviewer.qualityThreshold, 0) == Progress(0, None, 0.0, false);
      assert [request][..0] == [];
    }

    /**
     * What a request yields: at most min(max_iterations, 3) attempts, each
     * earlier one falling short; the reported score is the best reviewed
     * one (0.0 and the fallback article when none scored above zero), and
     * the status is failed exactly when nothing scored above zero, success
     * exactly when the best score also meets the threshold.
     */
    lemma GenerateRules(request: ContentRequest, attempts: nat -> Attempt, parse: string -> Option<Value>, generationTime: real)
      ensures var out := Generated(request, attempts, parse, generationTime);
        0 <= out.iterations <= Limit(request) && out.generationTime == generationTime
      ensures var out := Generated(request, attempts, parse, generationTime);
        var o := Outcomes(attempts, parse);
        forall j :: 0 <= j < out.iterations && o(j).Ok? ==> o(j).value.1.score <= out.finalScore
      ensures var out := Generated(request, attempts, parse, generationTime);
        var o := Outcomes(attempts, parse);
        forall j :: 0 <= j < out.iterations - 1 ==> !Accepted(o(j), reviewer.qualityThreshold)
      ensures var out := Generated(request, attempts, parse, generationTime);
        && (out.status == Failed <==> out.finalScore == 0.0)
        && (out.status == Failed ==> out.article == FailedArticle && out.review == FailedReview)
        && (out.status == Success <==> out.finalScore > 0.0 && out.finalScore >= qualityThreshold)
        && (out.status != Failed ==> out.review.score == out.finalScore)
    {
      var o := Outcomes(attempts, parse);
      RunStopping(o, reviewer.qualityThreshold, Limit(request));
      RunBest(o, reviewer.qualityThreshold, Limit(request));
    }

    /**
     * With a positive threshold shared by the reviewer, a request succeeds
     * exactly when one of its attempts within the bound was accepted.
     */
    lemma SuccessIffAccepted(request: ContentRequest, attempts: nat -> Attempt, parse: string -> Option<Value>, generationTime: real)
      requires reviewer.qualityThreshold == qualityThreshold && qualityThreshold > 0.0
      ensures Generated(request, attempts, parse, generationTime).status == Success <==>
        exists j :: 0 <= j < Limit(request) && Accepted(Outcomes(attempts, parse)(j), qualityThreshold)
    {
      var o := Outcomes(attempts, parse);
      var n := Limit(request);
      var p := Run(o, qualityThreshold, n);
      RunStopping(o, qualityThreshold, n);
      RunBest(o, qualityThreshold, n);
      if p.stopped {
        assert o(p.iterations - 1).value.1.score <= p.bestScore;
      } else if p.best.Some? {
        var k := RunBestIndex(o, qualityThreshold, n);
        assert !Accepted(o(k), qualityThreshold);
      }
    }

    /** generate_content, corrected (GenerateAsWritten is the code as it stands): the while loop over the attempts. */
    method GenerateContent(request: ContentRequest, attempts: nat -> Attempt, parse: string -> Option<Value>,
                           clock: Result<real>) returns (output: Result<ContentOutput>)
      ensures output == Generate(request, attempts, parse, clock)
    {
      var generationTime :- clock;
      ghost var o := Outcomes(attempts, parse);
      ghost var threshold := reviewer.qualityThreshold;
      var iterations: nat := 0;
      var limit := Limit(request);
      var best: Option<(Draft, Reviewer.ReviewResult)> := None;   // best_article and best_review, set together
      var bestScore := 0.0;
      ghost var stopped := false;
      while iterations < limit
        invariant iterations <= limit
        invariant Run(o, threshold, iterations) == Progress(iterations, best, bestScore, false)
      {
        iterations := iterations + 1;
        assert o(iterations - 1) == OutcomeOf(attempts(iterations - 1), parse);
        var attempt := attempts(iterations - 1);
        if attempt.article.Err? || attempt.reply.Err? {
          continue;
        }
        var review := reviewer.ReviewContent(attempt.reply.value, parse);
        if review.Err? {
          continue;
        }
        if review.value.score > bestScore {
          best := Some((attempt.article.value, review.value));
          bestScore := review.value.score;
        }
        if reviewer.IsQualityAcceptable(review.value) {
          stopped := true;
          break;
        }
      }
      if stopped {
        RunStops(o, threshold, iterations, limit);
      }
      output := match best
        case None => Ok(ContentOutput(FailedArticle, FailedReview, iterations, generationTime, 0.0, Failed))
        case Some(pair) =>
          Ok(ContentOutput(pair.0, pair.1, iterations, generationTime, bestScore,
                           if bestScore >= qualityThreshold then Success else Timeout));
    }

    /**
     * batch_generate, corrected: one output per request, in order; a
     * request whose generation raised gets the failed placeholder (with
     * the empty list of sources; BatchAsWritten is the code as it stands).
     */
    method BatchGenerate(requests: seq<ContentRequest>, attempts: nat -> nat -> Attempt, parse: string -> Option<Value>,
                         clocks: nat -> Result<real>) returns (results: seq<ContentOutput>)
      ensures |results| == |requests|
      ensures forall i :: 0 <= i < |results| ==>
        results[i] == match Generate(requests[i], attempts(i), parse, clocks(i))
                      case Ok(out) => out
                      case Err(_) => BatchFailed
    {
      results := [];
      for i := 0 to |requests|
        invariant |results| == i
        invariant forall j :: 0 <= j < i ==>
          results[j] == match Generate(requests[j], attempts(j), parse, clocks(j))
                        case Ok(out) => out
                        case Err(_) => BatchFailed
      {
        var result := GenerateContent(requests[i], attempts(i), parse, clocks(i));
        if result.Ok? {
          results := results + [result.value];
        } else {
          results := results + [BatchFailed];
        }
      }
    }
  }
}
