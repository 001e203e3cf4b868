/**
 * The variation driver's arithmetic: trading-day stepping and counting
 * (weekdays only, holidays ignored), the weekday date range, the per-symbol
 * return of a holding interval, and the per-strategy summary over all
 * tested dates. Dates are day numbers as in Weekdays.
 */
module StrategyVariations {
  import opened Wrappers
  import opened Weekdays

  // ---------- Weekday stepping ----------

  /** Counting one more day at the end of a non-empty interval. */
  lemma {:induction false} CountExtend(start: int, end: int)
    requires start <= end
    ensures CountBusiness(start, end + 1) == CountBusiness(start, end) + (if IsBusinessDay(end) then 1 else 0)
    decreases end - start
  {
    if start < end {
      CountExtend(start + 1, end);
    }
  }

  /** How many steps a non-counting run of days can still last: a Friday or earlier has three, Saturday two, Sunday one. */
  function WeekendSlack(d: int): nat
  {
    var w := Weekday(d);
    if w == 5 then 2 else if w == 6 then 1 else 3
  }

  /**
   * add_trading_days: d itself for n <= 0; otherwise the weekday that
   * closes a run of exactly n weekdays after d, i.e. the result is a
   * weekday and (d, result] holds n of them.
   */
  method AddTradingDays(d: int, n: int) returns (r: int)
    ensures n <= 0 ==> r == d
    ensures n > 0 ==> d < r && IsBusinessDay(r) && CountBusiness(d + 1, r + 1) == n
  {
    if n <= 0 {
      return d;
    }
    var added := 0;
    r := d;
    while added < n
      invariant 0 <= added <= n && d <= r
      invariant CountBusiness(d + 1, r + 1) == added
      invariant added == n ==> d < r && IsBusinessDay(r)
      decreases n - added, WeekendSlack(r)
    {
      CountExtend(d + 1, r + 1);
      r := r + 1;
      if IsBusinessDay(r) {
        added := added + 1;
      }
    }
  }

  /** count_trading_days: 0 when end <= start, otherwise the weekdays of [start, end). */
  method CountTradingDays(start: int, end: int) returns (days: nat)
    ensures days == CountBusiness(start, end)
  {
    if end <= start {
      return 0;
    }
    var cur := start;
    days := 0;
    while cur < end
      invariant start <= cur <= end
      invariant days == CountBusiness(start, cur)
    {
      CountExtend(start, cur);
      if IsBusinessDay(cur) {
        days := days + 1;
      }
      cur := cur + 1;
    }
  }

  /**
   * Counting from a weekday d up to n weekdays later gives n back: the
   * count [d, d + n trading days) holds d and the n - 1 weekdays before
   * the last. The benchmark return keyed by the interval's trading-day
   * count therefore lands under the holding period it was computed for.
   */
  lemma CountAfterAdd(d: int, n: int, r: int)
    requires IsBusinessDay(d) && n >= 0
    requires n == 0 ==> r == d
    requires n > 0 ==> d < r && IsBusinessDay(r) && CountBusiness(d + 1, r + 1) == n
    ensures CountBusiness(d, r) == n
  {
    if n > 0 {
      CountExtend(d + 1, r);
      assert CountBusiness(d, r) == 1 + CountBusiness(d + 1, r);
    }
  }

  /** generate_date_range: each weekday of [start, end], once and ascending. */
  method GenerateDateRange(start: int, end: int) returns (dates: seq<int>)
    ensures dates == BusinessDays(start, end)
  {
    dates := [];
    var cur := start;
    while cur <= end
      invariant start <= cur && (start <= end ==> cur <= end + 1)
      invariant dates + BusinessDays(cur, end) == BusinessDays(start, end)
      decreases end - cur
    {
      DateRangeStep(dates, start, cur, end);
      if IsBusinessDay(cur) {
        dates := dates + [cur];
      }
      cur := cur + 1;
    }
  }

  /** One step of the date loop keeps the collected dates a prefix of the range. */
  lemma DateRangeStep(dates: seq<int>, start: int, cur: int, end: int)
    requires cur <= end && dates + BusinessDays(cur, end) == BusinessDays(start, end)
    ensures (dates + if IsBusinessDay(cur) then [cur] else []) + BusinessDays(cur + 1, end) == BusinessDays(start, end)
  {
    var head := if IsBusinessDay(cur) then [cur] else [];
    var rest := BusinessDays(cur + 1, end);
    assert BusinessDays(cur, end) == head + rest;
    assert (dates + head) + rest == dates + (head + rest);
  }

  /** Each weekday of the range appears exactly once. */
  lemma DateRangeOnce(start: int, end: int, d: int)
    requires start <= d <= end && IsBusinessDay(d)
    ensures var r := BusinessDays(start, end);
      exists i :: 0 <= i < |r| && r[i] == d && forall j :: 0 <= j < |r| && j != i ==> r[j] != d
  {
    var r := BusinessDays(start, end);
    BusinessDaysFacts(start, end);
    var i :| 0 <= i < |r| && r[i] == d;
    forall j | 0 <= j < |r| && j != i ensures r[j] != d {
      if j < i { assert r[j] < r[i]; } else { assert r[i] < r[j]; }
    }
    assert 0 <= i < |r| && r[i] == d && forall j :: 0 <= j < |r| && j != i ==> r[j] != d;
  }

  // ---------- calculate_returns ----------

  /**
   * One symbol's return over the fetched frame: none for a missing frame
   * or one with fewer than two rows; otherwise (last - first) / first,
   * where a zero first close gives numpy's inf or nan (NonFinite).
   */
  datatype Ret = Finite(rate: real) | NonFinite

  function ReturnOf(closes: seq<real>): (r: Option<Ret>)
    ensures r.None? <==> |closes| < 2
    ensures r.Some? && closes[0] != 0.0 ==> r.value.Finite? && closes[0] * (1.0 + r.value.rate) == closes[|closes| - 1]
    ensures r.Some? && closes[0] == 0.0 ==> r.value.NonFinite?
  {
    if |closes| < 2 then None
    else if closes[0] == 0.0 then Some(NonFinite)
    else Some(Finite((closes[|closes| - 1] - closes[0]) / closes[0]))
  }

  /** calculate_returns over the fetched frames (None for a symbol whose frame is None). */
  function Returns(data: map<string, Option<seq<real>>>): (r: map<string, Ret>)
    ensures forall s :: s in r <==> s in data && data[s].Some? && |data[s].value| >= 2
    ensures forall s :: s in r ==> Some(r[s]) == ReturnOf(data[s].value)
  {
    map s | s in data && data[s].Some? && ReturnOf(data[s].value).Some? :: ReturnOf(data[s].value).value
  }

  /** A positive buy price bounds the return below by -100% when the sell price is not negative. */
  lemma ReturnBound(closes: seq<real>)
    requires |closes| >= 2 && closes[0] > 0.0 && closes[|closes| - 1] >= 0.0
    ensures ReturnOf(closes).value.rate >= -1.0
    ensures closes[|closes| - 1] > closes[0] <==> ReturnOf(closes).value.rate > 0.0
  {
    var r := ReturnOf(closes).value.rate;
    assert closes[0] * (1.0 + r) == closes[|closes| - 1];
  }

  // ---------- summarize_results ----------

  /** One test result of a strategy variant on one date. */
  datatype DayResult = DayResult(strategyName: string, avgReturn: real, excessReturn: real, selectedCount: int)

  /** The running sums of one strategy. */
  datatype Tally = Tally(totalReturn: real, totalExcess: real, winDays: nat, totalDays: nat, selected: int)

  /** One result added to its strategy's sums. */
  function Bump(t: Tally, x: DayResult): Tally
  {
    Tally(t.totalReturn + x.avgReturn, t.totalExcess + x.excessReturn,
          t.winDays + (if x.excessReturn > 0.0 then 1 else 0), t.totalDays + 1, t.selected + x.selectedCount)
  }

  const Zero: Tally := Tally(0.0, 0.0, 0, 0, 0)

  /** The results of all dates, date after date. */
  function Flatten(daily: seq<seq<DayResult>>): seq<DayResult>
  {
    if daily == [] then [] else Flatten(daily[..|daily| - 1]) + daily[|daily| - 1]
  }

  /** The per-strategy sums over a run of results: one entry per strategy name seen, win days never more than days. */
  function Tallies(rs: seq<DayResult>): (m: map<string, Tally>)
    ensures forall n :: n in m ==> 1 <= m[n].totalDays && m[n].winDays <= m[n].totalDays
  {
    if rs == [] then map[] else Record(Tallies(rs[..|rs| - 1]), rs[|rs| - 1])
  }

  /** The tallied names are exactly the strategy names that occur. */
  lemma {:induction false} TalliesKeys(rs: seq<DayResult>, n: string)
    ensures n in Tallies(rs) <==> exists k :: 0 <= k < |rs| && rs[k].strategyName == n
  {
    if rs != [] {
      var prev := rs[..|rs| - 1];
      TalliesKeys(prev, n);
      assert forall k :: 0 <= k < |prev| ==> prev[k] == rs[k];
      if n in Tallies(prev) {
        var k :| 0 <= k < |prev| && prev[k].strategyName == n;
        assert rs[k].strategyName == n;
      }
    }
  }

  /** A result recorded under its strategy's name (the first one starting from zero). */
  function Record(m: map<string, Tally>, x: DayResult): map<string, Tally>
  {
    m[x.strategyName := Bump(if x.strategyName in m then m[x.strategyName] else Zero, x)]
  }

  lemma TalliesSnoc(done: seq<DayResult>, day: seq<DayResult>, j: int)
    requires 0 <= j < |day|
    ensures Tallies(done + day[..j + 1]) == Record(Tallies(done + day[..j]), day[j])
  {
    var s := done + day[..j + 1];
    assert s[..|s| - 1] == done + day[..j];
    assert s[|s| - 1] == day[j];
  }

  /** Days counts every result of the strategy, and win days those with positive excess return. */
  function Count(rs: seq<DayResult>, n: string): nat
  {
    if rs == [] then 0 else Count(rs[..|rs| - 1], n) + (if rs[|rs| - 1].strategyName == n then 1 else 0)
  }

  function Wins(rs: seq<DayResult>, n: string): nat
  {
    if rs == [] then 0
    else Wins(rs[..|rs| - 1], n) + (if rs[|rs| - 1].strategyName == n && rs[|rs| - 1].excessReturn > 0.0 then 1 else 0)
  }

  lemma {:induction false} TalliesCount(rs: seq<DayResult>, n: string)
    requires n in Tallies(rs)
    ensures Tallies(rs)[n].totalDays == Count(rs, n) && Tallies(rs)[n].winDays == Wins(rs, n)
  {
    var prev := rs[..|rs| - 1];
    var x := rs[|rs| - 1];
    if n in Tallies(prev) {
      TalliesCount(prev, n);
    } else if x.strategyName == n {
      CountAbsent(prev, n);
    }
  }

  lemma {:induction false} CountAbsent(rs: seq<DayResult>, n: string)
    requires n !in Tallies(rs)
    ensures Count(rs, n) == 0 && Wins(rs, n) == 0
  {
    if rs != [] {
      var prev := rs[..|rs| - 1];
      assert forall k :: 0 <= k < |prev| ==> prev[k] == rs[k];
      CountAbsent(prev, n);
    }
  }

  /** One strategy's summary: the sums, then the averages over its days and the share of winning days. */
  datatype Summary = Summary(totalReturn: real, totalExcess: real, winDays: nat, totalDays: nat,
                             avgReturn: real, avgExcess: real, winRate: real, avgSelected: real)

  /** The averaging pass, which divides by total_days (always at least one here). */
  function Finish(t: Tally): (s: Summary)
    requires t.totalDays >= 1 && t.winDays <= t.totalDays
    ensures s.totalDays == t.totalDays && s.winDays == t.winDays
    ensures 0.0 <= s.winRate <= 1.0 && s.winRate == s.winDays as real / s.totalDays as real
    ensures s.avgReturn * s.totalDays as real == s.totalReturn && s.avgExcess * s.totalDays as real == s.totalExcess
  {
    var d := t.totalDays as real;
    ShareBound(t.winDays as real, d);
    Summary(t.totalReturn, t.totalExcess, t.winDays, t.totalDays,
            t.totalReturn / d, t.totalExcess / d, t.winDays as real / d, t.selected as real / d)
  }

  /** A part of a positive whole is a share in [0, 1]. */
  lemma ShareBound(part: real, whole: real)
    requires 0.0 <= part <= whole && whole > 0.0
    ensures 0.0 <= part / whole <= 1.0
  {
    assert part / whole * whole == part;
  }

  /** summarize_results: ValueError with no tested date, else each seen strategy's summary. */
  function Summarize(daily: seq<seq<DayResult>>): (r: Result<map<string, Summary>>)
    ensures r.Err? <==> daily == []
    ensures r.Ok? ==> forall n :: n in r.value ==> r.value[n].totalDays >= 1
  {
    if daily == [] then Err(ValueError("no daily results"))
    else
      var t := Tallies(Flatten(daily));
      Ok(map n | n in t :: Finish(t[n]))
  }

  /**
   * The summary has one record per strategy name that occurs in the
   * results; its day count is that strategy's number of results, its win
   * days those with positive excess return, and its win rate their share,
   * within [0, 1].
   */
  lemma SummarizeFacts(daily: seq<seq<DayResult>>, n: string)
    requires daily != []
    ensures n in Summarize(daily).value <==> exists k :: 0 <= k < |Flatten(daily)| && Flatten(daily)[k].strategyName == n
    ensures n in Summarize(daily).value ==>
      && Summarize(daily).value[n].totalDays == Count(Flatten(daily), n)
      && Summarize(daily).value[n].winDays == Wins(Flatten(daily), n)
      && 0.0 <= Summarize(daily).value[n].winRate <= 1.0
      && Summarize(daily).value[n].winRate == Summarize(daily).value[n].winDays as real / Summarize(daily).value[n].totalDays as real
  {
    SummarizeKeys(daily);
    TalliesKeys(Flatten(daily), n);
    if n in Summarize(daily).value {
      SummarizeCounts(daily, n);
      SummarizeRate(daily, n);
    }
  }

  lemma SummarizeRate(daily: seq<seq<DayResult>>, n: string)
    requires daily != [] && n in Summarize(daily).value
    ensures 0.0 <= Summarize(daily).value[n].winRate <= 1.0
    ensures Summarize(daily).value[n].winRate == Summarize(daily).value[n].winDays as real / Summarize(daily).value[n].totalDays as real
  {
    SummarizeKeys(daily);
    var t := Tallies(Flatten(daily));
    assert Summarize(daily).value[n] == Finish(t[n]);
  }

  lemma SummarizeCounts(daily: seq<seq<DayResult>>, n: string)
    requires daily != [] && n in Summarize(daily).value
    ensures Summarize(daily).value[n].totalDays == Count(Flatten(daily), n)
    ensures Summarize(daily).value[n].winDays == Wins(Flatten(daily), n)
  {
    SummarizeKeys(daily);
    TalliesCount(Flatten(daily), n);
  }

  lemma SummarizeKeys(daily: seq<seq<DayResult>>)
    requires daily != []
    ensures Summarize(daily).value == map k | k in Tallies(Flatten(daily)) :: Finish(Tallies(Flatten(daily))[k])
    ensures Summarize(daily).value.Keys == Tallies(Flatten(daily)).Keys
  {
  }

  /** The inner loop over one date's results. */
  method TallyDay(acc: map<string, Tally>, done: seq<DayResult>, day: seq<DayResult>) returns (next: map<string, Tally>)
    requires acc == Tallies(done)
    ensures next == Tallies(done + day)
  {
    next := acc;
    assert done + day[..0] == done;
    for j := 0 to |day|
      invariant next == Tallies(done + day[..j])
    {
      TalliesSnoc(done, day, j);
      next := Record(next, day[j]);
    }
    assert day[..|day|] == day;
  }

  /** summarize_results: the date loop summing into each strategy's record, then the averaging pass. */
  method SummarizeResults(daily: seq<seq<DayResult>>) returns (r: Result<map<string, Summary>>)
    ensures r == Summarize(daily)
  {
    if daily == [] {
      return Err(ValueError("no daily results"));
    }
    var acc: map<string, Tally> := map[];
    for i := 0 to |daily|
      invariant acc == Tallies(Flatten(daily[..i]))
    {
      assert daily[..i + 1][..i] == daily[..i];
      acc := TallyDay(acc, Flatten(daily[..i]), daily[i]);
    }
    assert daily[..|daily|] == daily;
    r := Ok(map n | n in acc :: Finish(acc[n]));
  }
}
