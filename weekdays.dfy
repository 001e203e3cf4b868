/**
 * Business-day arithmetic on day numbers (day 0 is 1970-01-01, a
 * Thursday): Monday to Friday are business days, as in pandas' 'B'
 * frequency and in the weekday() < 5 tests of the variation driver.
 */
module Weekdays {
  /** date.weekday(): Monday is 0, Sunday is 6. */
  function Weekday(d: int): (w: int)
    ensures 0 <= w < 7
  {
    (d + 3) % 7
  }

  predicate IsBusinessDay(d: int)
  {
    Weekday(d) < 5
  }

  predicate Increasing(s: seq<int>)
  {
    forall i, j :: 0 <= i < j < |s| ==> s[i] < s[j]
  }

  /** pd.date_range(start, end, freq='B'): every business day of [start, end], ascending. */
  function BusinessDays(start: int, end: int): seq<int>
    decreases end - start
  {
    if start > end then []
    else (if IsBusinessDay(start) then [start] else []) + BusinessDays(start + 1, end)
  }

  /** The range is ascending, holds only business days of [start, end], and every one of them. */
  lemma BusinessDaysFacts(start: int, end: int)
    ensures var r := BusinessDays(start, end);
      && Increasing(r)
      && (forall i :: 0 <= i < |r| ==> start <= r[i] <= end && IsBusinessDay(r[i]))
      && (forall d :: start <= d <= end && IsBusinessDay(d) ==> d in r)
  {
    BusinessDaysBounded(start, end);
    BusinessDaysIncreasing(start, end);
    BusinessDaysComplete(start, end);
  }

  lemma {:induction false} BusinessDaysBounded(start: int, end: int)
    ensures forall i :: 0 <= i < |BusinessDays(start, end)| ==>
      start <= BusinessDays(start, end)[i] <= end && IsBusinessDay(BusinessDays(start, end)[i])
    decreases end - start
  {
    if start <= end {
      BusinessDaysBounded(start + 1, end);
      var rest := BusinessDays(start + 1, end);
      assert forall i :: 0 <= i < |rest| ==> start + 1 <= rest[i] <= end && IsBusinessDay(rest[i]);
      if IsBusinessDay(start) {
        var r := [start] + rest;
        assert r == BusinessDays(start, end);
        forall i | 0 <= i < |r| ensures start <= r[i] <= end && IsBusinessDay(r[i]) {
          if i > 0 { assert r[i] == rest[i - 1]; }
        }
      } else {
        assert rest == BusinessDays(start, end);
      }
    }
  }

  lemma {:induction false} BusinessDaysIncreasing(start: int, end: int)
    ensures Increasing(BusinessDays(start, end))
    decreases end - start
  {
    if start <= end {
      BusinessDaysIncreasing(start + 1, end);
      BusinessDaysBounded(start + 1, end);
      var rest := BusinessDays(start + 1, end);
      assert forall i :: 0 <= i < |rest| ==> start < rest[i];
      if IsBusinessDay(start) {
        var r := [start] + rest;
        assert r == BusinessDays(start, end);
        forall i, j | 0 <= i < j < |r| ensures r[i] < r[j] {
          assert r[j] == rest[j - 1];
          if i > 0 { assert r[i] == rest[i - 1]; }
        }
      } else {
        assert rest == BusinessDays(start, end);
      }
    }
  }

  lemma {:induction false} BusinessDaysComplete(start: int, end: int)
    ensures forall d :: start <= d <= end && IsBusinessDay(d) ==> d in BusinessDays(start, end)
    decreases end - start
  {
    if start <= end {
      BusinessDaysComplete(start + 1, end);
      var rest := BusinessDays(start + 1, end);
      if IsBusinessDay(start) {
        var r := [start] + rest;
        assert r == BusinessDays(start, end);
        forall d | start <= d <= end && IsBusinessDay(d) ensures d in r {
          if d == start { assert r[0] == d; } else { assert d in rest; }
        }
      } else {
        assert rest == BusinessDays(start, end);
      }
    }
  }

  /** The number of business days in [start, end). */
  function CountBusiness(start: int, end: int): (n: nat)
    ensures end <= start ==> n == 0
    decreases end - start
  {
    if end <= start then 0
    else (if IsBusinessDay(start) then 1 else 0) + CountBusiness(start + 1, end)
  }

  /** The first business day after d (d + BDay(1)). */
  function NextBusinessDay(d: int): (n: int)
    ensures d < n <= d + 3 && IsBusinessDay(n)
    ensures forall k :: d < k < n ==> !IsBusinessDay(k)
  {
    var w := Weekday(d);
    if w == 4 then d + 3 else if w == 5 then d + 2 else d + 1
  }
}
