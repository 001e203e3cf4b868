/**
 * Performance metrics of a backtest: the trade metrics over the trade log,
 * the equity metrics over the mark-to-market history (total return and
 * maximum drawdown) and the merge of the two dicts.
 */
module Performance {
  import opened Wrappers
  import opened Bars
  import opened Sorting
  import Backtest
  import Portfolios

  type Trade = Backtest.Trade

  /** profit_factor: a ratio, or float('inf') when there is no loss to divide by. */
  datatype Factor = Finite(value: real) | Infinity

  /** The dict compute_trade_metrics returns: {}, {'open_trades': n}, or the closed-trade figures. */
  datatype TradeMetrics =
    | NoTrades
    | OpenOnly(openTrades: nat)
    | ClosedMetrics(tradesTotal: nat, winRate: real, avgGain: real, avgLoss: real, profitFactor: Factor,
                    avgHoldingDays: Option<real>, grossProfit: real, grossLoss: real, netProfit: real)

  /** A metric value as it sits in the merged dict. */
  datatype Metric = MInt(i: int) | MReal(r: real) | MInf | MNone

  /** The rows with the given action, in order (df[df['action'] == ...]). */
  function WithAction(trades: seq<Trade>, side: Backtest.Side): (r: seq<Trade>)
    ensures |r| <= |trades|
  {
    if trades == [] then []
    else (if trades[0].action == side then [trades[0]] else []) + WithAction(trades[1..], side)
  }

  /** closed[closed['pnl'] > 0]. */
  function Winners(closed: seq<Trade>): seq<Trade>
  {
    if closed == [] then []
    else (if closed[0].pnl > 0.0 then [closed[0]] else []) + Winners(closed[1..])
  }

  /** closed[closed['pnl'] <= 0]: a zero pnl counts as a loss. */
  function Losers(closed: seq<Trade>): seq<Trade>
  {
    if closed == [] then []
    else (if closed[0].pnl <= 0.0 then [closed[0]] else []) + Losers(closed[1..])
  }

  function Pnls(rows: seq<Trade>): (r: seq<real>)
    ensures |r| == |rows|
  {
    if rows == [] then [] else [rows[0].pnl] + Pnls(rows[1..])
  }

  /** The holding_days column without its missing values, which Series.mean() skips. */
  function HoldingDays(rows: seq<Trade>): seq<real>
  {
    if rows == [] then []
    else (if rows[0].holdingDays.Some? then [rows[0].holdingDays.value as real] else []) + HoldingDays(rows[1..])
  }

  /** gross_profit / abs(gross_loss) if gross_loss < 0 else float('inf'). */
  function ProfitFactor(grossProfit: real, grossLoss: real): (f: Factor)
    ensures grossLoss < 0.0 ==> f.Finite? && f.value * -grossLoss == grossProfit
    ensures grossLoss < 0.0 && grossProfit >= 0.0 ==> f.value >= 0.0
    ensures grossLoss >= 0.0 ==> f == Infinity
  {
    if grossLoss < 0.0 then Finite(grossProfit / -grossLoss) else Infinity
  }

  /** compute_trade_metrics. */
  function TradeMetricsOf(trades: seq<Trade>): (m: TradeMetrics)
    ensures m.NoTrades? <==> trades == []
    ensures m.OpenOnly? <==> trades != [] && WithAction(trades, Backtest.Sell) == []
    ensures m.OpenOnly? ==> m.openTrades == |WithAction(trades, Backtest.Buy)|
  {
    if trades == [] then NoTrades
    else
      var closed := WithAction(trades, Backtest.Sell);
      if closed == [] then OpenOnly(|WithAction(trades, Backtest.Buy)|)
      else
        var wins := Winners(closed);
        var losses := Losers(closed);
        var grossProfit := Sum(Pnls(wins));
        var grossLoss := Sum(Pnls(losses));
        ClosedMetrics(
          |closed|,
          |wins| as real / |closed| as real,
          Mean(Pnls(wins)).GetOr(0.0),
          Mean(Pnls(losses)).GetOr(0.0),
          ProfitFactor(grossProfit, grossLoss),
          Mean(HoldingDays(closed)),
          grossProfit,
          grossLoss,
          Sum(Pnls(closed)))
  }

  lemma SumAppend(a: seq<real>, b: seq<real>)
    ensures Sum(a + b) == Sum(a) + Sum(b)
  {
    if a != [] {
      assert (a + b)[1..] == a[1..] + b;
      SumAppend(a[1..], b);
    } else {
      assert a + b == b;
    }
  }

  /** Each filter keeps exactly the rows that satisfy its condition. */
  lemma {:induction false} FiltersKeep(rows: seq<Trade>, side: Backtest.Side)
    ensures forall t :: t in WithAction(rows, side) <==> t in rows && t.action == side
    ensures forall t :: t in Winners(rows) <==> t in rows && t.pnl > 0.0
    ensures forall t :: t in Losers(rows) <==> t in rows && t.pnl <= 0.0
  {
    if rows != [] {
      FiltersKeep(rows[1..], side);
      assert forall t :: t in rows <==> t == rows[0] || t in rows[1..];
    }
  }

  /** Winners and losers split the closed trades: every SELL row is exactly one of them. */
  lemma {:induction false} WinsAndLossesCount(closed: seq<Trade>)
    ensures |Winners(closed)| + |Losers(closed)| == |closed|
  {
    if closed != [] {
      WinsAndLossesCount(closed[1..]);
    }
  }

  lemma PnlsAppend(a: seq<Trade>, b: seq<Trade>)
    ensures Pnls(a + b) == Pnls(a) + Pnls(b)
  {
    if a != [] {
      assert (a + b)[0] == a[0] && (a + b)[1..] == a[1..] + b;
      PnlsAppend(a[1..], b);
    } else {
      assert a + b == b;
    }
  }

  /** The pnl sums of the winners and of the losers add up to the pnl sum of the closed trades. */
  lemma {:induction false} WinsAndLossesSum(closed: seq<Trade>)
    ensures Sum(Pnls(Winners(closed))) + Sum(Pnls(Losers(closed))) == Sum(Pnls(closed))
  {
    if closed != [] {
      var head, rest := closed[0], closed[1..];
      WinsAndLossesSum(rest);
      var w := if head.pnl > 0.0 then [head] else [];
      var l := if head.pnl <= 0.0 then [head] else [];
      assert Winners(closed) == w + Winners(rest);
      assert Losers(closed) == l + Losers(rest);
      PnlsAppend(w, Winners(rest));
      PnlsAppend(l, Losers(rest));
      SumAppend(Pnls(w), Pnls(Winners(rest)));
      SumAppend(Pnls(l), Pnls(Losers(rest)));
      assert Sum(Pnls(closed)) == head.pnl + Sum(Pnls(rest));
    }
  }

  /** A sum of positive values is positive when there is at least one, and a sum of non-positive ones is not positive. */
  lemma {:induction false} SignedSums(rows: seq<Trade>)
    ensures (forall t :: t in rows ==> t.pnl > 0.0) && rows != [] ==> Sum(Pnls(rows)) > 0.0
    ensures (forall t :: t in rows ==> t.pnl <= 0.0) ==> Sum(Pnls(rows)) <= 0.0
  {
    if rows != [] {
      SignedSums(rows[1..]);
      assert forall t :: t in rows[1..] ==> t in rows;
    }
  }

  lemma Quotients(a: real, b: real)
    requires b > 0.0
    ensures a >= 0.0 ==> a / b >= 0.0
    ensures a > 0.0 ==> a / b > 0.0
    ensures a <= 0.0 ==> a / b <= 0.0
    ensures 0.0 <= a <= b ==> a / b <= 1.0
  {
  }

  /**
   * The closed-trade figures: trades_total counts the SELL rows, the win
   * rate is in [0, 1], net profit is gross profit plus gross loss, gross
   * profit is never negative and gross loss never positive, the profit
   * factor is gross_profit/|gross_loss| exactly when there is a loss and
   * infinite otherwise, and each average is 0 for an empty side and has
   * the side's sign otherwise.
   */
  lemma ClosedMetricsFacts(trades: seq<Trade>)
    requires WithAction(trades, Backtest.Sell) != []
    ensures var m := TradeMetricsOf(trades);
      var closed := WithAction(trades, Backtest.Sell);
      && m.ClosedMetrics?
      && m.tradesTotal == |closed| > 0
      && 0.0 <= m.winRate <= 1.0
      && m.netProfit == m.grossProfit + m.grossLoss
      && m.grossProfit >= 0.0 && m.grossLoss <= 0.0
      && (m.grossLoss < 0.0 ==> m.profitFactor.Finite? && m.profitFactor.value >= 0.0)
      && (m.grossLoss == 0.0 <==> m.profitFactor == Infinity)
      && (Winners(closed) == [] <==> m.avgGain == 0.0)
      && (Winners(closed) != [] ==> m.avgGain > 0.0)
      && m.avgLoss <= 0.0
  {
    var closed := WithAction(trades, Backtest.Sell);
    var wins := Winners(closed);
    var losses := Losers(closed);
    WinsAndLossesCount(closed);
    WinsAndLossesSum(closed);
    FiltersKeep(closed, Backtest.Sell);
    SignedSums(wins);
    SignedSums(losses);
    var gp := Sum(Pnls(wins));
    var gl := Sum(Pnls(losses));
    Quotients(|wins| as real, |closed| as real);
    if wins != [] {
      Quotients(gp, |wins| as real);
    }
    if losses != [] {
      Quotients(gl, |losses| as real);
    }
    var m := TradeMetricsOf(trades);
    assert m == ClosedMetrics(|closed|, |wins| as real / |closed| as real, Mean(Pnls(wins)).GetOr(0.0),
      Mean(Pnls(losses)).GetOr(0.0), ProfitFactor(gp, gl),
      Mean(HoldingDays(closed)), gp, gl, Sum(Pnls(closed)));
  }

  /**
   * The trade log of quant/unitest/test_performance_module.py: a BUY, a SELL at +100, a BUY, a SELL
   * at −50. Two closed trades, one win: win rate 0.5, profit factor 2, net
   * profit 50.
   */
  lemma SampleMetrics(buy1: Trade, sell1: Trade, buy2: Trade, sell2: Trade)
    requires buy1.action == Backtest.Buy && buy2.action == Backtest.Buy
    requires sell1.action == Backtest.Sell && sell1.pnl == 100.0 && sell1.holdingDays == Some(2)
    requires sell2.action == Backtest.Sell && sell2.pnl == -50.0 && sell2.holdingDays == Some(1)
    ensures TradeMetricsOf([buy1, sell1, buy2, sell2]) == ClosedMetrics(2, 0.5, 100.0, -50.0, Finite(2.0), Some(1.5), 100.0, -50.0, 50.0)
  {
    SampleColumns(buy1, sell1, buy2, sell2);
    assert Sum([100.0, -50.0]) == 50.0;
    assert Mean([2.0, 1.0]) == Some(1.5);
  }

  /** The SELL rows of the log of SampleMetrics, and the columns the metrics are computed from. */
  lemma SampleColumns(buy1: Trade, sell1: Trade, buy2: Trade, sell2: Trade)
    requires buy1.action == Backtest.Buy && buy2.action == Backtest.Buy
    requires sell1.action == Backtest.Sell && sell1.pnl == 100.0 && sell1.holdingDays == Some(2)
    requires sell2.action == Backtest.Sell && sell2.pnl == -50.0 && sell2.holdingDays == Some(1)
    ensures WithAction([buy1, sell1, buy2, sell2], Backtest.Sell) == [sell1, sell2]
    ensures Pnls(Winners([sell1, sell2])) == [100.0] && Pnls(Losers([sell1, sell2])) == [-50.0]
    ensures Pnls([sell1, sell2]) == [100.0, -50.0] && HoldingDays([sell1, sell2]) == [2.0, 1.0]
  {
    SampleSells(buy1, sell1, buy2, sell2);
    assert Winners([sell2]) == [] && Losers([sell2]) == [sell2] && Pnls([sell2]) == [-50.0] && HoldingDays([sell2]) == [1.0] by {
      Cons(sell2, []);
      assert [sell2] == [sell2] + [];
    }
    Cons(sell1, [sell2]);
    assert [sell1, sell2] == [sell1] + [sell2];
  }

  lemma SampleSells(buy1: Trade, sell1: Trade, buy2: Trade, sell2: Trade)
    requires buy1.action == Backtest.Buy && buy2.action == Backtest.Buy
    requires sell1.action == Backtest.Sell && sell2.action == Backtest.Sell
    ensures WithAction([buy1, sell1, buy2, sell2], Backtest.Sell) == [sell1, sell2]
  {
    var sell := Backtest.Sell;
    assert WithAction([sell2], sell) == [sell2] by {
      Cons(sell2, []);
      assert [sell2] == [sell2] + [];
    }
    assert WithAction([buy2, sell2], sell) == [sell2] by {
      Cons(buy2, [sell2]);
      assert [buy2, sell2] == [buy2] + [sell2];
    }
    assert WithAction([sell1, buy2, sell2], sell) == [sell1, sell2] by {
      Cons(sell1, [buy2, sell2]);
      assert [sell1, buy2, sell2] == [sell1] + [buy2, sell2];
    }
    Cons(buy1, [sell1, buy2, sell2]);
    assert [buy1, sell1, buy2, sell2] == [buy1] + [sell1, buy2, sell2];
  }

  /** The filters and projections on a row in front of others. */
  lemma Cons(x: Trade, s: seq<Trade>)
    ensures WithAction([x] + s, Backtest.Sell) == (if x.action == Backtest.Sell then [x] else []) + WithAction(s, Backtest.Sell)
    ensures Winners([x] + s) == (if x.pnl > 0.0 then [x] else []) + Winners(s)
    ensures Losers([x] + s) == (if x.pnl <= 0.0 then [x] else []) + Losers(s)
    ensures Pnls([x] + s) == [x.pnl] + Pnls(s)
    ensures HoldingDays([x] + s) == (if x.holdingDays.Some? then [x.holdingDays.value as real] else []) + HoldingDays(s)
  {
    assert ([x] + s)[0] == x && ([x] + s)[1..] == s;
  }

  // ---------------------------------------------------------------------
  // Equity metrics
  // ---------------------------------------------------------------------

  type HistoryRow = Portfolios.HistoryRow

  /** compute_equity_metrics, reduced to total_return, max_drawdown and num_days. */
  datatype EquityMetrics =
    | NoEquity
    | NonFinite(numDays: nat)
    | EquityStats(totalReturn: real, maxDrawdown: real, numDays: nat)

  /** equity_df.sort_values('date'), as a stable sort ascending by date. */
  function ByDate(rows: seq<HistoryRow>): (r: seq<HistoryRow>)
    ensures |r| == |rows| && multiset(r) == multiset(rows)
    ensures forall i, j :: 0 <= i < j < |r| ==> r[i].date <= r[j].date
  {
    var s := SortDesc(rows, (h: HistoryRow) => -(h.date as real));
    assert forall i, j :: 0 <= i < j < |s| ==> -(s[i].date as real) >= -(s[j].date as real);
    s
  }

  function Equities(rows: seq<HistoryRow>): (r: seq<real>)
    ensures |r| == |rows| && forall k :: 0 <= k < |rows| ==> r[k] == rows[k].totalValue
  {
    if rows == [] then [] else [rows[0].totalValue] + Equities(rows[1..])
  }

  /** cummax() at position t. */
  function RunMax(es: seq<real>, t: nat): (r: real)
    requires t < |es|
    ensures forall k :: 0 <= k <= t ==> es[k] <= r
    ensures r >= es[0]
    ensures exists k :: 0 <= k <= t && r == es[k]
  {
    if t == 0 then es[0]
    else
      var prev := RunMax(es, t - 1);
      if es[t] > prev then es[t] else prev
  }

  /** No running maximum is zero, so every ratio equity/cummax is a finite real. */
  predicate PeaksNonZero(es: seq<real>)
  {
    forall t :: 0 <= t < |es| ==> RunMax(es, t) != 0.0
  }

  function Drawdown(es: seq<real>, t: nat): real
    requires t < |es| && PeaksNonZero(es)
  {
    es[t] / RunMax(es, t) - 1.0
  }

  /** drawdowns.min() over the positions 0..t. */
  function MinDrawdown(es: seq<real>, t: nat): (r: real)
    requires t < |es| && PeaksNonZero(es)
    ensures forall k :: 0 <= k <= t ==> r <= Drawdown(es, k)
    ensures exists k :: 0 <= k <= t && r == Drawdown(es, k)
  {
    if t == 0 then Drawdown(es, 0)
    else
      var prev := MinDrawdown(es, t - 1);
      if Drawdown(es, t) < prev then Drawdown(es, t) else prev
  }

  /**
   * compute_equity_metrics: {} for an empty history; total_return is the
   * last equity over the first minus one after sorting by date. Division
   * by a zero equity (an IEEE infinity or NaN in pandas) is NonFinite.
   */
  function EquityMetricsOf(rows: seq<HistoryRow>): (m: EquityMetrics)
    ensures m.NoEquity? <==> rows == []
    ensures !m.NoEquity? ==> m.numDays == |rows|
  {
    if rows == [] then NoEquity
    else
      var es := Equities(ByDate(rows));
      if es[0] == 0.0 || !PeaksNonZero(es) then NonFinite(|rows|)
      else EquityStats(es[|es| - 1] / es[0] - 1.0, MinDrawdown(es, |es| - 1), |rows|)
  }

  /** Under a positive peak, a drawdown is at most 0, and at least −1 for a non-negative equity. */
  lemma DrawdownAt(es: seq<real>, t: nat)
    requires t < |es| && PeaksNonZero(es) && es[0] > 0.0
    ensures -1.0 <= Drawdown(es, t) || es[t] < 0.0
    ensures Drawdown(es, t) <= 0.0
  {
    var peak := RunMax(es, t);
    Quotients(es[t], peak);
  }

  /**
   * From a positive starting equity, max_drawdown is never positive, and
   * never below −1 while equity stays non-negative.
   */
  lemma DrawdownBounds(rows: seq<HistoryRow>)
    requires rows != [] && Equities(ByDate(rows))[0] > 0.0
    ensures var m := EquityMetricsOf(rows);
      var es := Equities(ByDate(rows));
      && m.EquityStats? && m.maxDrawdown <= 0.0
      && ((forall k :: 0 <= k < |es| ==> es[k] >= 0.0) ==> m.maxDrawdown >= -1.0)
  {
    var es := Equities(ByDate(rows));
    assert PeaksNonZero(es) by {
      forall t | 0 <= t < |es| ensures RunMax(es, t) != 0.0 {
        assert RunMax(es, t) >= es[0];
      }
    }
    var last := |es| - 1;
    var dd := MinDrawdown(es, last);
    DrawdownAt(es, 0);
    var k :| 0 <= k <= last && dd == Drawdown(es, k);
    DrawdownAt(es, k);
  }

  /** A history already in date order is left as it is by the sort. */
  lemma ByDateOfDated(rows: seq<HistoryRow>)
    requires forall i, j :: 0 <= i < j < |rows| ==> rows[i].date <= rows[j].date
    ensures ByDate(rows) == rows
  {
    SortDescOfSorted(rows, (h: HistoryRow) => -(h.date as real));
  }

  function SampleHistory(): seq<HistoryRow>
  {
    [Portfolios.HistoryRow(0, 100000.0, 100000.0, 0), Portfolios.HistoryRow(1, 101000.0, 0.0, 1),
     Portfolios.HistoryRow(2, 100500.0, 0.0, 1), Portfolios.HistoryRow(3, 102000.0, 0.0, 1)]
  }

  lemma SampleSeries()
    ensures SampleCurve(Equities(ByDate(SampleHistory())))
  {
    ByDateOfDated(SampleHistory());
  }

  predicate SampleCurve(es: seq<real>)
  {
    |es| == 4 && es[0] == 100000.0 && es[1] == 101000.0 && es[2] == 100500.0 && es[3] == 102000.0
  }

  lemma SamplePeaks(es: seq<real>)
    requires SampleCurve(es)
    ensures RunMax(es, 0) == 100000.0 && RunMax(es, 1) == 101000.0 && RunMax(es, 2) == 101000.0 && RunMax(es, 3) == 102000.0
    ensures PeaksNonZero(es)
  {
    assert RunMax(es, 1) == 101000.0;
    assert RunMax(es, 2) == 101000.0;
  }

  lemma SampleDrawdowns(es: seq<real>)
    requires SampleCurve(es)
    ensures PeaksNonZero(es)
    ensures Drawdown(es, 0) == 0.0 && Drawdown(es, 1) == 0.0 && Drawdown(es, 3) == 0.0
    ensures Drawdown(es, 2) == 100500.0 / 101000.0 - 1.0 < 0.0
  {
    SamplePeaks(es);
  }

  lemma SampleMinimum(es: seq<real>)
    requires SampleCurve(es)
    ensures PeaksNonZero(es) && MinDrawdown(es, 3) == 100500.0 / 101000.0 - 1.0
    ensures es[3] / es[0] - 1.0 == 0.02
  {
    SampleDrawdowns(es);
    assert MinDrawdown(es, 1) == 0.0;
  }

  /** The equity curve of quant/unitest/test_performance_module.py: total return 0.02, and the dip from 101000 to 100500 is the drawdown. */
  lemma SampleEquity()
    ensures var m := EquityMetricsOf(SampleHistory());
      m.EquityStats? && m.totalReturn == 0.02 && m.maxDrawdown == 100500.0 / 101000.0 - 1.0 && m.numDays == 4
  {
    SampleSeries();
    SampleMinimum(Equities(ByDate(SampleHistory())));
  }

  // ---------------------------------------------------------------------
  // Dicts and merge_metrics
  // ---------------------------------------------------------------------

  function FactorMetric(f: Factor): Metric
  {
    if f.Infinity? then MInf else MReal(f.value)
  }

  function TradeKeys(): set<string>
  {
    {"trades_total", "win_rate", "avg_gain", "avg_loss", "profit_factor", "avg_holding_days",
     "gross_profit", "gross_loss", "net_profit"}
  }

  function TradeDict(m: TradeMetrics): (d: map<string, Metric>)
    ensures m.NoTrades? ==> d == map[]
    ensures m.OpenOnly? ==> d.Keys == {"open_trades"}
    ensures m.ClosedMetrics? ==> d.Keys == TradeKeys()
  {
    match m
    case NoTrades => map[]
    case OpenOnly(n) => map["open_trades" := MInt(n)]
    case ClosedMetrics(total, winRate, avgGain, avgLoss, pf, avgHolding, gp, gl, net) =>
      map["trades_total" := MInt(total), "win_rate" := MReal(winRate), "avg_gain" := MReal(avgGain),
          "avg_loss" := MReal(avgLoss), "profit_factor" := FactorMetric(pf),
          "avg_holding_days" := if avgHolding.Some? then MReal(avgHolding.value) else MNone,
          "gross_profit" := MReal(gp), "gross_loss" := MReal(gl), "net_profit" := MReal(net)]
  }

  function EquityDict(m: EquityMetrics): (d: map<string, Metric>)
    ensures m.NoEquity? ==> d == map[]
    ensures !m.NoEquity? ==> d.Keys == {"total_return", "max_drawdown", "num_days"}
  {
    match m
    case NoEquity => map[]
    case NonFinite(n) => map["total_return" := MNone, "max_drawdown" := MNone, "num_days" := MInt(n)]
    case EquityStats(tr, dd, n) => map["total_return" := MReal(tr), "max_drawdown" := MReal(dd), "num_days" := MInt(n)]
  }

  /** merge_metrics: every key of either dict; on a shared key the trade metric wins. */
  function MergeMetrics(equity: map<string, Metric>, trade: map<string, Metric>): (out: map<string, Metric>)
    ensures out.Keys == equity.Keys + trade.Keys
    ensures forall k :: k in trade ==> out[k] == trade[k]
    ensures forall k :: k in equity && k !in trade ==> out[k] == equity[k]
  {
    equity + trade
  }
}
