/**
 * The portfolio: cash, the open positions keyed by symbol (in the dict's
 * insertion order) and the equity history.
 */
module Portfolios {
  import opened Wrappers
  import opened Exits

  /** One history row appended by mark_to_market. */
  datatype HistoryRow = HistoryRow(date: int, totalValue: real, cash: real, positions: nat)

  predicate Distinct(s: seq<string>)
  {
    forall a, b :: 0 <= a < b < |s| ==> s[a] != s[b]
  }

  /** A dict's key order and entries agree: every key once, each record filed under its own symbol. */
  ghost predicate Consistent(order: seq<string>, holdings: map<string, Holding>)
  {
    Distinct(order) && (forall s :: s in holdings <==> s in order)
    && forall s :: s in holdings ==> holdings[s].symbol == s
  }

  /** Replacing a record by one filed under the same symbol keeps the dict consistent. */
  lemma ConsistentReplace(order: seq<string>, holdings: map<string, Holding>, sym: string, h: Holding)
    requires Consistent(order, holdings) && sym in holdings && h.symbol == sym
    ensures Consistent(order, holdings[sym := h])
  {
  }

  /** The keys of `order` other than sym, in order (dict.pop). */
  function Without(order: seq<string>, sym: string): (r: seq<string>)
    ensures forall s :: s in r <==> s in order && s != sym
    ensures Distinct(order) ==> Distinct(r)
    ensures |r| <= |order|
    ensures sym !in order ==> r == order
  {
    if order == [] then []
    else
      var init, last := order[..|order| - 1], order[|order| - 1];
      assert Distinct(order) ==> last !in init;
      if last == sym then Without(init, sym) else Without(init, sym) + [last]
  }

  /** Σ price × shares over the held symbols, in key order, skipping those without a price. */
  function MarketValue(order: seq<string>, holdings: map<string, Holding>, prices: map<string, real>): real
  {
    if order == [] then 0.0
    else
      var sym := order[|order| - 1];
      MarketValue(order[..|order| - 1], holdings, prices)
      + (if sym in prices && sym in holdings then prices[sym] * holdings[sym].shares as real else 0.0)
  }

  /**
   * Portfolio: cash, the open positions as a dict from symbol to record
   * (`order` is the dict's insertion order) and the equity history.
   */
  class Portfolio {
    var cash: real
    var positions: map<string, Holding>
    var order: seq<string>
    var history: seq<HistoryRow>

    ghost predicate Valid()
      reads this
    {
      Consistent(order, positions)
    }

    /** Portfolio(capital): all cash, nothing held, no history. */
    constructor (capital: real)
      ensures Valid() && cash == capital && positions == map[] && order == [] && history == []
    {
      cash, positions, order, history := capital, map[], [], [];
    }

    /** add_position: sets (or replaces) the record of sym; an existing key keeps its place in the order. */
    method AddPosition(sym: string, shares: int, price: real, stopLoss: Option<real>,
                       targetPrice: Option<real>, entryDate: int, highestPrice: Option<real>)
      requires Valid()
      modifies this
      ensures Valid()
      ensures positions == old(positions)[sym := Holding(sym, shares, price, entryDate, stopLoss, targetPrice, highestPrice)]
      ensures order == if sym in old(positions) then old(order) else old(order) + [sym]
      ensures cash == old(cash) && history == old(history)
    {
      if sym !in positions {
        order := order + [sym];
      }
      positions := positions[sym := Holding(sym, shares, price, entryDate, stopLoss, targetPrice, highestPrice)];
    }

    /** remove_position: pop with a default, so an absent symbol is a no-op. */
    method RemovePosition(sym: string)
      requires Valid()
      modifies this
      ensures Valid()
      ensures positions == old(positions) - {sym} && order == Without(old(order), sym)
      ensures cash == old(cash) && history == old(history)
    {
      positions := positions - {sym};
      order := Without(order, sym);
    }

    /** The loop of mark_to_market: cash plus Σ price × shares over held symbols that have a price. */
    method TotalValue(prices: map<string, real>) returns (total: real)
      requires Valid()
      ensures total == cash + MarketValue(order, positions, prices)
    {
      total := cash;
      var i := 0;
      while i < |order|
        invariant 0 <= i <= |order|
        invariant total == cash + MarketValue(order[..i], positions, prices)
      {
        var sym := order[i];
        ghost var pre, next := order[..i], order[..i + 1];
        assert next[..i] == pre && next[i] == sym;
        if sym in prices {
          total := total + prices[sym] * positions[sym].shares as real;
        }
        i := i + 1;
      }
      assert order[..|order|] == order;
    }

    /** mark_to_market: appends one row holding the total, the cash and the position count; returns the total. */
    method MarkToMarket(date: int, prices: map<string, real>) returns (total: real)
      requires Valid()
      modifies this`history
      ensures total == cash + MarketValue(order, positions, prices)
      ensures history == old(history) + [HistoryRow(date, total, cash, |positions|)]
    {
      total := TotalValue(prices);
      history := history + [HistoryRow(date, total, cash, |positions|)];
    }
  }
}
