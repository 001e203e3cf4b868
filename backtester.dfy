/**
 * The daily backtest state machine. Each business day runs four phases in
 * a fixed order: fill pending entries, evaluate exits, take new entries,
 * mark to market. The functions below are the specification of each phase
 * on the value of the whole state; the Backtester class runs the same
 * phases on the live portfolio and is proved to agree with them.
 */
module Backtest {
  import opened Wrappers
  import opened Bars
  import opened Signals
  import opened Exits
  import opened Portfolios
  import opened Weekdays

  datatype Side = Buy | Sell

  /** One row of the trade log; holding_days exists on SELL rows only. */
  datatype Trade = Trade(date: int, symbol: string, action: Side, price: real, shares: int,
                         pnl: real, commission: real, holdingDays: Option<int>, reason: string)

  /** An exit strategy as the backtester calls it: evaluate(position, bar), with the record it leaves. */
  type Evaluator = (Holding, ExitBar) -> (ExitDecision, Holding)

  /** The constructor arguments that the phases depend on. */
  datatype Config = Config(maxPositions: int, commissionRate: real, slippageBp: real, rule: Evaluator)

  /** The configured exit rule as an evaluator. */
  function RuleOf(rule: ExitRule): Evaluator
  {
    (h, bar) => Step(rule, h, bar)
  }

  /**
   * What the backtester relies on from an evaluation: the record stays the
   * same position (symbol, shares, entry), an exit is at the bar's close,
   * and the highest price is never lowered.
   */
  predicate Keeps(h: Holding, bar: ExitBar, r: (ExitDecision, Holding))
  {
    && r.1.symbol == h.symbol && r.1.shares == h.shares
    && r.1.entryPrice == h.entryPrice && r.1.entryDate == h.entryDate
    && (r.0.exit ==> r.0.price == Some(bar.close))
    && (h.highestPrice.Some? ==> r.1.highestPrice.Some? && r.1.highestPrice.value >= h.highestPrice.value)
  }

  ghost predicate Lawful(rule: Evaluator)
  {
    forall h, bar :: Keeps(h, bar, rule(h, bar))
  }

  /** Every configurable exit rule is lawful. */
  lemma RuleOfLawful(rule: ExitRule)
    ensures Lawful(RuleOf(rule))
  {
    forall h, bar ensures Keeps(h, bar, RuleOf(rule)(h, bar)) {
      StepKeepsRecord(rule, h, bar);
      StepNeverLowers(rule, h, bar);
    }
  }

  /**
   * Everything the backtest changes: portfolio cash, positions (with key
   * order) and history, trades, pending entries. `raised` says that the
   * sizer raised ZeroDivisionError out of run(); the other fields are then
   * what the objects held at that moment.
   */
  datatype State = State(cash: real, holdings: map<string, Holding>, order: seq<string>,
                         trades: seq<Trade>, pending: seq<Signal>, history: seq<HistoryRow>, raised: bool)

  /**
   * What run() returns: the history, the trades and the strategy's
   * to_dict() (None standing for the {} of a strategy without one); or the
   * ZeroDivisionError that a zero fill raises in the sizer.
   */
  datatype RunOutcome<C> =
    | Finished(history: seq<HistoryRow>, trades: seq<Trade>, strategyConfig: Option<C>)
    | DivisionByZero

  /** The day's market data: the frames of the symbols that have a bar on that day. */
  type Market = map<string, Frame>

  /** _apply_slippage: the fill moves against the trader by slippage_bp basis points. */
  function Slip(cfg: Config, raw: real, side: Side): real
  {
    var adj := raw * (cfg.slippageBp / 10000.0);
    if side == Buy then raw + adj else raw - adj
  }

  /** A BUY fills at raw × (1 + bp/10000), a SELL at raw × (1 − bp/10000). */
  lemma SlipFormula(cfg: Config, raw: real)
    ensures Slip(cfg, raw, Buy) == raw * (1.0 + cfg.slippageBp / 10000.0)
    ensures Slip(cfg, raw, Sell) == raw * (1.0 - cfg.slippageBp / 10000.0)
  {
  }

  /** _apply_commission. */
  function Commission(cfg: Config, gross: real): real
  {
    gross * cfg.commissionRate
  }

  function Max1(n: int): (r: int)
    ensures r >= 1 && (n >= 1 ==> r == n)
  {
    if n > 1 then n else 1
  }

  /**
   * equal_weight_sizer: int((cash / max(1, slots)) // price). A zero price
   * makes Python raise ZeroDivisionError; EntryStep models that raise.
   */
  function EqualWeightShares(cash: real, slots: int, price: real): int
    requires price != 0.0
  {
    ((cash / Max1(slots) as real) / price).Floor
  }

  /**
   * The sizer buys the most whole shares that the slot's equal share of
   * cash pays for at a positive price, and treats slots ≤ 0 as one slot.
   */
  lemma SizerBound(cash: real, slots: int, price: real)
    requires price != 0.0
    ensures var n := EqualWeightShares(cash, slots, price);
      price > 0.0 ==> n as real * price <= cash / Max1(slots) as real < (n + 1) as real * price
    ensures slots <= 0 ==> EqualWeightShares(cash, slots, price) == EqualWeightShares(cash, 1, price)
  {
    FloorBounds(cash / Max1(slots) as real, price);
  }

  lemma FloorBounds(a: real, b: real)
    requires b != 0.0
    ensures b > 0.0 ==> (a / b).Floor as real * b <= a < ((a / b).Floor + 1) as real * b
  {
    var q := a / b;
    var k := q.Floor;
    assert q * b == a;
    if b > 0.0 {
      MulMono(k as real, q, b);
      assert q < k as real + 1.0 == (k + 1) as real;
      MulMonoStrict(q, (k + 1) as real, b);
      assert q * b < (k + 1) as real * b;
      assert a < (k + 1) as real * b;
    }
  }

  lemma MulMono(x: real, y: real, b: real)
    requires x <= y && b > 0.0
    ensures x * b <= y * b
  {
  }

  lemma MulMonoStrict(x: real, y: real, b: real)
    requires x < y && b > 0.0
    ensures x * b < y * b
  {
  }

  /** Every frame of the day is well formed and has a close column (df.loc[dt, 'close'] would raise otherwise). */
  predicate Ready(md: Market)
  {
    forall s :: s in md ==> md[s].Valid() && Close in md[s].columns
  }

  /** The price _execute_entry fills at before slippage: the open when asked for and present, else the close. */
  function RawEntryPrice(f: Frame, dt: int, priceType: string): real
    requires f.Valid() && f.HasDay(dt)
  {
    if priceType == "open" && Open in f.columns then BarOn(f, dt).open else BarOn(f, dt).close
  }

  /** The BUY row's reason: meta['execution'] when present, else 'entry'. */
  function BuyReason(sig: Signal): string
  {
    if sig.meta.Some? && "execution" in sig.meta.value then sig.meta.value["execution"] else "entry"
  }

  /** What a BUY of `shares` at `fill` costs: the gross amount plus the commission on it. */
  function BuyTotal(cfg: Config, shares: int, fill: real): real
  {
    var gross := shares as real * fill;
    gross + Commission(cfg, gross)
  }

  /** The BUY row of the trade log. */
  function BuyTrade(cfg: Config, dt: int, sym: string, shares: int, fill: real, sig: Signal): Trade
  {
    Trade(dt, sym, Buy, fill, shares, 0.0, Commission(cfg, shares as real * fill), None, BuyReason(sig))
  }

  /**
   * _execute_entry: returns the new state and remaining slots. Nothing
   * happens when the symbol is held, there is no bar on dt, no slot is left,
   * the sizer gives no shares or the cost with commission exceeds the cash.
   * A zero fill makes the sizer raise: the state is marked raised and
   * otherwise unchanged.
   */
  function EntryStep(cfg: Config, st: State, dt: int, sym: string, f: Frame, sig: Signal,
                     priceType: string, slots: int): (State, int)
    requires f.Valid()
  {
    if sym in st.holdings || !f.HasDay(dt) || slots <= 0 then (st, slots)
    else
      var fill := Slip(cfg, RawEntryPrice(f, dt, priceType), Buy);
      if fill == 0.0 then (st.(raised := true), slots)
      else
      var shares := EqualWeightShares(st.cash, slots, fill);
      if shares <= 0 then (st, slots)
      else if BuyTotal(cfg, shares, fill) > st.cash then (st, slots)
      else (Bought(cfg, st, dt, sym, shares, fill, sig), slots - 1)
  }

  /** A filled BUY: the cost leaves the cash, the new position goes last in the dict and its row into the log. */
  function Bought(cfg: Config, st: State, dt: int, sym: string, shares: int, fill: real, sig: Signal): State
  {
    st.(cash := st.cash - BuyTotal(cfg, shares, fill),
        holdings := st.holdings[sym := Holding(sym, shares, fill, dt, sig.stopLoss, sig.targetPrice, Some(fill))],
        order := st.order + [sym],
        trades := st.trades + [BuyTrade(cfg, dt, sym, shares, fill, sig)])
  }

  /** The base price of a SELL: decision.price, or the close when it is None or 0. */
  function SellBase(d: ExitDecision, close: real): real
  {
    if d.price.Some? && d.price.value != 0.0 then d.price.value else close
  }

  /**
   * One iteration of _process_exits for a held symbol: raise the highest
   * price to the close, ask the exit rule, and on an exit book the sale.
   * The flag says whether the symbol is to be removed.
   */
  function ExitOne(cfg: Config, st: State, dt: int, md: Market, sym: string): (r: (State, bool))
    requires Ready(md) && sym in st.holdings
    ensures r.0.holdings.Keys == st.holdings.Keys
  {
    if sym !in md || !md[sym].HasDay(dt) then (st, false)
    else
      var close := BarOn(md[sym], dt).close;
      var h := st.holdings[sym];
      var step := cfg.rule(RaiseHighest(h, close), ExitBar(dt, close));
      var st1 := st.(holdings := st.holdings[sym := step.1]);
      if !step.0.exit then (st1, false)
      else
        var fill := Slip(cfg, SellBase(step.0, close), Sell);
        (st1.(cash := st.cash + SaleNet(cfg, fill, h.shares),
              trades := st.trades + [SellTrade(cfg, dt, sym, h, fill, step.0.reason)]),
         true)
  }

  /**
   * One exit iteration touches only sym's record, cash and the trade log:
   * key order, pending entries and history stay, at most one row is
   * appended, and cash moves only on a sale.
   */
  lemma ExitOneFrame(cfg: Config, st: State, dt: int, md: Market, sym: string)
    requires Ready(md) && sym in st.holdings
    ensures var r := ExitOne(cfg, st, dt, md, sym);
      && r.0.order == st.order && r.0.pending == st.pending && r.0.history == st.history
      && (forall s :: s in st.holdings && s != sym ==> r.0.holdings[s] == st.holdings[s])
      && |r.0.trades| == |st.trades| + (if r.1 then 1 else 0) && r.0.trades[..|st.trades|] == st.trades
      && (!r.1 ==> r.0.cash == st.cash)
  {
    var r := ExitOne(cfg, st, dt, md, sym);
    assert r.0.trades[..|st.trades|] == st.trades;
  }

  /** The highest price after _process_exits raises it to the day's close. */
  function RaiseHighest(h: Holding, close: real): Holding
  {
    h.(highestPrice := if h.highestPrice.None? || close > h.highestPrice.value then Some(close) else h.highestPrice)
  }

  /** The proceeds of a SELL of `shares` at `fill`, net of commission. */
  function SaleNet(cfg: Config, fill: real, shares: int): real
  {
    var gross := fill * shares as real;
    gross - Commission(cfg, gross)
  }

  /** The SELL row: pnl = (fill − entry) × shares − commission, holding_days = dt − entry date. */
  function SellTrade(cfg: Config, dt: int, sym: string, h: Holding, fill: real, reason: string): Trade
  {
    var commission := Commission(cfg, fill * h.shares as real);
    Trade(dt, sym, Sell, fill, h.shares, (fill - h.entryPrice) * h.shares as real - commission,
          commission, Some(dt - h.entryDate), reason)
  }

  /** The loop of _process_exits over a snapshot of the held symbols: the state and the symbols to remove. */
  function ExitLoop(cfg: Config, st: State, dt: int, md: Market, syms: seq<string>): (r: (State, seq<string>))
    requires Ready(md) && forall s :: s in syms ==> s in st.holdings
    ensures r.0.holdings.Keys == st.holdings.Keys
  {
    if syms == [] then (st, [])
    else
      var prev := ExitLoop(cfg, st, dt, md, syms[..|syms| - 1]);
      var sym := syms[|syms| - 1];
      var one := ExitOne(cfg, prev.0, dt, md, sym);
      (one.0, prev.1 + if one.1 then [sym] else [])
  }

  /** The exit loop over syms is ExitOne on the last symbol after the loop over the others. */
  lemma ExitLoopLast(cfg: Config, st: State, dt: int, md: Market, syms: seq<string>)
    requires Ready(md) && (forall s :: s in syms ==> s in st.holdings) && syms != []
    ensures forall s :: s in syms[..|syms| - 1] ==> s in st.holdings
    ensures syms[|syms| - 1] in ExitLoop(cfg, st, dt, md, syms[..|syms| - 1]).0.holdings
    ensures var prev := ExitLoop(cfg, st, dt, md, syms[..|syms| - 1]);
      var one := ExitOne(cfg, prev.0, dt, md, syms[|syms| - 1]);
      ExitLoop(cfg, st, dt, md, syms) == (one.0, prev.1 + if one.1 then [syms[|syms| - 1]] else [])
  {
  }

  /** The exit loop over the first i + 1 symbols is ExitOne on symbol i after the loop over the first i. */
  lemma ExitLoopNext(cfg: Config, st: State, dt: int, md: Market, syms: seq<string>, i: nat)
    requires Ready(md) && (forall s :: s in syms ==> s in st.holdings) && i < |syms|
    ensures forall s :: s in syms[..i] ==> s in st.holdings
    ensures syms[i] in ExitLoop(cfg, st, dt, md, syms[..i]).0.holdings
    ensures var prev := ExitLoop(cfg, st, dt, md, syms[..i]);
      var one := ExitOne(cfg, prev.0, dt, md, syms[i]);
      ExitLoop(cfg, st, dt, md, syms[..i + 1]) == (one.0, prev.1 + if one.1 then [syms[i]] else [])
  {
    assert syms[..i + 1][..i] == syms[..i] && syms[..i + 1][i] == syms[i];
  }

  /**
   * The exit loop keeps key order, pending entries and history, leaves the
   * records of symbols it does not visit alone and marks only visited ones.
   */
  lemma {:induction false} ExitLoopFrame(cfg: Config, st: State, dt: int, md: Market, syms: seq<string>)
    requires Ready(md) && forall s :: s in syms ==> s in st.holdings
    ensures var r := ExitLoop(cfg, st, dt, md, syms);
      && r.0.order == st.order && r.0.pending == st.pending && r.0.history == st.history
      && (forall s :: s in st.holdings && s !in syms ==> r.0.holdings[s] == st.holdings[s])
      && (forall s :: s in r.1 ==> s in syms)
  {
    if syms != [] {
      var init := syms[..|syms| - 1];
      var sym := syms[|syms| - 1];
      assert forall s :: s in syms <==> s in init || s == sym by {
        assert syms == init + [sym];
      }
      ExitLoopFrame(cfg, st, dt, md, init);
      ExitOneFrame(cfg, ExitLoop(cfg, st, dt, md, init).0, dt, md, sym);
    }
  }

  /** The removal loop of _process_exits. */
  function RemoveAll(st: State, syms: seq<string>): (r: State)
    ensures r.holdings == st.holdings - set s | s in syms
    ensures r.cash == st.cash && r.trades == st.trades && r.pending == st.pending && r.history == st.history
  {
    if syms == [] then st
    else
      var prev := RemoveAll(st, syms[..|syms| - 1]);
      var sym := syms[|syms| - 1];
      assert forall s :: s in syms <==> s in syms[..|syms| - 1] || s == sym by {
        assert syms == syms[..|syms| - 1] + [sym];
      }
      prev.(holdings := prev.holdings - {sym}, order := Without(prev.order, sym))
  }

  /** _process_exits. */
  function ExitPhase(cfg: Config, st: State, dt: int, md: Market): (r: State)
    requires Ready(md) && Consistent(st.order, st.holdings)
    ensures r.history == st.history && r.pending == st.pending
  {
    ExitLoopFrame(cfg, st, dt, md, st.order);
    var loop := ExitLoop(cfg, st, dt, md, st.order);
    RemoveAll(loop.0, loop.1)
  }

  /** The price type of an entry signal: exec_price_type, defaulting to `default`. */
  function PriceTypeOr(sig: Signal, default: string): string
  {
    sig.execPriceType.GetOr(default)
  }

  /** The loop of _process_entries from signal k on, with its break when the slots run out; a raise ends it. */
  function EntriesFrom(cfg: Config, st: State, dt: int, md: Market, sigs: seq<Signal>, k: nat, slots: int): State
    requires Ready(md)
    decreases |sigs| - k
  {
    if k >= |sigs| then st
    else
      var sig := sigs[k];
      if sig.symbol !in md then EntriesFrom(cfg, st, dt, md, sigs, k + 1, slots)
      else if sig.execDate.Some? && sig.execDate.value != dt then
        EntriesFrom(cfg, st.(pending := st.pending + [sig.(execPriceType := Some(PriceTypeOr(sig, "close")))]),
                    dt, md, sigs, k + 1, slots)
      else
        var step := EntryStep(cfg, st, dt, sig.symbol, md[sig.symbol], sig, PriceTypeOr(sig, "close"), slots);
        if step.0.raised || step.1 <= 0 then step.0 else EntriesFrom(cfg, step.0, dt, md, sigs, k + 1, step.1)
  }

  /** _process_entries: nothing at all when no slot is free. */
  function EntriesPhase(cfg: Config, st: State, dt: int, md: Market, sigs: seq<Signal>): (r: State)
    requires Ready(md)
    ensures r.history == st.history
  {
    EntriesPhaseHistory(cfg, st, dt, md, sigs);
    var slots := cfg.maxPositions - |st.holdings|;
    if slots <= 0 then st else EntriesFrom(cfg, st, dt, md, sigs, 0, slots)
  }

  /** Whether _process_pending_entries keeps a pending signal without trying it. */
  predicate StaysPending(sig: Signal, dt: int, md: Market, slots: int)
  {
    slots <= 0 || sig.execDate != Some(dt) || sig.symbol !in md
  }

  /** The loop of _process_pending_entries from pending signal k on: the state and the signals kept; a raise ends it. */
  function PendingFrom(cfg: Config, st: State, dt: int, md: Market, list: seq<Signal>, k: nat, slots: int): (r: (State, seq<Signal>))
    requires Ready(md)
    decreases |list| - k
  {
    if k >= |list| then (st, [])
    else
      var sig := list[k];
      if StaysPending(sig, dt, md, slots) then
        var rest := PendingFrom(cfg, st, dt, md, list, k + 1, slots);
        (rest.0, [sig] + rest.1)
      else
        var step := EntryStep(cfg, st, dt, sig.symbol, md[sig.symbol], sig, PriceTypeOr(sig, "open"), slots);
        if step.0.raised then (step.0, []) else PendingFrom(cfg, step.0, dt, md, list, k + 1, step.1)
  }

  /** _process_pending_entries: the pending list becomes the signals kept, unless the loop raised before that assignment. */
  function PendingPhase(cfg: Config, st: State, dt: int, md: Market): (r: State)
    requires Ready(md)
    ensures r.history == st.history
  {
    PendingFromHistory(cfg, st, dt, md, st.pending, 0, cfg.maxPositions - |st.holdings|);
    var r := PendingFrom(cfg, st, dt, md, st.pending, 0, cfg.maxPositions - |st.holdings|);
    if r.0.raised then r.0 else r.0.(pending := r.1)
  }

  /** The closes passed to mark_to_market: one per symbol with a bar on dt. */
  function ClosePrices(md: Market, dt: int): map<string, real>
    requires Ready(md)
  {
    map s | s in md && md[s].HasDay(dt) :: BarOn(md[s], dt).close
  }

  /** mark_to_market on the day's closes. */
  function MarkPhase(st: State, dt: int, md: Market): State
    requires Ready(md)
  {
    var total := st.cash + MarketValue(st.order, st.holdings, ClosePrices(md, dt));
    st.(history := st.history + [HistoryRow(dt, total, st.cash, |st.holdings|)])
  }

  /** One day of run(): pending → exits → entries → mark to market; a raise in either entry phase ends the day there. */
  function Day(cfg: Config, st: State, dt: int, md: Market, sigs: seq<Signal>): (r: State)
    requires Ready(md) && Consistent(st.order, st.holdings)
    ensures st.history <= r.history
    ensures !r.raised ==> |r.history| == |st.history| + 1 && r.history[|st.history|].date == dt
    ensures r.raised ==> r.history == st.history
  {
    var s1 := PendingPhase(cfg, st, dt, md);
    if s1.raised then s1
    else
      EntryStepsConsistent(cfg, st, dt, md);
      var s2 := ExitPhase(cfg, s1, dt, md);
      var s3 := EntriesPhase(cfg, s2, dt, md, sigs);
      if s3.raised then s3 else MarkPhase(s3, dt, md)
  }

  lemma EntryStepsConsistent(cfg: Config, st: State, dt: int, md: Market)
    requires Ready(md) && Consistent(st.order, st.holdings)
    ensures Consistent(PendingPhase(cfg, st, dt, md).order, PendingPhase(cfg, st, dt, md).holdings)
  {
    PendingKeepsConsistent(cfg, st, dt, md, st.pending, 0, cfg.maxPositions - |st.holdings|);
  }

  lemma ExitPhaseConsistent(cfg: Config, st: State, dt: int, md: Market)
    requires Ready(md) && Consistent(st.order, st.holdings) && Lawful(cfg.rule)
    ensures Consistent(ExitPhase(cfg, st, dt, md).order, ExitPhase(cfg, st, dt, md).holdings)
  {
    var loop := ExitLoop(cfg, st, dt, md, st.order);
    ExitLoopFrame(cfg, st, dt, md, st.order);
    ExitLoopSymbols(cfg, st, dt, md, st.order);
    RemoveAllConsistent(loop.0, loop.1);
  }

  lemma {:induction false} ExitLoopSymbols(cfg: Config, st: State, dt: int, md: Market, syms: seq<string>)
    requires Ready(md) && Lawful(cfg.rule) && forall s :: s in syms ==> s in st.holdings
    requires forall s :: s in st.holdings ==> st.holdings[s].symbol == s
    ensures forall s :: s in st.holdings ==> ExitLoop(cfg, st, dt, md, syms).0.holdings[s].symbol == s
  {
    if syms != [] {
      ExitLoopSymbols(cfg, st, dt, md, syms[..|syms| - 1]);
      var prev := ExitLoop(cfg, st, dt, md, syms[..|syms| - 1]);
      ExitOneKeepsSymbol(cfg, prev.0, dt, md, syms[|syms| - 1]);
    }
  }

  lemma ExitOneKeepsSymbol(cfg: Config, st: State, dt: int, md: Market, sym: string)
    requires Ready(md) && sym in st.holdings && Lawful(cfg.rule)
    ensures ExitOne(cfg, st, dt, md, sym).0.holdings[sym].symbol == st.holdings[sym].symbol
    ensures ExitOne(cfg, st, dt, md, sym).0.holdings[sym].shares == st.holdings[sym].shares
  {
    if sym in md && md[sym].HasDay(dt) {
      var close := BarOn(md[sym], dt).close;
      var raised := RaiseHighest(st.holdings[sym], close);
      assert Keeps(raised, ExitBar(dt, close), cfg.rule(raised, ExitBar(dt, close)));
    }
  }

  lemma {:induction false} RemoveAllConsistent(st: State, syms: seq<string>)
    requires Consistent(st.order, st.holdings)
    ensures Consistent(RemoveAll(st, syms).order, RemoveAll(st, syms).holdings)
  {
    if syms != [] {
      RemoveAllConsistent(st, syms[..|syms| - 1]);
    }
  }

  lemma {:induction false} PendingKeepsConsistent(cfg: Config, st: State, dt: int, md: Market, list: seq<Signal>, k: nat, slots: int)
    requires Ready(md) && Consistent(st.order, st.holdings)
    ensures var r := PendingFrom(cfg, st, dt, md, list, k, slots).0; Consistent(r.order, r.holdings)
    decreases |list| - k
  {
    if k < |list| {
      var sig := list[k];
      if StaysPending(sig, dt, md, slots) {
        PendingKeepsConsistent(cfg, st, dt, md, list, k + 1, slots);
      } else {
        var step := EntryStep(cfg, st, dt, sig.symbol, md[sig.symbol], sig, PriceTypeOr(sig, "open"), slots);
        EntryStepConsistent(cfg, st, dt, sig.symbol, md[sig.symbol], sig, PriceTypeOr(sig, "open"), slots);
        if !step.0.raised {
          PendingKeepsConsistent(cfg, step.0, dt, md, list, k + 1, step.1);
        }
      }
    }
  }

  lemma EntryStepConsistent(cfg: Config, st: State, dt: int, sym: string, f: Frame, sig: Signal, priceType: string, slots: int)
    requires f.Valid()
    requires Consistent(st.order, st.holdings)
    ensures var r := EntryStep(cfg, st, dt, sym, f, sig, priceType, slots).0; Consistent(r.order, r.holdings)
  {
    var r := EntryStep(cfg, st, dt, sym, f, sig, priceType, slots).0;
    if r.order != st.order {
      assert sym !in st.order;
      assert r.order == st.order + [sym];
    }
  }

  // ---------------------------------------------------------------------
  // Properties of the phases
  // ---------------------------------------------------------------------

  /** Costs the backtester is meant to run with: a commission rate in [0, 1] and slippage in [0, 10000] bp. */
  predicate SaneCosts(cfg: Config)
  {
    0.0 <= cfg.commissionRate <= 1.0 && 0.0 <= cfg.slippageBp <= 10000.0
  }

  /** No close of the day is negative. */
  predicate NonNegativeCloses(md: Market, dt: int)
    requires Ready(md)
  {
    forall s :: s in md && md[s].HasDay(dt) ==> BarOn(md[s], dt).close >= 0.0
  }

  /** What every phase keeps: a well-formed position dict, no debt, no more than max_positions positions, none of them empty. */
  ghost predicate Sane(cfg: Config, st: State)
  {
    Consistent(st.order, st.holdings) && st.cash >= 0.0 && |st.holdings| <= cfg.maxPositions
    && forall s :: s in st.holdings ==> st.holdings[s].shares > 0
  }

  /** The loop invariant of the entry phases: Sane, with the slots left accounting for every position. */
  ghost predicate Budget(cfg: Config, st: State, slots: int)
  {
    Consistent(st.order, st.holdings) && st.cash >= 0.0 && slots >= 0
    && |st.holdings| + slots == cfg.maxPositions
    && forall s :: s in st.holdings ==> st.holdings[s].shares > 0
  }

  /** With non-negative slippage a BUY never fills below the raw price and a SELL never above it. */
  lemma SlippageAgainstTrader(cfg: Config, raw: real)
    requires cfg.slippageBp >= 0.0 && raw >= 0.0
    ensures Slip(cfg, raw, Sell) <= raw <= Slip(cfg, raw, Buy)
    ensures cfg.slippageBp <= 10000.0 ==> Slip(cfg, raw, Sell) >= 0.0
  {
    SlipFormula(cfg, raw);
    MulNonNegative(raw, cfg.slippageBp / 10000.0);
    if cfg.slippageBp <= 10000.0 {
      MulNonNegative(raw, 1.0 - cfg.slippageBp / 10000.0);
    }
  }

  lemma MulNonNegative(x: real, y: real)
    requires x >= 0.0 && y >= 0.0
    ensures x * y >= 0.0
  {
  }

  /**
   * _execute_entry fills exactly when the symbol is not held, it has a bar,
   * a slot is free, the fill is not zero, the sizer gives a positive count
   * and the cost with commission is covered by the cash; otherwise the
   * slots and every field but the raise flag stay as they were.
   */
  lemma EntryFillsIff(cfg: Config, st: State, dt: int, sym: string, f: Frame, sig: Signal, priceType: string, slots: int)
    requires f.Valid()
    ensures var r := EntryStep(cfg, st, dt, sym, f, sig, priceType, slots);
      (r.1 == slots - 1 <==>
        (sym !in st.holdings && f.HasDay(dt) && slots > 0 &&
         var fill := Slip(cfg, RawEntryPrice(f, dt, priceType), Buy);
         fill != 0.0 &&
         var n := EqualWeightShares(st.cash, slots, fill);
         n > 0 && n as real * fill + Commission(cfg, n as real * fill) <= st.cash))
      && (r.1 != slots - 1 ==> r.1 == slots && r.0 == st.(raised := r.0.raised))
  {
    if sym !in st.holdings && f.HasDay(dt) && slots > 0 {
      var fill := Slip(cfg, RawEntryPrice(f, dt, priceType), Buy);
      if fill != 0.0 {
        var n := EqualWeightShares(st.cash, slots, fill);
        assert EntryStep(cfg, st, dt, sym, f, sig, priceType, slots).1 ==
          if n > 0 && n as real * fill + Commission(cfg, n as real * fill) <= st.cash then slots - 1 else slots;
      }
    }
  }

  /**
   * _execute_entry raises ZeroDivisionError exactly when it reaches the
   * sizer (the symbol is not held, it has a bar, a slot is free) with a
   * zero fill; a fill keeps the flag as it was.
   */
  lemma EntryRaisesIff(cfg: Config, st: State, dt: int, sym: string, f: Frame, sig: Signal, priceType: string, slots: int)
    requires f.Valid()
    ensures var r := EntryStep(cfg, st, dt, sym, f, sig, priceType, slots);
      r.0.raised <==>
        (st.raised || (sym !in st.holdings && f.HasDay(dt) && slots > 0 && Slip(cfg, RawEntryPrice(f, dt, priceType), Buy) == 0.0))
  {
  }

  /**
   * A fill adds one position under sym, recorded at the slipped price with
   * the signal's stop and target and the fill as highest price, takes its
   * cost out of cash without going negative, and logs one BUY row; the
   * shares bought are worth no more than an equal share of the cash.
   */
  lemma EntryFillEffect(cfg: Config, st: State, dt: int, sym: string, f: Frame, sig: Signal, priceType: string, slots: int)
    requires f.Valid()
    requires EntryStep(cfg, st, dt, sym, f, sig, priceType, slots).1 == slots - 1
    ensures var r := EntryStep(cfg, st, dt, sym, f, sig, priceType, slots).0;
      var fill := Slip(cfg, RawEntryPrice(f, dt, priceType), Buy);
      var t := r.trades[|r.trades| - 1];
      && sym !in st.holdings && r.holdings.Keys == st.holdings.Keys + {sym}
      && r.holdings[sym] == Holding(sym, t.shares, fill, dt, sig.stopLoss, sig.targetPrice, Some(fill))
      && r.trades[..|r.trades| - 1] == st.trades
      && t == Trade(dt, sym, Buy, fill, t.shares, 0.0, cfg.commissionRate * (t.shares as real * fill), None, BuyReason(sig))
      && t.shares > 0 && 0.0 <= r.cash == st.cash - t.shares as real * fill * (1.0 + cfg.commissionRate)
      && (fill > 0.0 ==> t.shares as real * fill <= st.cash / slots as real)
      && r.pending == st.pending && r.history == st.history && r.raised == st.raised
  {
    var r := EntryStep(cfg, st, dt, sym, f, sig, priceType, slots).0;
    SizerBound(st.cash, slots, Slip(cfg, RawEntryPrice(f, dt, priceType), Buy));
    assert r.trades[..|r.trades| - 1] == st.trades;
  }

  /** One position per symbol: a second entry on a held symbol is ignored. */
  lemma NoPyramiding(cfg: Config, st: State, dt: int, sym: string, f: Frame, sig: Signal, priceType: string, slots: int)
    requires f.Valid()
    requires sym in st.holdings
    ensures EntryStep(cfg, st, dt, sym, f, sig, priceType, slots) == (st, slots)
  {
  }

  lemma EntryStepBudget(cfg: Config, st: State, dt: int, sym: string, f: Frame, sig: Signal, priceType: string, slots: int)
    requires f.Valid()
    requires Budget(cfg, st, slots)
    ensures var r := EntryStep(cfg, st, dt, sym, f, sig, priceType, slots); Budget(cfg, r.0, r.1)
  {
    if sym !in st.holdings && f.HasDay(dt) && slots > 0 {
      var fill := Slip(cfg, RawEntryPrice(f, dt, priceType), Buy);
      if fill != 0.0 {
        var shares := EqualWeightShares(st.cash, slots, fill);
        if shares > 0 && BuyTotal(cfg, shares, fill) <= st.cash {
          BoughtBudget(cfg, st, dt, sym, shares, fill, sig, slots);
        }
      }
    }
  }

  /** A filled BUY takes one slot and keeps the budget: the new position is not empty and the cash stays non-negative. */
  lemma BoughtBudget(cfg: Config, st: State, dt: int, sym: string, shares: int, fill: real, sig: Signal, slots: int)
    requires Budget(cfg, st, slots) && sym !in st.holdings && slots > 0 && shares > 0
    requires BuyTotal(cfg, shares, fill) <= st.cash
    ensures Budget(cfg, Bought(cfg, st, dt, sym, shares, fill, sig), slots - 1)
  {
    var b := Bought(cfg, st, dt, sym, shares, fill, sig);
    assert sym !in st.order;
    assert b.holdings.Keys == st.holdings.Keys + {sym};
  }

  /**
   * A SELL: the position's record after the rule ran is kept until the
   * removal loop, cash grows by the proceeds net of commission and one SELL
   * row logs pnl = (fill − entry) × shares − commission at the slipped close.
   */
  lemma ExitSaleEffect(cfg: Config, st: State, dt: int, md: Market, sym: string)
    requires Ready(md) && sym in st.holdings && Lawful(cfg.rule)
    requires ExitOne(cfg, st, dt, md, sym).1
    ensures var r := ExitOne(cfg, st, dt, md, sym).0;
      var h := st.holdings[sym];
      var t := r.trades[|r.trades| - 1];
      && sym in md && md[sym].HasDay(dt)
      && t.price == Slip(cfg, BarOn(md[sym], dt).close, Sell)
      && r.trades[..|r.trades| - 1] == st.trades
      && t.action == Sell && t.symbol == sym && t.date == dt && t.shares == h.shares
      && t.commission == cfg.commissionRate * (t.price * h.shares as real)
      && t.pnl == (t.price - h.entryPrice) * h.shares as real - t.commission
      && t.holdingDays == Some(dt - h.entryDate)
      && r.cash == st.cash + t.price * h.shares as real - t.commission
  {
    var r := ExitOne(cfg, st, dt, md, sym).0;
    var close := BarOn(md[sym], dt).close;
    var raised := RaiseHighest(st.holdings[sym], close);
    assert Keeps(raised, ExitBar(dt, close), cfg.rule(raised, ExitBar(dt, close)));
    assert r.trades[..|r.trades| - 1] == st.trades;
  }

  /** A symbol without a bar on dt is not looked at: no exit check, no highest-price update. */
  lemma NoBarNoExit(cfg: Config, st: State, dt: int, md: Market, sym: string)
    requires Ready(md) && sym in st.holdings
    requires sym !in md || !md[sym].HasDay(dt)
    ensures ExitOne(cfg, st, dt, md, sym) == (st, false)
  {
  }

  /** The close seen by an exit never lowers the recorded highest price, whatever the rule. */
  lemma ExitRaisesHighest(cfg: Config, st: State, dt: int, md: Market, sym: string)
    requires Ready(md) && sym in st.holdings && sym in md && md[sym].HasDay(dt) && Lawful(cfg.rule)
    ensures var h := ExitOne(cfg, st, dt, md, sym).0.holdings[sym].highestPrice;
      h.Some? && h.value >= BarOn(md[sym], dt).close
      && (st.holdings[sym].highestPrice.Some? ==> h.value >= st.holdings[sym].highestPrice.value)
  {
    var close := BarOn(md[sym], dt).close;
    var h := st.holdings[sym];
    var raised := RaiseHighest(h, close);
    assert Keeps(raised, ExitBar(dt, close), cfg.rule(raised, ExitBar(dt, close)));
  }

  /** `after` is `before` followed by one SELL row per symbol of syms, in order. */
  predicate LogsSales(before: seq<Trade>, after: seq<Trade>, syms: seq<string>)
  {
    && |after| == |before| + |syms| && after[..|before|] == before
    && forall j :: 0 <= j < |syms| ==>
         after[|before| + j].symbol == syms[j] && after[|before| + j].action == Sell
  }

  /**
   * The exit loop logs one SELL row per symbol it marks for removal, in the
   * same order, each right after the trades that were there before.
   */
  lemma {:induction false} ExitLoopLog(cfg: Config, st: State, dt: int, md: Market, syms: seq<string>)
    requires Ready(md) && forall s :: s in syms ==> s in st.holdings
    ensures var r := ExitLoop(cfg, st, dt, md, syms); LogsSales(st.trades, r.0.trades, r.1)
  {
    if syms != [] {
      var init := syms[..|syms| - 1];
      var sym := syms[|syms| - 1];
      ExitLoopLog(cfg, st, dt, md, init);
      ExitLoopLast(cfg, st, dt, md, syms);
      var prev := ExitLoop(cfg, st, dt, md, init);
      ExitOneFrame(cfg, prev.0, dt, md, sym);
      ExitOneLog(cfg, prev.0, dt, md, sym);
      var one := ExitOne(cfg, prev.0, dt, md, sym);
      if one.1 {
        LogAppend(st.trades, prev.0.trades, one.0.trades, prev.1, prev.1 + [sym]);
      } else {
        LogAppend(st.trades, prev.0.trades, one.0.trades, prev.1, prev.1);
        EmptyAppend(prev.1);
      }
    }
  }

  /** Extending a log of SELL rows by at most one SELL row for the next symbol. */
  lemma LogAppend(before: seq<Trade>, a: seq<Trade>, b: seq<Trade>, p: seq<string>, q: seq<string>)
    requires LogsSales(before, a, p) && |b| == |before| + |q| && |p| <= |q| && b[..|a|] == a
    requires q == p || (|q| == |p| + 1 && q[..|p|] == p && b[|a|].symbol == q[|p|] && b[|a|].action == Sell)
    ensures LogsSales(before, b, q)
  {
    var n := |before|;
    assert b[..n] == b[..|a|][..n] == a[..n] == before;
    forall j | 0 <= j < |q|
      ensures b[n + j].symbol == q[j] && b[n + j].action == Sell
    {
      if j < |p| {
        assert b[..|a|][n + j] == a[n + j];
        assert q[j] == p[j] by {
          if q != p {
            assert q[..|p|][j] == p[j];
          }
        }
      } else {
        assert q != p && j == |p| && n + j == |a|;
      }
    }
  }

  /** A sale appends one SELL row for the symbol. */
  lemma ExitOneLog(cfg: Config, st: State, dt: int, md: Market, sym: string)
    requires Ready(md) && sym in st.holdings
    ensures var r := ExitOne(cfg, st, dt, md, sym);
      r.1 ==> r.0.trades[|st.trades|].symbol == sym && r.0.trades[|st.trades|].action == Sell
  {
  }

  /** After _process_exits exactly the symbols logged as sold are gone, and nothing else. */
  lemma ExitPhaseRemovesSold(cfg: Config, st: State, dt: int, md: Market)
    requires Ready(md) && Consistent(st.order, st.holdings)
    ensures var r := ExitPhase(cfg, st, dt, md);
      && |st.trades| <= |r.trades| && r.trades[..|st.trades|] == st.trades
      && var sold := r.trades[|st.trades|..];
      && (forall t :: t in sold ==> t.action == Sell)
      && r.holdings.Keys == st.holdings.Keys - set t | t in sold :: t.symbol
  {
    var loop := ExitLoop(cfg, st, dt, md, st.order);
    ExitLoopLog(cfg, st, dt, md, st.order);
    SoldSymbols(loop.0.trades[|st.trades|..], loop.1);
  }

  lemma SoldSymbols(sold: seq<Trade>, syms: seq<string>)
    requires |sold| == |syms| && forall j :: 0 <= j < |syms| ==> sold[j].symbol == syms[j]
    ensures (set t | t in sold :: t.symbol) == set s | s in syms
  {
    forall s | s in syms ensures s in set t | t in sold :: t.symbol {
      var j :| 0 <= j < |syms| && syms[j] == s;
      assert sold[j] in sold;
    }
  }

  /** One exit iteration keeps cash non-negative and leaves every record filed under its symbol with shares. */
  lemma ExitOneSane(cfg: Config, st: State, dt: int, md: Market, sym: string)
    requires Ready(md) && Lawful(cfg.rule) && SaneCosts(cfg) && NonNegativeCloses(md, dt) && sym in st.holdings
    requires st.cash >= 0.0 && forall s :: s in st.holdings ==> st.holdings[s].shares > 0 && st.holdings[s].symbol == s
    ensures var r := ExitOne(cfg, st, dt, md, sym).0;
      r.cash >= 0.0 && forall s :: s in r.holdings ==> r.holdings[s].shares > 0 && r.holdings[s].symbol == s
  {
    if sym in md && md[sym].HasDay(dt) {
      var close := BarOn(md[sym], dt).close;
      var h := st.holdings[sym];
      var step := cfg.rule(RaiseHighest(h, close), ExitBar(dt, close));
      assert Keeps(RaiseHighest(h, close), ExitBar(dt, close), step);
      if step.0.exit {
        SlippageAgainstTrader(cfg, close);
        SaleNetNonNegative(cfg, Slip(cfg, close, Sell), h.shares);
      }
    }
  }

  /** With a commission rate of at most 1 a sale at a non-negative price never costs cash. */
  lemma SaleNetNonNegative(cfg: Config, fill: real, shares: int)
    requires SaneCosts(cfg) && fill >= 0.0 && shares >= 0
    ensures SaleNet(cfg, fill, shares) >= 0.0
  {
    var gross := fill * shares as real;
    MulNonNegative(fill, shares as real);
    MulNonNegative(gross, 1.0 - cfg.commissionRate);
    assert SaleNet(cfg, fill, shares) == gross * (1.0 - cfg.commissionRate);
  }

  lemma {:induction false} ExitLoopSane(cfg: Config, st: State, dt: int, md: Market, syms: seq<string>)
    requires Ready(md) && Lawful(cfg.rule) && SaneCosts(cfg) && NonNegativeCloses(md, dt)
    requires forall s :: s in syms ==> s in st.holdings
    requires st.cash >= 0.0 && forall s :: s in st.holdings ==> st.holdings[s].shares > 0 && st.holdings[s].symbol == s
    ensures var r := ExitLoop(cfg, st, dt, md, syms).0;
      r.cash >= 0.0 && forall s :: s in r.holdings ==> r.holdings[s].shares > 0 && r.holdings[s].symbol == s
  {
    if syms != [] {
      var init := syms[..|syms| - 1];
      ExitLoopSane(cfg, st, dt, md, init);
      ExitOneSane(cfg, ExitLoop(cfg, st, dt, md, init).0, dt, md, syms[|syms| - 1]);
    }
  }

  /** _process_exits keeps the portfolio sane: sales only add cash and removals only shrink the dict. */
  lemma ExitPhaseSane(cfg: Config, st: State, dt: int, md: Market)
    requires Ready(md) && Lawful(cfg.rule) && SaneCosts(cfg) && NonNegativeCloses(md, dt) && Sane(cfg, st)
    ensures Sane(cfg, ExitPhase(cfg, st, dt, md))
  {
    ExitLoopSane(cfg, st, dt, md, st.order);
    ExitPhaseConsistent(cfg, st, dt, md);
    var loop := ExitLoop(cfg, st, dt, md, st.order);
    var r := ExitPhase(cfg, st, dt, md);
    assert r.holdings.Keys <= st.holdings.Keys;
    SubsetCard(r.holdings.Keys, st.holdings.Keys);
  }

  lemma SubsetCard<T>(a: set<T>, b: set<T>)
    requires a <= b
    ensures |a| <= |b|
  {
    if a != {} {
      var x :| x in a;
      SubsetCard(a - {x}, b - {x});
    }
  }

  lemma {:induction false} PendingFromBudget(cfg: Config, st: State, dt: int, md: Market, list: seq<Signal>, k: nat, slots: int)
    requires Ready(md) && Budget(cfg, st, slots)
    ensures Sane(cfg, PendingFrom(cfg, st, dt, md, list, k, slots).0)
    decreases |list| - k
  {
    if k < |list| {
      var sig := list[k];
      if StaysPending(sig, dt, md, slots) {
        PendingFromBudget(cfg, st, dt, md, list, k + 1, slots);
      } else {
        var step := EntryStep(cfg, st, dt, sig.symbol, md[sig.symbol], sig, PriceTypeOr(sig, "open"), slots);
        EntryStepBudget(cfg, st, dt, sig.symbol, md[sig.symbol], sig, PriceTypeOr(sig, "open"), slots);
        if !step.0.raised {
          PendingFromBudget(cfg, step.0, dt, md, list, k + 1, step.1);
        }
      }
    }
  }

  lemma PendingPhaseSane(cfg: Config, st: State, dt: int, md: Market)
    requires Ready(md) && Sane(cfg, st)
    ensures Sane(cfg, PendingPhase(cfg, st, dt, md))
  {
    PendingFromBudget(cfg, st, dt, md, st.pending, 0, cfg.maxPositions - |st.holdings|);
  }

  lemma {:induction false} EntriesFromBudget(cfg: Config, st: State, dt: int, md: Market, sigs: seq<Signal>, k: nat, slots: int)
    requires Ready(md) && Budget(cfg, st, slots)
    ensures Sane(cfg, EntriesFrom(cfg, st, dt, md, sigs, k, slots))
    decreases |sigs| - k
  {
    if k < |sigs| {
      var sig := sigs[k];
      if sig.symbol !in md {
        EntriesFromBudget(cfg, st, dt, md, sigs, k + 1, slots);
      } else if sig.execDate.Some? && sig.execDate.value != dt {
        var queued := st.(pending := st.pending + [sig.(execPriceType := Some(PriceTypeOr(sig, "close")))]);
        assert Budget(cfg, queued, slots);
        EntriesFromBudget(cfg, queued, dt, md, sigs, k + 1, slots);
      } else {
        var step := EntryStep(cfg, st, dt, sig.symbol, md[sig.symbol], sig, PriceTypeOr(sig, "close"), slots);
        EntryStepBudget(cfg, st, dt, sig.symbol, md[sig.symbol], sig, PriceTypeOr(sig, "close"), slots);
        if !step.0.raised && step.1 > 0 {
          EntriesFromBudget(cfg, step.0, dt, md, sigs, k + 1, step.1);
        }
      }
    }
  }

  lemma EntriesPhaseSane(cfg: Config, st: State, dt: int, md: Market, sigs: seq<Signal>)
    requires Ready(md) && Sane(cfg, st)
    ensures Sane(cfg, EntriesPhase(cfg, st, dt, md, sigs))
  {
    var slots := cfg.maxPositions - |st.holdings|;
    if slots > 0 {
      EntriesFromBudget(cfg, st, dt, md, sigs, 0, slots);
    }
  }

  /**
   * The invariant of run(): if the costs are sane and no close is negative,
   * every day ends with a well-formed portfolio, cash ≥ 0, at most
   * max_positions positions and no empty position.
   */
  lemma DaySane(cfg: Config, st: State, dt: int, md: Market, sigs: seq<Signal>)
    requires Ready(md) && Lawful(cfg.rule) && SaneCosts(cfg) && NonNegativeCloses(md, dt)
    requires Sane(cfg, st)
    ensures Sane(cfg, Day(cfg, st, dt, md, sigs))
  {
    var s1 := PendingPhase(cfg, st, dt, md);
    PendingPhaseSane(cfg, st, dt, md);
    if !s1.raised {
      var s2 := ExitPhase(cfg, s1, dt, md);
      ExitPhaseSane(cfg, s1, dt, md);
      EntriesPhaseSane(cfg, s2, dt, md, sigs);
    }
  }

  /** A round trip on a flat price of 100 with 10 bp slippage and 0.1% commission loses money. */
  lemma FlatRoundTripLoses(shares: nat)
    requires shares > 0
    ensures var cfg := Config(5, 0.001, 10.0, RuleOf(FixedRisk));
      var buy := Slip(cfg, 100.0, Buy);
      var sell := Slip(cfg, 100.0, Sell);
      && buy == 100.1 && sell == 99.9
      && (sell - buy) * shares as real - Commission(cfg, sell * shares as real) < 0.0
  {
    SlipFormula(Config(5, 0.001, 10.0, RuleOf(FixedRisk)), 100.0);
  }

  /**
   * _process_pending_entries keeps, in their order, only signals it had:
   * unless the loop raised, every one not dated today or without data
   * today is kept, and when no slot is free at the start every one is kept.
   */
  lemma {:induction false} PendingFromKeeps(cfg: Config, st: State, dt: int, md: Market, list: seq<Signal>, k: nat, slots: int)
    requires Ready(md) && k <= |list|
    ensures var r := PendingFrom(cfg, st, dt, md, list, k, slots);
      var kept := r.1;
      && (forall x :: x in kept ==> x in list[k..])
      && (!r.0.raised ==>
           forall j :: k <= j < |list| && (list[j].execDate != Some(dt) || list[j].symbol !in md) ==> list[j] in kept)
      && (slots <= 0 ==> kept == list[k..])
    decreases |list| - k
  {
    if k < |list| {
      var sig := list[k];
      assert list[k..] == [sig] + list[k + 1..];
      if StaysPending(sig, dt, md, slots) {
        PendingFromKeeps(cfg, st, dt, md, list, k + 1, slots);
      } else {
        var step := EntryStep(cfg, st, dt, sig.symbol, md[sig.symbol], sig, PriceTypeOr(sig, "open"), slots);
        if !step.0.raised {
          PendingFromKeeps(cfg, step.0, dt, md, list, k + 1, step.1);
        }
      }
    }
  }

  /**
   * The pending list after _process_pending_entries: only signals it had;
   * unless it raised, every one not due today or without data today; and
   * when it raised, the list as it was.
   */
  lemma PendingPhaseKeeps(cfg: Config, st: State, dt: int, md: Market)
    requires Ready(md)
    ensures var r := PendingPhase(cfg, st, dt, md);
      var kept := r.pending;
      && (forall x :: x in kept ==> x in st.pending)
      && (!r.raised ==> forall x :: x in st.pending && (x.execDate != Some(dt) || x.symbol !in md) ==> x in kept)
      && (r.raised ==> kept == st.pending)
      && (|st.holdings| >= cfg.maxPositions ==> kept == st.pending)
  {
    PendingFromKeeps(cfg, st, dt, md, st.pending, 0, cfg.maxPositions - |st.holdings|);
    PendingFromHistory(cfg, st, dt, md, st.pending, 0, cfg.maxPositions - |st.holdings|);
    assert st.pending[0..] == st.pending;
  }

  /**
   * _process_entries only appends to the pending list, and what it appends
   * is dated for another day and carries its price type; no check for a
   * duplicate is made.
   */
  lemma {:induction false} EntriesFromQueues(cfg: Config, st: State, dt: int, md: Market, sigs: seq<Signal>, k: nat, slots: int)
    requires Ready(md)
    ensures var r := EntriesFrom(cfg, st, dt, md, sigs, k, slots);
      && |st.pending| <= |r.pending| && r.pending[..|st.pending|] == st.pending
      && forall j :: |st.pending| <= j < |r.pending| ==>
           r.pending[j].execDate.Some? && r.pending[j].execDate.value != dt && r.pending[j].execPriceType.Some?
    decreases |sigs| - k
  {
    if k < |sigs| {
      var sig := sigs[k];
      if sig.symbol !in md {
        EntriesFromQueues(cfg, st, dt, md, sigs, k + 1, slots);
      } else if sig.execDate.Some? && sig.execDate.value != dt {
        var queued := st.(pending := st.pending + [sig.(execPriceType := Some(PriceTypeOr(sig, "close")))]);
        EntriesFromQueues(cfg, queued, dt, md, sigs, k + 1, slots);
        var r := EntriesFrom(cfg, queued, dt, md, sigs, k + 1, slots);
        assert r.pending[..|st.pending|] == r.pending[..|queued.pending|][..|st.pending|];
      } else {
        var step := EntryStep(cfg, st, dt, sig.symbol, md[sig.symbol], sig, PriceTypeOr(sig, "close"), slots);
        if !step.0.raised && step.1 > 0 {
          EntriesFromQueues(cfg, step.0, dt, md, sigs, k + 1, step.1);
        }
      }
    }
  }

  lemma EntriesPhaseQueues(cfg: Config, st: State, dt: int, md: Market, sigs: seq<Signal>)
    requires Ready(md)
    ensures var r := EntriesPhase(cfg, st, dt, md, sigs);
      && |st.pending| <= |r.pending| && r.pending[..|st.pending|] == st.pending
      && (forall j :: |st.pending| <= j < |r.pending| ==>
           r.pending[j].execDate.Some? && r.pending[j].execDate.value != dt && r.pending[j].execPriceType.Some?)
      && (|st.holdings| >= cfg.maxPositions ==> r == st)
  {
    if cfg.maxPositions - |st.holdings| > 0 {
      EntriesFromQueues(cfg, st, dt, md, sigs, 0, cfg.maxPositions - |st.holdings|);
    }
  }

  lemma EntriesPhaseConsistent(cfg: Config, st: State, dt: int, md: Market, sigs: seq<Signal>)
    requires Ready(md) && Consistent(st.order, st.holdings)
    ensures var r := EntriesPhase(cfg, st, dt, md, sigs); Consistent(r.order, r.holdings)
  {
    if cfg.maxPositions - |st.holdings| > 0 {
      EntriesFromConsistent(cfg, st, dt, md, sigs, 0, cfg.maxPositions - |st.holdings|);
    }
  }

  lemma {:induction false} EntriesFromConsistent(cfg: Config, st: State, dt: int, md: Market, sigs: seq<Signal>, k: nat, slots: int)
    requires Ready(md) && Consistent(st.order, st.holdings)
    ensures var r := EntriesFrom(cfg, st, dt, md, sigs, k, slots); Consistent(r.order, r.holdings)
    decreases |sigs| - k
  {
    if k < |sigs| {
      var sig := sigs[k];
      if sig.symbol !in md {
        EntriesFromConsistent(cfg, st, dt, md, sigs, k + 1, slots);
      } else if sig.execDate.Some? && sig.execDate.value != dt {
        var queued := st.(pending := st.pending + [sig.(execPriceType := Some(PriceTypeOr(sig, "close")))]);
        EntriesFromConsistent(cfg, queued, dt, md, sigs, k + 1, slots);
      } else {
        var step := EntryStep(cfg, st, dt, sig.symbol, md[sig.symbol], sig, PriceTypeOr(sig, "close"), slots);
        EntryStepConsistent(cfg, st, dt, sig.symbol, md[sig.symbol], sig, PriceTypeOr(sig, "close"), slots);
        if !step.0.raised && step.1 > 0 {
          EntriesFromConsistent(cfg, step.0, dt, md, sigs, k + 1, step.1);
        }
      }
    }
  }

  lemma DayConsistent(cfg: Config, st: State, dt: int, md: Market, sigs: seq<Signal>)
    requires Ready(md) && Lawful(cfg.rule) && Consistent(st.order, st.holdings)
    ensures var r := Day(cfg, st, dt, md, sigs); Consistent(r.order, r.holdings)
  {
    var s1 := PendingPhase(cfg, st, dt, md);
    EntryStepsConsistent(cfg, st, dt, md);
    if !s1.raised {
      ExitPhaseConsistent(cfg, s1, dt, md);
      EntriesPhaseConsistent(cfg, ExitPhase(cfg, s1, dt, md), dt, md, sigs);
    }
  }

  /** Every day's data is usable: well-formed frames with a close column. */
  predicate UsableDays(cfg: Config, days: seq<int>, universe: int -> Market)
  {
    forall i :: 0 <= i < |days| ==> Ready(universe(days[i]))
  }

  /**
   * The loop of run() over its dates: the state after the dates days[i..],
   * starting from st, or at the raise that ended it. `universe` stands for
   * _load_daily_universe on the data handler and `entries` for the
   * strategy's generate_entries.
   */
  function Days(cfg: Config, st: State, days: seq<int>, universe: int -> Market, entries: Market -> seq<Signal>, i: nat): (r: State)
    requires UsableDays(cfg, days, universe) && Lawful(cfg.rule) && Consistent(st.order, st.holdings) && i <= |days|
    ensures Consistent(r.order, r.holdings)
    ensures st.history <= r.history
    ensures !r.raised ==> |r.history| == |st.history| + |days| - i
    decreases |days| - i
  {
    if i == |days| then st
    else
      var md := universe(days[i]);
      DayConsistent(cfg, st, days[i], md, entries(md));
      var next := Day(cfg, st, days[i], md, entries(md));
      if next.raised then next else Days(cfg, next, days, universe, entries, i + 1)
  }

  /** The invariant holds after every day of a run: the backtester never goes into debt or over max_positions. */
  lemma {:induction false} RunSane(cfg: Config, st: State, days: seq<int>, universe: int -> Market,
                                   entries: Market -> seq<Signal>, i: nat)
    requires UsableDays(cfg, days, universe) && Lawful(cfg.rule) && Consistent(st.order, st.holdings)
    requires SaneCosts(cfg) && forall i :: 0 <= i < |days| ==> NonNegativeCloses(universe(days[i]), days[i])
    requires Sane(cfg, st) && i <= |days|
    ensures Sane(cfg, Days(cfg, st, days, universe, entries, i))
    decreases |days| - i
  {
    if i < |days| {
      var md := universe(days[i]);
      DaySane(cfg, st, days[i], md, entries(md));
      var next := Day(cfg, st, days[i], md, entries(md));
      if !next.raised {
        RunSane(cfg, next, days, universe, entries, i + 1);
      }
    }
  }


  lemma AppendAssoc<T>(a: seq<T>, b: seq<T>, c: seq<T>)
    ensures a + (b + c) == (a + b) + c
  {
  }

  lemma EmptyAppend<T>(a: seq<T>)
    ensures a + [] == a && [] + a == a
  {
  }


  lemma {:induction false} PendingFromHistory(cfg: Config, st: State, dt: int, md: Market, list: seq<Signal>, k: nat, slots: int)
    requires Ready(md)
    ensures PendingFrom(cfg, st, dt, md, list, k, slots).0.history == st.history
    ensures PendingFrom(cfg, st, dt, md, list, k, slots).0.pending == st.pending
    decreases |list| - k
  {
    if k < |list| {
      var sig := list[k];
      if StaysPending(sig, dt, md, slots) {
        PendingFromHistory(cfg, st, dt, md, list, k + 1, slots);
      } else {
        var step := EntryStep(cfg, st, dt, sig.symbol, md[sig.symbol], sig, PriceTypeOr(sig, "open"), slots);
        if !step.0.raised {
          PendingFromHistory(cfg, step.0, dt, md, list, k + 1, step.1);
        }
      }
    }
  }

  lemma EntriesPhaseHistory(cfg: Config, st: State, dt: int, md: Market, sigs: seq<Signal>)
    requires Ready(md)
    ensures cfg.maxPositions - |st.holdings| > 0 ==>
      EntriesFrom(cfg, st, dt, md, sigs, 0, cfg.maxPositions - |st.holdings|).history == st.history
  {
    if cfg.maxPositions - |st.holdings| > 0 {
      EntriesFromHistory(cfg, st, dt, md, sigs, 0, cfg.maxPositions - |st.holdings|);
    }
  }

  lemma {:induction false} EntriesFromHistory(cfg: Config, st: State, dt: int, md: Market, sigs: seq<Signal>, k: nat, slots: int)
    requires Ready(md)
    ensures EntriesFrom(cfg, st, dt, md, sigs, k, slots).history == st.history
    decreases |sigs| - k
  {
    if k < |sigs| {
      var sig := sigs[k];
      if sig.symbol !in md {
        EntriesFromHistory(cfg, st, dt, md, sigs, k + 1, slots);
      } else if sig.execDate.Some? && sig.execDate.value != dt {
        var queued := st.(pending := st.pending + [sig.(execPriceType := Some(PriceTypeOr(sig, "close")))]);
        EntriesFromHistory(cfg, queued, dt, md, sigs, k + 1, slots);
      } else {
        var step := EntryStep(cfg, st, dt, sig.symbol, md[sig.symbol], sig, PriceTypeOr(sig, "close"), slots);
        if !step.0.raised && step.1 > 0 {
          EntriesFromHistory(cfg, step.0, dt, md, sigs, k + 1, step.1);
        }
      }
    }
  }

  // ---------------------------------------------------------------------
  // The engine
  // ---------------------------------------------------------------------

  /**
   * Backtester: the constructor arguments the phases use, the portfolio it
   * owns, the trade log and the pending entries. The strategy takes part
   * through its exit rule (evaluate_exit) and, in Run, as a function of the
   * day's data (generate_entries); the sizer is the default equal-weight one.
   */
  class Backtester {
    const initialCapital: real
    const maxPositions: int
    const commissionRate: real
    const slippageBp: real
    const exitRule: ExitRule
    const portfolio: Portfolio
    var trades: seq<Trade>
    var pending: seq<Signal>

    function Cfg(): Config
    {
      Config(maxPositions, commissionRate, slippageBp, RuleOf(exitRule))
    }

    ghost predicate Valid()
      reads this, portfolio
    {
      portfolio.Valid() && Lawful(Cfg().rule)
    }

    /** Everything the backtest changes, as one value. */
    ghost function Snapshot(): State
      reads this, portfolio
    {
      State(portfolio.cash, portfolio.positions, portfolio.order, trades, pending, portfolio.history, false)
    }

    /**
     * Backtester(...): a fresh Portfolio(initial_capital), no trades, nothing
     * pending. The source's defaults are 1_000_000, 5, 0.0005 and 5.0.
     */
    constructor (initialCapital: real, maxPositions: int, commissionRate: real, slippageBp: real, exitRule: ExitRule)
      ensures Valid() && fresh(portfolio)
      ensures this.maxPositions == maxPositions && this.commissionRate == commissionRate
      ensures this.slippageBp == slippageBp && this.exitRule == exitRule
      ensures Snapshot() == State(initialCapital, map[], [], [], [], [], false)
    {
      this.initialCapital := initialCapital;
      this.maxPositions := maxPositions;
      this.commissionRate := commissionRate;
      this.slippageBp := slippageBp;
      this.exitRule := exitRule;
      portfolio := new Portfolio(initialCapital);
      trades, pending := [], [];
      RuleOfLawful(exitRule);
    }

    /** _execute_entry: returns the slots left, and whether the sizer raised ZeroDivisionError on a zero fill. */
    method ExecuteEntry(dt: int, sym: string, f: Frame, sig: Signal, priceType: string, slots: int)
      returns (left: int, raised: bool)
      requires Valid() && f.Valid()
      modifies portfolio, this`trades
      ensures Valid()
      ensures (Snapshot().(raised := raised), left) == EntryStep(Cfg(), old(Snapshot()), dt, sym, f, sig, priceType, slots)
    {
      if sym in portfolio.positions {
        return slots, false;
      }
      if !f.HasDay(dt) {
        return slots, false;
      }
      if slots <= 0 {
        return slots, false;
      }
      var bar := BarOn(f, dt);
      var raw := if priceType == "open" && Open in f.columns then bar.open else bar.close;
      var fill := Slip(Cfg(), raw, Buy);
      if fill == 0.0 {
        return slots, true;
      }
      var shares := EqualWeightShares(portfolio.cash, slots, fill);
      if shares <= 0 {
        return slots, false;
      }
      if BuyTotal(Cfg(), shares, fill) > portfolio.cash {
        return slots, false;
      }
      BookBuy(dt, sym, shares, fill, sig);
      return slots - 1, false;
    }

    /** The filled part of _execute_entry: pay, open the position, log the BUY row. */
    method BookBuy(dt: int, sym: string, shares: int, fill: real, sig: Signal)
      requires Valid() && sym !in portfolio.positions
      modifies portfolio, this`trades
      ensures Valid()
      ensures Snapshot() == Bought(Cfg(), old(Snapshot()), dt, sym, shares, fill, sig)
    {
      portfolio.cash := portfolio.cash - BuyTotal(Cfg(), shares, fill);
      portfolio.AddPosition(sym, shares, fill, sig.stopLoss, sig.targetPrice, dt, Some(fill));
      trades := trades + [BuyTrade(Cfg(), dt, sym, shares, fill, sig)];
    }

    /**
     * The rule's part of one _process_exits iteration: raise the record's
     * highest price to the close, let the rule update the record in place
     * (Exits.Evaluate) and store what it leaves under sym.
     */
    method ApplyRule(dt: int, sym: string, close: real) returns (d: ExitDecision)
      requires Valid() && sym in portfolio.positions
      modifies portfolio`positions
      ensures Valid()
      ensures var step := Step(exitRule, RaiseHighest(old(portfolio.positions[sym]), close), ExitBar(dt, close));
        d == step.0 && portfolio.positions == old(portfolio.positions)[sym := step.1]
    {
      var pos := new Position(portfolio.positions[sym]);
      if pos.highestPrice.None? || close > pos.highestPrice.value {
        pos.highestPrice := Some(close);
      }
      assert pos.View() == RaiseHighest(portfolio.positions[sym], close);
      StepKeepsRecord(exitRule, pos.View(), ExitBar(dt, close));
      d := Evaluate(exitRule, pos, ExitBar(dt, close));
      ConsistentReplace(portfolio.order, portfolio.positions, sym, pos.View());
      portfolio.positions := portfolio.positions[sym := pos.View()];
    }

    /** The SELL of a position: cash grows by the net proceeds and one row is logged. */
    method BookSale(dt: int, sym: string, h: Holding, fill: real, reason: string)
      modifies portfolio`cash, this`trades
      ensures portfolio.cash == old(portfolio.cash) + SaleNet(Cfg(), fill, h.shares)
      ensures trades == old(trades) + [SellTrade(Cfg(), dt, sym, h, fill, reason)]
    {
      portfolio.cash := portfolio.cash + SaleNet(Cfg(), fill, h.shares);
      trades := trades + [SellTrade(Cfg(), dt, sym, h, fill, reason)];
    }

    /** One iteration of _process_exits; says whether sym is to be removed. */
    method ExitPosition(dt: int, md: Market, sym: string) returns (sold: bool)
      requires Valid() && Ready(md) && sym in portfolio.positions
      modifies portfolio`cash, portfolio`positions, this`trades
      ensures Valid()
      ensures (Snapshot(), sold) == ExitOne(Cfg(), old(Snapshot()), dt, md, sym)
    {
      if sym !in md || !md[sym].HasDay(dt) {
        return false;
      }
      var close := BarOn(md[sym], dt).close;
      var h := portfolio.positions[sym];
      var d := ApplyRule(dt, sym, close);
      sold := d.exit;
      if d.exit {
        BookSale(dt, sym, h, Slip(Cfg(), SellBase(d, close), Sell), d.reason);
      }
    }

    /** The checking loop of _process_exits over a snapshot of the held symbols; returns the ones to remove. */
    method CheckExits(dt: int, md: Market) returns (toRemove: seq<string>)
      requires Valid() && Ready(md)
      modifies portfolio`cash, portfolio`positions, this`trades
      ensures Valid()
      ensures (Snapshot(), toRemove) == ExitLoop(Cfg(), old(Snapshot()), dt, md, old(portfolio.order))
    {
      ghost var start := Snapshot();
      var held := portfolio.order;
      toRemove := [];
      for i := 0 to |held|
        invariant Valid() && portfolio.order == held
        invariant (Snapshot(), toRemove) == ExitLoop(Cfg(), start, dt, md, held[..i])
      {
        toRemove := CheckNext(dt, md, start, held, i, toRemove);
      }
      assert held[..|held|] == held;
    }

    /** One iteration of the checking loop: ExitPosition on held[i], marking the symbol when it was sold. */
    method CheckNext(dt: int, md: Market, ghost start: State, held: seq<string>, i: nat, marked: seq<string>)
      returns (toRemove: seq<string>)
      requires Valid() && Ready(md) && portfolio.order == held && i < |held| && start.order == held
      requires Consistent(start.order, start.holdings)
      requires (Snapshot(), marked) == ExitLoop(Cfg(), start, dt, md, held[..i])
      modifies portfolio`cash, portfolio`positions, this`trades
      ensures Valid() && portfolio.order == held
      ensures (Snapshot(), toRemove) == ExitLoop(Cfg(), start, dt, md, held[..i + 1])
    {
      ExitLoopNext(Cfg(), start, dt, md, held, i);
      var sold := ExitPosition(dt, md, held[i]);
      if sold {
        toRemove := marked + [held[i]];
      } else {
        toRemove := marked;
        EmptyAppend(marked);
      }
    }

    /** The removal loop of _process_exits. */
    method RemoveSold(toRemove: seq<string>)
      requires Valid()
      modifies portfolio
      ensures Valid()
      ensures Snapshot() == RemoveAll(old(Snapshot()), toRemove)
    {
      ghost var start := Snapshot();
      for j := 0 to |toRemove|
        invariant Valid() && Snapshot() == RemoveAll(start, toRemove[..j])
      {
        assert toRemove[..j + 1][..j] == toRemove[..j];
        portfolio.RemovePosition(toRemove[j]);
      }
      assert toRemove[..|toRemove|] == toRemove;
    }

    /** _process_exits: check every held symbol, then remove the sold ones. */
    method ProcessExits(dt: int, md: Market)
      requires Valid() && Ready(md)
      modifies portfolio, this`trades
      ensures Valid()
      ensures Snapshot() == ExitPhase(Cfg(), old(Snapshot()), dt, md)
    {
      var toRemove := CheckExits(dt, md);
      RemoveSold(toRemove);
    }

    /** _process_entries, with `entries` for the strategy's generate_entries; says whether it raised. */
    method ProcessEntries(dt: int, md: Market, entries: Market -> seq<Signal>) returns (raised: bool)
      requires Valid() && Ready(md)
      modifies portfolio, this`trades, this`pending
      ensures Valid()
      ensures Snapshot().(raised := raised) == EntriesPhase(Cfg(), old(Snapshot()), dt, md, entries(md))
    {
      raised := false;
      var slots := maxPositions - |portfolio.positions|;
      if slots <= 0 {
        return;
      }
      var signals := entries(md);
      ghost var goal := EntriesFrom(Cfg(), Snapshot(), dt, md, signals, 0, slots);
      var k := 0;
      while k < |signals|
        invariant 0 <= k <= |signals| && Valid() && slots > 0 && !raised
        invariant EntriesFrom(Cfg(), Snapshot(), dt, md, signals, k, slots) == goal
      {
        var stop;
        slots, stop, raised := EntryNext(dt, md, signals, k, goal, slots);
        if stop {
          break;
        }
        k := k + 1;
      }
    }

    /**
     * One iteration of _process_entries: skip signal k, defer it to the
     * pending list, or hand it to _execute_entry; `stop` says the loop ends,
     * because no slot is left or because the entry raised.
     */
    method EntryNext(dt: int, md: Market, signals: seq<Signal>, k: nat, ghost goal: State, slots: int)
      returns (slots': int, stop: bool, raised: bool)
      requires Valid() && Ready(md) && k < |signals| && slots > 0
      requires EntriesFrom(Cfg(), Snapshot(), dt, md, signals, k, slots) == goal
      modifies portfolio, this`trades, this`pending
      ensures Valid()
      ensures stop ==> Snapshot().(raised := raised) == goal
      ensures !stop ==> !raised && slots' > 0 && EntriesFrom(Cfg(), Snapshot(), dt, md, signals, k + 1, slots') == goal
    {
      var sig := signals[k];
      var sym := sig.symbol;
      slots', stop, raised := slots, false, false;
      if sym in md {
        var priceType := PriceTypeOr(sig, "close");
        if sig.execDate.Some? && sig.execDate.value != dt {
          pending := pending + [sig.(execPriceType := Some(priceType))];
        } else {
          slots', raised := ExecuteEntry(dt, sym, md[sym], sig, priceType, slots);
          stop := raised || slots' <= 0;
        }
      }
    }

    /**
     * _process_pending_entries: try the signals due today, keep the rest;
     * a raise leaves the loop before pending_entries is reassigned.
     */
    method ProcessPendingEntries(dt: int, md: Market) returns (raised: bool)
      requires Valid() && Ready(md)
      modifies portfolio, this`trades, this`pending
      ensures Valid()
      ensures Snapshot().(raised := raised) == PendingPhase(Cfg(), old(Snapshot()), dt, md)
    {
      raised := false;
      if pending == [] {
        return;
      }
      var stillPending: seq<Signal> := [];
      var slots := maxPositions - |portfolio.positions|;
      var list := pending;
      ghost var goal := PendingFrom(Cfg(), Snapshot(), dt, md, list, 0, slots);
      EmptyAppend(goal.1);
      var k := 0;
      while k < |list|
        invariant 0 <= k <= |list| && Valid() && pending == list && !raised
        invariant var rest := PendingFrom(Cfg(), Snapshot(), dt, md, list, k, slots);
          (rest.0, stillPending + rest.1) == goal
      {
        stillPending, slots, raised := PendingNext(dt, md, list, k, goal, stillPending, slots);
        if raised {
          return;
        }
        k := k + 1;
      }
      EmptyAppend(stillPending);
      pending := stillPending;
    }

    /**
     * One iteration of _process_pending_entries: keep signal k, or hand it
     * to _execute_entry at the open; says whether that raised.
     */
    method PendingNext(dt: int, md: Market, list: seq<Signal>, k: nat, ghost goal: (State, seq<Signal>),
                       kept: seq<Signal>, slots: int) returns (kept': seq<Signal>, slots': int, raised: bool)
      requires Valid() && Ready(md) && k < |list|
      requires var rest := PendingFrom(Cfg(), Snapshot(), dt, md, list, k, slots); (rest.0, kept + rest.1) == goal
      modifies portfolio, this`trades
      ensures Valid() && pending == old(pending)
      ensures raised ==> Snapshot().(raised := true) == goal.0
      ensures !raised ==>
        var rest := PendingFrom(Cfg(), Snapshot(), dt, md, list, k + 1, slots'); (rest.0, kept' + rest.1) == goal
    {
      var sig := list[k];
      if slots <= 0 || sig.execDate != Some(dt) || sig.symbol !in md {
        ghost var rest := PendingFrom(Cfg(), Snapshot(), dt, md, list, k + 1, slots);
        AppendAssoc(kept, [sig], rest.1);
        kept', slots', raised := kept + [sig], slots, false;
      } else {
        kept' := kept;
        slots', raised := ExecuteEntry(dt, sig.symbol, md[sig.symbol], sig, PriceTypeOr(sig, "open"), slots);
      }
    }

    /** The mark-to-market step of run(): the closes of the symbols with a bar today. */
    method MarkToMarket(dt: int, md: Market)
      requires Valid() && Ready(md)
      modifies portfolio`history
      ensures Valid()
      ensures Snapshot() == MarkPhase(old(Snapshot()), dt, md)
    {
      ghost var st := Snapshot();
      var prices := ClosePrices(md, dt);
      var total := portfolio.MarkToMarket(dt, prices);
      assert Snapshot() == st.(history := st.history + [HistoryRow(dt, total, st.cash, |st.holdings|)]);
    }

    /** One iteration of run()'s loop: the four phases on the day's data; says whether an entry phase raised. */
    method RunDay(dt: int, md: Market, entries: Market -> seq<Signal>) returns (raised: bool)
      requires Valid() && Ready(md)
      modifies portfolio, this`trades, this`pending
      ensures Valid()
      ensures Snapshot().(raised := raised) == Day(Cfg(), old(Snapshot()), dt, md, entries(md))
    {
      raised := ProcessPendingEntries(dt, md);
      if raised {
        return;
      }
      ProcessExits(dt, md);
      raised := ProcessEntries(dt, md, entries);
      if raised {
        return;
      }
      MarkToMarket(dt, md);
    }

    /** The loop of run() over its dates, left at the first raise. */
    method RunDays(days: seq<int>, universe: int -> Market, entries: Market -> seq<Signal>) returns (raised: bool)
      requires Valid() && UsableDays(Cfg(), days, universe)
      modifies portfolio, this`trades, this`pending
      ensures Valid()
      ensures Snapshot().(raised := raised) == Days(Cfg(), old(Snapshot()), days, universe, entries, 0)
    {
      ghost var st0 := Snapshot();
      raised := false;
      var i := 0;
      while i < |days|
        invariant 0 <= i <= |days| && Valid() && !raised
        invariant Days(Cfg(), Snapshot(), days, universe, entries, i) == Days(Cfg(), st0, days, universe, entries, 0)
      {
        ghost var before := Snapshot();
        raised := RunDay(days[i], universe(days[i]), entries);
        if raised {
          return;
        }
        assert Days(Cfg(), before, days, universe, entries, i) == Days(Cfg(), Snapshot(), days, universe, entries, i + 1);
        i := i + 1;
      }
    }

    /**
     * run(start, end): the four phases on every business day of [start,
     * end]; returns the equity history, the trade log and the strategy's
     * configuration, or ZeroDivisionError from the sizer. `config` is what
     * the strategy's to_dict returns when it has one.
     */
    method Run<C>(start: int, end: int, universe: int -> Market, entries: Market -> seq<Signal>, config: Option<C>)
      returns (outcome: RunOutcome<C>)
      requires Valid() && UsableDays(Cfg(), BusinessDays(start, end), universe)
      modifies portfolio, this`trades, this`pending
      ensures Valid()
      ensures Snapshot().(raised := outcome.DivisionByZero?) ==
        Days(Cfg(), old(Snapshot()), BusinessDays(start, end), universe, entries, 0)
      ensures outcome.Finished? ==>
        outcome.history == portfolio.history && outcome.trades == trades && outcome.strategyConfig == config
    {
      var raised := RunDays(BusinessDays(start, end), universe, entries);
      if raised {
        return DivisionByZero;
      }
      return Finished(portfolio.history, trades, config);
    }
  }
}
