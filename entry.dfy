/**
 * The entry layer: B1Entry tests the entry pattern on the last bar of a
 * symbol's frame and emits at most one signal with its stop and target;
 * B1EntryTPlus1 turns that signal into a next-open order. The registry maps
 * names to the two rules.
 */
module Entry {
  import opened Wrappers
  import opened Bars
  import opened Values
  import opened Signals
  import opened Conditions
  import opened Weekdays
  import PyStr

  datatype Kind = B1 | B1TPlus1

  /** B1Entry.DEFAULT_PARAMS. */
  function DefaultParams(): Params
  {
    map["stop_loss_pct" := Float(0.12), "take_profit_pct" := Float(0.3), "min_trade_days" := Int(20),
        "j_threshold" := Int(-10), "big_positive_pct" := Float(0.05), "ma_window" := Int(20)]
  }

  /** An entry rule: which class, and its merged params dict. */
  datatype EntryRule = EntryRule(kind: Kind, params: Params)
  {
    /** The class attribute `name`. */
    function Name(): string
    {
      if kind == B1 then "b1_entry" else "b1_entry_tplus1"
    }

    /** Every default key has a value, as the constructor guarantees. */
    predicate Valid()
    {
      DefaultParams().Keys <= params.Keys
    }

    function Param(key: string): real
      requires Valid() && key in DefaultParams()
    {
      params[key].Real()
    }
  }

  /** B1Entry.__init__ (inherited unchanged by B1EntryTPlus1): {**DEFAULT_PARAMS, **(params or {})}. */
  function NewEntry(kind: Kind, params: Option<Params>): (e: EntryRule)
    ensures e.kind == kind && e.Valid()
    ensures e.params.Keys == DefaultParams().Keys + (if params.Some? then params.value.Keys else {})
    ensures params.Some? ==> forall k :: k in params.value ==> e.params[k] == params.value[k]
    ensures forall k :: k in DefaultParams() && (params.None? || k !in params.value) ==> e.params[k] == DefaultParams()[k]
  {
    EntryRule(kind, Merge(DefaultParams(), params.GetOr(map[])))
  }

  /** _trigger: J low, bottom pattern, big positive candle and close above the moving average, all at bar i. */
  function Trigger(e: EntryRule, f: Frame, i: int): (r: bool)
    requires e.Valid()
    ensures r <==>
      IsKdjLow(f, i, e.Param("j_threshold")) && IsBottomPattern(f, i) &&
      IsBigPositive(f, i, e.Param("big_positive_pct")) && IsAboveMa(f, i, e.params["ma_window"])
    ensures r ==> 2 <= i < |f.bars|
  {
    IsKdjLow(f, i, e.Param("j_threshold")) && IsBottomPattern(f, i) &&
    IsBigPositive(f, i, e.Param("big_positive_pct")) && IsAboveMa(f, i, e.params["ma_window"])
  }

  /** A frame generate looks at: not empty and at least min_trade_days long. */
  predicate LongEnough(e: EntryRule, f: Frame)
    requires e.Valid()
  {
    |f.bars| > 0 && f.columns != {} && !(|f.bars| as real < e.Param("min_trade_days"))
  }

  /** stop_loss = previous low × (1 − stop_loss_pct). */
  function StopPrice(prevLow: real, pct: real): real
  {
    prevLow * (1.0 - pct)
  }

  /** target = close × (1 + take_profit_pct). */
  function TargetPrice(close: real, pct: real): real
  {
    close * (1.0 + pct)
  }

  /** With a fraction strictly between 0 and 1 and positive prices, the stop is below the low and the target above the close. */
  lemma StopAndTargetBounds(prevLow: real, close: real, sl: real, tp: real)
    requires prevLow > 0.0 && close > 0.0 && 0.0 < sl < 1.0 && tp > 0.0
    ensures 0.0 < StopPrice(prevLow, sl) < prevLow
    ensures TargetPrice(close, tp) > close
  {
    assert prevLow * sl > 0.0;
    assert close * tp > 0.0;
  }

  const SourceMeta: Meta := map["source" := "b1_entry_independent"]

  /** B1Entry.generate: at most one signal, for the last bar, when it triggers. */
  function B1Generate(e: EntryRule, symbol: string, f: Frame): (r: seq<Signal>)
    requires e.Valid()
    ensures |r| <= 1
  {
    if !LongEnough(e, f) then []
    else
      var i := |f.bars| - 1;
      if !Trigger(e, f, i) then []
      else
        var price := f.bars[i].close;
        var stop := if i >= 1 then StopPrice(f.bars[i - 1].low, e.Param("stop_loss_pct")) else price * 0.88;
        [Signal(symbol, Some(f.bars[i].day), Some(price), Some(stop), Some(TargetPrice(price, e.Param("take_profit_pct"))),
                Some(SourceMeta), None, None, None)]
  }

  /**
   * B1Entry.generate emits a signal exactly when the frame is long enough
   * and the last bar triggers. The signal is dated at the last bar and
   * priced at its close; the stop is always the previous bar's low less
   * stop_loss_pct, so the 0.88 fallback never applies; the target is the
   * close plus take_profit_pct. No execution date or price type is set.
   */
  lemma B1Signal(e: EntryRule, symbol: string, f: Frame)
    requires e.Valid()
    ensures var r := B1Generate(e, symbol, f);
      (r != [] <==> LongEnough(e, f) && Trigger(e, f, |f.bars| - 1))
    ensures B1Generate(e, symbol, f) != [] ==> B1SignalFields(e, symbol, f, B1Generate(e, symbol, f)[0])
  {
  }

  /** The fields of the B1 signal for the last bar of f, the stop taken from the bar before. */
  predicate B1SignalFields(e: EntryRule, symbol: string, f: Frame, s: Signal)
    requires e.Valid()
  {
    var i := |f.bars| - 1;
    && i >= 2
    && s.symbol == symbol
    && s.date == Some(f.bars[i].day)
    && s.price == Some(f.bars[i].close)
    && s.stopLoss == Some(StopPrice(f.bars[i - 1].low, e.Param("stop_loss_pct")))
    && s.targetPrice == Some(TargetPrice(f.bars[i].close, e.Param("take_profit_pct")))
    && s.meta == Some(SourceMeta)
    && s.execDate.None? && s.execPriceType.None? && s.signalDate.None?
  }

  /** The signal as B1EntryTPlus1 would enrich it: a next-open order tagged 'T+1_open'. */
  function ToNextOpen(sig: Signal, next: int): (r: Signal)
    ensures r.execDate == Some(next) && r.execPriceType == Some("open")
    ensures r.meta.Some? && "execution" in r.meta.value && r.meta.value["execution"] == "T+1_open"
    ensures sig.meta.Some? ==> forall k :: k in sig.meta.value && k != "execution" ==> k in r.meta.value && r.meta.value[k] == sig.meta.value[k]
    ensures r.(execDate := sig.execDate, execPriceType := sig.execPriceType, meta := sig.meta) == sig
  {
    sig.(execDate := Some(next), execPriceType := Some("open"), meta := Some(sig.meta.GetOr(map[])["execution" := "T+1_open"]))
  }

  /**
   * B1EntryTPlus1.generate as written: with i the last position, the guard
   * i + 1 >= len(df.index) always holds, so every signal is dropped and the
   * enrichment after it is never reached.
   */
  function TPlus1GenerateAsWritten(e: EntryRule, symbol: string, f: Frame): (r: seq<Signal>)
    requires e.Valid()
  {
    var base := B1Generate(e, symbol, f);
    if base == [] then []
    else
      var i := |f.bars| - 1;
      if i + 1 >= |f.bars| then []
      else assert false; []
  }

  /** As written, the T+1 entry never emits a signal, whatever the frame. */
  lemma TPlus1AsWrittenIsSilent(e: EntryRule, symbol: string, f: Frame)
    requires e.Valid()
    ensures TPlus1GenerateAsWritten(e, symbol, f) == []
  {
  }

  /** A three-bar frame whose last bar triggers under min_trade_days 3 and a two-bar average. */
  function WitnessFrame(): Frame
  {
    Frame([Bar(0, 9.0, 10.0, 8.8, 9.5, 1000.0, 0.0, 0.0),
           Bar(1, 8.6, 9.8, 8.5, 8.6, 1000.0, 0.0, 0.0),
           Bar(4, 8.1, 9.0, 8.0, 8.9, 1000.0, -20.0, 0.0)],
          {Open, High, Low, Close, Volume, J})
  }

  function WitnessParams(): Params
  {
    map["min_trade_days" := Int(3), "ma_window" := Int(2)]
  }

  /** On the witness frame B1Entry signals, yet the T+1 entry as written stays silent. */
  lemma TPlus1DropsATriggeredSignal()
    ensures var e := NewEntry(B1TPlus1, Some(WitnessParams()));
      B1Generate(e, "600000", WitnessFrame()) != [] && TPlus1GenerateAsWritten(e, "600000", WitnessFrame()) == []
  {
    var e := NewEntry(B1TPlus1, Some(WitnessParams()));
    var f := WitnessFrame();
    assert e.Param("j_threshold") == -10.0 && e.Param("big_positive_pct") == 0.05;
    assert e.params["ma_window"] == Int(2) && e.Param("min_trade_days") == 3.0;
    assert IsKdjLow(f, 2, -10.0);
    assert IsBottomPattern(f, 2);
    assert IsBigPositive(f, 2, 0.05);
    assert Series(f, Close)[1..3] == [8.6, 8.9];
    assert IsAboveMa(f, 2, Int(2));
  }

  /**
   * B1EntryTPlus1.generate as intended: each signal of the parent becomes
   * an order for the open of the next business day after the signal bar,
   * with meta execution 'T+1_open'.
   */
  function TPlus1Generate(e: EntryRule, symbol: string, f: Frame): (r: seq<Signal>)
    requires e.Valid()
  {
    var base := B1Generate(e, symbol, f);
    if base == [] || f.bars == [] then []
    else
      var next := NextBusinessDay(f.bars[|f.bars| - 1].day);
      seq(|base|, k requires 0 <= k < |base| => ToNextOpen(base[k], next))
  }

  /**
   * The corrected T+1 entry signals exactly when B1Entry does; its one
   * signal keeps the parent's symbol, date, price, stop and target, and is
   * due on the next business day after the signal date, at the open, with
   * the parent's meta plus execution 'T+1_open'.
   */
  lemma TPlus1Delays(e: EntryRule, symbol: string, f: Frame)
    requires e.Valid()
    ensures var r := TPlus1Generate(e, symbol, f);
      var base := B1Generate(e, symbol, f);
      && |r| == |base|
      && (r != [] ==>
            && r[0] == base[0].(execDate := r[0].execDate, execPriceType := Some("open"), meta := r[0].meta)
            && base[0].date.Some? && r[0].execDate.Some?
            && base[0].date.value < r[0].execDate.value && IsBusinessDay(r[0].execDate.value)
            && (forall d :: base[0].date.value < d < r[0].execDate.value ==> !IsBusinessDay(d))
            && r[0].meta == Some(map["source" := "b1_entry_independent", "execution" := "T+1_open"]))
  {
    var base := B1Generate(e, symbol, f);
    B1Signal(e, symbol, f);
    if base != [] {
      var next := NextBusinessDay(f.bars[|f.bars| - 1].day);
      var r := TPlus1Generate(e, symbol, f);
      assert r[0] == ToNextOpen(base[0], next);
      assert SourceMeta["execution" := "T+1_open"] == map["source" := "b1_entry_independent", "execution" := "T+1_open"];
    }
  }

  /** strategy.generate(symbol, df), dispatched on the class; the T+1 rule uses the corrected definition. */
  function Generate(e: EntryRule, symbol: string, f: Frame): (r: seq<Signal>)
    requires e.Valid()
    ensures |r| <= 1
    ensures r == [] <==> B1Generate(e, symbol, f) == []
  {
    if e.kind == B1 then B1Generate(e, symbol, f) else TPlus1Generate(e, symbol, f)
  }

  /** entry/registry.get_entry: a lower-cased lookup, the params handed over unchanged. */
  function GetEntry(name: string, params: Option<Params>): (r: Result<EntryRule>)
    ensures var key := PyStr.Lower(name);
      && (key == "b1" ==> r == Ok(NewEntry(B1, params)))
      && (key == "b1_tplus1" ==> r == Ok(NewEntry(B1TPlus1, params)))
      && (key !in {"b1", "b1_tplus1"} ==> r.Err? && r.error.ValueError?)
  {
    var key := PyStr.Lower(name);
    if key == "b1" then Ok(NewEntry(B1, params))
    else if key == "b1_tplus1" then Ok(NewEntry(B1TPlus1, params))
    else Err(ValueError("unknown entry strategy: " + name))
  }
}
