/**
 * The execution layer: a planner stamps each new signal with the day and
 * price type at which the backtester should fill it, and a resolver reads
 * that price from a frame.
 */
module Execution {
  import opened Wrappers
  import opened Signals
  import opened Bars
  import PyStr

  datatype ExecutionModel = CloseModel | NextOpenModel | VwapModel
  {
    function Name(): string
    {
      match this
      case CloseModel => "close"
      case NextOpenModel => "next_open"
      case VwapModel => "vwap_approx"
    }

    function PriceType(): string
    {
      match this
      case CloseModel => "close"
      case NextOpenModel => "open"
      case VwapModel => "vwap"
    }
  }

  /** The planned copy of one signal: {**sig} with the execution fields set. */
  function PlanOne(model: ExecutionModel, sig: Signal, execDay: int, current: int): (r: Signal)
    ensures sig.execDate.Some? ==> r == sig
    ensures sig.execDate.None? ==>
      && r.execDate == Some(execDay) && r.execPriceType == Some(model.PriceType())
      && r.signalDate == Some(sig.date.GetOr(current))
      && r.meta.Some? && "execution_model" in r.meta.value
      && (sig.meta.Some? ==> r.meta.value == SetDefault(sig.meta.value, "execution_model", model.Name()))
      && (sig.meta.None? ==> r.meta.value == map["execution_model" := model.Name()])
      && r.symbol == sig.symbol && r.date == sig.date && r.price == sig.price
      && r.stopLoss == sig.stopLoss && r.targetPrice == sig.targetPrice
  {
    if sig.execDate.Some? then sig
    else
      var meta := SetDefault(sig.meta.GetOr(map[]), "execution_model", model.Name());
      sig.(execDate := Some(execDay), execPriceType := Some(model.PriceType()),
           signalDate := Some(sig.date.GetOr(current)), meta := Some(meta))
  }

  /**
   * The caller's signal after planning. The shallow copy shares the caller's
   * meta dict, so setdefault on the copy's meta also writes into the caller's.
   */
  function CallerAfter(model: ExecutionModel, sig: Signal): (r: Signal)
    ensures sig.execDate.Some? || sig.meta.None? ==> r == sig
    ensures sig.execDate.None? && sig.meta.Some? ==>
      r == sig.(meta := Some(SetDefault(sig.meta.value, "execution_model", model.Name())))
  {
    if sig.execDate.Some? || sig.meta.None? then sig
    else sig.(meta := Some(SetDefault(sig.meta.value, "execution_model", model.Name())))
  }

  /** First position of d in the calendar (`list.index`). */
  function IndexOf(cal: seq<int>, d: int): (r: Option<nat>)
    ensures r.Some? ==> r.value < |cal| && cal[r.value] == d && forall k :: 0 <= k < r.value ==> cal[k] != d
    ensures r.None? ==> forall k :: 0 <= k < |cal| ==> cal[k] != d
  {
    if cal == [] then None
    else if cal[0] == d then Some(0)
    else match IndexOf(cal[1..], d)
      case None => None
      case Some(k) => Some(k + 1)
  }

  /** The day new signals execute on, or None when the next-open planner gives up. */
  function ExecDay(model: ExecutionModel, current: int, cal: seq<int>): (r: Option<int>)
    ensures model != NextOpenModel ==> r == Some(current)
    ensures model == NextOpenModel ==>
      (r.Some? <==> IndexOf(cal, current).Some? && IndexOf(cal, current).value + 1 < |cal|)
    ensures model == NextOpenModel && r.Some? ==> r.value == cal[IndexOf(cal, current).value + 1]
  {
    if model != NextOpenModel then Some(current)
    else if cal == [] then None
    else match IndexOf(cal, current)
      case None => None
      case Some(k) => if k + 1 < |cal| then Some(cal[k + 1]) else None
  }

  /**
   * plan(signals, current_date, calendar). Returns the planned list and the
   * caller's signals as the meta side effect leaves them. The next-open
   * planner returns [] (touching nothing) when the calendar is empty,
   * current_date is not in it or is its last day; otherwise every planner
   * keeps length and order, passing pre-planned signals through unchanged.
   */
  method Plan(model: ExecutionModel, signals: seq<Signal>, current: int, cal: seq<int>)
    returns (planned: seq<Signal>, callers: seq<Signal>)
    ensures ExecDay(model, current, cal).None? ==> planned == [] && callers == signals
    ensures ExecDay(model, current, cal).Some? ==>
      && |planned| == |signals| == |callers|
      && forall k :: 0 <= k < |signals| ==>
           planned[k] == PlanOne(model, signals[k], ExecDay(model, current, cal).value, current)
           && callers[k] == CallerAfter(model, signals[k])
  {
    planned, callers := [], signals;
    var day := ExecDay(model, current, cal);
    if day.None? {
      return;
    }
    callers := [];
    for i := 0 to |signals|
      invariant |planned| == i && |callers| == i
      invariant forall k :: 0 <= k < i ==>
        planned[k] == PlanOne(model, signals[k], day.value, current) && callers[k] == CallerAfter(model, signals[k])
    {
      var sig := signals[i];
      if sig.execDate.Some? {
        planned := planned + [sig];
        callers := callers + [sig];
      } else {
        var meta := SetDefault(sig.meta.GetOr(map[]), "execution_model", model.Name());
        planned := planned + [sig.(execDate := Some(day.value), execPriceType := Some(model.PriceType()),
                                   signalDate := Some(sig.date.GetOr(current)), meta := Some(meta))];
        callers := callers + [if sig.meta.Some? then sig.(meta := Some(meta)) else sig];
      }
    }
  }

  /** A planned signal and its caller share one meta dict: both see execution_model. */
  lemma PlannedMetaIsShared(model: ExecutionModel, sig: Signal, execDay: int, current: int)
    requires sig.execDate.None? && sig.meta.Some?
    ensures PlanOne(model, sig, execDay, current).meta == CallerAfter(model, sig).meta
    ensures "execution_model" in CallerAfter(model, sig).meta.value
  {
  }

  /** A planned signal carries exec_date, so planning it again (with any model) returns it unchanged. */
  lemma ReplanningIsIdentity(m1: ExecutionModel, m2: ExecutionModel, sig: Signal, d1: int, d2: int, current: int)
    requires sig.execDate.None?
    ensures var once := PlanOne(m1, sig, d1, current);
      PlanOne(m2, once, d2, current) == once
  {
  }

  /**
   * resolve_price(df, exec_date, price_type): the close, the open, or their
   * midpoint on the bar dated exec_date, whatever price_type says; None
   * where pandas raises KeyError.
   */
  function ResolvePrice(model: ExecutionModel, f: Frame, execDay: int, priceType: string): (r: Option<real>)
    requires f.Valid()
    ensures r.Some? ==> f.HasDay(execDay)
    ensures r.Some? && model == CloseModel ==> r.value == BarOn(f, execDay).close
    ensures r.Some? && model == NextOpenModel ==> r.value == BarOn(f, execDay).open
    ensures r.Some? && model == VwapModel ==>
      r.value == (BarOn(f, execDay).open + BarOn(f, execDay).close) / 2.0
  {
    var k := IndexOfDay(f, execDay);
    if k.None? then None
    else
      var b := f.bars[k.value];
      match model
      case CloseModel => if Close in f.columns then Some(b.close) else None
      case NextOpenModel => if Open in f.columns then Some(b.open) else None
      case VwapModel => if Open in f.columns && Close in f.columns then Some((b.open + b.close) / 2.0) else None
  }

  /** The approximate VWAP lies between the open and the close. */
  lemma VwapBetweenOpenAndClose(f: Frame, execDay: int, priceType: string)
    requires f.Valid() && ResolvePrice(VwapModel, f, execDay, priceType).Some?
    ensures var b := BarOn(f, execDay); var p := ResolvePrice(VwapModel, f, execDay, priceType).value;
      (b.open <= p <= b.close) || (b.close <= p <= b.open)
  {
  }

  /** The price type argument is ignored by every resolver. */
  lemma ResolveIgnoresPriceType(model: ExecutionModel, f: Frame, execDay: int, t1: string, t2: string)
    requires f.Valid()
    ensures ResolvePrice(model, f, execDay, t1) == ResolvePrice(model, f, execDay, t2)
  {
  }

  /** execution/registry.get_execution_model: lower-cased lookup; tplus1 and t+1 alias next_open. */
  function GetExecutionModel(name: string): (r: Result<ExecutionModel>)
    ensures var key := PyStr.Lower(name);
      && (key == "close" ==> r == Ok(CloseModel))
      && (key in {"next_open", "tplus1", "t+1"} ==> r == Ok(NextOpenModel))
      && (key == "vwap" ==> r == Ok(VwapModel))
      && (key !in {"close", "next_open", "tplus1", "t+1", "vwap"} ==> r.Err? && r.error.ValueError?)
  {
    var key := PyStr.Lower(name);
    if key == "close" then Ok(CloseModel)
    else if key == "next_open" || key == "tplus1" || key == "t+1" then Ok(NextOpenModel)
    else if key == "vwap" then Ok(VwapModel)
    else Err(ValueError("unknown execution model: " + name))
  }
}
