/**
 * The exit layer: an exit rule looks at one open position and today's bar
 * and decides whether to sell. The trailing and advanced rules also update
 * the position in place (its highest price, and for the advanced rule its
 * stop), which is why a position is an object.
 */
module Exits {
  import opened Wrappers
  import opened Values
  import PyStr

  datatype ExitDecision = ExitDecision(exit: bool, reason: string, price: Option<real>)

  /** ExitDecision(False): no exit, empty reason, no price. */
  const NoExit := ExitDecision(false, "", None)

  function Exit(reason: string, price: real): ExitDecision
  {
    ExitDecision(true, reason, Some(price))
  }

  /** The bar an exit rule sees: its date (a day number) and close. */
  datatype ExitBar = ExitBar(date: int, close: real)

  /** The value of a position record. */
  datatype Holding = Holding(
    symbol: string, shares: int, entryPrice: real, entryDate: int,
    stopLoss: Option<real>, targetPrice: Option<real>, highestPrice: Option<real>)

  /** A position record held by the portfolio; only the stop and the highest price ever change. */
  class Position {
    const symbol: string
    const shares: int
    const entryPrice: real
    const entryDate: int
    const targetPrice: Option<real>
    var stopLoss: Option<real>
    var highestPrice: Option<real>

    function View(): Holding
      reads this
    {
      Holding(symbol, shares, entryPrice, entryDate, stopLoss, targetPrice, highestPrice)
    }

    constructor (h: Holding)
      ensures View() == h
    {
      symbol, shares, entryPrice, entryDate := h.symbol, h.shares, h.entryPrice, h.entryDate;
      targetPrice, stopLoss, highestPrice := h.targetPrice, h.stopLoss, h.highestPrice;
    }
  }

  /** The configured exit rules; None disables a check of the advanced rule. */
  datatype ExitRule =
    | FixedRisk
    | TimeBased(maxHoldingDays: real)
    | TrailingStop(trailingPct: real)
    | Advanced(trailing: Option<real>, maxHolding: Option<real>, lockProfitAfterRr: Option<real>)
  {
    /** The rule's `name` attribute. */
    function Name(): string
    {
      match this
      case FixedRisk => "fixed_risk"
      case TimeBased(_) => "time_exit"
      case TrailingStop(_) => "trailing_exit"
      case Advanced(_, _, _) => "advanced_exit"
    }
  }

  predicate HitsStop(h: Holding, price: real) { h.stopLoss.Some? && price <= h.stopLoss.value }

  predicate HitsTarget(h: Holding, price: real) { h.targetPrice.Some? && price >= h.targetPrice.value }

  function HoldingDays(h: Holding, bar: ExitBar): int { bar.date - h.entryDate }

  /** FixedRiskExit.evaluate: the stop first, then the target; never touches the position. */
  function FixedRiskDecide(h: Holding, bar: ExitBar): (d: ExitDecision)
    ensures HitsStop(h, bar.close) ==> d == Exit("stop_loss", bar.close)
    ensures !HitsStop(h, bar.close) && HitsTarget(h, bar.close) ==> d == Exit("take_profit", bar.close)
    ensures d.exit <==> HitsStop(h, bar.close) || HitsTarget(h, bar.close)
    ensures !d.exit ==> d == NoExit
  {
    var price := bar.close;
    if h.stopLoss.Some? && price <= h.stopLoss.value then Exit("stop_loss", price)
    else if h.targetPrice.Some? && price >= h.targetPrice.value then Exit("take_profit", price)
    else NoExit
  }

  /** TimeBasedExit.evaluate: exit at the close once the holding period reaches the limit. */
  function TimeDecide(maxDays: real, h: Holding, bar: ExitBar): (d: ExitDecision)
    ensures d.exit <==> HoldingDays(h, bar) as real >= maxDays
    ensures d.exit ==> d == Exit("time_stop", bar.close)
    ensures !d.exit ==> d == NoExit
  {
    if (bar.date - h.entryDate) as real >= maxDays then Exit("time_stop", bar.close) else NoExit
  }

  /** The highest price after seeing `price`: the new price on a new high or when unset. */
  function RaiseHigh(hp: Option<real>, price: real): (r: real)
    ensures hp.None? ==> r == price
    ensures hp.Some? ==> r >= hp.value && r >= price && (r == hp.value || r == price)
  {
    if hp.None? || price > hp.value then price else hp.value
  }

  /**
   * TrailingStopExit.evaluate: a new high (or an unset high) is recorded and
   * never exits; otherwise exit when the close falls to (1 − pct) × high.
   */
  function TrailingStep(pct: real, h: Holding, bar: ExitBar): (r: (ExitDecision, Holding))
    ensures var newHigh := h.highestPrice.None? || bar.close > h.highestPrice.value;
      && r.1 == h.(highestPrice := Some(RaiseHigh(h.highestPrice, bar.close)))
      && (newHigh ==> r.0 == NoExit)
      && (!newHigh ==> (r.0.exit <==> bar.close <= h.highestPrice.value * (1.0 - pct)))
      && (r.0.exit ==> r.0 == Exit("trailing_stop", bar.close))
      && (!r.0.exit ==> r.0 == NoExit)
  {
    var price := bar.close;
    if h.highestPrice.None? || price > h.highestPrice.value then
      (NoExit, h.(highestPrice := Some(price)))
    else if price <= h.highestPrice.value * (1.0 - pct) then
      (Exit("trailing_stop", price), h)
    else
      (NoExit, h)
  }

  /** The break-even lock of the advanced rule fires on this bar. */
  predicate LockFires(rr: Option<real>, h: Holding, price: real)
  {
    rr.Some? && h.stopLoss.Some? && h.entryPrice - h.stopLoss.value > 0.0
    && price - h.entryPrice >= (h.entryPrice - h.stopLoss.value) * rr.value
  }

  /** The stop after the lock: raised to the entry price when it fires and the stop is below it. */
  function LockedStop(rr: Option<real>, h: Holding, price: real): (s: Option<real>)
    ensures h.stopLoss.None? ==> s == h.stopLoss
    ensures h.stopLoss.Some? ==> s.Some? && s.value >= h.stopLoss.value
    ensures s != h.stopLoss <==> LockFires(rr, h, price)
    ensures s != h.stopLoss ==> s == Some(h.entryPrice)
  {
    if rr.Some? && h.stopLoss.Some? then
      var risk := h.entryPrice - h.stopLoss.value;
      if risk > 0.0 && price - h.entryPrice >= risk * rr.value && h.stopLoss.value < h.entryPrice
      then Some(h.entryPrice) else h.stopLoss
    else h.stopLoss
  }

  /**
   * AdvancedExit.evaluate. First match wins: stop_loss (checked before the
   * high is updated), trailing_stop, take_profit, time_stop; every exit is at
   * the close. The lock can raise the stop for later bars only.
   */
  function AdvancedStep(rule: ExitRule, h: Holding, bar: ExitBar): (r: (ExitDecision, Holding))
    requires rule.Advanced?
    ensures var price := bar.close;
      var high := RaiseHigh(h.highestPrice, price);
      var trails := rule.trailing.Some? && price <= high * (1.0 - rule.trailing.value);
      var stale := rule.maxHolding.Some? && HoldingDays(h, bar) as real >= rule.maxHolding.value;
      && (HitsStop(h, price) ==> r == (Exit("stop_loss", price), h))
      && (!HitsStop(h, price) ==>
           && r.1 == h.(highestPrice := Some(high), stopLoss := LockedStop(rule.lockProfitAfterRr, h, price))
           && (trails ==> r.0 == Exit("trailing_stop", price))
           && (!trails && HitsTarget(h, price) ==> r.0 == Exit("take_profit", price))
           && (!trails && !HitsTarget(h, price) && stale ==> r.0 == Exit("time_stop", price))
           && (!trails && !HitsTarget(h, price) && !stale ==> r.0 == NoExit))
  {
    var price := bar.close;
    if h.stopLoss.Some? && price <= h.stopLoss.value then (Exit("stop_loss", price), h)
    else
      var hp := RaiseHigh(h.highestPrice, price);
      var h1 := h.(highestPrice := Some(hp), stopLoss := LockedStop(rule.lockProfitAfterRr, h, price));
      if rule.trailing.Some? && price <= hp * (1.0 - rule.trailing.value) then (Exit("trailing_stop", price), h1)
      else if h.targetPrice.Some? && price >= h.targetPrice.value then (Exit("take_profit", price), h1)
      else if rule.maxHolding.Some? && (bar.date - h.entryDate) as real >= rule.maxHolding.value then
        (Exit("time_stop", price), h1)
      else (NoExit, h1)
  }

  /** One evaluation of any rule: the decision and the position afterwards. */
  function Step(rule: ExitRule, h: Holding, bar: ExitBar): (ExitDecision, Holding)
  {
    match rule
    case FixedRisk => (FixedRiskDecide(h, bar), h)
    case TimeBased(m) => (TimeDecide(m, h, bar), h)
    case TrailingStop(p) => TrailingStep(p, h, bar)
    case Advanced(_, _, _) => AdvancedStep(rule, h, bar)
  }

  /** ExitSignalStrategy.evaluate on a live position, updating it in place. */
  method Evaluate(rule: ExitRule, pos: Position, bar: ExitBar) returns (d: ExitDecision)
    modifies pos
    ensures (d, pos.View()) == Step(rule, old(pos.View()), bar)
  {
    var r := Step(rule, pos.View(), bar);
    d := r.0;
    pos.stopLoss := r.1.stopLoss;
    pos.highestPrice := r.1.highestPrice;
  }

  /** Every rule keeps the identity, size, entry and target of the position, and exits at the close. */
  lemma StepKeepsRecord(rule: ExitRule, h: Holding, bar: ExitBar)
    ensures var r := Step(rule, h, bar);
      && r.1.symbol == h.symbol && r.1.shares == h.shares && r.1.entryPrice == h.entryPrice
      && r.1.entryDate == h.entryDate && r.1.targetPrice == h.targetPrice
      && (r.0.exit ==> r.0.price == Some(bar.close))
      && (!r.0.exit ==> r.0 == NoExit)
  {
  }

  /** No rule ever lowers the highest price or the stop. */
  lemma StepNeverLowers(rule: ExitRule, h: Holding, bar: ExitBar)
    ensures var h1 := Step(rule, h, bar).1;
      && (h.highestPrice.Some? ==> h1.highestPrice.Some? && h1.highestPrice.value >= h.highestPrice.value)
      && (h.stopLoss.Some? ==> h1.stopLoss.Some? && h1.stopLoss.value >= h.stopLoss.value)
  {
  }

  /** The fixed-risk and time rules never change the position. */
  lemma StatelessRulesKeepPosition(rule: ExitRule, h: Holding, bar: ExitBar)
    requires rule.FixedRisk? || rule.TimeBased?
    ensures Step(rule, h, bar).1 == h
  {
  }

  /**
   * Unlike TrailingStopExit, the advanced rule can exit on a new high: with a
   * trailing percentage of 0 a close at a new high equals the updated high.
   */
  lemma AdvancedTrailingOnNewHigh(h: Holding, bar: ExitBar)
    requires !HitsStop(h, bar.close) && h.highestPrice.None?
    ensures Step(Advanced(Some(0.0), None, None), h, bar).0 == Exit("trailing_stop", bar.close)
    ensures Step(TrailingStop(0.0), h, bar).0 == NoExit
  {
  }

  /** An unknown keyword argument makes Python's constructor raise TypeError. */
  function CheckKeywords(params: Params, allowed: set<string>): (r: Option<Exc>)
    ensures r.None? <==> params.Keys <= allowed + {"name"}
  {
    if params.Keys <= allowed + {"name"} then None
    else Some(TypeError("unexpected keyword argument"))
  }

  function NumOr(params: Params, key: string, default: real): real
  {
    if key in params then params[key].Real() else default
  }

  function NumOpt(params: Params, key: string, default: Option<real>): Option<real>
  {
    if key in params then Some(params[key].Real()) else default
  }

  /** exit/registry.get_exit: a lower-cased lookup, then the class built from the keyword arguments. */
  function GetExit(name: string, params: Params): (r: Result<ExitRule>)
    ensures var key := PyStr.Lower(name);
      && (key !in {"fixed", "time", "trailing", "advanced"} ==> r.Err? && r.error.ValueError?)
      && (key == "fixed" ==> (r.Ok? <==> params == map[]) && (r.Ok? ==> r.value == FixedRisk))
      && (key == "time" && params == map[] ==> r == Ok(TimeBased(10.0)))
      && (key == "trailing" && params == map[] ==> r == Ok(TrailingStop(0.1)))
      && (key == "advanced" && params == map[] ==> r == Ok(Advanced(Some(0.12), Some(40.0), None)))
      && (r.Err? && key in {"fixed", "time", "trailing", "advanced"} ==> r.error.TypeError?)
  {
    var key := PyStr.Lower(name);
    if key == "fixed" then
      if params == map[] then Ok(FixedRisk) else Err(TypeError("FixedRiskExit() takes no arguments"))
    else if key == "time" then
      match CheckKeywords(params, {"max_holding_days"})
      case Some(e) => Err(e)
      case None => Ok(TimeBased(NumOr(params, "max_holding_days", 10.0)))
    else if key == "trailing" then
      match CheckKeywords(params, {"trailing_pct"})
      case Some(e) => Err(e)
      case None => Ok(TrailingStop(NumOr(params, "trailing_pct", 0.1)))
    else if key == "advanced" then
      match CheckKeywords(params, {"trailing_pct", "max_holding_days", "lock_profit_after_rr"})
      case Some(e) => Err(e)
      case None => Ok(Advanced(NumOpt(params, "trailing_pct", Some(0.12)),
                               NumOpt(params, "max_holding_days", Some(40.0)),
                               NumOpt(params, "lock_profit_after_rr", None)))
    else Err(ValueError("unknown exit strategy: " + name))
  }
}
