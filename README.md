# monopoly_multimoney, modelled in Dafny

This project models the decision-making core of three Python subsystems and
proves properties of the model.

- **quant**: an A-share strategy and backtest framework.
  - `Portfolios` and `Backtest` model the daily backtester. Each business day it runs four phases in order: pending T+1 entries, exits, new entries, mark-to-market. The model tracks cash, positions, the trade log and the pending list.
  - `Performance` models the trade and equity metrics.
  - The strategy layers each have their own module: `Exits`, `Execution`, `Entry`, `Conditions`, `Selection`, `B1Selection`, `Hs300TopWeight`, `IndexContributeSelect` and `IndexContributeSelection`.
  - `Composite` models the four-layer factory, the registries and the presets. `Cli` models the config and argument precedence.
  - `LegacyB1`, `LegacyFilter`, `IndexContributionFilter` and `Screener` model the older `B1Strategy` engine and its filters.
  - `StrategyVariations` and `Weekdays` model the weekday helpers and the summaries of the variation script.
- **rnotegen**: the columnist agent.
  - `Tools` models the material analyser and the research stub.
  - `BaseAgent` models the conversation buffer and JSON extraction.
  - `Xiaohongshu` models hashtag formatting.
- **rnotegen_v2**: the review and publish pipeline.
  - `FactCheck` models the heuristic fact checker.
  - `Reviewer` models the weighted review score and its bands.
  - `JsonReply` models the JSON-fence clean-up shared by both agents.
  - `RedNote` models the Xiaohongshu publisher's validation and formatting.
  - `Synchronizer` models the writer/reviewer best-of-N loop.
- **Shared helpers:**
  - `Wrappers`: Option and Result.
  - `Values`: Python values and numbers.
  - `PyStr`: Python string operations.
  - `Sorting`: a stable sort by key.
  - `Bars`: daily price frames.
  - `Signals`: signal records.
  - `WeightTables`: weight tables and their cache.

Code that changes state is modelled with classes and loops: the portfolio, the backtester, positions under trailing exits, registries, caches, the legacy strategy's setters, the agents' conversations and the synchronizer's loop. Each method is proved against a specification function.

Some things are parameters of the model:
- the data handler and every akshare fetch;
- the strategy oracles;
- the language-model calls and `json.loads`;
- `random.sample`, `hash()` and the clocks.

Prices and metrics are exact reals. Dates are day numbers.

## Model

| member | source | states |
|---|---|---|
| Values.Str | quant/strategies/selection/index_contribute_select.py:117-118 | str() of a parameter: the string itself, the digits of an int, True/False, None, the decimal of a float; a list starts with [ and a dict with { |
| Values.StrOfNonScalarIsNoWord | quant/strategies/selection/index_contribute_selection.py:139-150 | str(x).lower() of a float, a list or a dict never equals a lower-case word such as a mode name |
| Values.Merge | quant/strategies/entry/b1_entry.py:34 | {**defaults, **overrides}: every key of either map, the override's value winning where both have the key |
| Values.Truthy | quant/framework/cli.py:93 | Python truthiness of a parameter value: False, 0, 0.0, None, the empty string, list and dict are false |
| Values.IsScalar | quant/framework/cli.py:85 | isinstance(v, (int, float, str, bool)) |
| Values.Trunc | quant/strategies/selection/hs300_top_weight.py:79 | int() of a float truncates toward zero: the floor for a non-negative value, minus the floor of the negation otherwise |
| Values.Round2 | rnotegen_v2/agents/reviewer_agent.py:137 | round(x, 2): moves x by at most half a hundredth and leaves a whole number of hundredths alone |
| Values.DigitValue | quant/strategies/selection/hs300_top_weight.py:79 | the value of one decimal digit character, as int() of a string reads it |
| Values.AllDigits | quant/strategies/selection/hs300_top_weight.py:79 | a non-empty run of decimal digits, the body int() of a string accepts |
| Values.DigitsValue | quant/strategies/selection/hs300_top_weight.py:79 | the number a run of decimal digits denotes |
| Values.NatDigits | rnotegen_v2/publisher/rednote.py:84 | str() of a non-negative int: its decimal digits without leading zeros, "0" for zero |
| Values.IntToString | rnotegen_v2/publisher/rednote.py:84 | str() of an int: a minus sign before the digits of a negative value |
| Values.ParseInt | quant/strategies/selection/hs300_top_weight.py:79 | int() of a string: surrounding whitespace, an optional sign and decimal digits, ValueError otherwise |
| Values.IntOf | quant/strategies/selection/hs300_top_weight.py:79 | int() of a parameter value: an int unchanged, TypeError for None, a list or a dict |
| Values.FloatStr | quant/strategies/selection/index_contribute_select.py:117-118 | str() of a float: a sign or a digit first, then the integer part, a point and the fractional digits |
| Values.UnsignedFloatStr | quant/strategies/selection/index_contribute_select.py:117-118 | str() of a non-negative float starts with a digit |
| Values.FractionDigits | quant/strategies/selection/index_contribute_select.py:117-118 | at most n digits of a fraction, all decimal digits |
| Values.Render | quant/strategies/selection/index_contribute_select.py:117-118 | str() or repr() of a value: a string as itself unquoted, a float through FloatStr, a list opening with '[' |
| Values.ParseIntToString | rnotegen_v2/publisher/rednote.py:84 | int(str(i)) == i: the rendered int parses back to itself |
| Portfolios.Without | quant/framework/portfolio.py:15-16 | the key order after `pop`: exactly the other keys, still distinct, unchanged when the symbol was absent |
| Portfolios.ConsistentReplace | quant/framework/portfolio.py:13 | overwriting a held symbol's record with one filed under the same symbol keeps the dict consistent |
| Portfolios.Portfolio.constructor | quant/framework/portfolio.py:7-10 | cash equals the capital; no positions, no history |
| Portfolios.Portfolio.AddPosition | quant/framework/portfolio.py:12-13 | only that symbol's record is set or replaced (symbol, shares, entry price, meta fields); a new key goes last in the order; cash and history unchanged |
| Portfolios.Portfolio.RemovePosition | quant/framework/portfolio.py:15-16 | the symbol is gone if it was held, nothing happens otherwise; cash and history unchanged |
| Portfolios.Portfolio.TotalValue | quant/framework/portfolio.py:19-23 | total is cash plus price × shares over held symbols that have a price; a missing price contributes nothing |
| Portfolios.Portfolio.MarkToMarket | quant/framework/portfolio.py:18-25 | appends exactly one row (date, total, cash, number of positions) and returns the same total |
| Portfolios.Distinct | quant/framework/portfolio.py:9 | the key order of the position dict holds no symbol twice |
| Portfolios.Consistent | quant/framework/portfolio.py:9-13 | the position dict's key order and its records agree: every key once, each record filed under its own symbol |
| Portfolios.MarketValue | quant/framework/portfolio.py:20-23 | Σ price × shares over the held symbols in key order, skipping those without a price; `Portfolios.Portfolio.TotalValue` computes it |
| Backtest.RuleOfLawful | quant/framework/backtester.py:76-78 | each configurable exit rule keeps the record's identity fields, raises no highest price downwards and exits at the close it was shown |
| Backtest.SlipFormula | quant/framework/backtester.py:45-47 | a BUY fills at raw × (1 + bp/10000), a SELL at raw × (1 − bp/10000) |
| Backtest.SizerBound | quant/framework/backtester.py:40-43 | the sizer's shares cost at most the slot's equal share of cash at a positive price, one more share would cost more, and slots ≤ 0 behave as one slot |
| Backtest.SlippageAgainstTrader | quant/framework/backtester.py:45-47 | with non-negative slippage a BUY never fills below the raw price and a SELL never above it; the SELL fill stays non-negative up to 10000 bp |
| Backtest.ExitOne | quant/framework/backtester.py:67-94 | one exit iteration keeps the set of held symbols (removal happens later) |
| Backtest.ExitOneFrame | quant/framework/backtester.py:67-94 | one exit iteration touches only that symbol's record, the cash and the trade log; it appends at most one row and moves cash only on a sale |
| Backtest.ExitLoop | quant/framework/backtester.py:67-94 | the checking loop over the snapshot of held symbols keeps the set of held symbols |
| Backtest.ExitLoopFrame | quant/framework/backtester.py:67-94 | the checking loop keeps the key order, pending entries and history, and leaves unvisited records alone |
| Backtest.RemoveAll | quant/framework/backtester.py:95-96 | the removal loop deletes exactly the marked symbols and changes nothing else |
| Backtest.ExitPhase | quant/framework/backtester.py:65-96 | the exit phase leaves history and pending entries unchanged |
| Backtest.EntriesPhase | quant/framework/backtester.py:138-158 | the entry phase leaves history unchanged, and nothing at all changes when no slot is free |
| Backtest.PendingPhase | quant/framework/backtester.py:160-179 | the pending phase leaves history unchanged |
| Backtest.Day | quant/framework/backtester.py:184-194 | one day keeps the earlier history; unless an entry phase raised ZeroDivisionError, it appends exactly one history row, dated that day; a raise ends the day before the mark, with history unchanged |
| Backtest.ExitPhaseConsistent | quant/framework/backtester.py:65-96 | the exit phase keeps every record filed under its own symbol and the key order matching the dict |
| Backtest.EntryStepsConsistent | quant/framework/backtester.py:160-179 | the pending phase keeps the dict and its key order consistent |
| Backtest.EntriesPhaseConsistent | quant/framework/backtester.py:138-158 | the entry phase keeps the dict and its key order consistent |
| Backtest.DayConsistent | quant/framework/backtester.py:184-194 | a whole day keeps the dict and its key order consistent |
| Backtest.ExitOneKeepsSymbol | quant/framework/backtester.py:73-76 | the exit rule never changes a record's symbol or share count |
| Backtest.EntryFillsIff | quant/framework/backtester.py:98-118 | an entry fills exactly when the symbol is not held, has a bar, a slot is free, the slipped fill is not zero, the sizer gives shares > 0 and cost plus commission is covered by cash; otherwise the slots and every field but the raise flag are unchanged |
| Backtest.EntryRaisesIff | quant/framework/backtester.py:40-111 | _execute_entry raises ZeroDivisionError exactly when it reaches the sizer (symbol not held, a bar, a slot free) with a zero slipped fill |
| Backtest.EntryFillEffect | quant/framework/backtester.py:119-136 | a fill lowers cash by exactly gross + commission without going negative, adds one position at the slipped price with the signal's stop and target and highest price = fill, logs one BUY row, uses one slot and raises nothing |
| Backtest.NoPyramiding | quant/framework/backtester.py:100-101 | an entry on a held symbol changes nothing |
| Backtest.EntryStepBudget | quant/framework/backtester.py:98-136 | an entry attempt keeps cash ≥ 0 and positions + free slots within max_positions |
| Backtest.BoughtBudget | quant/framework/backtester.py:114-136 | a covered BUY takes one slot, keeps cash ≥ 0 and opens a non-empty position |
| Backtest.ExitSaleEffect | quant/framework/backtester.py:77-94 | a sale adds gross − commission to cash and logs one SELL row with pnl = (fill − entry) × shares − sell commission, the buy commission excluded, filled at decision.price or the close when that is None or 0 |
| Backtest.NoBarNoExit | quant/framework/backtester.py:68-70 | a held symbol without a bar that day is left untouched: no rule call, no highest-price update |
| Backtest.ExitRaisesHighest | quant/framework/backtester.py:73-75 | the highest price after an exit iteration is at least the close and at least the old highest price |
| Backtest.ExitLoopLog | quant/framework/backtester.py:77-94 | the checking loop logs one SELL row per symbol it marks, in the same order, after the earlier trades |
| Backtest.ExitOneLog | quant/framework/backtester.py:83-94 | a sale appends one SELL row for that symbol; no sale appends nothing |
| Backtest.ExitPhaseRemovesSold | quant/framework/backtester.py:94-96 | after the exit phase exactly the symbols logged as sold are gone |
| Backtest.ExitOneSane | quant/framework/backtester.py:77-81 | one exit iteration keeps cash ≥ 0 and every record filed under its symbol with shares > 0 |
| Backtest.SaleNetNonNegative | quant/framework/backtester.py:79-81 | with a commission rate of at most 1 a sale at a non-negative price never lowers cash |
| Backtest.ExitLoopSane | quant/framework/backtester.py:67-94 | the checking loop keeps cash ≥ 0 and every record non-empty |
| Backtest.ExitPhaseSane | quant/framework/backtester.py:65-96 | the exit phase keeps cash ≥ 0 and positions ≤ max_positions |
| Backtest.PendingFromBudget | quant/framework/backtester.py:164-178 | the pending loop keeps cash ≥ 0 and positions ≤ max_positions |
| Backtest.PendingPhaseSane | quant/framework/backtester.py:160-179 | the pending phase keeps cash ≥ 0 and positions ≤ max_positions |
| Backtest.EntriesFromBudget | quant/framework/backtester.py:144-158 | the entry loop keeps cash ≥ 0 and positions ≤ max_positions |
| Backtest.EntriesPhaseSane | quant/framework/backtester.py:138-158 | the entry phase keeps cash ≥ 0 and positions ≤ max_positions |
| Backtest.DaySane | quant/framework/backtester.py:184-194 | with 0 ≤ commission ≤ 1, 0 ≤ slippage ≤ 10000 bp and non-negative closes, every day ends with cash ≥ 0, at most max_positions positions and no empty position |
| Backtest.FlatRoundTripLoses | quant/unitest/test_backtester_core.py:51-78 | at a flat 100 with 10 bp slippage and 0.1% commission the buy fills at 100.1, the sell at 99.9 and the SELL pnl is negative |
| Backtest.PendingFromKeeps | quant/framework/backtester.py:165-179 | the pending loop keeps only signals it had, in order; unless it raised, every signal not dated today or without data is kept; all are kept once no slot is free |
| Backtest.PendingPhaseKeeps | quant/framework/backtester.py:160-179 | the new pending list holds only old signals; unless the phase raised it keeps every one not due today or without data; on a raise pending_entries is left as it was, never reassigned |
| Backtest.EntriesFromQueues | quant/framework/backtester.py:149-154 | the entry loop only appends to pending, each appended signal dated for another day with its price type, without a duplicate check |
| Backtest.EntriesPhaseQueues | quant/framework/backtester.py:138-158 | the entry phase only appends future-dated signals to pending |
| Backtest.Days | quant/framework/backtester.py:184-194 | the run loop keeps the dict consistent and the earlier history, and, unless a day raised, appends one history row per date; a raise ends the run |
| Backtest.RunSane | quant/framework/backtester.py:184-194 | after every day of a run cash ≥ 0 and positions ≤ max_positions |
| Backtest.PendingFromHistory | quant/framework/backtester.py:160-179 | the pending loop never touches history, nor the pending list it iterates over |
| Backtest.EntriesFromHistory | quant/framework/backtester.py:144-158 | the entry loop never touches history |
| Backtest.EntriesPhaseHistory | quant/framework/backtester.py:138-158 | the entry phase never touches history |
| Backtest.Backtester.constructor | quant/framework/backtester.py:16-37 | a fresh portfolio holding the initial capital, no trades, nothing pending, the given limits and costs |
| Backtest.Backtester.ExecuteEntry | quant/framework/backtester.py:98-136 | the new state, the slots left and whether the sizer raised ZeroDivisionError on a zero fill are those of the specification step EntryStep |
| Backtest.Backtester.BookBuy | quant/framework/backtester.py:119-135 | pays the cost, opens the position and logs the BUY row as Bought says |
| Backtest.Backtester.ApplyRule | quant/framework/backtester.py:71-76 | raises the record's highest price to the close, lets the rule update it in place and stores the result under the symbol |
| Backtest.Backtester.BookSale | quant/framework/backtester.py:78-93 | cash grows by the net proceeds and exactly one SELL row is logged |
| Backtest.Backtester.ExitPosition | quant/framework/backtester.py:68-94 | one exit iteration, equal to ExitOne on the old state |
| Backtest.Backtester.CheckExits | quant/framework/backtester.py:66-94 | the checking loop, equal to ExitLoop over the snapshot of held symbols |
| Backtest.Backtester.CheckNext | quant/framework/backtester.py:67-94 | one iteration of the checking loop extends ExitLoop by one symbol |
| Backtest.Backtester.RemoveSold | quant/framework/backtester.py:95-96 | the removal loop, equal to RemoveAll |
| Backtest.Backtester.ProcessExits | quant/framework/backtester.py:65-96 | the exit phase, equal to ExitPhase on the old state |
| Backtest.Backtester.ProcessEntries | quant/framework/backtester.py:138-158 | the entry phase, equal to EntriesPhase on the old state, the raise included |
| Backtest.Backtester.EntryNext | quant/framework/backtester.py:145-158 | one iteration of the entry loop: either the loop stops, with no slot left or on a raise, at the goal state, or the rest of the loop still reaches it |
| Backtest.Backtester.ProcessPendingEntries | quant/framework/backtester.py:160-179 | the pending phase, equal to PendingPhase on the old state; a raise leaves the loop before pending_entries is reassigned |
| Backtest.Backtester.PendingNext | quant/framework/backtester.py:165-178 | one iteration of the pending loop: either it raised, reaching the goal state, or it keeps the goal reachable; the old pending list is untouched until the end |
| Backtest.Backtester.MarkToMarket | quant/framework/backtester.py:193-194 | marks to market with the closes of the symbols that have a bar today |
| Backtest.Backtester.RunDay | quant/framework/backtester.py:185-194 | the four phases in order, equal to Day, stopping at a raise |
| Backtest.Backtester.RunDays | quant/framework/backtester.py:184-194 | the loop over the dates, equal to Days, left at the first raise |
| Backtest.Backtester.Run | quant/framework/backtester.py:181-195 | run over the business days of [start, end]: the final state is that of Days; it returns the equity history, the trade log and the strategy's to_dict(), or ZeroDivisionError exactly when a day raised |
| Backtest.RuleOf | quant/framework/backtester.py:76 | the configured exit rule as the evaluator the exit phase calls; `Backtest.RuleOfLawful` proves what the backtester relies on from it |
| Backtest.Keeps | quant/framework/backtester.py:76-94 | what the exit phase relies on from one evaluation: same symbol, shares and entry, an exit at the shown close, no lowered highest price |
| Backtest.Slip | quant/framework/backtester.py:45-47 | _apply_slippage: raw ± raw × bp / 10000, against the trader; `Backtest.SlipFormula` and `Backtest.SlippageAgainstTrader` state its properties |
| Backtest.Commission | quant/framework/backtester.py:49-50 | _apply_commission: the gross amount times the commission rate |
| Backtest.EqualWeightShares | quant/framework/backtester.py:40-43 | equal_weight_sizer: the floor of cash / max(1, slots) / price; `Backtest.SizerBound` states its bounds |
| Backtest.Ready | quant/framework/backtester.py:71-193 | a day's frames are well formed and carry the close column the phases read |
| Backtest.RawEntryPrice | quant/framework/backtester.py:106-109 | the open when the price type is open and the frame has an open column, else the close |
| Backtest.BuyReason | quant/framework/backtester.py:134 | meta['execution'] when the signal carries one, else 'entry' |
| Backtest.BuyTotal | quant/framework/backtester.py:114-116 | shares × fill plus the commission on it |
| Backtest.BuyTrade | quant/framework/backtester.py:126-135 | the BUY row: date, symbol, fill, shares, pnl 0, commission and reason |
| Backtest.EntryStep | quant/framework/backtester.py:98-136 | _execute_entry with its four early returns and the raise of a zero fill; `Backtest.EntryFillsIff`, `Backtest.EntryRaisesIff` and `Backtest.EntryFillEffect` state when it fills, raises and what it changes |
| Backtest.Bought | quant/framework/backtester.py:119-136 | a filled BUY: the total cost leaves the cash, the position is appended with stop, target, entry date and highest price seeded at the fill, and the BUY row is logged |
| Backtest.SellBase | quant/framework/backtester.py:78 | `decision.price or bar_close`: the decision's price unless it is None or 0 |
| Backtest.RaiseHighest | quant/framework/backtester.py:73-75 | the highest price becomes the close when it is missing or below it |
| Backtest.SaleNet | quant/framework/backtester.py:79-81 | fill × shares minus the commission on it |
| Backtest.SellTrade | quant/framework/backtester.py:82-93 | the SELL row: pnl (fill − entry) × shares − commission, holding days dt − entry date, the decision's reason |
| Backtest.PriceTypeOr | quant/framework/backtester.py:150-178 | exec_price_type with the phase's default (close for fresh signals, open for pending ones) |
| Backtest.EntriesFrom | quant/framework/backtester.py:144-158 | the loop of _process_entries from signal k: a missing frame is skipped, a future exec_date is queued, the rest go to _execute_entry, the loop breaks when the slots run out and ends on a raise; `Backtest.EntriesFromHistory` and the entry lemmas state its effect |
| Backtest.StaysPending | quant/framework/backtester.py:166-177 | a pending signal is kept untried when no slot is left, its exec_date is not today or its frame is missing |
| Backtest.PendingFrom | quant/framework/backtester.py:165-178 | the loop of _process_pending_entries from signal k: the state and the signals still pending; `Backtest.PendingFromKeeps` and `Backtest.PendingFromHistory` state its effect |
| Backtest.ClosePrices | quant/framework/backtester.py:193 | one close per symbol whose frame has a bar on dt |
| Backtest.MarkPhase | quant/framework/backtester.py:192-194 | mark_to_market on the day's closes: one history row and no other change |
| Backtest.Sane | quant/framework/backtester.py:100-136 | the invariant each phase keeps: a consistent position dict, non-negative cash and at most max_positions positive positions |
| Backtest.UsableDays | quant/framework/backtester.py:184-194 | every business day's universe is well formed with a close column |
| Backtest.ExitLoopSymbols | quant/framework/backtester.py:67-94 | the exit loop keeps every held position filed under its own symbol |
| Backtest.SoldSymbols | quant/framework/backtester.py:82-93 | the sold symbols are exactly the symbols the loop visited |
| Performance.WithAction | quant/framework/performance.py:67 | the SELL (or BUY) rows are a sub-list of the log |
| Performance.ProfitFactor | quant/framework/performance.py:74 | with a loss the factor is the finite quotient with factor × abs(gross_loss) = gross_profit; without one it is the ∞ sentinel |
| Performance.TradeMetricsOf | quant/framework/performance.py:63-89 | an empty log gives {}; a log without SELL rows gives only the BUY count; otherwise the closed-trade figures |
| Performance.FiltersKeep | quant/framework/performance.py:67-71 | each filter keeps exactly the rows with that action, with pnl > 0, with pnl ≤ 0 |
| Performance.WinsAndLossesCount | quant/framework/performance.py:70-71 | every closed trade is exactly one of win or loss |
| Performance.WinsAndLossesSum | quant/framework/performance.py:72-73 | gross profit plus gross loss is the pnl sum of the closed trades |
| Performance.SignedSums | quant/framework/performance.py:72-73 | the sum over wins is positive when there is one, the sum over losses never positive |
| Performance.ClosedMetricsFacts | quant/framework/performance.py:67-89 | trades_total counts the SELL rows; win rate in [0, 1]; net = gross profit + gross loss; gross profit ≥ 0 ≥ gross loss; the factor is finite and non-negative with a loss and ∞ exactly when gross loss is 0; avg gain 0 exactly without wins, positive otherwise; avg loss ≤ 0 |
| Performance.SampleMetrics | quant/unitest/test_performance_module.py:22-35 | the test's log gives two closed trades, win rate 0.5, gross 100 and −50, profit factor 2 and net profit 50 |
| Performance.SampleColumns | quant/unitest/test_performance_module.py:23-28 | the SELL rows of the test's log and the pnl and holding-day columns computed from them |
| Performance.ByDate | quant/framework/performance.py:31 | the sort by date is a permutation in date order |
| Performance.Equities | quant/framework/performance.py:32 | the equity column is total_value row by row |
| Performance.RunMax | quant/framework/performance.py:42 | cummax at t is the largest equity in 0..t and is one of them |
| Performance.MinDrawdown | quant/framework/performance.py:43-44 | the minimum drawdown up to t is at most every drawdown there and equal to one |
| Performance.EquityMetricsOf | quant/framework/performance.py:28-35 | an empty history gives {}; otherwise num_days counts the rows |
| Performance.DrawdownAt | quant/framework/performance.py:43 | under a positive peak each drawdown is ≤ 0, and ≥ −1 for a non-negative equity |
| Performance.DrawdownBounds | quant/framework/performance.py:40-44 | from a positive first equity max_drawdown ≤ 0, and ≥ −1 while equity stays non-negative |
| Performance.ByDateOfDated | quant/framework/performance.py:31 | a history already in date order is left as it is |
| Performance.SampleEquity | quant/unitest/test_performance_module.py:7-20 | the test's curve gives total return 0.02, four days and the dip 101000 → 100500 as max drawdown (≤ 0) |
| Performance.TradeDict | quant/framework/performance.py:63-89 | the keys of the trade-metrics dict in each of the three cases |
| Performance.EquityDict | quant/framework/performance.py:51-60 | {} for no history, otherwise the keys total_return, max_drawdown and num_days |
| Performance.MergeMetrics | quant/framework/performance.py:92-96 | every key of either dict, with the trade metric winning on a shared key |
| Performance.Winners | quant/framework/performance.py:70 | `closed[closed['pnl'] > 0]`: the closed trades with positive pnl, in order; `Performance.FiltersKeep` states it |
| Performance.Losers | quant/framework/performance.py:71 | `closed[closed['pnl'] <= 0]`: a zero pnl counts as a loss; `Performance.FiltersKeep` states it |
| Performance.HoldingDays | quant/framework/performance.py:78 | the holding_days column without its missing values, which `Series.mean()` skips |
| Performance.Drawdown | quant/framework/performance.py:43 | equity / cummax − 1 at row t; `Performance.DrawdownAt` bounds it |
| Performance.FactorMetric | quant/framework/performance.py:74 | the profit factor as a metric value, `float('inf')` kept apart from the reals |
| Performance.TradeKeys | quant/framework/performance.py:79-89 | the nine keys of the closed-trade metrics dict |
| Performance.SampleHistory | quant/unitest/test_performance_module.py:7-20 | the four-row equity curve of the test |
| Performance.Pnls | quant/framework/performance.py:70-73 | the pnl column of the closed trades, one value per trade |
| Performance.SampleSeries | quant/unitest/test_performance_module.py:7-20 | the test history sorted by date gives the curve 100000, 101000, 100500, 102000 |
| Performance.SamplePeaks | quant/unitest/test_performance_module.py:7-20 | the running peaks of that curve are 100000, 101000, 101000 and 102000 |
| Performance.SampleDrawdowns | quant/unitest/test_performance_module.py:7-20 | the curve's drawdown is zero except on the third day, where it is 100500/101000 − 1 |
| Performance.SampleMinimum | quant/unitest/test_performance_module.py:7-20 | the maximum drawdown is 100500/101000 − 1 and the total return 0.02 |
| Performance.SampleSells | quant/unitest/test_performance_module.py:22-28 | of two buys and two sells only the sells are closed trades |
| Exits.Position.constructor | quant/strategies/exit/advanced_exit.py:11-12 | a live position starts as the given record |
| Exits.FixedRiskDecide | quant/strategies/exit/fixed_risk_exit.py:11-17 | stop_loss when the close is at or below the stop, else take_profit at or above the target, else no exit; every exit at the close |
| Exits.TimeDecide | quant/strategies/exit/advanced_exit.py:29-33 | exits at the close exactly when the holding days reach max_holding_days |
| Exits.RaiseHigh | quant/strategies/exit/advanced_exit.py:44-46 | the new highest price is the price when unset, otherwise the larger of the two |
| Exits.TrailingStep | quant/strategies/exit/advanced_exit.py:41-51 | a new or unset high is recorded and never exits; otherwise exit exactly when close ≤ high × (1 − pct) |
| Exits.LockedStop | quant/strategies/exit/advanced_exit.py:86-91 | the stop only rises, and changes exactly when the lock fires, to the entry price |
| Exits.AdvancedStep | quant/strategies/exit/advanced_exit.py:70-109 | first match wins: stop_loss (before the high is updated), trailing_stop, take_profit, time_stop, all at the close; the high and the locked stop are kept for later bars |
| Exits.Evaluate | quant/strategies/exit/base.py:23-25 | evaluate on a live position returns the decision and updates the position as the rule's step says |
| Exits.StepKeepsRecord | quant/strategies/exit/advanced_exit.py:11-12 | every rule keeps symbol, shares, entry price, entry date and target, and exits at the close |
| Exits.StepNeverLowers | quant/strategies/exit/advanced_exit.py:80-91 | no rule lowers the highest price or the stop |
| Exits.StatelessRulesKeepPosition | quant/strategies/exit/fixed_risk_exit.py:11-17 | the fixed-risk and time rules never change the position |
| Exits.AdvancedTrailingOnNewHigh | quant/strategies/exit/advanced_exit.py:80-96 | with trailing 0 the advanced rule exits on a new high, the trailing rule does not |
| Exits.CheckKeywords | quant/strategies/exit/registry.py:23 | unknown keyword arguments raise TypeError in the dataclass constructor |
| Exits.GetExit | quant/strategies/exit/registry.py:9-23 | lower-cased lookup in the four-name table; an unknown name is ValueError; the rule is built from the keyword arguments |
| Exits.HitsStop | quant/strategies/exit/fixed_risk_exit.py:12 | a stop is set and the close is at or below it |
| Exits.HitsTarget | quant/strategies/exit/fixed_risk_exit.py:14 | a target is set and the close is at or above it |
| Exits.HoldingDays | quant/strategies/exit/advanced_exit.py:30-105 | `(bar['date'] - position['entry_date']).days` on day numbers |
| Exits.LockFires | quant/strategies/exit/advanced_exit.py:86-90 | the lock is configured, a stop is set, the initial risk is positive, the gain reaches risk × rr and the stop is below the entry; `Exits.LockedStop` states its effect |
| Exits.Step | quant/strategies/exit/advanced_exit.py:29-109 | one evaluation of any rule: the decision and the position after it; `Exits.FixedRiskDecide`, `Exits.TimeDecide`, `Exits.TrailingStep` and `Exits.AdvancedStep` state each rule's case |
| Exits.NumOr | quant/strategies/exit/registry.py:23 | a numeric keyword argument, or the dataclass default when it is not given |
| Exits.NumOpt | quant/strategies/exit/registry.py:23 | an Optional keyword argument, or its default when it is not given |
| Execution.PlanOne | quant/strategies/execution/simple_models.py:10-20 | a signal that already has exec_date is passed through as it is; otherwise the copy gains exec_date, the model's price type, signal_date (the signal's date or today) and meta.execution_model unless set |
| Execution.CallerAfter | quant/strategies/execution/simple_models.py:14-19 | the shallow copy shares the caller's meta dict, so a caller with a meta dict sees execution_model added; any other caller is unchanged |
| Execution.IndexOf | quant/strategies/execution/simple_models.py:33 | `list.index`: the first position of the date, or none when absent |
| Execution.ExecDay | quant/strategies/execution/simple_models.py:29-36 | close and VWAP execute today; next-open executes on the calendar day after today, and gives up when the calendar is empty, today is absent or last |
| Execution.Plan | quant/strategies/execution/simple_models.py:8-21 | the planned list is one PlanOne per signal in order, or [] with callers untouched when next-open gives up |
| Execution.PlannedMetaIsShared | quant/strategies/execution/simple_models.py:14-19 | planned signal and caller see the same meta dict, holding execution_model |
| Execution.ReplanningIsIdentity | quant/strategies/execution/simple_models.py:11-13 | planning an already planned signal again, with any model, returns it unchanged |
| Execution.ResolvePrice | quant/strategies/execution/simple_models.py:22-23 | the close, the open, or (open + close)/2 of the bar at exec_date; None when there is no such bar |
| Execution.VwapBetweenOpenAndClose | quant/strategies/execution/simple_models.py:68-70 | the approximate VWAP lies between the open and the close |
| Execution.ResolveIgnoresPriceType | quant/strategies/execution/simple_models.py:22-23 | the price-type argument is ignored by every resolver |
| Execution.GetExecutionModel | quant/strategies/execution/registry.py:5-17 | lower-cased lookup; tplus1 and t+1 alias next_open; an unknown name is ValueError |
| Entry.NewEntry | quant/strategies/entry/b1_entry.py:24-34 | the parameters are the defaults overridden by the given ones: every key of either, the given value winning |
| Entry.Trigger | quant/strategies/entry/b1_entry.py:37-55 | the trigger holds exactly when J is low, the bottom pattern holds, the candle is a big positive one and the close is above the moving average at bar i, which needs i ≥ 2 |
| Entry.StopAndTargetBounds | quant/strategies/entry/b1_entry.py:64-65 | with a stop fraction in (0, 1) and positive prices the stop lies strictly between 0 and the previous low, and the target is above the close |
| Entry.B1Generate | quant/strategies/entry/b1_entry.py:57-73 | at most one signal |
| Entry.B1Signal | quant/strategies/entry/b1_entry.py:57-73 | a signal exactly when the frame has at least min_trade_days bars and the last bar triggers; it is dated at the last bar, priced at its close, stop = previous low × (1 − stop_loss_pct), target = close × (1 + take_profit_pct), meta source b1_entry_independent |
| Entry.ToNextOpen | quant/strategies/entry/tplus1_entry.py:32-37 | the enriched signal is due on the next day at the open, its meta keeps the old entries and adds execution T+1_open, and nothing else changes |
| Entry.TPlus1AsWrittenIsSilent | quant/strategies/entry/tplus1_entry.py:26-29 | as written, i + 1 ≥ len(df) always holds at i = len(df) − 1, so the T+1 entry never emits a signal |
| Entry.TPlus1DropsATriggeredSignal | quant/strategies/entry/tplus1_entry.py:23-29 | on a concrete frame B1Entry signals while the T+1 entry as written returns [] |
| Entry.TPlus1Delays | quant/strategies/entry/tplus1_entry.py:21-38 | the corrected T+1 entry signals exactly when B1Entry does, keeping its symbol, date, price, stop and target, due on the next business day at the open |
| Entry.Generate | quant/strategies/entry/b1_entry.py:57-73 | (corrected T+1 rule) dispatch on the class: at most one signal, and one exactly when B1Entry gives one |
| Entry.GetEntry | quant/strategies/entry/registry.py:9-20 | lower-cased lookup in the two-name table; an unknown name is ValueError; params passed through unchanged |
| Signals.SetDefault | quant/strategies/execution/simple_models.py:15 | dict.setdefault keeps an existing key and otherwise adds the key with the value, nothing else changing |
| Entry.DefaultParams | quant/strategies/entry/b1_entry.py:24-31 | B1Entry.DEFAULT_PARAMS: the six default parameters and their values |
| Entry.LongEnough | quant/strategies/entry/b1_entry.py:58-60 | a frame generate looks at: not empty and at least min_trade_days bars |
| Entry.StopPrice | quant/strategies/entry/b1_entry.py:18-64 | previous low × (1 − stop_loss_pct); `Entry.StopAndTargetBounds` bounds it |
| Entry.TargetPrice | quant/strategies/entry/b1_entry.py:19-65 | close × (1 + take_profit_pct) |
| Entry.B1SignalFields | quant/strategies/entry/b1_entry.py:62-73 | the fields of the B1 signal on the last bar: symbol, date, close price, stop from the bar before, target, source meta |
| Entry.TPlus1GenerateAsWritten | quant/strategies/entry/tplus1_entry.py:21-29 | B1EntryTPlus1.generate as written: the guard drops every signal; `Entry.TPlus1AsWrittenIsSilent` states it |
| Entry.TPlus1Generate | quant/strategies/entry/tplus1_entry.py:21-38 | B1EntryTPlus1.generate as intended: each parent signal due at the next business day's open, tagged T+1_open; `Entry.TPlus1Delays` states it |
| Conditions.IsKdjLow | quant/util/conditions.py:21-33 | true exactly when the J column exists, 0 ≤ i < len and J[i] is below the threshold |
| Conditions.IsBottomPattern | quant/util/conditions.py:36-56 | true exactly when i ≥ 2, i is a bar, and bar i's low and high are both strictly below those of the two bars before it |
| Conditions.IsBigPositive | quant/util/conditions.py:59-69 | true exactly when i is a bar and close > open × (1 + pct) |
| Conditions.RollingMeanAt | quant/util/conditions.py:77 | the rolling mean is NaN until `window` closes are available |
| Conditions.IsAboveMa | quant/util/conditions.py:72-80 | true exactly when window > 0, len > i, len ≥ window and the close at i (negative i counting from the end) exceeds the mean of the window closes ending there |
| Conditions.IsVolumeSurge | quant/util/conditions.py:83-91 | true exactly when there is a volume column, i ≥ lookback and volume[i] > mean of the lookback volumes before i × ratio |
| Conditions.IsVolumeShrink | quant/util/conditions.py:94-102 | true exactly when there is a volume column, i ≥ lookback and volume[i] < mean of the lookback volumes before i / ratio |
| Conditions.IsMacdGoldenCross | quant/util/conditions.py:105-117 | true exactly when there is a MACD column, 1 ≤ i < len, MACD[i−1] < 0 and MACD[i] > 0 |
| Conditions.GoldenCrossNotTwiceInARow | quant/util/conditions.py:115 | a golden cross at bar i rules one out at bar i + 1 |
| Conditions.AboveOneBarAverageNever | quant/util/conditions.py:77-78 | with window 1 the average is the close itself, so the predicate never holds |
| Conditions.SurgeExcludesShrink | quant/util/conditions.py:89-100 | with ratio ≥ 1 and non-negative volumes a bar is never both a surge and a shrink |
| Conditions.PriorVolumeMean | quant/util/conditions.py:88-99 | `df['volume'].iloc[i - lookback:i].mean()`: the mean of the bars before i by Python slicing, None (NaN) for an empty slice |
| Conditions.BelowRatio | quant/util/conditions.py:100 | `volume < avg_vol / ratio` as numpy divides: a zero ratio gives +inf for a positive average, NaN or −inf otherwise |
| Selection.Keys | quant/strategies/selection/b1_selection.py:101 | the dict's keys in insertion order |
| Selection.ToMap | quant/strategies/selection/b1_selection.py:101 | the ordered entries as a dict: same keys, and each key's frame when keys are unique |
| Selection.Plain | quant/strategies/selection/base.py:24-27 | SelectionResult(symbol) has score None, no reasons and an empty meta |
| Selection.Symbols | quant/strategies/selection/b1_selection.py:96 | the symbols of the results, one per result in order |
| Selection.DefaultDetails | quant/strategies/selection/base.py:49-55 | the default details are one plain record per selected symbol, in order |
| Selection.VisualOrderPrefix | quant/strategies/selection/base.py:69-75 | the shown results are a prefix of a reordering of all of them: all without top_n, min(top_n, count) for a non-negative top_n |
| Selection.VisualOrderSorted | quant/strategies/selection/base.py:69-75 | with any score present the shown results go by score, highest first and unscored last; otherwise by ascending symbol |
| B1Selection.CondOf | quant/strategies/selection/b1_selection.py:39-47 | condition_funcs has exactly the seven names; any other name is a KeyError |
| B1Selection.CondOfName | quant/strategies/selection/b1_selection.py:39-47 | each condition is found under its own name |
| B1Selection.Flags | quant/strategies/selection/b1_variants.py:19-27 | a dict over the seven names, in the source's order, with the given flags |
| B1Selection.NewSelector | quant/strategies/selection/b1_selection.py:36-57 | the params are the defaults overridden by the given ones; a missing or empty active_conditions falls back to the default dict; the logic is kept |
| B1Selection.Enabled | quant/strategies/selection/b1_selection.py:83-100 | the enabled names are exactly the ones switched on, in dict order |
| B1Selection.FirstUnknown | quant/strategies/selection/b1_selection.py:86-107 | the first enabled name that is not a condition, if any |
| B1Selection.Evaluate | quant/strategies/selection/b1_selection.py:86-107 | one result per name in order when every name is a condition; otherwise the KeyError of the first unknown name |
| B1Selection.Combine | quant/strategies/selection/b1_selection.py:82-92 | false with nothing enabled; otherwise all() for AND, any() for OR and all() for any other logic |
| B1Selection.Reasons | quant/strategies/selection/b1_selection.py:111 | the reasons are at most the names |
| B1Selection.ReasonsFacts | quant/strategies/selection/b1_selection.py:111 | the reasons are the names whose result held, in order; all of them when all held, at least one when any held |
| B1Selection.Share | quant/strategies/selection/b1_selection.py:113 | the score len(reasons)/len(enabled) is in (0, 1], and 1 when every enabled condition held |
| B1Selection.SelectWithDetails | quant/strategies/selection/b1_selection.py:98-115 | the loop's result equals DetailsOf, the record-per-entry specification |
| B1Selection.DetailForFacts | quant/strategies/selection/b1_selection.py:102-114 | a symbol is selected exactly when its frame is long enough, something is enabled and the pass rule holds on the last bar; its reasons are the enabled conditions that held, in order; its score is in (0, 1], 1 under AND; meta records the logic |
| B1Selection.PassRuleVersusCombine | quant/strategies/selection/b1_selection.py:82-108 | for AND and OR the pass rule agrees with _combine; for any other logic it is any() where _combine falls back to all() |
| B1Selection.DetailsOfError | quant/strategies/selection/b1_selection.py:98-115 | select_with_details raises exactly when some entry raises |
| B1Selection.DetailsOfOrder | quant/strategies/selection/b1_selection.py:101 | the results' symbols are dict keys in dict order |
| B1Selection.DetailsOfMembers | quant/strategies/selection/b1_selection.py:98-115 | the results are exactly the records the entries produce |
| B1Selection.SelectFacts | quant/strategies/selection/b1_selection.py:95-96 | select returns keys in dict order, including every symbol whose details exist |
| B1Selection.Leading | quant/strategies/selection/b1_variants.py:18-74 | seven flags with the first n switched on |
| B1Selection.BuildVariant | quant/strategies/selection/b1_variants.py:12-78 | the five names (after lower-casing) build a selector; any other name is ValueError |
| B1Selection.EnabledFlags | quant/strategies/selection/b1_variants.py:19-27 | the dict built from flags enables exactly the names whose flag is on |
| B1Selection.ReasonsPrefix | quant/strategies/selection/b1_variants.py:18-74 | with the first n flags on and the rest off, the enabled names are the first n |
| B1Selection.LeadingEnabled | quant/strategies/selection/b1_variants.py:18-74 | a dict of leading flags enables the first n names and names all seven |
| B1Selection.VariantConditions | quant/strategies/selection/b1_variants.py:18-74 | every variant names all seven conditions and enables a prefix: kdj alone for default; four for b1+ and loose; five for volume_surge and weighted |
| B1Selection.VariantSettings | quant/strategies/selection/b1_variants.py:28-78 | loose uses OR and j_threshold −5; volume_surge uses volume_ratio 1.5; the others keep the default params; all but loose use AND |
| B1Selection.GetSelection | quant/strategies/selection/registry.py:8-18 | only "b1" (lower-cased) builds a selector, with the params and AND logic; any other name is ValueError |
| Selection.VisualOrder | quant/strategies/selection/base.py:69-75 | the display order of visualize: by score, highest first and unscored last, when any result is scored, else by symbol; then the first top_n; `Selection.VisualOrderPrefix` and `Selection.VisualOrderSorted` state it |
| Selection.HasKey | quant/strategies/selection/b1_selection.py:101 | `sym in market_data` over the ordered listing |
| Selection.UniqueKeys | quant/strategies/selection/b1_selection.py:101 | a dict's listing holds each key once |
| B1Selection.CondName | quant/strategies/selection/b1_selection.py:39-47 | each condition's key in condition_funcs |
| B1Selection.DefaultParams | quant/strategies/selection/b1_selection.py:27-34 | B1Selection.DEFAULT_PARAMS: the six defaults and their values |
| B1Selection.DefaultActive | quant/strategies/selection/b1_selection.py:48-57 | the constructor's fallback flags: the four core conditions on, the other three off, in that order |
| B1Selection.Check | quant/strategies/selection/b1_selection.py:60-79 | each condition method with the selector's parameters and the default volume lookback 5 |
| B1Selection.Passed | quant/strategies/selection/b1_selection.py:108 | all() when logic is "AND", any() for every other logic |
| B1Selection.Considered | quant/strategies/selection/b1_selection.py:102-103 | a frame is looked at when it is not empty and has at least min_trade_days bars |
| B1Selection.DetailFor | quant/strategies/selection/b1_selection.py:102-114 | one iteration of select_with_details: the symbol's result, nothing, or the KeyError of an unknown enabled name; `B1Selection.DetailForFacts` states it |
| B1Selection.DetailsOf | quant/strategies/selection/b1_selection.py:98-115 | select_with_details as a whole: the results in dict order or the first error; `B1Selection.DetailsOfError`, `B1Selection.DetailsOfOrder` and `B1Selection.DetailsOfMembers` state it |
| B1Selection.Width | quant/strategies/selection/b1_variants.py:18-74 | how many leading conditions each variant enables: 1 for default, 4 for b1+ and loose, 5 for the others |
| B1Selection.Select | quant/strategies/selection/b1_selection.py:95-96 | select: the symbols of select_with_details in order, or its error; `B1Selection.SelectFacts` states it |
| Selection.Ordered | quant/strategies/selection/base.py:69-73 | by descending score with missing scores last when any result has a score, by ascending symbol otherwise (`VisualOrderSorted` states it) |
| Selection.AnyScore | quant/strategies/selection/base.py:69-70 | some result has a score, the test that picks the score order |
| Selection.Score | quant/strategies/selection/base.py:71 | a result's score, missing when None |
| Selection.SymbolOf | quant/strategies/selection/base.py:73 | a result's symbol, the key of the fallback order |
| Selection.OrderedPermutes | quant/strategies/selection/base.py:69-73 | either sort reorders the results without adding or dropping any |
| B1Selection.EnabledPairs | quant/strategies/selection/b1_selection.py:83-100 | the names enabled by a flag table are exactly those whose flag is on, in order |
| B1Selection.DetailsOfFrom | quant/strategies/selection/b1_selection.py:98-115 | the details loop over the entries from k on: the first error stops it, otherwise entry k's detail comes first |
| Hs300TopWeight.Params | quant/strategies/selection/hs300_top_weight.py:30-38 | the params hold top_n and index_code; a given param wins, every other one is the default |
| Hs300TopWeight.RenameColumn | quant/strategies/selection/hs300_top_weight.py:58-63 | a label lowering to con_code… or symbol becomes "code", one lowering to weight… or i_weight becomes "weight" (the later test wins), any other label is kept; cells are unchanged |
| Hs300TopWeight.Renamed | quant/strategies/selection/hs300_top_weight.py:54-65 | the rename runs only when "code" or "weight" is missing from the lowered labels; otherwise the columns are unchanged |
| Hs300TopWeight.Hs300Columns | quant/strategies/selection/hs300_top_weight.py:66-70 | after the rename: unfit (the caught KeyError or ValueError, so an empty cache entry) exactly when no column is labelled "code" or "weight" is not carried exactly once; a repeated "code" label exactly when "code" is carried twice or more with one "weight"; otherwise the one code column and the one weight column, no other column carrying either label |
| Hs300TopWeight.Hs300TableFacts | quant/strategies/selection/hs300_top_weight.py:41-74 | a failed fetch or unfit columns cache the empty table; a repeated "code" label caches that frame, its label count at least 2 and its height the fetch's; otherwise the cached table has the fetch's height, is sorted by weight, highest first, NaN last, and is a reordering of the fetched (code, weight) rows |
| Hs300TopWeight.CapitalisedLabelsGiveEmpty | quant/strategies/selection/hs300_top_weight.py:54-70 | columns "Code" and "Weight" skip the rename and are then not found, so the cached table is empty |
| Hs300TopWeight.SelectFrom | quant/strategies/selection/hs300_top_weight.py:77-90 | select fails exactly when int(top_n) does or the cached frame repeats its "code" label and has rows; in the latter case with the AttributeError that `.tolist` raises on a DataFrame |
| Hs300TopWeight.SelectFromFacts | quant/strategies/selection/hs300_top_weight.py:77-90 | the symbols are market-data keys; an empty frame (a repeated-"code" frame without rows included) gives the first top_n keys, min(top_n, count) of them for top_n >= 0; otherwise the symbols keep the table's weight order, are the first top_n such codes for top_n >= 1 and number at most max(top_n, 1) |
| Hs300TopWeight.Select | quant/strategies/selection/hs300_top_weight.py:41-90 | a cache miss stores Hs300Table of the fetch under the raw index_code and a hit leaves the cache alone; the result is SelectFrom on the cached frame, so a repeated-"code" frame raises on every later call |
| Hs300TopWeight.Hs300Details | quant/strategies/selection/hs300_top_weight.py:94 | one record per symbol in order, with score 1.0, reasons ["top_weight"] and meta {index: index_code} |
| Hs300TopWeight.SelectWithDetails | quant/strategies/selection/hs300_top_weight.py:92-94 | the records are Hs300Details of select's symbols, with select's cache update; select's errors, the AttributeError included, propagate |
| WeightTables.ByWeight | quant/strategies/selection/hs300_top_weight.py:68 | sort_values by weight, descending: a permutation of the rows, ordered by weight with missing weights last |
| WeightTables.CodesOfPermutation | quant/strategies/selection/hs300_top_weight.py:68 | reordering rows keeps every code |
| WeightTables.LowerLookup | quant/strategies/selection/index_contribute_select.py:79 | lower_map[key] is the last column whose label lowers to key, None when there is none |
| WeightTables.FirstPresent | quant/strategies/selection/index_contribute_select.py:85-101 | the column of the first candidate the lower-cased map holds, None when it holds none |
| WeightTables.ColumnNamed | quant/strategies/selection/hs300_top_weight.py:66-67 | the first column whose label is exactly the name, None when there is none |
| WeightTables.TakeMembersKeys | quant/strategies/selection/hs300_top_weight.py:84-90 | the picks are market-data keys, in the codes' order |
| WeightTables.TakeMembersPrefix | quant/strategies/selection/hs300_top_weight.py:84-90 | for top_n >= 1 the picks are the first top_n codes that are keys; for top_n <= 0 only the first code is looked at |
| WeightTables.TakeMembersBound | quant/strategies/selection/hs300_top_weight.py:84-90 | at most max(top_n, 1) codes are picked |
| WeightTables.PickTop | quant/strategies/selection/hs300_top_weight.py:84-90 | the loop computes TakeMembers, the codes that are keys, stopping once top_n are picked |
| WeightTables.TableCache.Get | quant/strategies/selection/hs300_top_weight.py:44-74 | a hit returns the stored frame and changes nothing; a miss stores the fetched frame under the key and returns it, every other entry unchanged |
| IndexContributeSelect.Params | quant/strategies/selection/index_contribute_select.py:42-52 | the params hold source_type, code, top_k and allow_missing; a given param wins, every other one is the default |
| IndexContributeSelect.PaddedCodes | quant/strategies/selection/index_contribute_select.py:110 | each code is the cell as str, zero-filled to at least six characters |
| IndexContributeSelect.CoercedWeights | quant/strategies/selection/index_contribute_select.py:111 | non-numeric weights become 0.0, numeric ones are kept |
| IndexContributeSelect.UnitWeights | quant/strategies/selection/index_contribute_select.py:104-107 | without a weight column every row weighs 1.0 |
| IndexContributeSelect.Weights | quant/strategies/selection/index_contribute_select.py:94-111 | one numeric weight per row; all 1.0 when no weight candidate is found |
| IndexContributeSelect.NormalizeEmpty | quant/strategies/selection/index_contribute_select.py:75-114 | the result is the empty table exactly when the frame is empty or no code candidate is found; it raises exactly when the chosen code or weight label is carried twice, AttributeError (no .str on a DataFrame) when the code label is, else TypeError (to_numeric of a DataFrame); any other result has the frame's rows |
| IndexContributeSelect.NormalizeRows | quant/strategies/selection/index_contribute_select.py:108-112 | a normalised table that does not raise has a numeric weight and a code of at least six characters on every row, 1.0 throughout without a weight column |
| IndexContributeSelect.NormalizeSorted | quant/strategies/selection/index_contribute_select.py:113 | a normalised table that does not raise is sorted by weight, highest first |
| IndexContributeSelect.ExactMatchFoundByMap | quant/strategies/selection/index_contribute_select.py:85-101 | a label equal to a candidate is always found through lower_map first, so the inner exact-match loop never decides |
| IndexContributeSelect.CacheKey | quant/strategies/selection/index_contribute_select.py:117-119 | the key is the lower-cased source type, a colon and the code |
| IndexContributeSelect.NonStringSourceNotFetched | quant/strategies/selection/index_contribute_select.py:118-127 | a source_type that is a float, a list or a dict is rendered by str() to something that is neither index nor etf, so nothing is fetched for it |
| IndexContributeSelect.Fetched | quant/strategies/selection/index_contribute_select.py:55-127 | index and etf give _normalize of the fetch, its raise included, or the empty table when the fetch failed; any other source type gives the empty table without fetching |
| IndexContributeSelect.SelectFrom | quant/strategies/selection/index_contribute_select.py:134 | select fails exactly when int(top_k) does |
| IndexContributeSelect.SelectFromFacts | quant/strategies/selection/index_contribute_select.py:132-146 | the symbols are market-data keys; an empty table gives the first top_k keys, or nothing with allow_missing off; otherwise the first top_k table codes that are keys, falling back to the key prefix when none is and missing data is allowed |
| IndexContributeSelect.Select | quant/strategies/selection/index_contribute_select.py:116-146 | a cache hit leaves the cache alone and selects from the stored table; a miss whose _normalize raises returns that error and stores nothing; any other miss stores Fetched under the cache key and selects from it |
| IndexContributeSelect.ContributeDetails | quant/strategies/selection/index_contribute_select.py:150-154 | one record per symbol in order, with score 1.0, reasons ["weight_top"] and meta {source_type, code} as given |
| IndexContributeSelect.SelectWithDetails | quant/strategies/selection/index_contribute_select.py:148-154 | the records are ContributeDetails of select's symbols, with select's cache update; a raising _normalize stores nothing and its error propagates, as do int(top_k) errors |
| IndexContributeSelection.Params | quant/strategies/selection/index_contribute_selection.py:46-55 | the params hold mode, code, top_n, date and use_float_mv; a given param wins, every other one is the default |
| IndexContributeSelection.IndexTableFacts | quant/strategies/selection/index_contribute_selection.py:61-78 | the index table is empty without a fetch, without either column, or when a chosen label is carried by two columns; otherwise it has the fetch's height, is a reordering of the fetched (code, weight) rows and is sorted by weight with NaN last |
| IndexContributeSelection.FirstExact | quant/strategies/selection/index_contribute_selection.py:91-110 | the column of the first label in 代码, 股票代码, code that some column carries exactly; None when none does |
| IndexContributeSelection.FirstContaining | quant/strategies/selection/index_contribute_selection.py:123-124 | the first column whose label contains the text, None when none does |
| IndexContributeSelection.ValueColumn | quant/strategies/selection/index_contribute_selection.py:125-129 | the first 流通市值 column when use_float_mv is truthy and one exists, else the first 总市值 column |
| IndexContributeSelection.Matches | quant/strategies/selection/index_contribute_selection.py:132 | the snapshot rows the left merge pairs with one member code all carry that code |
| IndexContributeSelection.MatchesCount | quant/strategies/selection/index_contribute_selection.py:132 | a member code gets one joined row per occurrence in the snapshot |
| IndexContributeSelection.LeftJoinUnique | quant/strategies/selection/index_contribute_selection.py:132 | with each code at most once in the snapshot the merge keeps the members one row each, in order |
| IndexContributeSelection.LeftJoinCodes | quant/strategies/selection/index_contribute_selection.py:132 | the merge has a row for every member and only members' codes |
| IndexContributeSelection.LeftJoinOnlyMembers | quant/strategies/selection/index_contribute_selection.py:132 | every joined row's code is a member code |
| IndexContributeSelection.LeftJoinAllMembers | quant/strategies/selection/index_contribute_selection.py:132 | every member code has a joined row |
| IndexContributeSelection.NoValues | quant/strategies/selection/index_contribute_selection.py:121-131 | members.assign(weight=None): the member codes in order, each without a weight |
| IndexContributeSelection.JoinedFacts | quant/strategies/selection/index_contribute_selection.py:132-134 | the sorted merge holds only members' codes, each at least once, sorted by value with missing values last |
| IndexContributeSelection.BoardUnvalued | quant/strategies/selection/index_contribute_selection.py:80-131 | without a usable snapshot value column the board does not raise: with a repeated "code" label it is that frame, with the label count and the members' height; otherwise every member is kept unvalued, in member order |
| IndexContributeSelection.BoardValued | quant/strategies/selection/index_contribute_selection.py:91-135 | with snapshot values and a snapshot code column, the board is the merge's ValueError exactly when "code" is carried twice on either side, and ValuedTable otherwise |
| IndexContributeSelection.BoardTableFacts | quant/strategies/selection/index_contribute_selection.py:80-135 | empty for other modes or without members; its only errors are KeyError("code"), the merge's and the sort's ValueError, and KeyError("weight"); a read table has only members' codes, every member code when it has rows, sorted by value with missing values last |
| IndexContributeSelection.PickFacts | quant/strategies/selection/index_contribute_selection.py:158-164 | the picks are market-data keys in table order: the first top_n for top_n >= 1, at most max(top_n, 1) |
| IndexContributeSelection.SelectOfFacts | quant/strategies/selection/index_contribute_selection.py:138-164 | int(top_n) errors come first; etf raises NotImplementedError; a mode other than index, concept or industry raises ValueError; index never fails; a board fails only with KeyError("code"), the merge's or the sort's ValueError, or KeyError("weight"); every success lists market-data keys |
| IndexContributeSelection.NonStringModeRaises | quant/strategies/selection/index_contribute_selection.py:139-164 | a mode that is a float, a list or a dict renders to none of the four modes, so select raises ValueError once int(top_n) has succeeded |
| IndexContributeSelection.Select | quant/strategies/selection/index_contribute_selection.py:138-164 | the loop's result is SelectOf, the specification above, the loop over the column labels of a repeated-"code" frame included |
| IndexContributeSelection.MemberRowsCodes | quant/strategies/selection/index_contribute_selection.py:179-189 | the detail loop takes the first max(top_n, 1) members |
| IndexContributeSelection.DetailsAgreeWithSelect | quant/strategies/selection/index_contribute_selection.py:158-189 | for top_n >= 1 select and select_with_details pick the same symbols, with every code cell read as its text (see Left out for the float64 upcast of an int code column) |
| IndexContributeSelection.DetailsDifferAtZero | quant/strategies/selection/index_contribute_selection.py:158-189 | for top_n = 0 select stops at a non-member first code while the details still find the member after it |
| IndexContributeSelection.PickRows | quant/strategies/selection/index_contribute_selection.py:179-189 | the detail loop computes MemberRows |
| IndexContributeSelection.Detail | quant/strategies/selection/index_contribute_selection.py:182-186 | the record has the row's code, no score, reasons ["top_weight"] and meta {mode, source_code, weight}, a missing weight None |
| IndexContributeSelection.Details | quant/strategies/selection/index_contribute_selection.py:179-190 | one record per picked row, in order |
| IndexContributeSelection.DetailTable | quant/strategies/selection/index_contribute_selection.py:170-177 | index mode reads the index table; other modes read the board, so etf and unknown modes give none; a raising board gives none, and so does a repeated-"code" board frame |
| IndexContributeSelection.SelectWithDetails | quant/strategies/selection/index_contribute_selection.py:166-190 | int(top_n) errors propagate; otherwise one record per member DetailTable yields before top_n are taken, the board's errors caught into no records; codes are looked up as their text, not as the upcast str(row['code']) (see Left out) |
| IndexContributeSelect.NormalizeBy | quant/strategies/selection/index_contribute_select.py:75-114 | _normalize with given code and weight candidates: the empty table for an empty frame or no code column; AttributeError when the chosen code label is carried twice, else TypeError when the weight label is; otherwise zero-padded codes with coerced weights sorted by weight; `IndexContributeSelect.NormalizeByOutcome` and `IndexContributeSelect.NormalizeByRows` state it |
| IndexContributeSelect.Normalize | quant/strategies/selection/index_contribute_select.py:75-114 | _normalize with the source's candidate lists; `IndexContributeSelect.NormalizeEmpty`, `IndexContributeSelect.NormalizeRows` and `IndexContributeSelect.NormalizeSorted` state it |
| IndexContributeSelect.Fetches | quant/strategies/selection/index_contribute_select.py:122-127 | the lower-cased source types _get_weights fetches: index and etf |
| IndexContributeSelect.AllowMissing | quant/strategies/selection/index_contribute_select.py:135 | `bool(self.params.get('allow_missing', True))` |
| IndexContributeSelection.IndexTable | quant/strategies/selection/index_contribute_selection.py:61-78 | _fetch_index_weights: the first code and weight columns in the lower-cased label map, both required and each label carried once (a repeated one makes the column assignment raise, which is caught), else the empty table; sorted by the weight cells as numbers, NaN last (a text weight column is left out); `IndexContributeSelection.IndexTableFacts` states it |
| IndexContributeSelection.Count | quant/strategies/selection/index_contribute_selection.py:132 | how many snapshot rows carry a member's code, which is how many rows the left join gives it |
| IndexContributeSelection.LeftJoin | quant/strategies/selection/index_contribute_selection.py:132 | the left merge on code: per member in order, every matching snapshot row, or one NaN row; `IndexContributeSelection.LeftJoinCodes`, `IndexContributeSelection.LeftJoinUnique` and `IndexContributeSelection.LeftJoinAllMembers` state it |
| IndexContributeSelection.BoardTable | quant/strategies/selection/index_contribute_selection.py:80-135 | _board_with_weights: empty for other modes, without members, a code column or rows; unvalued members without a snapshot or value column; else SnapshotTable, sorted by the value cells as numbers (a text value column is left out); `IndexContributeSelection.BoardTableFacts` and `IndexContributeSelection.BoardTableOutcome` state it |
| IndexContributeSelection.SnapshotTable | quant/strategies/selection/index_contribute_selection.py:123-135 | the members valued from a non-empty snapshot by its float or total market-value column: unvalued without one, KeyError("code") without a snapshot code column, the merge's ValueError for a repeated "code", else ValuedTable, sorted by the value cells as numbers (a text value column is left out); `IndexContributeSelection.SnapshotTableOutcome` states it |
| IndexContributeSelection.Pick | quant/strategies/selection/index_contribute_selection.py:158-164 | the table's codes in order that are market-data keys, stopping once top_n are picked, with no fallback; `IndexContributeSelection.PickFacts` states it |
| IndexContributeSelection.SelectOf | quant/strategies/selection/index_contribute_selection.py:138-164 | select: the conversions first, NotImplementedError for etf, the index table or the board frame (whose errors propagate), ValueError for another mode; `IndexContributeSelection.SelectOfFacts` states it |
| IndexContributeSelection.UseFloat | quant/strategies/selection/index_contribute_selection.py:126 | `self.params.get('use_float_mv')` as a truth value |
| IndexContributeSelection.MemberRows | quant/strategies/selection/index_contribute_selection.py:179-189 | the detail loop's picks: market-data members only, stopping right after the pick that reaches top_n; `IndexContributeSelection.MemberRowsCodes` states it |
| Hs300TopWeight.HasLower | quant/strategies/selection/hs300_top_weight.py:58-63 | some column label lowers to the key |
| Hs300TopWeight.Hs300Table | quant/strategies/selection/hs300_top_weight.py:41-74 | what _fetch_weights caches: the empty table for a failed fetch or unfit columns, the frame whose "code" label repeats (with its label count and its height), else the (code, weight) rows sorted by the weight cells as numbers, NaN last (a text weight column is left out); `Hs300TopWeight.Hs300TableFacts` states it |
| WeightTables.Zip | quant/strategies/selection/hs300_top_weight.py:66-69 | codes paired with weights row by row |
| WeightTables.Codes | quant/strategies/selection/hs300_top_weight.py:84 | the code column, one per row in order |
| WeightTables.Members | quant/strategies/selection/hs300_top_weight.py:84-90 | the codes that are market-data keys, in order |
| WeightTables.TakeMembers | quant/strategies/selection/hs300_top_weight.py:84-90 | the pick loop: append each market-data code and stop once at least top_n are picked; `WeightTables.TakeMembersKeys`, `WeightTables.TakeMembersPrefix` and `WeightTables.TakeMembersBound` state it |
| IndexContributeSelect.WeightsBy | quant/strategies/selection/index_contribute_select.py:81-111 | one weight per row, every one present; 1.0 throughout when no weight column is found |
| IndexContributeSelect.SortedRows | quant/strategies/selection/index_contribute_select.py:108-113 | after the sort by weight every row still has a weight and a code of at least six characters, 1.0 throughout without a weight column |
| IndexContributeSelect.NormalizeByRows | quant/strategies/selection/index_contribute_select.py:75-114 | whatever the candidates, a normalised table that does not raise has a weight and a zero-padded code on every row, the weight 1.0 without a weight column |
| IndexContributeSelection.BoardTableOutcome | quant/strategies/selection/index_contribute_selection.py:80-135 | empty for other modes or without members; the four errors only; with members, rows and snapshot values: KeyError("code") exactly when the snapshot lacks a code column, and, when it has one, the merge's ValueError exactly when "code" is carried twice on either side |
| IndexContributeSelection.BoardTableRows | quant/strategies/selection/index_contribute_selection.py:115-135 | a board that is a table has only members' codes, every member code when it has rows, and is sorted by value with missing values last |
| IndexContributeSelection.BoardJoin | quant/strategies/selection/index_contribute_selection.py:120-135 | with the member code column, the snapshot code column and the value column named, the board is the merge's ValueError for a repeated "code", else ValuedTable; with each label involved carried once and no member "weight", it is the left join of members on the snapshot values, sorted by value |
| WeightTables.ByWeightKeeps | quant/strategies/selection/hs300_top_weight.py:68 | a property every row has survives the sort by weight |
| WeightTables.LabelCount | quant/strategies/selection/hs300_top_weight.py:66-67 | how many columns carry the label exactly: at most the column count, and zero exactly when no column carries it |
| WeightTables.LabelRepeated | quant/strategies/selection/hs300_top_weight.py:66-67 | a label counts at least twice exactly when two different columns carry it, which is when frame[label] is itself a DataFrame |
| WeightTables.LabelOnce | quant/strategies/selection/hs300_top_weight.py:66-67 | a label counted once is carried by the given column and by no other one |
| Hs300TopWeight.ConCodeAndSymbolRepeatCode | quant/strategies/selection/hs300_top_weight.py:54-68 | labels "con_code", "symbol" and "weight" are all renamed, to "code", "code" and "weight", so the cached frame has its "code" label twice and its rows' height |
| Hs300TopWeight.ConCodeAndSymbolRenamed | quant/strategies/selection/hs300_top_weight.py:54-65 | the rename runs because no label lowers to "code", and turns "con_code", "symbol" and "weight" into "code", "code" and "weight" |
| Hs300TopWeight.RepeatedCodeRaises | quant/strategies/selection/hs300_top_weight.py:66-83 | a fetch whose renamed labels repeat "code" (with one "weight" and some rows) makes select raise the AttributeError once int(top_n) succeeds, whatever the market data |
| IndexContributeSelect.WeightLabel | quant/strategies/selection/index_contribute_select.py:94-107 | the label df2[weight_col] reads: the chosen weight column's, or "_weight" when no weight candidate is found |
| IndexContributeSelect.NormalizeByOutcome | quant/strategies/selection/index_contribute_select.py:75-114 | for any candidate lists: the empty table exactly for an empty frame or no code column; an error exactly when a chosen label is carried twice, AttributeError for the code label first, TypeError for the weight label; any other result has the frame's rows |
| IndexContributeSelect.RepeatedCodeLabelRaises | quant/strategies/selection/index_contribute_select.py:79-110 | labels "code", "code" and "weight": df2["code"] is a DataFrame, so _normalize raises the AttributeError before any weight is read |
| IndexContributeSelection.CodeCount | quant/strategies/selection/index_contribute_selection.py:91-110 | how many columns are labelled "code" once every column carrying the first code label found is renamed to "code" |
| IndexContributeSelection.Unvalued | quant/strategies/selection/index_contribute_selection.py:118-131 | members.assign(weight=None): the member codes, unvalued, unless "code" is carried twice, which keeps the frame whose "code" selection is a DataFrame |
| IndexContributeSelection.OwnJoin | quant/strategies/selection/index_contribute_selection.py:132-134 | the merge when the snapshot's value column is suffixed away: per member, one row per matching snapshot row (one when none matches), valued by the member's own "weight" cell; `IndexContributeSelection.OwnJoinCodes` states it |
| IndexContributeSelection.OwnJoinCodes | quant/strategies/selection/index_contribute_selection.py:132 | that merge has a row for every member and only members' codes |
| IndexContributeSelection.ValuedTable | quant/strategies/selection/index_contribute_selection.py:132-135 | the merge and sort once "code" is unique on both sides, by the value cells as numbers (a text value column is left out); `IndexContributeSelection.ValuedTableFacts` and `IndexContributeSelection.ValuedTableRows` state it |
| IndexContributeSelection.ValuedTableFacts | quant/strategies/selection/index_contribute_selection.py:132-135 | the sort raises ValueError exactly when "weight" ends up carried twice (the renamed value column beside a member "weight", the value column repeated in the snapshot, or a repeated member "weight" sorted after the suffixing); KeyError("weight") exactly when a member column shares the value column's label and the members have no "weight"; otherwise a table, which without that shared label is the left join sorted by value |
| IndexContributeSelection.ValuedTableRows | quant/strategies/selection/index_contribute_selection.py:132-135 | a read valued table holds only members' codes, each at least once, sorted by value with missing values last |
| IndexContributeSelection.SortedCodes | quant/strategies/selection/index_contribute_selection.py:134 | the sort by value keeps "only members' codes" and "every member code" |
| IndexContributeSelection.SnapshotTableOutcome | quant/strategies/selection/index_contribute_selection.py:123-135 | from a non-empty snapshot: KeyError("code") exactly when a valued snapshot has no code column; the merge's ValueError exactly when "code" is carried twice on either side; no error other than those and the sort's two |
| IndexContributeSelection.FramePick | quant/strategies/selection/index_contribute_selection.py:153-164 | select on the board frame: the pick loop over the table's codes, or over the column labels when frame["code"] is a DataFrame; `IndexContributeSelection.FramePickFacts` states it |
| IndexContributeSelection.FramePickFacts | quant/strategies/selection/index_contribute_selection.py:153-164 | the picks are market-data keys; a table's picks are Pick's; a repeated-"code" frame picks the label "code" itself, at most max(top_n, 1) times, and nothing when "code" is not a market-data key |
| Composite.ParamsRoundTrip | quant/strategies/composite/base.py:15-16 | the snapshot of a params dict reads back as the same dict |
| Composite.ExitParams | quant/strategies/composite/base.py:9-22 | the fixed-risk exit has no snapshot; every other exit rule's snapshot holds its name and parameters |
| Composite.ToDict | quant/strategies/composite/base.py:52-97 | the config records the composite name and each layer's name and parameter snapshot |
| Composite.SnapshotRebuilds | quant/strategies/composite/base.py:57-71 | handing each layer's snapshot back to its registry rebuilds the same selector, entry rule and exit rule |
| Composite.SelectionRebuilds | quant/strategies/composite/base.py:58-61 | a default-condition AND selector is rebuilt from its params by the selection registry |
| Composite.EntryRebuilds | quant/strategies/composite/base.py:62-65 | an entry rule is rebuilt from its params by the entry registry |
| Composite.ExitRebuilds | quant/strategies/composite/base.py:66-69 | an exit rule is rebuilt from its snapshot by the exit registry |
| Composite.TimeRebuilds | quant/strategies/composite/base.py:66-69 | the time-based exit is rebuilt from its snapshot |
| Composite.TrailingRebuilds | quant/strategies/composite/base.py:66-69 | the trailing-stop exit is rebuilt from its snapshot |
| Composite.AdvancedRebuilds | quant/strategies/composite/base.py:66-69 | the advanced exit with all three settings is rebuilt from its snapshot |
| Composite.Tag | quant/strategies/composite/base.py:86-88 | meta is created when absent; selection and entry are set only when missing; every other field and existing tag is kept |
| Composite.TagKeepsFirstTags | quant/strategies/composite/base.py:86-88 | tagging a second time changes nothing |
| Composite.TagAll | quant/strategies/composite/base.py:85-88 | each signal of the list is tagged, in order |
| Composite.EntriesForAppend | quant/strategies/composite/base.py:77-90 | the output concatenates the per-symbol lists in selection order |
| Composite.GeneratedSymbol | quant/strategies/composite/base.py:83 | the entry rules emit signals for the symbol they were given |
| Composite.SymbolSignalsTagged | quant/strategies/composite/base.py:80-89 | one symbol's signals carry both tags and that symbol, which has data |
| Composite.EntriesForTagged | quant/strategies/composite/base.py:77-90 | every entry signal carries both layer tags and belongs to a selected symbol that has data |
| Composite.EntriesSkipMissing | quant/strategies/composite/base.py:80-82 | a selected symbol without market data contributes nothing |
| Composite.TagSignals | quant/strategies/composite/base.py:85-88 | the tagging loop computes TagAll |
| Composite.SymbolEntries | quant/strategies/composite/base.py:80-89 | one iteration gives the symbol's tagged signals |
| Composite.EntriesForStep | quant/strategies/composite/base.py:79-89 | the remaining output is this symbol's signals followed by the rest |
| Composite.EntriesLoop | quant/strategies/composite/base.py:78-90 | the loop over the selected symbols computes EntriesFor |
| Composite.GenerateEntries | quant/strategies/composite/base.py:74-90 | select runs first and its error propagates; then the loop's result |
| Composite.EvaluateExit | quant/strategies/composite/base.py:92-93 | the decision and the new position are the exit rule's own |
| Composite.FromNames | quant/strategies/composite/base.py:116-133 | the three registries in order, the first error escaping; the default name lists the three names |
| Composite.NameOf | quant/strategies/selection/registry.py:14 | name.lower() succeeds exactly on a string |
| Composite.BuildLayers | quant/strategies/composite/factory.py:53-68 | ValueError when validation finds an empty name; otherwise the four registries in order, the first failure being the result, and the resolved layers when all succeed |
| Composite.CompositeName | quant/strategies/composite/factory.py:70-76 | name, else default_name, else selection_entry_exit_execution |
| Composite.BuildCustomStrategyAsWritten | quant/strategies/composite/factory.py:53-84 | every call raises: a layer's error, or TypeError from the execution_model keyword |
| Composite.BuildCustomStrategy | quant/strategies/composite/factory.py:53-84 | builds exactly when every layer resolves, with the layers, the execution model and the name |
| Composite.FactoryAlwaysRaises | quant/strategies/composite/factory.py:78-84 | with the default arguments every layer resolves, yet the factory as written raises where the corrected one builds "custom_strategy" |
| Composite.B1Exit | quant/strategies/composite/b1_composite.py:42-52 | fixed ignores the arguments; time, trailing and advanced take them as keywords; any other type is ValueError |
| Composite.B1CompositeFacts | quant/strategies/composite/b1_composite.py:27-55 | the selector and entry rule share the params; the entry is T+1 exactly for t+1, tplus1 and next_open; the default name is built from the entry and exit types |
| Composite.B1CompositeLowercases | quant/strategies/composite/b1_composite.py:33 | mixed-case exit types are accepted |
| Composite.BuilderDefaults | quant/strategies/composite/b1_composite.py:58-65 | without params the builder gives a same-close entry and the fixed exit, with the default name built from same_close and fixed |
| Composite.ClassDefaults | quant/strategies/composite/b1_composite.py:27-34 | the class itself defaults to the T+1 entry, with the default name built from t+1 and fixed |
| Composite.BuilderNoneExecution | quant/strategies/composite/b1_composite.py:34-61 | an explicit None entry_execution falls through to t+1 |
| Composite.PresetsComplete | quant/strategies/composite/presets.py:11-83 | the table has exactly the six names; each names all four layers and has a description |
| Composite.GetPresetConfig | quant/strategies/composite/presets.py:86-91 | the preset's row exactly when the name is in the table; otherwise exactly PresetNotFound of the name |
| Composite.ListPresets | quant/strategies/composite/presets.py:94-96 | exactly the table's names, each mapped to its preset's description |
| Composite.DefaultPresetFails | quant/strategies/composite/presets.py:13-22 | preset default names a selection the registry lacks, so building it raises ValueError |
| Composite.ConservativePresetFails | quant/strategies/composite/presets.py:73-82 | preset b1_conservative hands keywords to the fixed exit, which takes none, so building it raises TypeError |
| Composite.OtherPresetsBuild | quant/strategies/composite/presets.py:25-70 | (corrected factory) the other four presets build |
| Composite.PresetBuilds | quant/strategies/composite/presets.py:25-70 | (corrected factory) a preset of registered B1 layers builds when its exit accepts its keywords |
| Composite.StrategyRegistry.GetStrategy | quant/strategies/composite/registry.py:16-19 | (corrected factory for custom and layered) a case-sensitive lookup: a registered builder's result, ValueError for any other name |
| Composite.BuiltinTable | quant/strategies/composite/registry.py:8-13 | custom and layered are the same builder; b1 is the B1 composite builder; the lookup is case-sensitive |
| Composite.ParamsValue | quant/strategies/composite/base.py:9-22 | a params dict as the Python values `_extract_params` copies, with the same keys |
| Composite.NumEntries | quant/strategies/composite/base.py:57-69 | the numeric entries of a snapshot dict read back as a component's params; `Composite.ParamsRoundTrip` shows it inverts ParamsValue |
| Composite.EntryKey | quant/strategies/composite/base.py:62-65 | the entry registry key of an entry rule: b1 or b1_tplus1 |
| Composite.ExitKey | quant/strategies/composite/base.py:66-69 | the exit registry key of an exit rule: fixed, time, trailing or advanced |
| Composite.SymbolSignals | quant/strategies/composite/base.py:80-89 | one selected symbol's tagged entry signals; none without data; `Composite.SymbolSignalsTagged` states it |
| Composite.EntriesFor | quant/strategies/composite/base.py:78-90 | the signals of the selected symbols in selection order; `Composite.EntriesForAppend` and `Composite.EntriesForTagged` state it |
| Composite.Entries | quant/strategies/composite/base.py:77-90 | generate_entries: select first, its error propagating, then the entries of the selected symbols; `Composite.GenerateEntries` computes it |
| Composite.Given | quant/strategies/composite/factory.py:71 | Python truthiness of an optional name: given and not empty |
| Composite.AllNamed | quant/strategies/composite/factory.py:55 | `all([selection_name, entry_name, exit_name, execution_name])` |
| Composite.NextOpen | quant/strategies/composite/b1_composite.py:37 | the entry_execution values t+1, tplus1 and next_open, which pick the T+1 entry rule |
| Composite.ExecOf | quant/strategies/composite/b1_composite.py:34 | `(entry_execution or 't+1').lower()` |
| Composite.ExitTypeOf | quant/strategies/composite/b1_composite.py:33 | `(exit_type or 'fixed').lower()` |
| Composite.B1Name | quant/strategies/composite/b1_composite.py:54 | the given name, else "B1[exec|exit]" from the lowered values |
| Composite.B1Composite | quant/strategies/composite/b1_composite.py:27-55 | B1CompositeStrategy.__init__: shared params to selector and entry, the exit from exit_args except for fixed, ValueError for another exit type; `Composite.B1CompositeFacts` states it |
| Composite.B1FromArgs | quant/strategies/composite/b1_composite.py:27-34 | the class built from keyword arguments, the absent ones taking their defaults |
| Composite.BuildB1Composite | quant/strategies/composite/b1_composite.py:58-65 | build_b1_composite: entry_execution defaults to same_close, exit_type to fixed, the other keys become shared params; `Composite.BuilderDefaults` and `Composite.BuilderNoneExecution` state it |
| Composite.Presets | quant/strategies/composite/presets.py:11-83 | STRATEGY_PRESETS: the six presets with their layers, params and descriptions as the source spells them; `Composite.PresetsComplete` states it |
| Composite.PresetArgs | quant/framework/cli.py:97-107 | the factory arguments a preset row is built with, named after the preset |
| Composite.Builtin | quant/strategies/composite/registry.py:8-13 | STRATEGY_BUILDERS called with keyword arguments; `Composite.BuiltinTable` states it |
| Composite.B1Builder | quant/strategies/composite/registry.py:9 | build_b1_composite(**kwargs): only `params` is accepted, another keyword raises TypeError |
| Composite.FactoryBuilder | quant/strategies/composite/registry.py:10-11 | (corrected factory) build_custom_strategy(**kwargs), the defaults when no keyword is given |
| Composite.StandardLayersResolve | quant/strategies/composite/factory.py:53-68 | layers named b1, b1, fixed and close with no exit arguments all resolve, to the fixed exit and close execution |
| Composite.FixedDefaults | quant/strategies/composite/b1_composite.py:27-64 | with no named key and no shared keyword the builder gives the fixed exit, a T+1 entry exactly for a next-open default, and the name that joins the default and fixed in brackets after B1 |
| Composite.B1Resolves | quant/strategies/selection/registry.py:8-18 | "b1" resolves to the AND selector with the given params and to the plain B1 entry |
| Composite.FixedResolves | quant/strategies/exit/registry.py:9-23 | "fixed" with no arguments resolves to the fixed-risk exit |
| Composite.ModelsResolve | quant/strategies/execution/registry.py:5-17 | "next_open" and "close" resolve to their execution models |
| Composite.TrailingAccepts | quant/strategies/exit/registry.py:9-23 | "trailing" accepts arguments drawn from trailing_pct |
| Composite.AdvancedAccepts | quant/strategies/exit/registry.py:9-23 | "advanced" accepts arguments drawn from trailing_pct and max_holding_days |
| Composite.BuiltinNamesDiffer | quant/strategies/composite/registry.py:8-13 | custom and layered differ from b1 and b1_class, and the lookup is case-sensitive: "B1" and "Custom" are not built-in names |
| Composite.PresetNotFound | quant/strategies/composite/presets.py:88-90 | the ValueError of get_preset_config: "未找到预设策略: " and the name, a newline, then "可用预设: " and the six names joined by ", " in table order |
| Cli.Underscored | quant/framework/cli.py:74-77 | every '-' becomes '_' and every other character is kept |
| Cli.ProvidedOption | quant/framework/cli.py:72-74 | an argument "--x-y" marks x_y as provided |
| Cli.ProvidedArgs | quant/framework/cli.py:71-74 | the loop over sys.argv computes Provided, the set of dashed options with '-' turned into '_' |
| Cli.Replacement | quant/framework/cli.py:83-86 | an empty list takes a list value as is and wraps any other value in a list; None or a scalar takes the value |
| Cli.Apply | quant/framework/cli.py:77-86 | one config entry changes at most its own attribute, not when the command line provided it, and only as the replacement rule allows |
| Cli.MergeItems | quant/framework/cli.py:76-86 | the entries applied in order keep the attribute set, every provided attribute and every attribute no key names |
| Cli.Merged | quant/framework/cli.py:63-88 | an empty config leaves the arguments alone; a command section without items() raises; otherwise provided and unnamed attributes keep their values |
| Cli.MergeItemsOne | quant/framework/cli.py:76-86 | an attribute named by exactly one key and not provided ends replaced by the rule when it was None, a scalar or an empty list, and unchanged otherwise |
| Cli.MergedOne | quant/framework/cli.py:63-88 | the same rule holds through merge_config_and_args |
| Cli.MergeConfigAndArgs | quant/framework/cli.py:63-88 | the namespace is updated in place to Merged, or left unchanged when the section has no items() |
| Cli.ParamsArg | quant/framework/cli.py:117-119 | a dict's numeric entries are the params; anything else gives none |
| Cli.PresetPriority | quant/framework/cli.py:94-107 | (corrected factory) a truthy preset wins over everything in the config: the factory built from that preset's row and named after it, or exactly get_preset_config's ValueError for an unknown preset |
| Cli.LayerPrecedence | quant/framework/cli.py:110-121 | each layer name is the truthy argument, else the strategy section's entry, else its default; params come from the section; the name falls back to custom_strategy |
| Cli.DefaultsBuild | quant/framework/cli.py:110-139 | (corrected factory) with nothing configured the defaults b1, b1, fixed, close build a composite named custom_strategy |
| StrategyVariations.CountExtend | quant/test_strategy_variations.py:473-482 | one more day at the end adds one exactly when it is a weekday |
| StrategyVariations.AddTradingDays | quant/test_strategy_variations.py:460-469 | d for n <= 0; otherwise a weekday after d such that (d, result] holds exactly n weekdays |
| StrategyVariations.CountTradingDays | quant/test_strategy_variations.py:473-482 | the number of weekdays in [start, end), 0 when end <= start |
| StrategyVariations.CountAfterAdd | quant/test_strategy_variations.py:340-521 | counting from a weekday up to n trading days later gives n back |
| StrategyVariations.GenerateDateRange | quant/test_strategy_variations.py:437-456 | each weekday of [start, end], once and ascending |
| StrategyVariations.DateRangeStep | quant/test_strategy_variations.py:450-454 | one step of the date loop keeps the collected dates a prefix of the range |
| StrategyVariations.DateRangeOnce | quant/test_strategy_variations.py:437-456 | each weekday of the range appears exactly once |
| StrategyVariations.ReturnOf | quant/test_strategy_variations.py:199-205 | no return for fewer than two closes; otherwise buy times (1 + rate) is the sell price, and a zero buy price gives a non-finite rate |
| StrategyVariations.Returns | quant/test_strategy_variations.py:188-209 | a return exactly for the symbols with at least two closes |
| StrategyVariations.ReturnBound | quant/test_strategy_variations.py:203-205 | with a positive buy price and a non-negative sell price the return is at least -100%, and positive exactly when the price rose |
| StrategyVariations.Tallies | quant/test_strategy_variations.py:629-637 | each seen strategy has at least one day and no more win days than days |
| StrategyVariations.TalliesKeys | quant/test_strategy_variations.py:613-626 | the tallied names are exactly the strategy names that occur |
| StrategyVariations.TalliesSnoc | quant/test_strategy_variations.py:630-637 | one more result updates the tallies as one loop step does |
| StrategyVariations.TalliesCount | quant/test_strategy_variations.py:635-637 | total_days counts the strategy's results and win_days those with positive excess return |
| StrategyVariations.CountAbsent | quant/test_strategy_variations.py:613-626 | a name without a tally has no results |
| StrategyVariations.Finish | quant/test_strategy_variations.py:640-645 | the win rate is win_days / total_days in [0, 1], and each average times total_days is its sum |
| StrategyVariations.ShareBound | quant/test_strategy_variations.py:644 | a part of a positive whole is a share in [0, 1] |
| StrategyVariations.Summarize | quant/test_strategy_variations.py:600-650 | ValueError exactly when there are no daily results; otherwise every summary has at least one day |
| StrategyVariations.SummarizeFacts | quant/test_strategy_variations.py:600-650 | one summary per strategy that occurs; its day count, win days and averages are those of its results |
| StrategyVariations.SummarizeRate | quant/test_strategy_variations.py:644 | the win rate is win_days / total_days, in [0, 1] |
| StrategyVariations.SummarizeCounts | quant/test_strategy_variations.py:629-637 | total_days and win_days count the strategy's results over all dates |
| StrategyVariations.SummarizeKeys | quant/test_strategy_variations.py:613-645 | the summary is the averaging pass over the tallies, with the same names |
| StrategyVariations.TallyDay | quant/test_strategy_variations.py:630-637 | the inner loop adds one date's results to the tallies |
| StrategyVariations.SummarizeResults | quant/test_strategy_variations.py:600-650 | the loops compute Summarize |
| Weekdays.Weekday | quant/test_strategy_variations.py:452 | date.weekday() is in [0, 7) |
| Weekdays.BusinessDaysFacts | quant/test_strategy_variations.py:437-456 | the range is ascending and holds exactly the weekdays of [start, end] |
| Weekdays.CountBusiness | quant/test_strategy_variations.py:473-475 | no weekdays in an empty interval |
| Weekdays.NextBusinessDay | quant/strategies/entry/tplus1_entry.py:30 | the next trading date after d is a weekday at most three days later, with no weekday in between |
| Cli.Provided | quant/framework/cli.py:71-74 | the attribute names the command line spelled out as "--name", dashes read as underscores; `Cli.ProvidedArgs` computes it |
| Cli.Replaceable | quant/framework/cli.py:83-86 | the attribute values a config value may replace: None, a scalar, or an empty list |
| Cli.Section | quant/framework/cli.py:68 | `config.get(command, {})` |
| Cli.Layer | quant/framework/cli.py:112-121 | `getattr(args, key, None) or section.get(key, default)`; `Cli.LayerPrecedence` states it |
| Cli.SectionParams | quant/framework/cli.py:117-119 | `section.get(key, {})` as factory params |
| Cli.ConfigArgs | quant/framework/cli.py:110-139 | the factory arguments of the non-preset path |
| Cli.HasPreset | quant/framework/cli.py:94 | `hasattr(args, 'preset') and args.preset` |
| Cli.BuildStrategyFromConfig | quant/framework/cli.py:91-139 | (corrected factory) build_strategy_from_config: a truthy preset is looked up and built under its own name, otherwise each layer comes from the arguments, then the strategy section, then the default; `Cli.PresetPriority` and `Cli.DefaultsBuild` state it |
| StrategyVariations.Bump | quant/test_strategy_variations.py:632-637 | one result added to its strategy's totals: the excess return, one day, a win day when the excess is positive |
| StrategyVariations.Flatten | quant/test_strategy_variations.py:629-631 | the results of every date, date after date |
| StrategyVariations.Record | quant/test_strategy_variations.py:613-637 | a result recorded under its strategy's name, the first one starting from zero |
| StrategyVariations.Count | quant/test_strategy_variations.py:635 | how many results a strategy has |
| StrategyVariations.Wins | quant/test_strategy_variations.py:636-637 | how many of them have a positive excess return |
| Weekdays.IsBusinessDay | quant/test_strategy_variations.py:452 | weekday() < 5 |
| Weekdays.BusinessDays | quant/framework/backtester.py:182 | pd.date_range(start, end, freq='B'): each business day of [start, end] ascending; `Weekdays.BusinessDaysFacts` states it |
| Weekdays.BusinessDaysBounded | quant/framework/backtester.py:182 | every listed day lies in [start, end] and is a business day |
| Weekdays.BusinessDaysIncreasing | quant/framework/backtester.py:182 | the listed days strictly increase |
| Weekdays.BusinessDaysComplete | quant/framework/backtester.py:182 | every business day of [start, end] is listed |
| Cli.DefaultArgsOf | quant/framework/cli.py:110-139 | with an empty section and falsy layer arguments the layers are b1, b1, fixed and close, the name is custom_strategy and there are no exit arguments |
| LegacyB1.Cell | quant/strategy/b1_strategy.py:94-138 | reading a column at an in-range bar is KeyError exactly when the column is missing, else the bar's field |
| LegacyB1.Param | quant/strategy/b1_strategy.py:94-130 | reading a parameter is KeyError exactly when it is missing, else its number |
| LegacyB1.ChecksDefined | quant/strategy/b1_strategy.py:92-138 | a condition whose columns exist and whose parameters are usable raises nothing |
| LegacyB1.DefaultsCover | quant/strategy/b1_strategy.py:41-67 | the default flag and weight dicts hold exactly the seven condition names |
| LegacyB1.DefaultWeightsPositive | quant/strategy/b1_strategy.py:59-67 | every default weight is positive |
| LegacyB1.ActiveNames | quant/strategy/b1_strategy.py:144-145 | the active names are exactly the names whose flag is on |
| LegacyB1.AllFromMeaning | quant/strategy/b1_strategy.py:142-148 | where every active check runs, AND holds exactly when every active condition holds, vacuously with none active |
| LegacyB1.AnyFromMeaning | quant/strategy/b1_strategy.py:150-156 | where every active check runs, OR holds exactly when some active condition holds |
| LegacyB1.NoneActive | quant/strategy/b1_strategy.py:142-156 | with nothing active AND answers true and OR false, evaluating nothing |
| LegacyB1.WeighBounds | quant/strategy/b1_strategy.py:160-168 | with non-negative weights the score total never passes the weight total, and reaches it when every active condition holds |
| LegacyB1.WeightedInUnit | quant/strategy/b1_strategy.py:158-173 | the weighted score lies in [0, 1] for non-negative weights, 0 when no weight is active |
| LegacyB1.AllMetScoresOne | quant/strategy/b1_strategy.py:158-193 | a bar on which every active condition holds scores 1 once an active weight is positive, so it triggers under WEIGHTED too |
| LegacyB1.SignalAt | quant/strategy/b1_strategy.py:196-201 | the record has the bar's date and close, the stop below the previous low and the target above the close |
| LegacyB1.ScanExact | quant/strategy/b1_strategy.py:184-201 | a successful scan emits one record per triggered bar from 2 on, and nothing else |
| LegacyB1.ScanDatesFrom | quant/strategy/b1_strategy.py:184-201 | every record of a scan from bar k is dated on or after bar k |
| LegacyB1.ScanAscending | quant/strategy/b1_strategy.py:184-201 | on a frame with increasing dates the signals come out in strictly increasing date order |
| LegacyB1.ShortFrameSilent | quant/strategy/b1_strategy.py:180-181 | a frame shorter than min_trade_days yields no signal |
| LegacyB1.ApplyItemsKeys | quant/strategy/b1_strategy.py:210-214 | the setters never add a key |
| LegacyB1.ApplyItemsKnown | quant/strategy/b1_strategy.py:210-214 | items that all name conditions raise nothing |
| LegacyB1.ApplyItemsUntouched | quant/strategy/b1_strategy.py:210-214 | a name no item mentions keeps its value |
| LegacyB1.ApplyItemsLast | quant/strategy/b1_strategy.py:210-214 | each name ends with the value of its last item |
| LegacyB1.ApplyItemsStops | quant/strategy/b1_strategy.py:210-214 | an unknown name raises ValueError, the dict holding exactly the effect of the items before it |
| LegacyB1.LastJBelow | quant/strategy/b1_strategy.py:257 | KeyError without J, IndexError on an empty frame, else whether the last J is below the threshold |
| LegacyB1.KdjFromExact | quant/strategy/b1_strategy.py:254-260 | the screen raises exactly when some frame lacks J or is empty; otherwise it keeps, in order, exactly the symbols whose last J is below the threshold |
| LegacyB1.MetFromExact | quant/strategy/b1_strategy.py:317-321 | the met list holds, in order, exactly the active conditions that hold; all the active ones when they all hold |
| LegacyB1.Position | quant/strategy/b1_strategy.py:277-282 | the target date's position when the frame has it with two bars before it; None otherwise |
| LegacyB1.DetailAt | quant/strategy/b1_strategy.py:295-301 | a detail row is the signal record at the position, dated by the target, with the met conditions |
| LegacyB1.ByDateFrom | quant/strategy/b1_strategy.py:276-308 | the screen returns details exactly when asked to |
| LegacyB1.ByDateStep | quant/strategy/b1_strategy.py:276-303 | how the first stock's outcome joins the rest's |
| LegacyB1.ByDateSymbols | quant/strategy/b1_strategy.py:276-308 | the symbols kept, in order, are exactly those whose frame has the date at position 2 or later and triggers there |
| LegacyB1.ByDateDetails | quant/strategy/b1_strategy.py:293-301 | each detail row is the signal record at the target position, dated by the target, listing the met active conditions |
| LegacyB1.B1Strategy.CombineAnd | quant/strategy/b1_strategy.py:142-148 | the loop computes AllFrom, returning at the first false |
| LegacyB1.B1Strategy.CombineOr | quant/strategy/b1_strategy.py:150-156 | the loop computes AnyFrom, returning at the first true |
| LegacyB1.B1Strategy.CombineWeighted | quant/strategy/b1_strategy.py:158-173 | the loop computes Weighted |
| LegacyB1.B1Strategy.Trigger | quant/strategy/b1_strategy.py:185-193 | the logic dispatch computes Triggered: WEIGHTED needs a score above 0.7, an unknown logic never triggers |
| LegacyB1.B1Strategy.DetectB1Signal | quant/strategy/b1_strategy.py:175-203 | the scan computes Signals |
| LegacyB1.B1Strategy.SetActiveConditions | quant/strategy/b1_strategy.py:205-215 | the flags become ApplyItems of the old ones; ValueError at the first unknown name; every other field is unchanged |
| LegacyB1.B1Strategy.SetCombinationLogic | quant/strategy/b1_strategy.py:217-225 | AND, OR and WEIGHTED are stored and returned; anything else is ValueError and changes nothing |
| LegacyB1.B1Strategy.SetConditionWeights | quant/strategy/b1_strategy.py:227-237 | the weights become ApplyItems of float(weight); ValueError at the first unknown name; every other field is unchanged |
| LegacyB1.B1Strategy.UpdateParams | quant/strategy/b1_strategy.py:239-242 | the params are the old ones updated by the new, which win |
| LegacyB1.B1Strategy.FilterStocksByKdj | quant/strategy/b1_strategy.py:244-260 | the threshold defaults to kdj_threshold; the result is KdjFrom |
| LegacyB1.B1Strategy.GetFilteredStocksByDate | quant/strategy/b1_strategy.py:262-308 | the loop computes ByDateFrom |
| LegacyB1.B1Strategy.GetMetConditions | quant/strategy/b1_strategy.py:310-321 | the loop computes MetFrom |
| LegacyB1.AsFloats | quant/strategy/b1_strategy.py:234 | each weight is passed through float() |
| LegacyFilter.Flags | quant/filter/b1_stock_filter.py:261-269 | the seven flags in condition order, one per name |
| LegacyFilter.NamesUnique | quant/strategy/b1_strategy.py:71-88 | no two conditions share a name |
| LegacyFilter.FlagsApply | quant/filter/b1_stock_filter.py:261-269 | setting all seven flags raises nothing and leaves each condition with its own flag |
| LegacyFilter.WeightItems | quant/filter/b1_stock_filter.py:298-304 | the five weights of the weighted variant, on the first five conditions |
| LegacyFilter.WeightsApply | quant/filter/b1_stock_filter.py:298-304 | the five weights raise nothing, land on the first five conditions and leave the last two alone |
| LegacyFilter.VariantFlags | quant/filter/b1_stock_filter.py:259-329 | each variant sets all seven flags |
| LegacyFilter.VariantLogic | quant/filter/b1_stock_filter.py:271-329 | each variant installs an accepted logic |
| LegacyFilter.ConfigureStrategyVariant | quant/filter/b1_stock_filter.py:257-331 | every variant rewrites the seven flags and the logic, volume_surge and loose update one param, only weighted touches the weights, and the strategy handed in is returned |
| LegacyFilter.JOnlyIsKdj | quant/filter/b1_stock_filter.py:318-329 | under AND with only J active the screen is the J check itself |
| LegacyFilter.UnknownVariantIsJOnly | quant/filter/b1_stock_filter.py:318-329 | any unrecognised variant, j_nega among them, gets the J-only AND screen without error |
| LegacyFilter.B1StockFilter.FilterStocks | quant/filter/b1_stock_filter.py:116-137 | ValueError before any data is loaded, else the strategy's date screen |
| LegacyFilter.SourceOf | quant/filter/b1_stock_filter.py:51-74 | four named pools come from the data handler, custom with symbols uses them, anything else is hs300 |
| LegacyFilter.Pick | quant/filter/b1_stock_filter.py:80 | the sampled symbols come from the list |
| LegacyFilter.PrepareStockPool | quant/filter/b1_stock_filter.py:34-88 | every returned symbol comes from the chosen pool |
| LegacyFilter.PickLength | quant/filter/b1_stock_filter.py:80 | a sample of k positions picks exactly k symbols |
| LegacyFilter.PoolRules | quant/filter/b1_stock_filter.py:51-83 | the whole list for a count <= 0 or >= its length, else exactly count of its symbols; an unknown pool or custom without symbols gives hs300 |
| LegacyB1.KdjCheck | quant/strategy/b1_strategy.py:92-94 | _check_kdj_condition: J below j_threshold, with the KeyError of a missing column or parameter |
| LegacyB1.BottomCheck | quant/strategy/b1_strategy.py:96-105 | _check_bottom_pattern: low and high both below the two bars before, the `and` chain reading the high column only after both low tests hold |
| LegacyB1.BigPositiveCheck | quant/strategy/b1_strategy.py:107-111 | _check_big_positive: close > open × (1 + big_positive_pct) from the second bar on |
| LegacyB1.AboveMaCheck | quant/strategy/b1_strategy.py:113-116 | _check_above_ma: close above the rolling mean; ValueError for a negative or non-integer window, false where the mean is NaN |
| LegacyB1.PriorVolume | quant/strategy/b1_strategy.py:120-127 | the mean volume of the five bars before bar i |
| LegacyB1.VolumeSurgeCheck | quant/strategy/b1_strategy.py:118-123 | _check_volume_surge: volume above volume_ratio × the five-bar average, from the sixth bar on |
| LegacyB1.VolumeShrinkCheck | quant/strategy/b1_strategy.py:125-130 | _check_volume_shrink: volume below the five-bar average / volume_ratio, numpy's division by zero included |
| LegacyB1.MacdCheck | quant/strategy/b1_strategy.py:132-138 | _check_macd_golden_cross: MACD negative at the previous bar and positive now, false without the column |
| LegacyB1.Check | quant/strategy/b1_strategy.py:69-146 | condition_functions[name](df, i), a KeyError for an unknown name; `LegacyB1.ChecksDefined` states when it is defined |
| LegacyB1.AllFrom | quant/strategy/b1_strategy.py:142-148 | the AND loop, stopping at the first active false answer, true with nothing active; `LegacyB1.AllFromMeaning` states it |
| LegacyB1.AnyFrom | quant/strategy/b1_strategy.py:150-156 | the OR loop, stopping at the first true answer, false with nothing active; `LegacyB1.AnyFromMeaning` states it |
| LegacyB1.WeighFrom | quant/strategy/b1_strategy.py:160-168 | the weighted loop's running totals of active weight and met weight; `LegacyB1.WeighBounds` bounds them |
| LegacyB1.Score | quant/strategy/b1_strategy.py:170-173 | total_score / total_weight, or 0 when no weight is active |
| LegacyB1.Weighted | quant/strategy/b1_strategy.py:158-173 | _combine_conditions_weighted; `LegacyB1.WeightedInUnit` bounds it |
| LegacyB1.Triggered | quant/strategy/b1_strategy.py:185-193 | AND, OR, or a weighted score ≥ weighted_threshold; an unknown logic never triggers |
| LegacyB1.ScanFrom | quant/strategy/b1_strategy.py:184-201 | the scan from bar k to the end: one record per triggered bar, or the first error; `LegacyB1.ScanExact` states it |
| LegacyB1.Signals | quant/strategy/b1_strategy.py:175-203 | detect_b1_signal: nothing for a frame shorter than min_trade_days, else the scan from bar 2; `LegacyB1.ShortFrameSilent` and `LegacyB1.ScanAscending` state it |
| LegacyB1.ApplyItems | quant/strategy/b1_strategy.py:210-236 | the setter loop: each known name is written in turn and the first unknown one raises ValueError, earlier writes kept; `LegacyB1.ApplyItemsStops` and `LegacyB1.ApplyItemsLast` state it |
| LegacyB1.KdjFrom | quant/strategy/b1_strategy.py:254-260 | the filter loop of filter_stocks_by_kdj over the stocks in order; `LegacyB1.KdjFromExact` states it |
| LegacyB1.KdjThreshold | quant/strategy/b1_strategy.py:251-252 | the argument when given, else params['kdj_threshold'] |
| LegacyB1.MetFrom | quant/strategy/b1_strategy.py:310-321 | _get_met_conditions: the active conditions that hold, in order; `LegacyB1.MetFromExact` states it |
| LegacyB1.PassesOn | quant/strategy/b1_strategy.py:276-291 | a stock passes on the target date when the date is there, at position ≥ 2, and the bar triggers |
| LegacyFilter.VariantParams | quant/filter/b1_stock_filter.py:270-284 | the parameter change of a variant: volume_ratio 1.5, j_threshold −5, or none |
| LegacyB1.NamesDistinct | quant/strategy/b1_strategy.py:69-88 | the seven condition names are pairwise distinct |
| IndexContributionFilter.ParseRefuses | quant/filter/index_contribution_filter.py:218-224 | float() refuses text holding a character that is neither white space nor part of a numeral, which then counts as 0 |
| IndexContributionFilter.ParseNumeral | quant/filter/index_contribution_filter.py:218-222 | float() reads back a decimal numeral's value |
| IndexContributionFilter.TrillionAsWrittenIsZero | quant/filter/index_contribution_filter.py:217-224 | as written every cap quoted in 万亿 takes the 亿 branch, keeps its 万, fails to parse and becomes 0 |
| IndexContributionFilter.FixOnlyTouchesTrillion | quant/filter/index_contribution_filter.py:217-222 | the corrected conversion differs from the code as written only on text holding 万亿 |
| IndexContributionFilter.NumberOfNumeral | quant/filter/index_contribution_filter.py:222 | a numeral without separators converts to its value |
| IndexContributionFilter.CapOfPlain | quant/filter/index_contribution_filter.py:221-222 | a plain numeral converts to its value, in 亿 |
| IndexContributionFilter.CapOfYi | quant/filter/index_contribution_filter.py:217-218 | a numeral followed by 亿 converts to its value |
| IndexContributionFilter.CapOfWanYi | quant/filter/index_contribution_filter.py:219-220 | a numeral followed by 万亿 converts to ten thousand times its value, once 万亿 is tested first |
| IndexContributionFilter.TrillionExample | quant/filter/index_contribution_filter.py:217-222 | "1.5万亿" is 0 as written and 15000 corrected |
| IndexContributionFilter.CapValues | quant/filter/index_contribution_filter.py:214-224 | (corrected 万亿 conversion) one converted value per cap |
| IndexContributionFilter.CapValuesAt | quant/filter/index_contribution_filter.py:215-224 | (corrected 万亿 conversion) position k holds the conversion of cap k |
| IndexContributionFilter.NumericMarketCap | quant/filter/index_contribution_filter.py:214-224 | (corrected 万亿 conversion) the conversion loop computes CapValues, in row order |
| IndexContributionFilter.RankedMembers | quant/filter/index_contribution_filter.py:226 | (corrected 万亿 conversion) every ranked pair is a sector row with the conversion of its own cap text |
| IndexContributionFilter.NLargestRules | quant/filter/index_contribution_filter.py:227 | nlargest keeps min(n, count) pairs, none for n <= 0, descending, drawn from the input, and no pair left out is larger than one kept |
| IndexContributionFilter.TopWeightRules | quant/filter/index_contribution_filter.py:197-232 | (corrected 万亿 conversion) an empty sector gives an empty frame; without 总市值 the first top_n rows in order; with it at most top_n rows with the largest converted caps; the caller's frame is untouched |
| IndexContributionFilter.GetTopWeightStocks | quant/filter/index_contribution_filter.py:197-232 | (corrected 万亿 conversion; sector-frame labels assumed unique) the conversion loop and then nlargest or head compute TopWeight |
| Screener.GetSymbolsRules | quant/framework/screener.py:34-50 | the four named pools read their list whatever the name's case; custom with symbols returns them; anything else reads hs300 |
| Screener.Put | quant/framework/screener.py:67 | an existing key keeps its place, a new one goes last |
| Screener.LoadedRules | quant/framework/screener.py:59-70 | each usable symbol once, in order of first appearance, with the frame fetched for it; every frame has more than 20 rows and the target date |
| Screener.LoadedKeys | quant/framework/screener.py:64-67 | a symbol is loaded exactly when it is one of the symbols and its fetch passes |
| Screener.ResultFor | quant/framework/screener.py:77-86 | KeyError for a symbol not loaded; otherwise the last bar's date and close, stop 0.9 times its low, target 1.3 times its close, meta the strategy name |
| Screener.ScreenRules | quant/framework/screener.py:75-87 | the run succeeds exactly when every selected symbol's result does, one per symbol in selection order; otherwise the first failure's error |
| Screener.ToDictKeys | quant/framework/screener.py:90-97 | the keys are the results' symbols |
| Screener.ToDictLast | quant/framework/screener.py:90-97 | a later duplicate symbol overwrites an earlier one |
| Screener.ResultEntryNamesStrategy | quant/framework/screener.py:85-96 | every run result lists its strategy's name as the condition met |
| Screener.StockScreener.LoadStockData | quant/framework/screener.py:59-70 | fetching over the window computes Loaded |
| Screener.StockScreener.Run | quant/framework/screener.py:72-87 | load, select, then one result per selected symbol: RunSpec |
| IndexContributionFilter.ParseFloat | quant/filter/index_contribution_filter.py:218-224 | float() on a cap text: strip, an optional sign, digits with at most one point; None where float() raises; `IndexContributionFilter.ParseNumeral` and `IndexContributionFilter.ParseRefuses` state it |
| IndexContributionFilter.Number | quant/filter/index_contribution_filter.py:222-224 | `float(cap.replace(',', ''))`, 0 where it raises |
| IndexContributionFilter.CapAsWritten | quant/filter/index_contribution_filter.py:217-224 | the cap conversion as written, the 亿 test first; `IndexContributionFilter.TrillionAsWrittenIsZero` states what it does to 万亿 text |
| IndexContributionFilter.Cap | quant/filter/index_contribution_filter.py:217-224 | the corrected conversion, 万亿 tested first and scaled by 10000; `IndexContributionFilter.CapOfPlain`, `IndexContributionFilter.CapOfYi`, `IndexContributionFilter.CapOfWanYi` and `IndexContributionFilter.FixOnlyTouchesTrillion` state it |
| IndexContributionFilter.CapText | quant/filter/index_contribution_filter.py:211 | `sector_df['总市值'].astype(str)` for one row, "nan" for a missing cell |
| IndexContributionFilter.Ranked | quant/filter/index_contribution_filter.py:226 | (corrected 万亿 conversion) each row with its 市值_数值 value; `IndexContributionFilter.RankedMembers` states it |
| IndexContributionFilter.NLargest | quant/filter/index_contribution_filter.py:227 | nlargest(n): nothing for n ≤ 0, else the first n of a stable descending order; `IndexContributionFilter.NLargestRules`, `IndexContributionFilter.NLargestKeeps` and `IndexContributionFilter.NLargestDominates` state it |
| IndexContributionFilter.TopWeight | quant/filter/index_contribution_filter.py:197-232 | (corrected 万亿 conversion; sector-frame labels assumed unique) get_top_weight_stocks on values; `IndexContributionFilter.TopWeightRules` states it |
| IndexContributionFilter.ParseUnsigned | quant/filter/index_contribution_filter.py:218-222 | float() on unsigned text: digits with at most one point and at least one digit, refused otherwise |
| IndexContributionFilter.Unsigned | quant/filter/index_contribution_filter.py:218-222 | the text float() reads after strip() and an optional sign |
| IndexContributionFilter.DecimalValue | quant/filter/index_contribution_filter.py:218-222 | the value of integer digits, a point and fraction digits |
| IndexContributionFilter.NLargestKeeps | quant/filter/index_contribution_filter.py:227 | nlargest(n) keeps min(max(n, 0), len) pairs, in descending value, drawn from the input |
| IndexContributionFilter.NLargestDominates | quant/filter/index_contribution_filter.py:227 | no pair left out has a larger value than a pair kept |
| IndexContributionFilter.TrillionAsWrittenExample | quant/filter/index_contribution_filter.py:217-222 | as written, "1.5万亿" converts to 0 |
| IndexContributionFilter.TrillionCorrectedExample | quant/filter/index_contribution_filter.py:217-222 | with 万亿 tested first, "1.5万亿" converts to 15000 (亿) |
| FactCheck.MatchCount | rnotegen_v2/mcp_server/fact_check.py:83-90 | at most one count per pattern |
| FactCheck.Confidence | rnotegen_v2/mcp_server/fact_check.py:57-100 | the confidence lies in [0.1, 0.95] |
| FactCheck.ClampRange | rnotegen_v2/mcp_server/fact_check.py:100 | values inside [0.1, 0.95] are kept and others go to the nearer end |
| FactCheck.PlainClaim | rnotegen_v2/mcp_server/fact_check.py:59-100 | a short claim with no pattern and no digit keeps the base 0.5 |
| FactCheck.HedgedClaim | rnotegen_v2/mcp_server/fact_check.py:74-100 | a claim with k hedges and nothing else scores 0.5 - 0.15k, floored at 0.1 |
| FactCheck.CalculateConfidence | rnotegen_v2/mcp_server/fact_check.py:57-100 | the two pattern loops and the bonuses compute Confidence |
| FactCheck.StatusMonotone | rnotegen_v2/mcp_server/fact_check.py:102-111 | a higher confidence never gets a lower status |
| FactCheck.StatusBands | rnotegen_v2/mcp_server/fact_check.py:102-111 | verified from 0.8, likely_true from 0.6, uncertain from 0.4, questionable below |
| FactCheck.Recommendations | rnotegen_v2/mcp_server/fact_check.py:136-157 | two pieces of advice per status |
| FactCheck.VerifyClaim | rnotegen_v2/mcp_server/fact_check.py:41-55 | the result carries the claim, its confidence, the status of that confidence, its explanation, the first three mock sources and the status's advice |
| FactCheck.CountStatus | rnotegen_v2/mcp_server/fact_check.py:162-165 | a status count never exceeds the number of results |
| FactCheck.CountsAddUp | rnotegen_v2/mcp_server/fact_check.py:161-165 | the four status counts add up to the number of results |
| FactCheck.SumBounds | rnotegen_v2/mcp_server/fact_check.py:167 | n confidences in [0.1, 0.95] sum to between n/10 and 0.95n |
| FactCheck.AverageRange | rnotegen_v2/mcp_server/fact_check.py:167 | their average stays in [0.1, 0.95] |
| FactCheck.SummaryCounts | rnotegen_v2/mcp_server/fact_check.py:159-177 | the summary counts every result once; no results give average 0 and low reliability |
| FactCheck.AverageBounds | rnotegen_v2/mcp_server/fact_check.py:167 | the average of scored claims lies in [0.1, 0.95] |
| FactCheck.VerifyAll | rnotegen_v2/mcp_server/fact_check.py:28-31 | one result per claim in order exactly when every claim is text |
| FactCheck.ExecuteRefuses | rnotegen_v2/mcp_server/fact_check.py:19-22 | a missing or falsy claims argument is refused |
| FactCheck.ExecuteOneClaim | rnotegen_v2/mcp_server/fact_check.py:24-36 | a single non-empty string is checked as a one-claim list |
| FactCheck.ExecuteList | rnotegen_v2/mcp_server/fact_check.py:27-39 | a list is checked exactly when its first five items are text, one result per item in order; otherwise the check fails |
| FactCheck.ExecuteOther | rnotegen_v2/mcp_server/fact_check.py:27-39 | any other truthy value makes the check fail |
| FactCheck.Matches | rnotegen_v2/mcp_server/fact_check.py:84-89 | `re.search(pattern, claim)` for each pattern of the two lists |
| FactCheck.HasDigit | rnotegen_v2/mcp_server/fact_check.py:93 | `re.search(r'\d+', claim)`: the claim holds an ASCII digit |
| FactCheck.Clamp | rnotegen_v2/mcp_server/fact_check.py:100 | max(0.1, min(0.95, x)); `FactCheck.ClampRange` states it |
| FactCheck.DetermineStatus | rnotegen_v2/mcp_server/fact_check.py:102-111 | _determine_status with bands at 0.8, 0.6 and 0.4; `FactCheck.StatusBands` and `FactCheck.StatusMonotone` state it |
| FactCheck.Percent | rnotegen_v2/mcp_server/fact_check.py:116-119 | the `{confidence:.1%}` rendering for the multiples of 0.05 the scorer produces |
| FactCheck.Explanation | rnotegen_v2/mcp_server/fact_check.py:113-122 | _generate_explanation: the status's sentence with the confidence as a percentage |
| FactCheck.SumConfidence | rnotegen_v2/mcp_server/fact_check.py:167 | the sum of the results' confidences; `FactCheck.SumBounds` bounds it |
| FactCheck.GenerateSummary | rnotegen_v2/mcp_server/fact_check.py:159-177 | _generate_summary: the total, the four status counts and the average confidence; `FactCheck.SummaryCounts` and `FactCheck.AverageBounds` state it |
| FactCheck.Execute | rnotegen_v2/mcp_server/fact_check.py:17-39 | execute: the refusal, one claim or the first five, and the error reply; `FactCheck.ExecuteRefuses`, `FactCheck.ExecuteOneClaim`, `FactCheck.ExecuteList` and `FactCheck.ExecuteOther` state it |
| Reviewer.Dimensions | rnotegen_v2/agents/reviewer_agent.py:126-132 | what the criteria loop sees of review_data.get("dimensions", {}): a dict's entries, nothing for a missing entry or for a string or list that no criterion is found in; otherwise a TypeError, which needs at least one criterion |
| Reviewer.NonDictDimensions | rnotegen_v2/agents/reviewer_agent.py:126-137 | for a "dimensions" value that is not a dict, the score is 0.0 exactly when no criterion reaches the indexing (no substring of a string, no item of a list, no criteria at all for other values), and a TypeError otherwise |
| Reviewer.ZeroTotals | rnotegen_v2/agents/reviewer_agent.py:127-135 | when no criterion names a dimension, both sums stay 0.0 |
| Reviewer.TotalsStep | rnotegen_v2/agents/reviewer_agent.py:130-135 | the sum over one more criterion is one more loop step |
| Reviewer.AddScored | rnotegen_v2/agents/reviewer_agent.py:131-135 | a scored criterion adds score times weight to the score sum and its weight to the weight sum |
| Reviewer.TotalsErrSticks | rnotegen_v2/agents/reviewer_agent.py:130-135 | once a criterion's score cannot be multiplied the whole sum fails the same way |
| Reviewer.TotalsIgnoresOthers | rnotegen_v2/agents/reviewer_agent.py:130-131 | dimensions that are not criteria make no difference |
| Reviewer.AddReadsOwnName | rnotegen_v2/agents/reviewer_agent.py:131-132 | one step reads only its own criterion's dimension |
| Reviewer.AnyScoredExists | rnotegen_v2/agents/reviewer_agent.py:131 | some criterion is scored exactly when one names a dimension |
| Reviewer.TotalsBounds | rnotegen_v2/agents/reviewer_agent.py:126-135 | with positive weights and scores in [lo, hi] the sums succeed, the weight is positive exactly when some criterion is scored, and the score sum lies between lo and hi times the weight |
| Reviewer.AddBounds | rnotegen_v2/agents/reviewer_agent.py:131-135 | one bounded step keeps the sums bounded |
| Reviewer.MeanBounds | rnotegen_v2/agents/reviewer_agent.py:137 | a positive weight keeps the weighted mean between the score bounds |
| Reviewer.TotalScoreBounds | rnotegen_v2/agents/reviewer_agent.py:124-137 | the total is 0.0 when no criterion is scored, and otherwise in [lo, hi] up to rounding to hundredths |
| Reviewer.FallbackScores | rnotegen_v2/agents/reviewer_agent.py:171-178 | each of the six dimensions scored 5 |
| Reviewer.FallbackScore | rnotegen_v2/agents/reviewer_agent.py:166-184 | with positive weights the fallback scores 5.0 when some criterion is one of the six dimensions, 0.0 otherwise |
| Reviewer.ReviewerAgent.CalculateTotalScore | rnotegen_v2/agents/reviewer_agent.py:124-137 | the loop computes TotalScore |
| Reviewer.ReviewerAgent.AssessmentBands | rnotegen_v2/agents/reviewer_agent.py:139-148 | 优秀 from excellent_threshold (8.5 by default), 良好 from quality_threshold, 一般 from 5.0, 需要改进 below |
| Reviewer.ReviewerAgent.AcceptableIsGood | rnotegen_v2/agents/reviewer_agent.py:139-188 | when the excellent mark is not below the threshold, acceptable reviews are exactly those rated 优秀 or 良好 |
| Reviewer.ReviewerAgent.ReviewContent | rnotegen_v2/agents/reviewer_agent.py:47-85 | the review is Review of the reply: parse, total score, fields, assessment |
| Reviewer.ReviewerAgent.FallbackReview | rnotegen_v2/agents/reviewer_agent.py:150-184 | an unparseable reply is reviewed as the fallback, with its score, its feedback and the matching assessment |
| Reviewer.Score | rnotegen_v2/agents/reviewer_agent.py:132-134 | a dimension score as a number, a bool as 0 or 1; anything else makes `score * weight` raise |
| Reviewer.Totals | rnotegen_v2/agents/reviewer_agent.py:127-135 | (Σ score × weight, Σ weight) over the scored criteria in order, TypeError at a non-number; `Reviewer.TotalsStep` and `Reviewer.TotalsBounds` state it |
| Reviewer.Add | rnotegen_v2/agents/reviewer_agent.py:131-135 | one loop step: a scored criterion adds its weighted score and its weight; `Reviewer.AddScored` states it |
| Reviewer.WeightedMean | rnotegen_v2/agents/reviewer_agent.py:137 | total_score / total_weight, or 0.0 when the weight is not positive; `Reviewer.MeanBounds` bounds it |
| Reviewer.TypeName | rnotegen_v2/agents/reviewer_agent.py:131 | `type(v).__name__` in the TypeError of `criterion in dimensions` on a non-container |
| Reviewer.TotalScore | rnotegen_v2/agents/reviewer_agent.py:124-137 | _calculate_total_score rounded to two places; `Reviewer.TotalScoreBounds` states it |
| Reviewer.Fallback | rnotegen_v2/agents/reviewer_agent.py:170-184 | the default review for a reply that is not JSON; `Reviewer.FallbackScores` states it |
| Reviewer.ParseJsonResponse | rnotegen_v2/agents/reviewer_agent.py:150-184 | the unfenced, cleaned reply parsed, or the fallback when it is not JSON |
| Reviewer.Get | rnotegen_v2/agents/reviewer_agent.py:74-76 | `review_data.get(key, default)` |
| Reviewer.ReviewerAgent.OverallAssessment | rnotegen_v2/agents/reviewer_agent.py:139-148 | _get_overall_assessment, the bands checked from the top; `Reviewer.ReviewerAgent.AssessmentBands` states it |
| Reviewer.ReviewerAgent.IsQualityAcceptable | rnotegen_v2/agents/reviewer_agent.py:186-188 | score ≥ quality_threshold |
| Reviewer.ReviewerAgent.Review | rnotegen_v2/agents/reviewer_agent.py:65-81 | review_content after the model call: parse, score and assemble; a non-dict reply raises; `Reviewer.ReviewerAgent.ReviewContent` computes it |
| JsonReply.Unfence | rnotegen_v2/agents/reviewer_agent.py:154-158 | only a reply opening with ```json and with a ``` past the fence is cut and stripped |
| JsonReply.CollapseFrom | rnotegen_v2/agents/reviewer_agent.py:162 | `re.sub(r'\s+', ' ', s)` |
| JsonReply.Clean | rnotegen_v2/agents/reviewer_agent.py:161-162 | control characters to spaces, then runs of white space to one space |
| JsonReply.Visible | rnotegen_v2/agents/reviewer_agent.py:161-162 | the characters that are not white space, in order, which cleaning keeps |
| JsonReply.Collapsed | rnotegen_v2/agents/reviewer_agent.py:162 | the white space left is single spaces |
| Reviewer.ReviewerAgent.ExcellentThreshold | rnotegen_v2/agents/reviewer_agent.py:141 | the excellent_threshold setting, 8.5 when the configuration has none |
| JsonReply.UnfenceRules | rnotegen_v2/agents/reviewer_agent.py:154-158 | a reply without the opening fence is left alone; a fenced body is cut out and stripped, an empty one left fenced |
| JsonReply.ReplaceControls | rnotegen_v2/agents/reviewer_agent.py:161 | the replacement keeps the length |
| JsonReply.ReplaceControlsAt | rnotegen_v2/agents/reviewer_agent.py:161 | every newline, carriage return or tab becomes a space, inside string literals too, and every other character is kept |
| JsonReply.CollapseFromCollapsed | rnotegen_v2/agents/reviewer_agent.py:162 | after the collapse no white space is left but single spaces |
| JsonReply.ReplaceControlsVisible | rnotegen_v2/agents/reviewer_agent.py:161 | the replacement keeps every character that is not white space, in order |
| JsonReply.CollapseFromVisible | rnotegen_v2/agents/reviewer_agent.py:162 | the collapse keeps every character that is not white space, in order |
| JsonReply.CollapsedFixed | rnotegen_v2/agents/reviewer_agent.py:161-162 | collapsed text goes through the cleanup unchanged |
| JsonReply.CleanRules | rnotegen_v2/agents/reviewer_agent.py:160-162 | the cleanup leaves single spaces as the only white space, keeps every other character in order and is idempotent |
| RedNote.TitleTooLong | rnotegen_v2/publisher/rednote.py:122 | the length message is longer than either blank message |
| RedNote.ContentTooLong | rnotegen_v2/publisher/rednote.py:126 | the length message is longer than either blank message |
| RedNote.TooManyHashtags | rnotegen_v2/publisher/rednote.py:130 | the length message is longer than either blank message |
| RedNote.ValidationRules | rnotegen_v2/publisher/rednote.py:116-142 | each message is present exactly when its rule is broken, at most five, so no errors means publishable |
| RedNote.ValidateArticle | rnotegen_v2/publisher/rednote.py:116-142 | the appended errors are ValidationErrors, and valid means none |
| RedNote.KeywordTags | rnotegen_v2/publisher/rednote.py:192-194 | at most one tag per keyword |
| RedNote.KeywordTagsConcat | rnotegen_v2/publisher/rednote.py:192-194 | the keyword loop over two lists is the two loops' tags in order |
| RedNote.KeywordTagsFrom | rnotegen_v2/publisher/rednote.py:192-194 | every keyword tag is one of the table's and not one the article has |
| RedNote.NoProgrammingTag | rnotegen_v2/publisher/rednote.py:186-194 | keywords whose tags do not start with 编 never yield 编程 |
| RedNote.KeywordTagsNew | rnotegen_v2/publisher/rednote.py:193 | keyword tags never repeat one the article already has |
| RedNote.ProgrammingTwice | rnotegen_v2/publisher/rednote.py:186-194 | 编程 is added twice when the body has both 编程 and 代码, as the test looks at the article's tags only |
| RedNote.OthersLackProgramming | rnotegen_v2/publisher/rednote.py:186-190 | the other keywords never yield 编程 |
| RedNote.ProgrammingPair | rnotegen_v2/publisher/rednote.py:188 | with both programming keywords and the tag missing, both entries add 编程 |
| RedNote.AutoTagsShape | rnotegen_v2/publisher/rednote.py:196-204 | the keyword tags come first, then at most two engagement tags in the slots left |
| RedNote.GenerateAutoHashtags | rnotegen_v2/publisher/rednote.py:178-204 | the loop computes AutoTags |
| RedNote.FormatTitle | rnotegen_v2/publisher/rednote.py:147 | a prefix of at most 20 characters, the whole title when it fits |
| RedNote.FormatContent | rnotegen_v2/publisher/rednote.py:150-152 | the body when it fits, else its first 997 characters and "..." |
| RedNote.FormatRules | rnotegen_v2/publisher/rednote.py:144-176 | at most ten tags; with automatic tags on they are distinct and each from the article or the automatic list; off, the first ten; the text is the body, a blank line and the marks |
| RedNote.FormatForRedNote | rnotegen_v2/publisher/rednote.py:144-176 | the result is Format; with at most ten tags and automatic tags on, the article's own list gets the automatic tags appended; nothing else of the article changes |
| RedNote.FormattedKeepsBody | rnotegen_v2/publisher/rednote.py:150-167 | a body that passed validation reaches the post whole |
| RedNote.PublishRules | rnotegen_v2/publisher/rednote.py:60-234 | only a valid article succeeds; a valid one succeeds exactly in draft mode or with credentials, carrying the formatted post |
| RedNote.PublishArticle | rnotegen_v2/publisher/rednote.py:60-114 | the result is Publish, with FormatForRedNote's effect on the article's tags |
| RedNote.LengthErrors | rnotegen_v2/publisher/rednote.py:121-130 | the title, body and tag-count messages _validate_article collects, in its order |
| RedNote.BlankErrors | rnotegen_v2/publisher/rednote.py:133-137 | the messages for a blank title or body |
| RedNote.ValidationErrors | rnotegen_v2/publisher/rednote.py:116-142 | every validation message in order; `RedNote.ValidationRules` states when each appears |
| RedNote.Publishable | rnotegen_v2/publisher/rednote.py:116-142 | an article with no validation error: short enough title, body and tag list, title and body not blank |
| RedNote.ListRepr | rnotegen_v2/publisher/rednote.py:73 | the `{validation_result['errors']}` rendering of the message list: ['a', 'b'] |
| RedNote.Hit | rnotegen_v2/publisher/rednote.py:192-193 | a keyword adds its tag when it occurs in the lowered body and the article lacks the tag |
| RedNote.AutoTags | rnotegen_v2/publisher/rednote.py:178-204 | _generate_auto_hashtags: the keyword tags, then up to two engagement tags while slots remain; `RedNote.AutoTagsShape` states it |
| RedNote.TagText | rnotegen_v2/publisher/rednote.py:164 | `" ".join(f"#{tag}" for tag in hashtags)` |
| RedNote.PostTags | rnotegen_v2/publisher/rednote.py:155-161 | the at most ten tags the post carries, the automatic ones added and deduplicated when enabled |
| RedNote.Format | rnotegen_v2/publisher/rednote.py:144-176 | _format_for_rednote on the article's fields; `RedNote.FormatRules` and `RedNote.FormattedKeepsBody` state it |
| RedNote.PublishToApi | rnotegen_v2/publisher/rednote.py:206-234 | the mock API call: success with the post id and its URL with both credentials, else the missing-credentials error |
| RedNote.Publish | rnotegen_v2/publisher/rednote.py:60-114 | publish_article: validation, the draft path, then the API call; `RedNote.PublishRules` states it |
| Synchronizer.RunStops | rnotegen_v2/synchronizer.py:102-104 | once an accepted review has broken the loop, a larger attempt bound changes nothing |
| Synchronizer.RunStopping | rnotegen_v2/synchronizer.py:75-112 | the loop runs at most the bound; every attempt before the last one run was not accepted or raised; it broke out exactly when some attempt within the bound was accepted |
| Synchronizer.RunBest | rnotegen_v2/synchronizer.py:73-99 | the best score is non-negative and at least every score reviewed; an article is kept exactly when the best score is positive, and it carries that score |
| Synchronizer.RunBestIndex | rnotegen_v2/synchronizer.py:96-99 | the kept article is the earliest reviewed one with the best score: every attempt before it scored strictly lower |
| Synchronizer.ContentSynchronizer.constructor | rnotegen_v2/synchronizer.py:44-58 | the synchronizer's own bound is 3 and it shares the reviewer's quality threshold |
| Synchronizer.ContentSynchronizer.Limit | rnotegen_v2/synchronizer.py:70 | the bound is the request's max_iterations or the synchronizer's 3, whichever is smaller (no attempts when that is not positive) |
| Synchronizer.ContentSynchronizer.GenerateRules | rnotegen_v2/synchronizer.py:62-154 | of the corrected generate_content: at most min(max_iterations, 3) attempts; the final score is the best reviewed one; status failed exactly when nothing scored above zero (then with the fallback article, given empty sources, and review), success exactly when the best score meets the threshold, timeout otherwise |
| Synchronizer.ContentSynchronizer.SuccessIffAccepted | rnotegen_v2/synchronizer.py:96-139 | with a positive threshold shared with the reviewer, a request succeeds exactly when some attempt within the bound was accepted |
| Synchronizer.ContentSynchronizer.GenerateContent | rnotegen_v2/synchronizer.py:62-154 | corrected generate_content (fallback article with empty sources): the while loop yields the output of the functional Generate, whose properties are the lemmas above |
| Synchronizer.ContentSynchronizer.BatchGenerate | rnotegen_v2/synchronizer.py:170-206 | corrected batch_generate (placeholder with empty sources): one output per request in order; a request whose generation raised gets the failed placeholder with zero iterations and score |
| Synchronizer.FinishAsWritten | rnotegen_v2/synchronizer.py:118-154 | as written: raises the TypeError of the fallback Article built without its required sources exactly when no article was kept; otherwise the corrected record, never failed |
| Synchronizer.ContentSynchronizer.GenerateAsWritten | rnotegen_v2/synchronizer.py:62-158 | as written: succeeds exactly when the corrected generate_content succeeds with a status other than failed, and then agrees with it; a failed request re-raises the TypeError instead |
| Synchronizer.ContentSynchronizer.BatchAsWritten | rnotegen_v2/synchronizer.py:170-206 | as written: the batch succeeds exactly when every request's as-written generation succeeds, with their outputs in order; otherwise the placeholder Article, also built without sources, makes it raise TypeError |
| Synchronizer.ContentSynchronizer.NoAttemptRaisesAsWritten | rnotegen_v2/synchronizer.py:118-127 | a request with max_iterations 0: corrected, it reports failed with the fallback article and zero iterations; as written, generate_content and a one-request batch raise TypeError |
| Synchronizer.Accepted | rnotegen_v2/synchronizer.py:102-104 | a review whose score meets the quality threshold ends the loop |
| Synchronizer.Step | rnotegen_v2/synchronizer.py:76-112 | one iteration: an exception only counts; a review replaces the best on a strictly higher score |
| Synchronizer.Run | rnotegen_v2/synchronizer.py:69-112 | the loop over at most the bound: iterations, best article, review and score; `Synchronizer.RunStopping`, `Synchronizer.RunBest` and `Synchronizer.RunBestIndex` state it |
| Synchronizer.Finish | rnotegen_v2/synchronizer.py:118-149 | the corrected final status: failed with the fallback article when nothing scored above zero, else success or timeout by the threshold |
| Synchronizer.ContentSynchronizer.OutcomeOf | rnotegen_v2/synchronizer.py:79-112 | an attempt's outcome: either agent call raising is an exception, else the review |
| Synchronizer.ContentSynchronizer.Generated | rnotegen_v2/synchronizer.py:62-154 | the corrected generate_content record: the loop, then Finish |
| Synchronizer.ContentSynchronizer.Generate | rnotegen_v2/synchronizer.py:62-158 | the corrected generate_content with the clock as a parameter; `Synchronizer.ContentSynchronizer.GenerateRules` states it |
| Screener.GetSymbols | quant/framework/screener.py:34-50 | the lower-cased pool name dispatched to its list, custom with symbols given, hs300 otherwise; `Screener.GetSymbolsRules` states it |
| Screener.Usable | quant/framework/screener.py:66 | a fetched frame is kept when it has more than 20 rows and the target date |
| Screener.Loaded | quant/framework/screener.py:59-70 | the loader's dict after the symbols in order; `Screener.LoadedRules` and `Screener.LoadedKeys` state it |
| Screener.UsableSymbols | quant/framework/screener.py:64-67 | the symbols whose frame the loader keeps, in order |
| Screener.Screen | quant/framework/screener.py:75-87 | the run's results for the selected symbols in order, the first failure raised; `Screener.ScreenRules` states it |
| Screener.EntryOf | quant/framework/screener.py:91-97 | one result's dict: date, price, stop, target and conditions_met |
| Screener.ToDict | quant/framework/screener.py:89-97 | to_dict: results keyed by symbol, a later one replacing an earlier; `Screener.ToDictKeys` and `Screener.ToDictLast` state it |
| Screener.StockScreener.Window | quant/framework/screener.py:60-62 | the fetch window [target − history_days, target] |
| Screener.StockScreener.RunSpec | quant/framework/screener.py:72-87 | the run over the loaded data and the strategy's selection |
| Screener.UsableSymbolsIn | quant/framework/screener.py:64-67 | a symbol is kept exactly when it is among the inputs and its fetched frame is usable |
| Tools.PiecesRules | rnotegen/core/tools.py:19 | splitting on non-word characters keeps exactly the word characters in order, with one more piece than separators |
| Tools.LongPieces | rnotegen/core/tools.py:19 | a piece is kept exactly when it is longer than one character |
| Tools.TokenizeRules | rnotegen/core/tools.py:17-19 | every token is longer than one character and made of lower-case word characters |
| Tools.FirstSentence | rnotegen/core/tools.py:40 | the first piece is a prefix of the content with no sentence end in it, stopped by a sentence end or by the end of the text |
| Tools.Eligibles | rnotegen/core/tools.py:50-51 | a ranked word is kept exactly when it is neither a stop word nor all digits |
| Tools.EligiblesSorted | rnotegen/core/tools.py:51 | filtering a ranking keeps it in non-increasing count order |
| Tools.EligiblesCount | rnotegen/core/tools.py:51 | the filter keeps every occurrence of an eligible word and none of the others |
| Tools.RankingRules | rnotegen/core/tools.py:45-51 | the counter's ranking holds each counted token exactly once, by non-increasing count |
| Tools.TrendsRules | rnotegen/core/tools.py:51-52 | at most fifteen trends, each a counted token that is neither a stop word nor all digits |
| Tools.TrendsSorted | rnotegen/core/tools.py:51-52 | the trends come in non-increasing count order |
| Tools.MostCommonAll | rnotegen/core/tools.py:51 | most_common(n) with n at least the number of distinct tokens is the whole ranking |
| Tools.TrendsComplete | rnotegen/core/tools.py:51-52 | with at most 120 distinct tokens of which at most fifteen are eligible, the trends are exactly the eligible counted tokens |
| Tools.AnglesOf | rnotegen/core/tools.py:55-56 | one angle sentence per trend, in order |
| Tools.FactsRules | rnotegen/core/tools.py:38-42 | material k contributes fact k, its first sentence cut to 160 characters |
| Tools.PerspectivesRules | rnotegen/core/tools.py:43 | a perspective is present exactly when some material has that source and type |
| Tools.ControversiesRules | rnotegen/core/tools.py:46-47 | each controversy is the first 180 characters of a material that mentions a risk word, at most one per material |
| Tools.FactShape | rnotegen/core/tools.py:40-42 | a fact is a prefix of the content of at most 160 characters with no sentence end, stopped by a sentence end unless cut |
| Tools.AnalyzeFacts | rnotegen/core/tools.py:38-61 | the result has one fact per material, in order |
| Tools.AnalyzePerspectives | rnotegen/core/tools.py:43-62 | the result's perspectives are exactly the distinct source and type descriptions |
| Tools.AnalyzeControversies | rnotegen/core/tools.py:46-64 | at most five controversies, each the risk-mentioning head of some material |
| Tools.AnalyzeAngles | rnotegen/core/tools.py:54-65 | one angle per trend among the first six, or the single wide angle when there are no trends |
| Tools.AnalyzeMaterials | rnotegen/core/tools.py:22-66 | the loop over the materials and the angle step yield exactly the functional analysis the lemmas above describe |
| Tools.PotentialAngles | rnotegen/core/tools.py:54-58 | the angle loop yields one angle per trend among the first six, else the wide angle |
| Tools.Rotation | rnotegen/core/tools.py:90 | the rotation abs(hash(q)) % 5 is a valid index into the five base points |
| Tools.BasePointsDistinct | rnotegen/core/tools.py:87 | the five base points are pairwise different |
| Tools.RotatedPoints | rnotegen/core/tools.py:91 | the rotated list starts at the rotation and wraps around |
| Tools.ResearchKeyPoints | rnotegen/core/tools.py:90-94 | each finding echoes its query and has three distinct key points, consecutive in the rotation |
| Tools.ResearchRisks | rnotegen/core/tools.py:95 | each finding has one to three risks taken from the front of the risk list |
| Tools.CleanedSeen | rnotegen/core/tools.py:78-84 | the seen set holds exactly the lower-case forms of the kept queries |
| Tools.CleanedFrom | rnotegen/core/tools.py:81-83 | every kept query is some non-blank query, stripped |
| Tools.CleanedDistinct | rnotegen/core/tools.py:82-84 | no two kept queries share a lower-case form |
| Tools.CleanedCovers | rnotegen/core/tools.py:80-84 | every non-blank query's lower-cased strip ends up in the seen set |
| Tools.CleanedKeepsFirst | rnotegen/core/tools.py:80-84 | a non-blank query whose lower-cased strip no earlier query shares is kept with its own spelling |
| Tools.DeepResearchRules | rnotegen/core/tools.py:86-97 | at most eight findings, one per kept query, in order |
| Tools.DeepResearchQueries | rnotegen/core/tools.py:69-97 | the cleaning loop and the research loop yield exactly the functional DeepResearch |
| Tools.WordChar | rnotegen/core/tools.py:19 | a word character is an ASCII letter or digit or a character of the CJK block U+4E00..U+9FA5, the class the tokenizer's split pattern complements |
| Tools.Pieces | rnotegen/core/tools.py:19 | re.split on runs of non-word characters: the pieces between separators, each made of word characters only (`PiecesRules` states it) |
| Tools.Concat | rnotegen/core/tools.py:19 | joins the split pieces back together, used to state that splitting keeps every word character |
| Tools.WordChars | rnotegen/core/tools.py:19 | the word characters of a text in order, the characters the split pieces are made of |
| Tools.SeparatorCount | rnotegen/core/tools.py:19 | the number of separator characters, the measure the splitting recursion decreases on |
| Tools.TokenChars | rnotegen/core/tools.py:19 | a token holds only lower-cased word characters |
| Tools.Tokenize | rnotegen/core/tools.py:17-19 | _tokenize: lower-cases, splits on non-word runs and keeps the pieces longer than one character (`TokenizeRules` and `LongPieces` state it) |
| Tools.SentenceEnd | rnotegen/core/tools.py:40 | the characters the first-sentence split cuts at: newline, 。, ., ! and ? |
| Tools.Content | rnotegen/core/tools.py:39 | m.get("content", ""): the material's content, empty when absent |
| Tools.Fact | rnotegen/core/tools.py:40-42 | the material's first sentence cut to 160 characters (`FactShape` states it) |
| Tools.Perspective | rnotegen/core/tools.py:43 | the perspective label built from the material's source and type, "?" for each one missing |
| Tools.Controversial | rnotegen/core/tools.py:46 | the case-insensitive search for 风险, risk, 争议, controvers or legal in the content |
| Tools.Facts | rnotegen/core/tools.py:38-42 | one fact per material, in order (`FactsRules` states it) |
| Tools.Perspectives | rnotegen/core/tools.py:43 | the set of the materials' perspective labels (`PerspectivesRules` states it) |
| Tools.AllTokens | rnotegen/core/tools.py:44-45 | the tokens fed to the counter, material by material, at most 800 from each |
| Tools.MaterialTokens | rnotegen/core/tools.py:44 | the first 800 tokens of one material's content |
| Tools.Controversies | rnotegen/core/tools.py:46-47 | the first 180 characters of every material whose content mentions a risk word, in order (`ControversiesRules` states it) |
| Tools.AllDigits | rnotegen/core/tools.py:51 | str.isdigit on a token: non-empty and every character a decimal digit |
| Tools.Eligible | rnotegen/core/tools.py:51 | a word may become a trend when it is neither a stop word nor all digits (`Eligibles` states it) |
| Tools.Frequency | rnotegen/core/tools.py:45 | the counter's count of a token: how many of the fed tokens equal it |
| Tools.MostCommon | rnotegen/core/tools.py:51 | Counter.most_common(n): the distinct tokens by descending count, ties in first-seen order, at most n of them (`RankingRules` and `MostCommonAll` state it) |
| Tools.Trends | rnotegen/core/tools.py:51-52 | the first fifteen eligible words of the counter's top 120 (`TrendsRules`, `TrendsSorted` and `TrendsComplete` state it) |
| Tools.Angle | rnotegen/core/tools.py:56 | the angle sentence written around one trend |
| Tools.Angles | rnotegen/core/tools.py:54-58 | one angle per trend among the first six, or the single fallback angle when there is none (`AnglesOf` and `PotentialAngles` state it) |
| Tools.Analyze | rnotegen/core/tools.py:22-66 | analyze_materials as a value: facts, perspectives, trends, at most five controversies and at most eight angles (`AnalyzeFacts`, `AnalyzePerspectives`, `AnalyzeControversies`, `AnalyzeAngles` and `AnalyzeMaterials` state it) |
| Tools.Assemble | rnotegen/core/tools.py:49-66 | the returned dict built from what the loop gathered: trends from the tokens, controversies cut to five, angles cut to eight |
| Tools.Research | rnotegen/core/tools.py:87-96 | one finding: the query, three key points rotated by abs(hash(q)) % 5 and the first rot % 3 + 1 risks (`ResearchKeyPoints` and `ResearchRisks` state it) |
| Tools.Cleaned | rnotegen/core/tools.py:78-84 | the de-duplication loop: the stripped non-blank queries whose lower-case form was not seen before, and the set of seen forms (`CleanedSeen`, `CleanedFrom`, `CleanedDistinct`, `CleanedCovers` and `CleanedKeepsFirst` state it) |
| Tools.FromQuery | rnotegen/core/tools.py:81 | some query strips to the given text |
| Tools.DeepResearch | rnotegen/core/tools.py:69-97 | deep_research as a value: at most eight findings, one per kept query in order (`DeepResearchRules` states it) |
| Tools.SameCountEligibles | rnotegen/core/tools.py:51 | two token lists with the same elements keep the same number of eligible words |
| BaseAgent.SystemPrompt | rnotegen/core/base_agent.py:48-54 | the prompt is the hook's text, or the default assistant text when the hook returns an empty string; never empty |
| BaseAgent.ModelName | rnotegen/core/base_agent.py:46 | the model is the environment's value for the key when present, the default model otherwise |
| BaseAgent.MessageOf | rnotegen/core/base_agent.py:60-62 | a message holds role, content and exactly the extras that are not None, each with its own value |
| BaseAgent.SystemMessage | rnotegen/core/base_agent.py:57-58 | the reset message has exactly the keys role and content, with role system and the prompt as content |
| BaseAgent.BaseOpenAIAgent.constructor | rnotegen/core/base_agent.py:24-49 | a new agent has the chosen model and prompt and a conversation of just the system message |
| BaseAgent.BaseOpenAIAgent.ResetConversation | rnotegen/core/base_agent.py:57-58 | after a reset only the system message is left |
| BaseAgent.BaseOpenAIAgent.Append | rnotegen/core/base_agent.py:60-63 | append adds exactly one message at the end and keeps every earlier one |
| BaseAgent.ExtractJsonRules | rnotegen/core/base_agent.py:83-100 | an empty reply, a parse error, a non-object and an object with none of the required keys give None; otherwise the result is the parsed object and holds some required key |
| BaseAgent.EmptyRequiredKeysRejects | rnotegen/core/base_agent.py:96 | an empty set of required keys rejects every reply |
| BaseAgent.ParserInputRules | rnotegen/core/base_agent.py:86-92 | the parser sees the stripped body of a fenced reply or the whole unfenced reply, with white space reduced to single spaces and every other character kept in order |
| Xiaohongshu.RStripSlash | rnotegen/platforms/xiaohongshu.py:43 | the result is the address with exactly its trailing slashes removed |
| Xiaohongshu.NewClient | rnotegen/platforms/xiaohongshu.py:39-44 | the client keeps its credentials and a prefix of the base address that does not end in a slash |
| Xiaohongshu.DefaultApiBaseKept | rnotegen/platforms/xiaohongshu.py:39-43 | the default base address is kept unchanged |
| Xiaohongshu.HeadersRules | rnotegen/platforms/xiaohongshu.py:56-62 | exactly three headers; the bearer header gives back the token, the content type and user agent are fixed |
| Xiaohongshu.Mark | rnotegen/platforms/xiaohongshu.py:167 | a mark is a hash sign followed by the tag |
| Xiaohongshu.Marks | rnotegen/platforms/xiaohongshu.py:167 | one mark per hashtag, in order |
| Xiaohongshu.FormatContentRules | rnotegen/platforms/xiaohongshu.py:165-173 | content already carrying a mark is unchanged; otherwise a blank line and the space-separated marks are appended, a bare blank line when there are no hashtags |
| Xiaohongshu.FormattedIsTagged | rnotegen/platforms/xiaohongshu.py:165-173 | with at least one hashtag the formatted body carries a mark |
| Xiaohongshu.FormatContentIdempotent | rnotegen/platforms/xiaohongshu.py:169-171 | with at least one hashtag, formatting twice equals formatting once |
| Xiaohongshu.NoHashtagsGrows | rnotegen/platforms/xiaohongshu.py:170-171 | without hashtags every pass appends another blank line |
| Xiaohongshu.ConvertGeneratedContent | rnotegen/platforms/xiaohongshu.py:16-181 | the post keeps title, content and hashtags, with no images, no location and public privacy |
| Xiaohongshu.ConvertedPostData | rnotegen/platforms/xiaohongshu.py:70-81 | a converted article is sent with exactly title, formatted content, public privacy and a null location |
| Xiaohongshu.PostDataImages | rnotegen/platforms/xiaohongshu.py:79-81 | images are sent exactly when the post has a non-empty list, all of them |
| BaseAgent.ParserInput | rnotegen/core/base_agent.py:86-92 | the text extract_json hands to json.loads; `BaseAgent.ParserInputRules` states it |
| BaseAgent.Accepts | rnotegen/core/base_agent.py:96 | required_keys is None or shares a key with the object |
| BaseAgent.ExtractJson | rnotegen/core/base_agent.py:83-100 | extract_json: None for an empty reply, a parse error, a non-object or a missing required key; `BaseAgent.ExtractJsonRules` states it |
| Xiaohongshu.Headers | rnotegen/platforms/xiaohongshu.py:56-62 | _get_headers: the bearer token, JSON content type and app id; `Xiaohongshu.HeadersRules` states it |
| Xiaohongshu.Tagged | rnotegen/platforms/xiaohongshu.py:167 | some "#tag" mark occurs in the content |
| Xiaohongshu.FormatContent | rnotegen/platforms/xiaohongshu.py:165-173 | _format_content: the marks appended unless one is already there; `Xiaohongshu.FormatContentRules` and `Xiaohongshu.FormatContentIdempotent` state it |
| Xiaohongshu.PostData | rnotegen/platforms/xiaohongshu.py:70-81 | create_post's request body, images only when present and non-empty; `Xiaohongshu.PostDataImages` states it |
| PyStr.IsSpace | rnotegen/core/tools.py:81 | the characters str.isspace() accepts, the ones strip() removes |
| PyStr.IsDigit | rnotegen/core/tools.py:51 | a decimal digit character, as str.isdigit() tests it |
| PyStr.Lower | rnotegen/core/tools.py:19 | str.lower() on ASCII letters: same length, each character lower-cased |
| PyStr.LowerOfLower | quant/strategies/selection/registry.py:14 | lower-casing a string without capitals changes nothing, so a registry key already in lower case is found as written |
| PyStr.Strip | rnotegen/core/tools.py:81 | str.strip(): leading and trailing whitespace removed (`StripFacts` states it) |
| PyStr.StripLeftFacts | rnotegen/core/tools.py:81 | lstrip drops exactly a run of leading whitespace and stops at the first other character |
| PyStr.StripRightFacts | rnotegen/core/tools.py:81 | rstrip drops exactly a run of trailing whitespace and stops at the last other character |
| PyStr.StripFacts | rnotegen/core/tools.py:81-82 | strip() is empty exactly when the string is all whitespace, and otherwise starts and ends with a non-space |
| PyStr.Take | rnotegen/core/tools.py:44 | s[:n] with Python semantics: a prefix, of length min(n, len) for a non-negative n |
| PyStr.TakeMultiset | rnotegen/core/tools.py:52 | a prefix keeps a sub-multiset of the elements |
| PyStr.Slice | quant/util/conditions.py:88 | s[a:b] with Python semantics: the plain slice when 0 <= a <= b <= len |
| PyStr.At | quant/util/conditions.py:78 | s[i] / iloc[i]: defined exactly for -len <= i < len, the element itself for a non-negative i |
| PyStr.StartsWith | rnotegen/core/base_agent.py:86 | s begins with p |
| PyStr.FindFrom | rnotegen/core/base_agent.py:87 | str.find from an index: the first occurrence at or after it, or none at all |
| PyStr.Contains | rnotegen_v2/publisher/rednote.py:193 | `sub in s` holds exactly when sub occurs at some index |
| PyStr.RFind | rnotegen/core/base_agent.py:88 | str.rfind: the last occurrence, or none (-1 in Python) when sub never occurs |
| PyStr.Join | rnotegen_v2/publisher/rednote.py:164 | sep.join(parts): the parts with sep between each two |
| PyStr.Zfill | quant/strategies/selection/index_contribute_select.py:110 | str.zfill(width): unchanged when already that wide, otherwise exactly width characters |
| PyStr.ReplaceChar | quant/framework/cli.py:74-77 | s.replace(a, b) for characters: same length, each a replaced by b and every other character kept |
| PyStr.RemoveChar | quant/filter/index_contribution_filter.py:218-222 | s.replace(c, ""): no c left and nothing longer (`RemoveCharAbsent`, `RemoveCharConcat` and `RemoveCharKeeps` state the rest) |
| PyStr.RemoveCharAbsent | quant/filter/index_contribution_filter.py:222 | removing a character the string does not hold changes nothing |
| PyStr.RemoveCharConcat | quant/filter/index_contribution_filter.py:222 | removing a character works piece by piece on a concatenation |
| PyStr.RemoveCharKeeps | quant/filter/index_contribution_filter.py:222 | every character other than the removed one survives |
| PyStr.RemoveSub | quant/filter/index_contribution_filter.py:218-220 | s.replace(sub, "") for a non-empty sub: nothing longer and no new character |
| PyStr.Dedup | quant/framework/screener.py:59-70 | the elements in order with later repeats dropped, the key order of a dict filled in order (`DedupRules` states it) |
| PyStr.DedupRules | quant/framework/screener.py:59-70 | the de-duplicated list holds every element of the input and nothing else, each once |
| Bars.Field | quant/framework/backtester.py:71 | one column of a bar: df.loc[dt, c] once the row is chosen |
| Bars.Series | quant/util/conditions.py:88 | df[c] as a sequence: one value per bar, in date order, each the bar's field |
| Bars.ValueAt | quant/util/conditions.py:78 | df[c].iloc[i]: defined exactly when c is a column and -len <= i < len, the i-th bar's field for a non-negative i |
| Bars.Sum | quant/util/conditions.py:88 | the sum of a series, the numerator of its mean |
| Bars.Mean | quant/util/conditions.py:88 | Series.mean(): defined exactly for a non-empty series (NaN otherwise) |
| Bars.IndexOfDay | quant/framework/backtester.py:71 | the position of the bar dated d: a bar with that date, and none exactly when the frame has no such date |
| Bars.IndexFrom | quant/framework/backtester.py:71 | the first position at or after k of a bar dated d, or none when no later bar has that date |
| Bars.BarOn | quant/framework/backtester.py:71 | df.loc[d] on a frame holding d: a bar of the frame dated d |
| Bars.Last | quant/framework/screener.py:78 | df.iloc[-1]: the last bar of a non-empty frame |
| Sorting.SortedDesc | quant/strategies/selection/index_contribute_select.py:113 | each element's key is at least the next one's |
| Sorting.InsertDesc | quant/strategies/selection/index_contribute_select.py:113 | inserting into a descending list keeps it descending and adds exactly one element |
| Sorting.SortDesc | quant/strategies/selection/index_contribute_select.py:113 | sort_values(ascending=False): descending keys and a permutation of the input (`SortDescStable` adds stability) |
| Sorting.SortDescOfSorted | quant/framework/performance.py:31 | sorting a list that is already in order changes nothing |
| Sorting.KeyOf | quant/strategies/selection/base.py:71 | the sort key of an element with a present score (a missing one reads as 0.0, but is only used on the part that has scores) |
| Sorting.WithKey | quant/strategies/selection/index_contribute_selection.py:134 | the elements whose key is present, a sub-multiset of the input |
| Sorting.WithoutKey | quant/strategies/selection/index_contribute_selection.py:134 | the elements whose key is missing, all drawn from the input |
| Sorting.SplitByKey | quant/strategies/selection/index_contribute_selection.py:134 | the elements with and without a key together are exactly the input |
| Sorting.KnownKeys | quant/strategies/selection/index_contribute_selection.py:134 | every element of the sorted keyed part has a key |
| Sorting.SortDescMissingLast | quant/strategies/selection/base.py:71 | sorted by descending score with missing scores last: a permutation in which no element with a score follows one without, and scores descend |
| Sorting.StrLe | quant/strategies/selection/base.py:73 | Python's a <= b on strings: lexicographic by code point |
| Sorting.StrLeTotal | quant/strategies/selection/base.py:73 | any two strings are ordered one way or the other |
| Sorting.StrLeRefl | quant/strategies/selection/base.py:73 | every string is <= itself |
| Sorting.SortedAsc | quant/strategies/selection/base.py:73 | each element's key is <= the next one's |
| Sorting.InsertAsc | quant/strategies/selection/base.py:73 | inserting into an ascending list keeps it ascending and adds exactly one element |
| Sorting.SortAsc | quant/strategies/selection/base.py:73 | sorted(s, key=...): ascending keys and a permutation of the input (`SortAscStable` adds stability) |
| Sorting.WithKeyValue | quant/strategies/selection/base.py:73 | the elements with a given key, in their input order, the order a stable sort must keep |
| Sorting.WithKeyValueCons | quant/strategies/selection/base.py:73 | the elements with a given key of a list headed by a are a, if its key matches, then those of the rest |
| Sorting.InsertDescStable | quant/strategies/selection/index_contribute_select.py:113 | inserting x into a descending list puts it in front of every element with its key and moves none of them out of order |
| Sorting.SortDescStable | quant/strategies/selection/index_contribute_select.py:113 | the descending sort is stable: the elements of each key appear in their input order |
| Sorting.InsertAscStable | quant/strategies/selection/base.py:73 | inserting x into an ascending list puts it in front of every element with its key and moves none of them out of order |
| Sorting.SortAscStable | quant/strategies/selection/base.py:73 | sorted() is stable: the elements of each key appear in their input order |
| LegacyB1.B1Strategy.constructor | quant/strategy/b1_strategy.py:22-67 | a new strategy has the default parameters, the default active conditions, AND logic and the default weights, all non-negative |
| LegacyFilter.B1StockFilter.constructor | quant/filter/b1_stock_filter.py:19-33 | a new filter holds no stock data |
| RedNote.Article.constructor | rnotegen_v2/agents/writer_agent.py:28-35 | an article keeps every field it is given |
| Reviewer.ReviewerAgent.constructor | rnotegen_v2/agents/reviewer_agent.py:30-141 | the reviewer keeps its criteria, its quality threshold and its excellent threshold |
| Screener.StockScreener.constructor | quant/framework/screener.py:54-57 | the screener keeps its history window |
| WeightTables.TableCache.constructor | quant/strategies/selection/hs300_top_weight.py:35 | the weight cache starts empty |
| Composite.StrategyRegistry.constructor | quant/strategies/composite/registry.py:8-13 | a new registry holds no temporary strategy, only the built-in builders |
| Composite.StrategyRegistry.Register | quant/framework/cli.py:161 | STRATEGY_BUILDERS[name] = a builder returning s: the entry for name becomes s and every other entry stays |
| Cli.Namespace.constructor | quant/framework/cli.py:63 | the namespace holds exactly the attributes it is given |

## Left out

- **I/O and the network.**
  - Market-data acquisition (quant/util/market_data_handler.py, the akshare fetchers in the selection files and the filters) is not part of this model. Fetched tables and frames are inputs.
  - Every OpenAI, HTTP, websocket and Flask call is left out: they need the network. The writer, the reviewer's model call and `json.loads` are parameters; `None` or an error result stands for an exception.
  - Logging, `print`, plotting (`visualize`, `export`, `visualize_*`) and the CSV writers are left out: output only.
- **Floating point.**
  - Prices, scores and metrics are exact reals. IEEE rounding is not modelled, so a sum such as 0.5 + 0.1 + 0.1 + 0.1 is exactly 0.8 here.
  - CAGR, volatility, Sharpe and the drawdown start and end dates are left out, as is KDJ smoothing: they need pow, sqrt, std and ewm.
  - NaN data values are not modelled. Only the NaN that pandas produces for a missing column or an empty mean is, as `None`.
- Backtest.Backtester.constructor: the `position_sizer` argument (quant/framework/backtester.py:24, 33) is not modelled. Sizing is always the default `equal_weight_sizer`; a caller-supplied sizer would be a foreign callable. `lookback_days` only shapes the data handler's fetch window, which is a parameter.
- Backtest.Ready: every frame of a day's universe is assumed to have strictly increasing dates and a close column. A frame without one makes `df.loc[dt, 'close']` (quant/framework/backtester.py:71, 109, 193) raise KeyError; that error is not modelled, because the data handler always supplies the column.
- Backtest.Day: requires `Backtest.Ready` (frames with a close column), so the KeyError a frame without one raises is not modelled.
- Backtest.Days: requires `Backtest.Ready` (frames with a close column), so the KeyError a frame without one raises is not modelled.
- Backtest.EntriesPhase: requires `Backtest.Ready` (frames with a close column), so the KeyError a frame without one raises is not modelled.
- Backtest.PendingPhase: requires `Backtest.Ready` (frames with a close column), so the KeyError a frame without one raises is not modelled.
- Backtest.ExitPhase: requires `Backtest.Ready` (frames with a close column), so the KeyError a frame without one raises is not modelled.
- Backtest.MarkPhase: requires `Backtest.Ready` (frames with a close column), so the KeyError a frame without one raises is not modelled.
- Backtest.Backtester.Run: requires `Backtest.Ready` (frames with a close column), so the KeyError a frame without one raises is not modelled.
- Backtest.Backtester.RunDays: requires `Backtest.Ready` (frames with a close column), so the KeyError a frame without one raises is not modelled.
- Backtest.Backtester.RunDay: requires `Backtest.Ready` (frames with a close column), so the KeyError a frame without one raises is not modelled.
- Backtest.Backtester.ProcessEntries: requires `Backtest.Ready` (frames with a close column), so the KeyError a frame without one raises is not modelled.
- Backtest.Backtester.ProcessPendingEntries: requires `Backtest.Ready` (frames with a close column), so the KeyError a frame without one raises is not modelled.
- Backtest.Backtester.ProcessExits: requires `Backtest.Ready` (frames with a close column), so the KeyError a frame without one raises is not modelled.
- Backtest.Backtester.MarkToMarket: requires `Backtest.Ready` (frames with a close column), so the KeyError a frame without one raises is not modelled.
- Values.Str: str() is exact for strings, ints, bools, None, an empty dict and a float that is a short decimal of moderate size. It renders other floats with up to 17 fraction digits and never in exponent form, quotes a string inside a list with ' and no escapes, and renders a non-empty dict as `{...}`, because dicts here carry no key order. The first character is always Python's, which is all that the mode and source-type dispatch depends on.
- Composite.FactoryBuilder: uses the corrected `Composite.BuildCustomStrategy` (see Findings); as written (`Composite.BuildCustomStrategyAsWritten`, quant/strategies/composite/factory.py:78-84) every successful build raises TypeError, so this member states what the factory evidently intends, not what it does.
- Composite.StrategyRegistry.GetStrategy: uses the corrected `Composite.BuildCustomStrategy` (see Findings); as written (`Composite.BuildCustomStrategyAsWritten`, quant/strategies/composite/factory.py:78-84) every successful build raises TypeError, so this member states what the factory evidently intends, not what it does.
- Composite.OtherPresetsBuild: uses the corrected `Composite.BuildCustomStrategy` (see Findings); as written (`Composite.BuildCustomStrategyAsWritten`, quant/strategies/composite/factory.py:78-84) every successful build raises TypeError, so this member states what the factory evidently intends, not what it does.
- Composite.PresetBuilds: uses the corrected `Composite.BuildCustomStrategy` (see Findings); as written (`Composite.BuildCustomStrategyAsWritten`, quant/strategies/composite/factory.py:78-84) every successful build raises TypeError, so this member states what the factory evidently intends, not what it does.
- Cli.BuildStrategyFromConfig: uses the corrected `Composite.BuildCustomStrategy` (see Findings); as written (`Composite.BuildCustomStrategyAsWritten`, quant/strategies/composite/factory.py:78-84) every successful build raises TypeError, so this member states what the factory evidently intends, not what it does.
- Cli.PresetPriority: uses the corrected `Composite.BuildCustomStrategy` (see Findings); as written (`Composite.BuildCustomStrategyAsWritten`, quant/strategies/composite/factory.py:78-84) every successful build raises TypeError, so this member states what the factory evidently intends, not what it does.
- Cli.DefaultsBuild: uses the corrected `Composite.BuildCustomStrategy` (see Findings); as written (`Composite.BuildCustomStrategyAsWritten`, quant/strategies/composite/factory.py:78-84) every successful build raises TypeError, so this member states what the factory evidently intends, not what it does.
- Entry.Generate: the T+1 branch uses the corrected `Entry.TPlus1Generate` (see Findings); as written (`Entry.TPlus1GenerateAsWritten`, quant/strategies/entry/tplus1_entry.py:26-29) a T+1 rule never yields a signal, so its clause `r == [] <==> B1Generate(...) == []` holds only for the corrected rule.
- IndexContributionFilter.CapValues: converts caps with the corrected `IndexContributionFilter.Cap` (see Findings); as written (`IndexContributionFilter.CapAsWritten`, quant/filter/index_contribution_filter.py:217-222) a cap in 万亿 becomes 0 and ranks last.
- IndexContributionFilter.CapValuesAt: converts caps with the corrected `IndexContributionFilter.Cap` (see Findings); as written (`IndexContributionFilter.CapAsWritten`, quant/filter/index_contribution_filter.py:217-222) a cap in 万亿 becomes 0 and ranks last.
- IndexContributionFilter.NumericMarketCap: converts caps with the corrected `IndexContributionFilter.Cap` (see Findings); as written (`IndexContributionFilter.CapAsWritten`, quant/filter/index_contribution_filter.py:217-222) a cap in 万亿 becomes 0 and ranks last.
- IndexContributionFilter.Ranked: converts caps with the corrected `IndexContributionFilter.Cap` (see Findings); as written (`IndexContributionFilter.CapAsWritten`, quant/filter/index_contribution_filter.py:217-222) a cap in 万亿 becomes 0 and ranks last.
- IndexContributionFilter.RankedMembers: converts caps with the corrected `IndexContributionFilter.Cap` (see Findings); as written (`IndexContributionFilter.CapAsWritten`, quant/filter/index_contribution_filter.py:217-222) a cap in 万亿 becomes 0 and ranks last.
- IndexContributionFilter.TopWeight: converts caps with the corrected `IndexContributionFilter.Cap` (see Findings); as written (`IndexContributionFilter.CapAsWritten`, quant/filter/index_contribution_filter.py:217-222) a cap in 万亿 becomes 0 and ranks last.
- IndexContributionFilter.TopWeightRules: converts caps with the corrected `IndexContributionFilter.Cap` (see Findings); as written (`IndexContributionFilter.CapAsWritten`, quant/filter/index_contribution_filter.py:217-222) a cap in 万亿 becomes 0 and ranks last.
- IndexContributionFilter.GetTopWeightStocks: converts caps with the corrected `IndexContributionFilter.Cap` (see Findings); as written (`IndexContributionFilter.CapAsWritten`, quant/filter/index_contribution_filter.py:217-222) a cap in 万亿 becomes 0 and ranks last.
- Synchronizer.Finish: builds the fallback article with `sources=[]` (see Findings); as written the `Article(...)` call raises TypeError, which `Synchronizer.FinishAsWritten` models.
- Synchronizer.ContentSynchronizer.GenerateContent: the corrected request run; as written a request with no positive score raises TypeError, which `Synchronizer.ContentSynchronizer.GenerateAsWritten` models.
- Synchronizer.ContentSynchronizer.BatchGenerate: the corrected batch; as written the first raising request ends the batch with TypeError, which `Synchronizer.ContentSynchronizer.BatchAsWritten` models.
- FactCheck.Confidence: the confidence is an exact sum, so it can differ from Python's float sum in the last digits, and a claim can then land in a different status band at a boundary.
- IndexContributeSelection.ValuedTable: when a member column shares the market-value column's label and either side carries that label more than once, pandas 2 raises MergeError because the `_x`/`_y` suffixes would repeat a label. The model does not raise there; it sorts by the members' own "weight" column, as in the case where each side carries the label once.
- IndexContributeSelection.DetailTable: a board frame whose "code" label is repeated is read as no records. There `row['code']` is a Series, and its multi-line `str()` rendering would be looked up in the market data; that rendering is not modelled.
- IndexContributeSelection.DetailTable: a column has no dtype in this model (`WeightTables.RawColumn` holds each cell's `astype(str)` text and its number). Every code cell is read as its text. In the source, `select_with_details` reads `str(row['code'])` from `iterrows()` (quant/strategies/selection/index_contribute_selection.py:181-182), and `iterrows()` upcasts a row to the frame's common dtype. So an int code column beside a float weight column gives "600519.0", not the "600519" that `astype(str)` gives in `select` (line 159). That upcast is not modelled.
- IndexContributeSelection.SelectWithDetails: looks codes up as their `astype(str)` text, as `IndexContributeSelection.DetailTable` reads them. With an int code column beside float weights, the source looks up "600519.0" and finds no market data, so it then returns fewer records than the model. The upcast is not modelled.
- IndexContributeSelection.DetailsAgreeWithSelect: holds under the model's reading of code cells as text (a text or object code column, or one whose row dtype is not upcast). For an int code column beside float weights the source's two methods disagree, as `IndexContributeSelection.DetailTable` explains; that case is not modelled.
- IndexContributeSelection.IndexTable: `sort_values('weight')` (quant/strategies/selection/index_contribute_selection.py:74) is modelled on a numeric weight column: the model sorts by the cells' numbers. A text weight column would sort its strings lexicographically ("9.5" above "10.2" in the descending order), and a column that mixes strings and floats would raise TypeError, which the surrounding `try` turns into the empty frame. Neither is modelled.
- IndexContributeSelection.BoardTable: the sort by the merged value column (quant/strategies/selection/index_contribute_selection.py:134) is modelled on a numeric column: the cells' numbers decide the order. A text value column would sort lexicographically, and mixed strings and floats would raise TypeError. Neither is modelled.
- IndexContributeSelection.SnapshotTable: inherits `IndexContributeSelection.BoardTable`'s numeric sort of the value column; the lexicographic sort and TypeError of a text column are not modelled.
- IndexContributeSelection.ValuedTable: sorts by the value cells' numbers; the lexicographic sort and TypeError of a text or mixed value column (quant/strategies/selection/index_contribute_selection.py:134) are not modelled.
- Hs300TopWeight.Hs300Table: `sort_values('weight')` (quant/strategies/selection/hs300_top_weight.py:68) is modelled on a numeric weight column. A text weight column would sort lexicographically, and mixed strings and floats would raise TypeError, which the surrounding `try` turns into the empty frame. Neither is modelled.
- IndexContributionFilter.TopWeight: a sector row is a `map` from label to cell text, so a frame that carries 总市值 twice cannot be represented. In the source, `sector_df['总市值'].astype(str)` is then a DataFrame (quant/filter/index_contribution_filter.py:211). Iterating it yields its two labels, both caps become 0, and assigning that two-element list to `市值_数值` (line 224) raises ValueError unless the frame has exactly two rows. Sector-frame labels are assumed unique.
- IndexContributionFilter.GetTopWeightStocks: assumes unique sector-frame labels, as `IndexContributionFilter.TopWeight` does. The ValueError of a repeated 总市值 label, which nothing in quant/filter/index_contribution_filter.py:197-232 catches, is not modelled.
- Execution.PlanOne: a signal whose 'meta' key is present but None is modelled like one without the key. In the source, `setdefault('meta', {})` keeps the None, and `new_sig['meta'].setdefault(...)` then raises AttributeError (quant/strategies/execution/simple_models.py:15-19, 42-46, 61-65). `Signals.SetDefault` likewise models only dict metadata.
- **Python semantics the model simplifies.**
  - Dates are day numbers. Weekdays are computed by `Weekdays.Weekday`, with day 0 a Thursday (1970-01-01).
  - `float()` parsing in `IndexContributionFilter.ParseFloat` covers signed decimals only (no exponent, no `inf`/`nan`, no underscores). Anything else counts as unparseable and becomes 0, although Python would parse, for example, an exponent form.
  - Lower-casing is ASCII-only. `\s` is `PyStr.IsSpace`. `\d` is the ASCII digit class; Python's regex is Unicode-aware.
  - Dict key order is modelled only where the source depends on it (the screener's result dict, the market_data listing). `set` order in the rednote hashtag dedupe is modelled as first-occurrence order.
  - Non-numeric strategy parameter values are not modelled: parameters are numbers.
  - Sorting is a stable sort by key. Ties keep input order, which is one of the orders pandas may produce.
- **Aliasing.**
  - The portfolio's position dicts are shared with the exit rule in the source. The model copies each record into an `Exits.Position`, lets the rule update it in place and writes it back, so aliasing elsewhere is not modelled.
  - `Composite.TagSignals`: the source writes the tags into the entry rule's own signal dicts. The model returns tagged copies, so a later change through another reference is not visible.
  - `Composite.GetPresetConfig`: the shallow copy shares nested param dicts with the preset table. The model returns values, so later mutation of the table through them is not modelled.
  - `WeightTables.TableCache`: the source's `_weight_cache` is a class attribute shared by every `HS300TopWeightSelection`. The model keeps one cache per object.
  - The execution planners' shared meta dict is modelled explicitly, as the caller's updated signal (`Execution.PlannedMetaIsShared`). The rednote publisher's extension of the article's own hashtag list is modelled on the `RedNote.Article` object.
- **Operations not modelled.**
  - quant/framework/cli.py: `cmd_*`, `load_yaml_config` and `build_parser` are argparse and YAML plumbing. cli_old.py, engine.py, models.py and quant_system.py are not part of this model.
  - quant/filter/b1_stock_filter.py: `load_stock_data`, `display_results`, `save_results_to_csv` and `run` fetch data or write files.
  - quant/filter/index_contribution_filter.py: every function except `get_top_weight_stocks` needs the network or KDJ smoothing.
  - rnotegen_v2/publisher/rednote.py: `batch_publish`, `get_publish_status`, `asyncio.sleep`, the post-id clock and md5, and the surrounding `try`/`except` of `publish_article`. These are timing, hashing and API calls; the credentials check and draft mode are modelled.
  - rnotegen_v2/synchronizer.py: `get_system_status`, `update_writer_config` and `update_reviewer_config` are health checks and re-initialisation. `_provide_improvement_feedback` only logs. The writer and reviewer are one oracle per attempt, and the clock is a parameter.
  - rnotegen_v2/agents/reviewer_agent.py: `_build_review_prompt` is prompt text.
  - rnotegen/core/tools.py: `get_tool_specs` is a static schema. The `theme` argument of `deep_research` is unused by the source. `Counter` is represented by the token history, and `hash()` is a parameter.
  - rnotegen/core/base_agent.py: the OpenAI client, `chat`, config loading and `shutdown` are network and configuration.
  - rnotegen/platforms/xiaohongshu.py: `create_post`'s HTTP call, `upload_image`, `get_post_stats`, `XiaohongshuPublisher.publish_article` and `schedule_post` are network calls or a placeholder. `PostResponse` is not modelled. The request body `Xiaohongshu.PostData` and the headers are.
  - quant/filter/b1_stock_filter.py: `random.sample` in `prepare_stock_pool` is a `draw` parameter.
  - Exception messages are modelled only where a property mentions them.

## Findings

| source | as written | input that shows it | evidently intended | confidence | as-written member | corrected member |
|---|---|---|---|---|---|---|
| quant/strategies/composite/factory.py:78-84 | `build_custom_strategy` passes `execution_model=` to `CompositeStrategy`, whose constructor (quant/strategies/composite/base.py:45) has no such parameter, so every successful resolution ends in TypeError | the default arguments b1/b1/fixed/close, which all resolve (`Composite.FactoryAlwaysRaises`) | build the composite from the four resolved layers and the chosen name | high (not executed) | `Composite.BuildCustomStrategyAsWritten` | `Composite.BuildCustomStrategy` |
| quant/strategies/entry/tplus1_entry.py:26-29 | with `i = len(df) - 1` the guard `i + 1 >= len(df.index)` always holds, so `generate` returns [] even when B1Entry triggers | the three-bar frame of `Entry.TPlus1DropsATriggeredSignal`, on which B1Entry signals | turn each parent signal into an order at the next trading day's open, tagged `T+1_open` | high (not executed) | `Entry.TPlus1GenerateAsWritten` | `Entry.TPlus1Generate` |
| quant/filter/index_contribution_filter.py:217-222 | the `'亿' in cap` test comes before `'万亿' in cap`, so a cap in 万亿 keeps its 万, fails to parse and becomes 0 | "1.5万亿", which gives 0 (`IndexContributionFilter.TrillionExample`) | test 万亿 first and scale by 10000, giving 15000 (亿) | high (not executed) | `IndexContributionFilter.CapAsWritten` | `IndexContributionFilter.Cap` |
| rnotegen_v2/synchronizer.py:121-127, 184-190 | both fallback `Article(...)` calls omit `sources`, a required field of the dataclass (rnotegen_v2/agents/writer_agent.py:27-35), so a request where nothing scored above zero raises TypeError, which generate_content re-raises and which escapes batch_generate's own handler | a request with max_iterations 0 (`Synchronizer.ContentSynchronizer.NoAttemptRaisesAsWritten`) | build both fallback articles with `sources=[]`, reporting status failed | high (not executed) | `Synchronizer.ContentSynchronizer.GenerateAsWritten` | `Synchronizer.ContentSynchronizer.GenerateContent` |
| rnotegen_v2/synchronizer.py:176-203 | a placeholder for a raising request is itself built without `sources`, so the batch raises on its first failing request | a batch of that one request (`Synchronizer.ContentSynchronizer.NoAttemptRaisesAsWritten`) | append the failed placeholder and go on | high (not executed) | `Synchronizer.ContentSynchronizer.BatchAsWritten` | `Synchronizer.ContentSynchronizer.BatchGenerate` |
