# Verified model of the v2trading bot

A Dafny model of the parts of the trading bot that decide how much is bought and
sold, and of the algorithms around them: the laddering strategy with its order
notifications and the exposure it can build up, the compiler from configured
directives to a buy signal, the repair of the take-profit order against the broker's
book, the matching of orders against a tape of trades, the stop-loss levels, the
shared websocket subscriptions, the bar state machine, the growing worklist, and the
series detectors.

`dafny verify dfyconfig.toml` checks the project.

## How it is laid out

- `Outcomes`, `Sequences`, `Pricing`, `Orders`: optional values and Python
  exceptions; a sequence fact; price rounding, ticks and the defensive-mode test;
  the broker's book of open orders.
- `Ladder`, `CentGrid`, `Strategy`, `LadderOrders`, `LadderSize`, `StrategyRuns`,
  `OutstandingBuys`, `PendingBuys`, `StrategyConduct`, `SalesOverCost`, `StuckRuns`,
  `StrategyObject`: the laddering strategy. `Strategy` gives every
  phase of a bar, and every notification of the broker, as a function on states;
  `LadderOrders` says what one ladder adds, `LadderSize` how the configuration limits
  it; `StrategyRuns`, `PendingBuys`, `SalesOverCost` and `StrategyConduct` prove
  what holds in every reachable state, with the phases and events in any order;
  `OutstandingBuys` and `StuckRuns` hold runs that reach the exceptions; `CentGrid`
  says when the prices of a ladder are whole cents;
  `StrategyObject` is the object that does it in place, each method proved equal to
  its function.
- `Directives`, `DirectiveNames`, `DirectiveClashes`, `BuyDecision`: the directive
  compiler, what the names of directives ask for, what happens to directives that
  share a key, and the buy phase from configuration to ladder.
- `Reconciliation`: consolidation in the older strategy with a limit sell.
- `FillMatching`, `Backtest`: the two ways to replay a tape of trades, one trade to a
  fill or a run of trades.
- `StopLoss`, `Subscriptions`, `Bars`, `Worklist`, `Extrema`, `Trend`, `Detectors`,
  `Candles`: one component each.

## What is assumed of code outside the model

- Broker: it may refuse any order, and carry out any part of the cancels; an order it
  accepts is open at once. A market buy or sell is open until its fills come in. A
  buy can end filled, cancelled and reported, cancelled and reported late or never, or
  with a status that no notification handles. Order ids are distinct and new ids are
  unused. A replaced order gets a new id, the requested open quantity and no fills.
- A notification is handled in one step with the change at the broker it reports, and
  so is a phase of a bar: no fill comes in between two orders of one ladder.
- `pos()` answers with the position held, or fails; a failure is stored as -1 by the
  consolidation and the buy notification (MYSELL_type_NEW 148,
  StrategyOrderLimitVykladaciNormalizedMYSELL 41) and ignored by the sell notification.
- The websocket client keeps its subscriptions when it is stopped.
- The tape of trades is in the order of time where a cut bisects it.
- Prices, times and averages are reals, quantities and positions integers.

## Findings

- `maxpozic` is not a bound on exposure. The ladder always places its first order,
  however little room is left (`ENTRY_Vykladaci_RSI_MYSELL_type_NEW.py` 195-234).
  What a ladder can exceed its room by is given for every multiplier and is reached;
  without multiplied orders `maxpozic` holds through a run exactly when every ladder
  is laid with a chunk of room.
- Even that bound needs ladders to wait. `blockbuy` is cleared while a market buy, or
  other limit buys, are still open; and `cancel_pending_buys` empties `pendingbuys`
  whatever the broker answers, so that after a refused cancel the next ladder is laid
  over live orders. For any bound there is the exact condition, ladder by ladder.
- A sale that ends while an unfilled ladder is out has the ladder cancelled but leaves
  `blockbuy` set, for the buy notification to clear. `cancel_order` of the backtester
  (600-621) sends none; no later bar, fill or sale makes the strategy buy again.
  Otherwise fills do clear the flags, with the next due consolidation.
- A sale that is cancelled, and one that the broker refuses when it is sent, leaves
  `sell_in_progress` set, and nothing is sold again: selling can be resumed exactly
  when no sale is in progress or something is still on sale.
- After a failed `pos()` the strategy takes its position for -1, and the next ladder
  is laid with room for everything: that too goes over the bound.
- `price2dec` never rounds. So every positive profit is a profit, but the ladder
  leaves the cent grid, from 30 dollars up, at every step whose price times tick, in
  cents, is no multiple of 3000; `submit_order` of the backtester (497) refuses prices
  with more than two decimals.
- `initialize_levels` of the first stop-loss draft (`fibonaccistoploss.py` 71) never
  loads anything. The strategy block has the guard right; since line 82 shares the
  configured lists, levels that fire are missing for the next trade.
- `is_rising_trend` documents higher highs and higher lows; it tests neither.
- The extrema functions report the end of a pause inside a fall as a maximum, and
  of one inside a rise as a minimum; the crossings count a bounce off the threshold.
- Two directives can print to the same condition key, and the later then replaces
  the earlier. That is harmless exactly when the directives that are left cover it, or
  ask for both outcomes of one test.
- A stream added to a stopped client while another thread is starting it gets no
  data until its own thread has run, unless that thread is to subscribe its symbol.

## Model

| member | source | states |
|---|---|---|
| Pricing.Price2Dec | v2realbot/utils/utils.py:752-775 | no price is rounded, whatever the number of decimals: the logarithm that is compared with it is negative for every fraction |
| Pricing.TickIsScaled | v2realbot/utils/utils.py:507-524 | a tick is as given up to 30 dollars, and price times tick over 30 from there on |
| Pricing.DefenceIs | v2realbot/ENTRY_Vykladaci_RSI_MYSELL_type_NEW.py:100-109 | defensive mode starts at the whole number of positions that `def_mode_from` truncates to, or, unset, where twice the positions and one reach `maxpozic` |
| Pricing.TickGrows | v2realbot/utils/utils.py:507-524 | a tick keeps its sign at every price and never shrinks; a positive one is unchanged exactly up to the base price |
| Pricing.GoalAboveAverage | v2realbot/ENTRY_Vykladaci_RSI_MYSELL_type_NEW.py:111-123 | the goal price is over the average price if and only if the profit is positive, at every average price |
| Orders.PendingOfIsLimitBuys | v2realbot/ENTRY_Vykladaci_RSI_MYSELL_type_NEW.py:151-157 | the dictionary rebuilt from the open orders holds exactly the open limit buys, each with its price |
| Ladder.Conservation | v2realbot/ENTRY_Vykladaci_RSI_MYSELL_type_NEW.py:216-244 | quantity placed plus quantity carried is one chunk for each step and two more; all of it is placed exactly when there was no step or the curve does not end on a zero |
| Ladder.Shape | v2realbot/ENTRY_Vykladaci_RSI_MYSELL_type_NEW.py:236-244 | the placed prices fall strictly, starting under the first price, if and only if no step of the curve that is taken is negative |
| CentGrid.StepKeepsCentsIff | v2realbot/ENTRY_Vykladaci_RSI_MYSELL_type_NEW.py:237-237 | for every price and tick in whole cents, a step of the ladder gives whole cents if and only if the price is under the base price or price times tick, in cents, is a multiple of 3000 |
| CentGrid.LadderOnGridIff | v2realbot/ENTRY_Vykladaci_RSI_MYSELL_type_NEW.py:216-244 | every order of a ladder after the first price, from a price and on a curve in whole cents, is in whole cents if and only if every step taken keeps the grid in that sense |
| CentGrid.UnderBaseOnGrid | v2realbot/ENTRY_Vykladaci_RSI_MYSELL_type_NEW.py:216-244 | a falling ladder that starts under the base price never leaves the grid |
| LadderOrders.OrdersOfMeans | v2realbot/strategy/StrategyOrderLimitVykladaciNormalizedMYSELL.py:119-141 | of the offered limit orders the book gets exactly those the broker does not refuse, each at its rung's price and quantity |
| LadderOrders.LadderIs | v2realbot/ENTRY_Vykladaci_RSI_MYSELL_type_NEW.py:182-247 | a whole ladder in closed form: the accepted orders go to the book and to `pendingbuys`, an accepted market buy to the outstanding ones, whatever is refused |
| LadderOrders.LadderFalls | v2realbot/ENTRY_Vykladaci_RSI_MYSELL_type_NEW.py:234-244 | on a curve whose steps are not negative each later order of a ladder is strictly cheaper, the first limit order being at the last price |
| LadderOrders.LadderTotal | v2realbot/ENTRY_Vykladaci_RSI_MYSELL_type_NEW.py:212-244 | a ladder of n steps is for its first order and n chunks at most, and for exactly that unless an order is refused or the curve ends on a zero |
| LadderOrders.LadderFits | v2realbot/ENTRY_Vykladaci_RSI_MYSELL_type_NEW.py:191-244 | how far a ladder can exceed the room left, for any multiplier; without multiplied orders it fits the room exactly when one chunk does or its first order is refused |
| LadderSize.ModeSelects | v2realbot/ENTRY_Vykladaci_RSI_MYSELL_type_NEW.py:191-214 | the mode selects the curve, the ticks to reset and whether the first order is at market |
| LadderSize.FirstOrderIs | v2realbot/ENTRY_Vykladaci_RSI_MYSELL_type_NEW.py:125-136 | the first order is for one chunk; at market, with some shares but fewer than four chunks held, for the multiple |
| LadderSize.VykladkaCaps | v2realbot/ENTRY_Vykladaci_RSI_MYSELL_type_NEW.py:191-216 | for every room and curve, a ladder offers at most `vykladka` orders (one at least) and adds at most its first order and a chunk for each further one; exactly that if and only if room and curve have as much, the last step moves and nothing is refused |
| LadderSize.LadderOneByOne | v2realbot/ENTRY_Vykladaci_RSI_MYSELL_type_NEW.py:191-244 | on a curve without zeros, the orders after the first are one chunk each, one scaled step of the curve under the one before, and as many as `vykladka`, the curve and the room allow |
| StrategyRuns.StepKeeps | v2realbot/strategy/StrategyOrderLimitVykladaciNormalizedMYSELL.py:21-161 | every phase, fill, cancel and notification keeps the book in order, and exposure grows by a ladder's quantity when one is laid and at no other time |
| StrategyRuns.BoundKeptIff | v2realbot/ENTRY_Vykladaci_RSI_MYSELL_type_NEW.py:182-247 | for every bound and whatever buys are outstanding: a run stays within the bound if and only if each ladder, added to the exposure it finds, does |
| StrategyRuns.StepTracked | v2realbot/strategy/StrategyOrderLimitVykladaciNormalizedMYSELL.py:143-161 | open buys stay recorded in `pendingbuys`, and none is open while `jevylozeno` is 0, exactly when the broker carries out the cancels of the step; a ladder laid in such a state finds no limit buy open |
| StrategyRuns.ConsolidationTracks | v2realbot/ENTRY_Vykladaci_RSI_MYSELL_type_NEW.py:142-174 | a due consolidation restores that, whatever was refused before |
| StrategyRuns.ExposureBound | v2realbot/ENTRY_Vykladaci_RSI_MYSELL_type_NEW.py:492-510 | in every state of every run whose ladders know the position, wait for market buys to fill, and after a refused cancel for a consolidation, shares held plus open buy quantity stay within `maxpozic` plus what one ladder can exceed its room by (or the starting position) |
| StrategyRuns.AnsweredIsKnown | v2realbot/interfaces/live_interface.py:169-183 | in a run in which `pos()` never fails every ladder knows the position |
| StrategyRuns.ExposureBoundOfLimitLadders | v2realbot/ENTRY_Vykladaci_RSI_MYSELL_type_NEW.py:223-247 | with ladders of limit orders only there is no market buy to wait for |
| StrategyRuns.MaxpozicKeptIff | v2realbot/ENTRY_Vykladaci_RSI_MYSELL_type_NEW.py:191-197 | without multiplied orders such a run keeps exposure within `maxpozic` if and only if each of its ladders is laid with a chunk of room or has its first order refused |
| StrategyRuns.BoundIsReached | v2realbot/ENTRY_Vykladaci_RSI_MYSELL_type_NEW.py:195-234 | with one share of room a ladder ends at `maxpozic` plus its first order less one share, at market or not, multiplied or not |
| StrategyRuns.BoundIsReachedByChunks | v2realbot/ENTRY_Vykladaci_RSI_MYSELL_type_NEW.py:191-244 | with whole chunks of room that the curve uses up it ends at `maxpozic` plus its first order less one chunk |
| OutstandingBuys.OutstandingMarketBuyBreaksBound | v2realbot/ENTRY_Vykladaci_RSI_MYSELL_type_NEW.py:224-232 | a run that lays a second ladder over an outstanding market buy and exceeds the bound |
| OutstandingBuys.RefusedCancelBreaksBound | v2realbot/strategy/StrategyOrderLimitVykladaciNormalizedMYSELL.py:148-159 | a run in which the broker refuses the cancels, `pendingbuys` is emptied all the same, and the next ladder is laid over live orders |
| OutstandingBuys.HiddenPositionBreaksBound | v2realbot/ENTRY_Vykladaci_RSI_MYSELL_type_NEW.py:148-148 | a run in which `pos()` fails once, the position is stored as -1, and the next ladder doubles a full position |
| StrategyConduct.SalesAreSafe | v2realbot/ENTRY_Vykladaci_RSI_MYSELL_type_NEW.py:249-275 | in every run, with sales refused or not, no more is on sale than is held, each sale the broker took ends before the next one, and with positive profits every sale is sent at a close above the average price |
| SalesOverCost.SaleStartsIff | v2realbot/ENTRY_Vykladaci_RSI_MYSELL_type_NEW.py:249-275 | a sale starts if and only if shares are held at a known average, none is in progress, and the close reaches the average plus the scaled profit of the mode, and the one of the highest profit while sales are protected; it is of the whole position |
| SalesOverCost.AnswerIsStored | v2realbot/strategy/StrategyOrderLimitVykladaciNormalizedMYSELL.py:21-92 | after every step the stored average is the one `pos()` answered with in it; -1 after a failure; 0 with nothing left after a sale; otherwise as before |
| SalesOverCost.EverySaleIsOverCost | v2realbot/ENTRY_Vykladaci_RSI_MYSELL_type_NEW.py:249-275 | in every run, whatever fails or is refused, each sale starts at a close over the last average that the broker answered with, by the scaled profit of the mode |
| SalesOverCost.ReachedIsOver | v2realbot/ENTRY_Vykladaci_RSI_MYSELL_type_NEW.py:111-123 | with positive profits that is over the average itself |
| StrategyConduct.CancelledSaleIsLast | v2realbot/strategy/StrategyOrderLimitVykladaciNormalizedMYSELL.py:43-72 | a step leaves `sell_in_progress` set with nothing on sale if and only if it cancels a sale or has one refused, and after it no run sends another |
| StrategyConduct.SellingResumesIff | v2realbot/ENTRY_Vykladaci_RSI_MYSELL_type_NEW.py:249-275 | from any state some run clears `sell_in_progress` if and only if it is clear or something is on sale |
| StuckRuns.SellingOverIsReached | v2realbot/ENTRY_Vykladaci_RSI_MYSELL_type_NEW.py:271-274 | a run into the state without further sales, by a refused and by a cancelled sale |
| StrategyConduct.LaddersKeepSchedule | v2realbot/ENTRY_Vykladaci_RSI_MYSELL_type_NEW.py:496-510 | the ladders of any run are the configured number of bars apart, counted from -5 when a sale has ended in between and the offset is reset by sales; outside the rush hours and, when so configured, on confirmed bars only |
| StrategyConduct.ConsolidationClearsStale | v2realbot/ENTRY_Vykladaci_RSI_MYSELL_type_NEW.py:142-174 | a due consolidation leaves the ids of exactly the open buys in `pendingbuys`, and `jevylozeno` tells whether there is one |
| PendingBuys.StepMirrors | v2realbot/strategy/StrategyOrderLimitVykladaciNormalizedMYSELL.py:21-161 | a step takes the ids and prices of `pendingbuys` away from those of the open limit buys if and only if a cancel is refused in it or an order ends with another status |
| PendingBuys.MirroredIff | v2realbot/strategy/StrategyOrderLimitVykladaciNormalizedMYSELL.py:21-161 | over a run they agree in every state if and only if it has no such step |
| StrategyConduct.PendingPhaseOutcome | v2realbot/ENTRY_Vykladaci_RSI_MYSELL_type_NEW.py:377-414 | giving up forgets every pending buy and re-arms whatever the broker answers; the orders left are those it did not cancel; not giving up changes nothing |
| PendingBuys.GivenUpIff | v2realbot/ENTRY_Vykladaci_RSI_MYSELL_type_NEW.py:377-414 | the pending buys are given up, all at once, if and only if the directives say so or the price has passed every one of them by the scaled `ticks2reset`; otherwise nothing changes |
| StrategyConduct.StepHolds | v2realbot/strategy/StrategyOrderLimitVykladaciNormalizedMYSELL.py:25-34 | `blockbuy` stays set only while a buy is open, except exactly when a sale that ends has the last open buy cancelled, that buy ends with another status, or a whole ladder is refused |
| StrategyConduct.RecoversWhenFilled | v2realbot/strategy/StrategyOrderLimitVykladaciNormalizedMYSELL.py:25-34 | in every run without such a step, once all buys have ended the next due consolidation leaves both flags down and nothing pending |
| StrategyConduct.PhasesUnblockIff | v2realbot/ENTRY_Vykladaci_RSI_MYSELL_type_NEW.py:377-414 | from a tracked state with `blockbuy` set, some run of bar phases clears it if and only if a buy is pending |
| StrategyConduct.UnblockedIff | v2realbot/ENTRY_Vykladaci_RSI_MYSELL_type_NEW.py:377-414 | with fills, drops and sales as well, but no late report on a closed order: if and only if a buy is pending or a market buy is open |
| StrategyConduct.SaleStrands | v2realbot/strategy/StrategyOrderLimitVykladaciNormalizedMYSELL.py:74-92 | a sale that ends while an unfilled ladder is out, its cancels carried out at once, leaves a state in which no run buys again unless those cancels are still reported |
| StuckRuns.SaleStrandsIsReached | v2realbot/strategy/StrategyOrderLimitVykladaciNormalizedMYSELL.py:74-92 | a run from shares held, through a ladder and a sale that is filled, into that state |
| StrategyObject.LadderStrategy.BuyLimit | v2realbot/strategy/StrategyOrderLimitVykladaciNormalizedMYSELL.py:119-141 | one limit buy in place, refused at `maxpozic` and recorded only when the broker takes it |
| StrategyObject.LadderStrategy.Vyloz | v2realbot/ENTRY_Vykladaci_RSI_MYSELL_type_NEW.py:182-247 | the ladder builder, in place, does to variables and book what the specification says |
| StrategyObject.LadderStrategy.LayRungs | v2realbot/ENTRY_Vykladaci_RSI_MYSELL_type_NEW.py:236-244 | its loop places the rungs of the specified walk, with every curve index in range |
| StrategyObject.LadderStrategy.RefreshPosition | v2realbot/interfaces/live_interface.py:169-183 | position and average price as answered, or -1 for both after an error |
| StrategyObject.LadderStrategy.Consolidation | v2realbot/ENTRY_Vykladaci_RSI_MYSELL_type_NEW.py:137-180 | on a due bar the position is refreshed, or lost to an error, `pendingbuys` becomes the book's limit buys and `jevylozeno` says whether there are any |
| StrategyObject.LadderStrategy.Sell | v2realbot/ENTRY_Vykladaci_RSI_MYSELL_type_NEW.py:249-279 | the sell phase in place; a refused sale sets `sell_in_progress` and nothing else |
| StrategyObject.LadderStrategy.CancelPendingBuys | v2realbot/strategy/StrategyOrderLimitVykladaciNormalizedMYSELL.py:143-161 | the loop of cancel requests removes from the book the orders the broker cancels, and empties `pendingbuys` whatever it answers |
| StrategyObject.LadderStrategy.PendingbuysOptimalization | v2realbot/ENTRY_Vykladaci_RSI_MYSELL_type_NEW.py:377-414 | the cancel-and-reset phase in place, with the runaway test against the dearest pending buy |
| StrategyObject.LadderStrategy.OrderUpdateBuy | v2realbot/strategy/StrategyOrderLimitVykladaciNormalizedMYSELL.py:21-41 | the buy notification in place: a filled or cancelled order leaves `pendingbuys` and clears `blockbuy` |
| StrategyObject.LadderStrategy.OrderUpdateSell | v2realbot/strategy/StrategyOrderLimitVykladaciNormalizedMYSELL.py:43-92 | the sell notification in place: a sale that is over ends the ladder and, if so configured, resets the bar offset |
| StrategyObject.LadderStrategy.Next | v2realbot/ENTRY_Vykladaci_RSI_MYSELL_type_NEW.py:1071-1082 | a bar runs the four phases in order; the book stays in order, what the strategy knows of it stays true if the cancels are carried out, and any bound is kept if the ladder of the bar fits it |
| BuyDecision.GeneralBlocks | v2realbot/ENTRY_Vykladaci_RSI_MYSELL_type_NEW.py:496-510 | the dictionary of general preconditions holds for some key exactly when the buy phase is blocked |
| BuyDecision.LaysIffMeans | v2realbot/ENTRY_Vykladaci_RSI_MYSELL_type_NEW.py:492-567 | a bar lays a ladder if and only if the preconditions pass, there is room in `maxpozic`, and the directives of a configuration without clashes say so |
| BuyDecision.EvalBuy | v2realbot/ENTRY_Vykladaci_RSI_MYSELL_type_NEW.py:674-676 | the buy phase on the object, from the configuration: the step of the state machine, or an exception on malformed sections with nothing laid |
| Reconciliation.ConsolidationSettles | v2realbot/archived/ENTRY_Vykladaci_RSI.py:111-208 | over any book, one consolidation with the sell or replacement accepted: with shares held `limitka` names a sell for all of them at the take-profit price; the sells are settled if and only if no cancel of an extra sell is refused; other orders untouched; `pendingbuys` and `jevylozeno` agree with the book |
| Reconciliation.NamedSellIsOverCost | v2realbot/archived/ENTRY_Vykladaci_RSI.py:103-109 | the sell that `limitka` names after an accepted consolidation is at the average plus the profit of the mode |
| Reconciliation.CallsAreOverCost | v2realbot/archived/ENTRY_Vykladaci_RSI.py:157-186 | whatever is refused, every sell and replacement sent is for the whole position at that price, which is over the average for positive profits |
| Reconciliation.SilentIffSettled | v2realbot/archived/ENTRY_Vykladaci_RSI.py:134-189 | the broker is called if and only if the sells are not yet settled, and a silent consolidation leaves the book alone |
| Reconciliation.SecondConsolidationIsSilent | v2realbot/archived/ENTRY_Vykladaci_RSI.py:111-208 | repeated at once, a consolidation calls nobody if and only if no cancel was refused, and then changes nothing but the stale price field |
| Reconciliation.PriceFieldAgreesIff | v2realbot/archived/ENTRY_Vykladaci_RSI.py:176-189 | after a consolidation the price field is the take-profit price if and only if no first sell with another price was there before |
| Reconciliation.RefusedRepair | v2realbot/archived/ENTRY_Vykladaci_RSI.py:144-186 | when the broker refuses the sell or replacement, the first sell of the book stays as it was, named by `limitka`, beside the extra sells whose cancels are refused |
| Reconciliation.VisitAllMeans | v2realbot/archived/ENTRY_Vykladaci_RSI.py:134-156 | walking the listed orders while cancelling from the book keeps the first sell, cancels every other as far as the broker allows, and collects the limit buys |
| Reconciliation.LimitSellStrategy.Consolidation | v2realbot/archived/ENTRY_Vykladaci_RSI.py:111-220 | the object does that in place, with exactly those broker calls, on every Nth bar and nothing on the others |
| FillMatching.GetIndex | testy/testExecList-standard.py:139-153 | the linear cut finds the first trade at or after the time, and raises when there is none |
| FillMatching.CutsAgreeIff | testy/testExecList-standard.py:125-153 | on a sorted tape the bisecting cut agrees with the linear one if and only if the first trade is before the time and the last one is not |
| FillMatching.BisectOutside | testy/testExecList-standard.py:125-137 | outside the tape it answers with the first or last trade in place of a position, and raises on an empty tape |
| FillMatching.Scan | testy/testExecList-bisect.py:48-84 | each of the three scans finds the first trade that fills the order |
| FillMatching.FillIsAtLimit | testy/testExecList-bisect.py:48-84 | that is the first trade more than the delay after submission which is not over the limit of a buy, or under that of a sell |
| FillMatching.Replay.Step | testy/testExecList-standard.py:112-117 | cutting, scanning up to and with the cut, and dropping the prefix, in place |
| FillMatching.WindowedReplayIsOnePass | testy/testExecList-standard.py:155-211 | for any tape and cuts, window after window fills an order exactly as one pass over the whole tape that stops at the last cut, also when earlier cuts dropped trades before the order was submitted |
| FillMatching.OrderedReplayIsOnePass | testy/testExecList-standard.py:155-211 | for cuts in order that one pass stops at the last cut time of the whole tape |
| FillMatching.CutsSucceedIff | testy/testExecList-standard.py:139-153 | on a sorted tape with cuts in order, no cut raises if and only if the last trade is not before the last cut |
| FillMatching.BetterLimitsFillNoLater | testy/testExecList-bisect.py:53-84 | raising a buy limit or lowering a sell limit never delays a fill, and a market order is filled no later than a limit order |
| Backtest.ScanForRun | v2realbot/backtesting/backtester.py:226-333 | the loop with its counter of consecutive trades finds the fill of the window |
| Backtest.FillIndex | v2realbot/backtesting/backtester.py:226-333 | that fill is the first trade to complete a run of as many consecutive eligible trades as configured |
| Backtest.LimitBuyFills | v2realbot/backtesting/backtester.py:226-255 | a limit buy fills at the end of the first run of as many trades as configured, each after both delays and at or under the limit (under it for SLOW), and not at all if and only if there is no run |
| Backtest.LimitSellFills | v2realbot/backtesting/backtester.py:270-291 | a limit sell likewise, at or over the limit |
| Backtest.MarketFills | v2realbot/backtesting/backtester.py:304-311 | a market order fills on the first trade after the delay |
| Backtest.Backtester.ExecuteOrders | v2realbot/backtesting/backtester.py:150-203 | one call in place: without open orders nothing; otherwise the cut, for each order the test for young orders and the scan on the same window, and one trimming of the tape |
| Backtest.TooSoonFindsNothing | v2realbot/backtesting/backtester.py:173-181 | the test for young orders changes no fill |
| Backtest.YoungOrdersWait | v2realbot/backtesting/backtester.py:173-176 | an order younger than the delay finds nothing |
| Backtest.CallKeeps | v2realbot/backtesting/backtester.py:190-199 | a call keeps the last trades before its time, as many as a run needs and two more, and all trades from it on |
| Backtest.TrimmedReplayIsOnePass | v2realbot/backtesting/backtester.py:113-203 | calls in the order of time, each on the tape the ones before have trimmed, fill an order by the first complete run of the whole tape before the last call, also when calls made before the order could fill have trimmed it |
| Backtest.CallUntilFilled | v2realbot/backtesting/backtester.py:113-203 | calling the object at each time, beside any other orders, finds the fill that the theorem speaks of |
| Backtest.Replay | v2realbot/backtesting/backtester.py:113-203 | so an object that starts with the whole tape and is called for other orders first fills an order by the first complete run of that tape before the last call |
| Backtest.EasierFillsNoLater | v2realbot/backtesting/backtester.py:242-291 | needing fewer trades in a row, or accepting more trades, never delays a fill |
| Backtest.FasterSettings | v2realbot/backtesting/backtester.py:242-291 | FAST conditions, and a smaller configured count of trades, never delay a fill |
| Backtest.BetterLimits | v2realbot/backtesting/backtester.py:242-291 | nor do a higher buy limit or a lower sell limit |
| Directives.FlatteningMeans | v2realbot/ENTRY_Vykladaci_RSI_MYSELL_type_NEW.py:630-647 | the work dictionary holds exactly the directives configured free-standing (as OR) or in the section of the group |
| Directives.GetWorkDictWithDirective | testy/getdirective.py:22-40 | the nested loops compute that dictionary, and raise exactly when an AND or OR section is not a dictionary |
| Directives.CreateConditionsFromDirectives | v2realbot/ENTRY_Vykladaci_RSI_MYSELL_type_NEW.py:585-623 | the loop computes the condition dictionary, later keys over earlier ones |
| DirectiveNames.LevelsAsk | v2realbot/ENTRY_Vykladaci_RSI_MYSELL_type_NEW.py:593-596 | a name ending in above or below holds if and only if that test answers so |
| DirectiveNames.TrendsAsk | v2realbot/ENTRY_Vykladaci_RSI_MYSELL_type_NEW.py:597-606 | one ending in falling or rising likewise, turned round after not_ |
| DirectiveNames.CrossingsAsk | v2realbot/ENTRY_Vykladaci_RSI_MYSELL_type_NEW.py:607-613 | crossed_down, crossed_up, and crossed for either |
| DirectiveNames.PivotsAsk | v2realbot/ENTRY_Vykladaci_RSI_MYSELL_type_NEW.py:614-617 | pivot_a and pivot_v |
| DirectiveNames.OtherNamesAskNothing | v2realbot/ENTRY_Vykladaci_RSI_MYSELL_type_NEW.py:593-623 | a name with no such ending adds no condition |
| DirectiveNames.SingleSignals | v2realbot/ENTRY_Vykladaci_RSI_MYSELL_type_NEW.py:492-647 | a configuration of one free-standing directive signals if and only if its name begins with buy_if and it holds |
| Directives.ConditionsMean | v2realbot/ENTRY_Vykladaci_RSI_MYSELL_type_NEW.py:585-623 | every recognised directive finds its own answer in the dictionary in every market if and only if directives that share a key ask the same question |
| Directives.EvalCondDict | v2realbot/utils/utils.py:526-578 | the evaluator of the strategies answers whether a non-empty AND group, a member of the OR group or a single condition holds |
| Directives.EvalCondDictUnguarded | testy/buyconditiontest.py:19-52 | the earlier evaluator gives the same answer, but raises exactly when no single condition holds and the AND group is empty |
| Directives.ConditionsMet | v2realbot/ENTRY_Vykladaci_RSI_MYSELL_type_NEW.py:492-567 | the four stages, each through the evaluator, compute the compiled signal, or raise on malformed sections |
| Directives.SignalMeansKept | v2realbot/ENTRY_Vykladaci_RSI_MYSELL_type_NEW.py:492-647 | for every configuration, with clashes or without: the compiled signal is what it would mean with each directive struck out whose key a later one has |
| Directives.CompilationPreservesMeaning | v2realbot/ENTRY_Vykladaci_RSI_MYSELL_type_NEW.py:492-647 | without clashes the compiled signal is given if and only if the general preconditions pass, no configured don't-buy directive holds, and some OR directive holds or the AND directives exist and all hold |
| DirectiveClashes.OrKeepsMeaningIff | v2realbot/ENTRY_Vykladaci_RSI_MYSELL_type_NEW.py:554-560 | with clashes, an OR group answers as its directives mean in every market if and only if what the kept directives ask covers each struck-out one (either crossing for `crossed`), or asks for both outcomes of one test |
| DirectiveClashes.AndKeepsMeaningIff | v2realbot/ENTRY_Vykladaci_RSI_MYSELL_type_NEW.py:563-567 | an AND group does if and only if a kept directive asks no less than each struck-out one, or the kept ones contradict each other |
| DirectiveClashes.HarmlessClashesKeepMeaning | v2realbot/ENTRY_Vykladaci_RSI_MYSELL_type_NEW.py:492-647 | the compiled signal is what the configuration says whenever the clashes are harmless in each of its three groups |
| Directives.SignalIsMonotone | v2realbot/ENTRY_Vykladaci_RSI_MYSELL_type_NEW.py:512-567 | more OR directives never remove a signal, more don't-buy directives never create one, if the longer list has no clash |
| Directives.ClashLosesSignal | v2realbot/ENTRY_Vykladaci_RSI_MYSELL_type_NEW.py:593-596 | a configuration of two directives that print to one key means "buy" and compiles to no signal, in every market that answers the first yes and the second no |
| StopLoss.LevelIsOnTheWay | v2realbot/strategyblocks/activetrade/sl/optimsl.py:121-149 | a level is that share of the way from the cost to the stop, mirrored about the cost if the stop is on the other side |
| StopLoss.BeyondIsStrict | v2realbot/strategyblocks/activetrade/sl/optimsl.py:132-149 | a tick is beyond it when the close is strictly past it on the losing side |
| StopLoss.EachFireHasItsTick | v2realbot/strategyblocks/activetrade/sl/optimsl.py:112-151 | each level that fires does so on a tick strictly beyond its price, one level to a tick and in order |
| StopLoss.ShortMirrorsLong | v2realbot/strategyblocks/activetrade/sl/optimsl.py:132-149 | a SHORT optimizer fires exactly as a LONG one on prices mirrored about the cost price |
| StopLoss.PersistentLossUsesAllLevels | v2realbot/strategyblocks/activetrade/sl/optimsl.py:112-151 | with every level reached on every tick, one level is used each tick until none is left |
| StopLoss.LoadsIffFitting | v2realbot/strategyblocks/activetrade/sl/optimsl.py:63-84 | the levels are loaded exactly when both settings are there and fit, and loading raises exactly when they are there and do not; what is loaded are the settings, a single size repeated |
| StopLoss.DraftNeverLoads | testy/fibonaccistoploss.py:71-85 | with the guard of the first draft no settings whatever are loaded |
| StopLoss.SLOptimizer.InitializeLevels | v2realbot/strategyblocks/activetrade/sl/optimsl.py:63-84 | loading in place: the configured lists, also one list in both places, become the live lists, a single size is repeated for all levels, a misfit raises and changes nothing |
| StopLoss.SLOptimizer.GetTradeDetails | v2realbot/strategyblocks/activetrade/sl/optimsl.py:52-61 | a trade seen for the first time loads its levels; a known one keeps what is left of them; the cost and stop prices are returned exactly for a loaded trade |
| StopLoss.SLOptimizer.EvalPosition | v2realbot/strategyblocks/activetrade/sl/optimsl.py:112-151 | on every sequence of calls, over any trades, what fired is a prefix of the pairs the trade started with and what is live the matching suffix; the next level fires if and only if the tick has a cost and a stop loss and is beyond it; one list in both places gives a level and its size from neighbouring entries, and raises when a met level is its last entry |
| StopLoss.SecondTradeRunsOnTheRest | v2realbot/strategyblocks/activetrade/sl/optimsl.py:80-83 | two trades on the same settings, for all ticks: the second runs on the levels that did not fire in the first, with one size for all levels or one for each |
| Subscriptions.AddedWhileRunning | testy/threadclassestest.py:46-54 | in every interleaving, a stream added to a running client stays subscribed until it is removed |
| Subscriptions.SeenByFinishedRun | testy/threadclassestest.py:82-111 | in every interleaving, the streams a run() saw are subscribed once its loop is done, until they are removed |
| Subscriptions.RunSubscribes | testy/threadclassestest.py:82-111 | in every interleaving, each stream there when a thread enters run() and not removed since is subscribed when the thread is done |
| Subscriptions.UnsubscribedOnlyWhenUnused | testy/threadclassestest.py:56-71 | a symbol is unsubscribed if and only if the last stream that uses it is removed while others are left, and a running client stops if and only if its only stream is removed |
| Subscriptions.SubscribedIffInTime | testy/threadclassestest.py:46-54 | an added stream is subscribed in every later state of a running client, until removed, if and only if the client runs already, or the symbol is subscribed or still to be subscribed by each thread inside run() |
| Subscriptions.LateStreamIsMissed | testy/threadclassestest.py:46-54 | a reachable state in which it is not |
| Subscriptions.WSStreams.SymbolExists | testy/threadclassestest.py:40-44 | the loop decides whether some stream uses the symbol |
| Subscriptions.WSStreams.RemoveStream | testy/threadclassestest.py:56-71 | removal in place takes the step of the protocol |
| Subscriptions.WSStreams.Run | testy/threadclassestest.py:82-111 | an undisturbed run() is a sequence of protocol steps that subscribes every symbol and leaves the client running |
| Bars.BarState.PopulateIndicatorTime | testy/testDict.py:16-31 | one item, in place, for the three record types |
| Bars.ListsStayInStep | testy/testDict.py:16-31 | on any stream of items the two lists have the same times and end with the latest item |
| Bars.StoredBarsAreClosingsIff | testy/testDict.py:16-31 | on a stream of bars, the stored bars are the closing items if and only if every bar before the last has an unconfirmed item |
| Worklist.ChainIs | testy/archive/changeiterable.py:22-26 | an even time under 300 is followed every 50 up to the first time from 300 on, any other by nothing |
| Worklist.WorkStep | testy/archive/changeiterable.py:22-33 | processing one notification takes one unit off the work due, whatever it spawns |
| Worklist.OpenOrders.Walk | testy/archive/changeiterable.py:27-33 | the walk over the growing list ends, visits each entry once and in order, and visits exactly the chains of the initial times |
| Worklist.OpenOrders.Drain | testy/archive/changeiterable.py:27-40 | after the removal loop nothing is left |
| Extrema.WhereIsExact | testy/localmaximatest.py:34-55 | the reported positions are exactly those marked, in order |
| Extrema.ReportedAre | testy/localmaximatest.py:34-55 | a maximum is reported before a fall and not after one, a minimum before a rise and not after one |
| Extrema.ExtremaAlternateIff | testy/localmaximatest.py:23-55 | maxima and minima alternate if and only if the series pauses inside a rise or fall only where, up to the pause, it has moved strictly one way and then stood still; alternating, their counts differ by at most one |
| Extrema.NoTurnsIff | testy/localmaximatest.py:23-55 | nothing is reported up to a place exactly when the series is of that shape |
| Extrema.PauseBreaksAlternation | testy/localmaximatest.py:23-55 | the series 0, 1, 0, 0, -1 has two maxima in a row |
| Extrema.DistinctNeighboursAlternate | testy/localmaximatest.py:23-55 | without equal neighbours they always alternate |
| Trend.IsRisingTrend | testy/higherhighs.py:12-60 | true if and only if there are two prices and every falling price is over the first price and not under the first falling price |
| Trend.FirstIsMinimum | testy/higherhighs.py:12-60 | a list that passes is nowhere under its first price |
| Trend.PeakPassesIff | testy/higherhighs.py:26-60 | whatever a passing list has done, a new peak of any height and a fall to y keep it passing if and only if y is over the first price and not under the first falling price |
| Trend.LowerHighAndLowPass | testy/higherhighs.py:1-10 | a list with a lower high and a lower low passes |
| Detectors.IsFallingOptimized | testy/isfalling.py:1-20 | the first version compares the last values of the collapsed series |
| Detectors.IsFallingOptimizedGpt | testy/isfalling.py:22-43 | the second does so on the same collapsed series, and wants enough of it |
| Detectors.VersionsPartIff | testy/isfalling.py:1-43 | the two differ if and only if the list is long enough, collapses to fewer values than asked for, and falls throughout |
| Detectors.WholeListFalls | testy/isfalling.py:1-43 | asked about a whole list, the first version says whether it never rises, the second whether it falls at every step |
| Detectors.LastValuesFall | testy/isfalling.py:1-43 | without equal neighbours both say whether the last values asked for fall, counts below one included |
| Detectors.RepeatUnnoticed | testy/isfalling.py:22-43 | with an explicit count the second version gives the same answer when an element is repeated |
| Detectors.RepeatNoticedByFirstIff | testy/isfalling.py:1-20 | the first version changes its answer if and only if as many values are asked for as the longer list has, and the collapsed list falls throughout |
| Detectors.CrossingsBalance | testy/pricecrosses.py:13-38 | up-crossings less down-crossings are the side of the last value less that of the first, plus the landings on the threshold from above, less the drops from it |
| Detectors.CrossingsAlternateIff | testy/pricecrosses.py:13-38 | up- and down-crossings alternate if and only if the series bounces off the threshold only while it has been on one strict side of it and then on it |
| Detectors.NoCrossingsIff | testy/pricecrosses.py:13-38 | a series has no crossing exactly when it is of that shape |
| Detectors.BounceBreaksAlternation | testy/pricecrosses.py:13-38 | a series with two up-crossings in a row |
| Detectors.OffThreshold | testy/pricecrosses.py:13-38 | with no value on the threshold both hold: they alternate, and nothing lands or drops |
| Candles.VwapStaysInRange | v2realbot/ENTRY_ClassicSL_v01.py:237-242 | each cumulative volume-weighted price lies between the lowest low and the highest high so far |
| Candles.VwapCarriesOn | v2realbot/ENTRY_ClassicSL_v01.py:237-242 | it starts as the mean of high, low and close, and is carried on by that mean weighted with the volume |
| Candles.DivergenceStaysInside | v2realbot/ENTRY_ClassicSL_v01.py:243-245 | the normalised divergence of the close from it is defined and strictly between -1 and 1 |
| Candles.DivergenceIsRatio | v2realbot/ENTRY_ClassicSL_v01.py:243-245 | close and price are as 1 plus to 1 minus it, and it is positive exactly when the close is over the price |

## Left out

- DirectiveClashes.HarmlessClashesKeepMeaning: exact for each group, one way for the signal, where a group that is wrong can be overruled by another.
- Backtest.TrimmedReplayIsOnePass: for market orders, starts from a configured run length of at least -2, below which trimming would go past the time of the call.
- StopLoss.SecondTradeRunsOnTheRest: for levels and sizes in two lists, as configuration files give them; the two getters of absolute levels are not modelled.
- Notifications that overtake each other.
- The fields `limitka` and `limitka_price` of the MYSELL strategy: that strategy sets them to None and never reads them.
- The tests inside the conditions (series lookups, moving averages, `isrising`, `is_pivot`) and their exceptions: a condition is any answer to a test.
- The compiled directives behind sell protection and behind cancelling pending buys: their outcomes are inputs of the two phases.
- Cash, premiums and profits of the backtester, the price it books for a fill, its price lookups and its order validation.
- Orders without a limit price among the sells of the reconciled book.
- Tick-volume deltas and candle shape ratios: a telescoping sum and identities on one bar.
- RSI, EMA and slope indicators, plots, HTTP endpoints, databases, logging and market calendars.
- Floating-point rounding.
