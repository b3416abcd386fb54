# Neural-Net-Options strategy scripts, modelled in Dafny

The repository trains a neural network that flags days on which to buy a
stock. It then backtests those buy signals with QuantConnect algorithm
scripts written in Python. This project models those strategy scripts. Each
one reads a prediction CSV, schedules a buy signal on every flagged day,
picks an option contract (or buys the stock), and closes positions on a
trailing stop or before expiry.

Every script is modelled as one module:

- a `State` datatype holding the fields the script's callbacks read and
  write, together with the log of host calls made so far (orders,
  liquidations, subscriptions, option filters), kept as `Effect` values;
- pure step functions giving each callback's effect on that state;
- lemmas stating what the callbacks promise, and invariants they preserve;
- a `class Algorithm` with the script's fields. Its methods (`OnData`,
  `BuyCall`, `BuySignal`, ...) update those fields in place, and each is
  proved to end in the state the matching step function gives.

Shared pieces have modules of their own:

- `Base`: Python's errors, `int()`, `round(_, 2)`, `str.split` and the
  clock in minutes;
- `Sorting`: a stable `sorted` and what chained sorts compute;
- `ListIteration`: a `for` loop that removes from the list it walks;
- `Signals`: the CSV pipeline;
- `ChainSort`: the option-chain ranking;
- `ChainProvider`: the contract search through the option chain provider.

Host inputs are parameters of the callbacks. These are the cash, the
underlying's price, the clock, the slice's option chain, the contract list,
whether the algorithm is warming up, and the VIX rank.

The model follows the scripts' code in details that a summary of them
easily gets wrong:

- The option chain is ranked with the right as the most significant key
  (calls first), then the latest expiry, then the distance from strike to
  price. The distance is the least significant key, and
  Kevin/Archive/nn_call_underlyingTrailStop.py ranks it farthest first.
- Rows are kept by `prediction == 1` and a year from 2010 on, with two
  exceptions: Kevin/qc_Call_StopLoss.py keeps only 2012, and
  Kevin/qc_BuyStock.py filters on the `expected` column.
- The trailing stop rises with each new high only between resets. A stop
  hit sets it back to zero. A price at or below the stop liquidates only
  when it is not also a new high, and only while something is held.
- Order events are not only logged. Kevin/qc_Call_StopLoss.py records the
  time of any event of its stop order, whatever its status, and
  Kevin/Archive/qc_CallOptions.py stores the last fill.

## Model

| member | source | states |
|---|---|---|
| Base.Trunc | Kevin/Archive/nn_call_underlyingTrailStop.py:178 | `int()` on a float truncates toward zero: the result is the whole number between the value and zero that is less than one away from it |
| Base.Round2 | Kevin/Archive/nn_call_underlyingTrailStop.py:120 | `round(x, 2)` lies within half a cent of x |
| Base.Round2Monotone | Kevin/qc_BuyStock.py:97 | rounding to cents never reverses the order of two prices, so a higher high never gives a lower stop |
| Base.WholeDays | Kevin/Archive/qc_CallOptions.py:130 | `timedelta.days` is the number d of whole days with d days <= span < d + 1 days |
| Base.Split | Kevin/Archive/nn_call_underlyingTrailStop.py:55 | `str.split` on one character gives at least one piece, no piece holds the separator, and joining the pieces with it gives back the text |
| Base.IntStringRoundTrip | Kevin/Archive/nn_call_underlyingTrailStop.py:58-60 | `int(str(n)) == n`: a date field printed and read back is unchanged |
| Sorting.SortBy | Kevin/simple_qc_CallOptions.py:45 | a stable sort returns a permutation of its input |
| Sorting.SortByRefines | Kevin/Archive/qc_CallOptions.py:134-135 | a stable sort by `key` of a sequence ordered by `keys` leaves it ordered by `key` first, then `keys` |
| Sorting.ThreeSorts | Kevin/Archive/nn_call_underlyingTrailStop.py:163-166 | three chained stable sorts by k1, k2, k3 order the sequence lexicographically by (k3, k2, k1) |
| Sorting.HeadIsMinimal | Kevin/Archive/qc_CallOptions.py:134-135 | the head of an ordered sequence ranks no later than any of its elements |
| ListIteration.IterateIsWalk | Kevin/Archive/nn_call_underlyingTrailStop.py:134-138 | the interpreter's pass (an index into the live list, which shrinks on `remove`) equals a walk over the original list that runs the body on each element except one that directly follows a removed element |
| ListIteration.RemovalSkipsNext | Kevin/Archive/nn_call_underlyingTrailStop.py:134-138 | when the body removes the first element, the second stays in the list without being examined, and the pass resumes at the third |
| ListIteration.WalkShrinks | Kevin/qc_BuyStock.py:84-102 | a pass only drops elements: what is left is a sub-multiset of the list |
| ListIteration.IteratePreserves | Kevin/nn_call_underlyingTrailStop.py:91-107 | a property of the loop state kept by every step holds after the pass |
| ListIteration.WalkKeeps | Kevin/nn_call_underlyingTrailStop.py:91-107 | an element the body never removes survives the pass |
| Signals.CastField | Kevin/Archive/nn_call_underlyingTrailStop.py:58-60 | `astype(int)` on one field succeeds exactly on text that parses, with its value; a missing piece fails |
| Signals.CastColumn | Kevin/Archive/nn_call_underlyingTrailStop.py:58-60 | casting a column succeeds exactly when every row's field casts, giving each row's value in row order |
| Signals.KeptSignals | Kevin/Archive/nn_call_underlyingTrailStop.py:57-63 | every kept signal is a flagged row from 2010 on, and every flagged row from 2010 on is kept |
| Signals.SymbolSignalsSpec | Kevin/Archive/nn_call_underlyingTrailStop.py:53-65 | the symbol-CSV pipeline fails exactly when the date does not split into three columns or a flagged row's date does not cast; otherwise it keeps the flagged rows from 2010 on, in file order |
| Signals.PipelineIsKept | Kevin/Archive/nn_call_underlyingTrailStop.py:57-63 | filtering by flag, casting, then filtering by year equals the one-row-at-a-time definition of the kept rows |
| Signals.Setup | Kevin/Archive/nn_call_underlyingTrailStop.py:68-73 | setup fails with IndexError exactly on an empty array; otherwise the backtest runs from the first kept row to the last, on the first row's symbol |
| Signals.ScheduleSignals | Kevin/Archive/nn_call_underlyingTrailStop.py:96-100 | one scheduled BuySignal per kept row, on its date at the given time |
| Signals.KeptDates | Kevin/nn_call_underlyingTrailStop.py:62-67 | every kept date row has prediction 1 and an accepted year, and every such row is kept |
| Signals.DateOnlySignalsSpec | Kevin/nn_call_underlyingTrailStop.py:61-68 | the date-only pipeline fails exactly when the date does not split into three columns or a predicted row's year does not cast; otherwise it keeps the predicted rows with accepted years, in file order |
| Signals.DatePipelineIsKept | Kevin/nn_call_underlyingTrailStop.py:64-66 | the filter, cast and year filter equal the one-row-at-a-time definition |
| Signals.ScheduleKept | Kevin/nn_call_underlyingTrailStop.py:71-75 | scheduling fails exactly when some kept row's month or day does not cast; otherwise there is one event per kept row on its cast date |
| ChainSort.PrecedesIsLex | Kevin/Archive/nn_call_underlyingTrailStop.py:163-166 | the lexicographic order of the three sort keys is: calls before puts, then the later expiry, then the farther (or nearer) strike |
| ChainSort.SortChainOrdered | Kevin/Archive/nn_call_underlyingTrailStop.py:163-166 | the chained sorts return a permutation of the chain ordered by that ranking |
| ChainSort.SortChainHeadMinimal | Kevin/nn_call_underlyingTrailStop.py:136-142 | the head of the sorted chain is a contract of the chain ranking no later than any other |
| ChainSort.PickRanksFirst | Kevin/nn_call_underlyingTrailStop.py:131-142 | a contract is picked exactly when the slice has a non-empty chain for the option symbol; the pick is a call if there is one, with the latest expiry, then the strike nearest the underlying's price |
| ChainProvider.RankOrdered | Kevin/Archive/qc_CallOptions.py:134-135 | the ranking is a permutation of the candidates, ordered by price minus strike, then by distance from the target days |
| ChainProvider.RankHeadBest | Kevin/Archive/qc_CallOptions.py:134-135 | the first ranked candidate is a candidate with the highest strike, and among those one nearest the target days |
| ChainProvider.SelectSpec | Kevin/Archive/qc_CallOptions.py:123-135 | the search finds nothing exactly when no contract is a call within the OTM bound and the day window; otherwise it finds such a contract with the highest strike, then nearest the target days |
| TrailStopArchive.InitializeSpec | Kevin/Archive/nn_call_underlyingTrailStop.py:53-100 | loading succeeds exactly when the date splits into three columns, every predicted row casts and some predicted row is from 2010 on; the backtest then runs from the first kept row to the last, on the first row's symbol, with one 9:35 BuySignal per kept row |
| TrailStopArchive.FilterOptions | Kevin/Archive/nn_call_underlyingTrailStop.py:141-148 | weeklies included, strikes from 0 up to int(price * 0.10) steps out, 25 to 35 days to expiry; the bound is the truncated 10% of the price |
| TrailStopArchive.PickFromOrdered | Kevin/Archive/nn_call_underlyingTrailStop.py:168-173 | on a ranked chain the pick raises IndexError exactly when the only contract has a zero ask, and finds nothing exactly on an empty chain; otherwise it takes the first contract, or the second when the first has a zero ask |
| TrailStopArchive.ChooseFailsOnlyOnLoneZeroAsk | Kevin/Archive/nn_call_underlyingTrailStop.py:158-173 | BuyCall's pick raises IndexError exactly on a one-contract chain whose ask is zero, and finds nothing exactly on an empty chain |
| TrailStopArchive.ChooseRanksFirst | Kevin/Archive/nn_call_underlyingTrailStop.py:163-173 | the pick ranks first (calls first, latest expiry, farthest strike); when that contract has a zero ask it is the first of the others |
| TrailStopArchive.ContractsToBuy | Kevin/Archive/nn_call_underlyingTrailStop.py:178-180 | sizing raises ZeroDivisionError exactly on a zero ask, and otherwise buys at least one contract |
| TrailStopArchive.ContractsToBuyWithinBudget | Kevin/Archive/nn_call_underlyingTrailStop.py:178-180 | with a positive ask, more than one contract is bought only within 5% of the cash, and one more contract would exceed it |
| TrailStopArchive.BuyCallStep | Kevin/Archive/nn_call_underlyingTrailStop.py:156-184 | BuyCall leaves high and stop alone. A failing pick raises IndexError with nothing changed. The target is the pick, or the slot's contract when the slice gives no pick; with no target nothing changes. A target with a zero ask raises ZeroDivisionError after filling the slot. Otherwise one market order for ContractsToBuy contracts of the target is placed, the target is appended to the held list, and the slot and the flag are cleared |
| TrailStopArchive.BoughtQuantity | Kevin/Archive/nn_call_underlyingTrailStop.py:177-181 | a buy of a target with a non-zero ask orders ContractsToBuy(cash, ask) of it |
| TrailStopArchive.BuyCallBuysFirstRanked | Kevin/Archive/nn_call_underlyingTrailStop.py:156-181 | a buy from the slice's chain orders the contract that ranks first (or first of the rest when that one has a zero ask), in a quantity within the 5% budget unless one contract already exceeds it, with one more exceeding it |
| TrailStopArchive.Trail | Kevin/Archive/nn_call_underlyingTrailStop.py:117-131 | a new high raises the high to the price and the stop to round(price * 0.95, 2); otherwise a price at or below the stop liquidates everything, empties the held list and zeroes high and stop; otherwise nothing changes. Only high, stop, held list and host calls are touched |
| TrailStopArchive.SweepExpiring | Kevin/Archive/nn_call_underlyingTrailStop.py:134-138 | the expiry loop only liquidates held contracts near expiry. It keeps every held contract that is not near expiry, drops only held contracts, and removes exactly one contract per liquidation |
| TrailStopArchive.SweepSpec | Kevin/Archive/nn_call_underlyingTrailStop.py:134-138 | the same facts about one pass of the loop over the original list |
| TrailStopArchive.SweepWithoutNeighboursFilters | Kevin/Archive/nn_call_underlyingTrailStop.py:134-138 | when no two neighbouring contracts are both near expiry, the loop removes exactly the contracts near expiry |
| TrailStopArchive.SweepSkipsNext | Kevin/Archive/nn_call_underlyingTrailStop.py:134-138 | with two contracts in a row near expiry, the first is liquidated and the second stays held through the tick |
| TrailStopArchive.Manage | Kevin/Archive/nn_call_underlyingTrailStop.py:115-138 | while contracts are held, a tick only adds liquidations and leaves the flag, the slot and the quantity alone |
| TrailStopArchive.OnDataKeepsStopTracking | Kevin/Archive/nn_call_underlyingTrailStop.py:108-138 | every tick keeps the stop at round(high * 0.95, 2) |
| TrailStopArchive.StartTracks | Kevin/Archive/nn_call_underlyingTrailStop.py:40-41 | the initial high and stop (both 0) satisfy that invariant |
| TrailStopArchive.StopNeverFalls | Kevin/Archive/nn_call_underlyingTrailStop.py:115-131 | a tick either leaves the stop at least where it was, or liquidates everything and resets high, stop and list |
| TrailStopArchive.StopHitLiquidatesAll | Kevin/Archive/nn_call_underlyingTrailStop.py:126-131 | while contracts are held, a price at or below the stop that is no new high liquidates everything, empties the list and zeroes high and stop |
| TrailStopArchive.OnDataTrailsNewHigh | Kevin/Archive/nn_call_underlyingTrailStop.py:114-121 | while contracts are held, a new high leaves the tick with high at the price and stop at round(price * 0.95, 2); a price above the stop that is no new high leaves both unchanged |
| TrailStopArchive.BuyOnlyOnSignal | Kevin/Archive/nn_call_underlyingTrailStop.py:108-113 | a tick only appends host calls, and places a market order only with more than 10000 in cash and the flag raised |
| TrailStopArchive.SignalClearedOnlyByOrder | Kevin/Archive/nn_call_underlyingTrailStop.py:181-184 | the flag drops from 1 only when a market order for at least one contract is placed, and then it drops to 0 |
| TrailStopArchive.DistantContractsStay | Kevin/Archive/nn_call_underlyingTrailStop.py:134-138 | unless the stop is hit, a held contract not near expiry is still held after the tick |
| TrailStopArchive.Algorithm.constructor | Kevin/Archive/nn_call_underlyingTrailStop.py:82-90 | slot, list, flag and quantity start empty or zero, and high and stop at their class defaults of zero |
| TrailStopArchive.Algorithm.BuySignal | Kevin/Archive/nn_call_underlyingTrailStop.py:151-153 | raises the flag and changes nothing else |
| TrailStopArchive.Algorithm.BuyCall | Kevin/Archive/nn_call_underlyingTrailStop.py:156-184 | ends in the state BuyCallStep gives, or raises its error |
| TrailStopArchive.Algorithm.CloseExpiring | Kevin/Archive/nn_call_underlyingTrailStop.py:134-138 | the loop that removes from the list it walks ends in SweepExpiring's state |
| TrailStopArchive.Algorithm.RaiseOrHitStop | Kevin/Archive/nn_call_underlyingTrailStop.py:117-131 | ends in Trail's state: high and stop raised on a new high, everything liquidated and reset when the stop is hit, nothing changed otherwise |
| TrailStopArchive.Algorithm.OnData | Kevin/Archive/nn_call_underlyingTrailStop.py:108-138 | ends in the state and outcome OnDataStep gives |
| TrailStop.InitializeSpec | Kevin/nn_call_underlyingTrailStop.py:61-75 | loading fails exactly when the date does not split into three columns, a predicted row's year does not cast, or a kept row's month or day does not; otherwise there is one 9:35 event from 2010 on per kept row, in file order |
| TrailStop.FilterOptions | Kevin/nn_call_underlyingTrailStop.py:109-118 | weeklies only, strikes from 0 up to int(price * 0.10) steps out, 15 to 30 days to expiry |
| TrailStop.BuyCallStep | Kevin/nn_call_underlyingTrailStop.py:127-149 | BuyCall always sets the filter first. The target is the pick from the slice's chain, or the slot's contract when there is no pick. With no target only the filter is set. Otherwise one contract of the target is bought and appended to the held list, and the slot and the flag are cleared. High and stop are untouched |
| TrailStop.BuyCallBuysFirstRanked | Kevin/nn_call_underlyingTrailStop.py:127-149 | with a non-empty chain in the slice, the order is for a contract of the chain that ranks first: calls first, then latest expiry, then the strike nearest the price |
| TrailStop.ContractStepSpec | Kevin/nn_call_underlyingTrailStop.py:91-107 | a contract examined is closed exactly when near expiry, or when the price is no new high and at or below the stop. Away from expiry a new high raises the high to the price and the stop to round(price * 0.95, 2), and the high moves no other way; a stop close zeroes the stop and keeps the high |
| TrailStop.PassKeepsStopTrailing | Kevin/nn_call_underlyingTrailStop.py:91-107 | over a pass the high never falls, and the stop stays either zero or at round(high * 0.95, 2) |
| TrailStop.AfterStopCloseOnlyExpiry | Kevin/nn_call_underlyingTrailStop.py:103-107 | after a stop close (with a positive price), the rest of the pass closes contracts only for expiry |
| TrailStop.BuyOnlyOnSignal | Kevin/nn_call_underlyingTrailStop.py:85-88 | a tick only appends host calls, and places a market order only with more than 10000 in cash and the flag raised |
| TrailStop.OnDataKeepsStopTrailing | Kevin/nn_call_underlyingTrailStop.py:82-107 | a tick never lowers the high and keeps the stop trailing it |
| TrailStop.Algorithm.constructor | Kevin/nn_call_underlyingTrailStop.py:43-45 | slot, list and flag start empty or zero, and high and stop at their class defaults of zero |
| TrailStop.Algorithm.BuySignal | Kevin/nn_call_underlyingTrailStop.py:122-124 | raises the flag and changes nothing else |
| TrailStop.Algorithm.BuyCall | Kevin/nn_call_underlyingTrailStop.py:127-149 | ends in the state BuyCallStep gives |
| TrailStop.Algorithm.WalkContracts | Kevin/nn_call_underlyingTrailStop.py:91-107 | the loop that removes from the list it walks ends in the walk's state |
| TrailStop.Algorithm.OnData | Kevin/nn_call_underlyingTrailStop.py:82-107 | ends in the state OnDataStep gives |
| BuyStock.InitializeSpec | Kevin/qc_BuyStock.py:24-58 | loading succeeds exactly when the date splits into three columns, every row with `expected` 1 casts and one of them is from 2010 on; the backtest then runs from the first kept row to the last, on its symbol, with one 9:35 BuySignal per kept row |
| BuyStock.SharesToBuy | Kevin/qc_BuyStock.py:70-72 | sizing raises ZeroDivisionError exactly on a zero price, and otherwise buys at least one share |
| BuyStock.SharesToBuyWithinBudget | Kevin/qc_BuyStock.py:70-72 | with a positive price, more than one share is bought only within 5% of the cash, and one more share would exceed it |
| BuyStock.OnDataSpec | Kevin/qc_BuyStock.py:69-75 | OnData buys exactly when the flag is raised. It places one market order for SharesToBuy(cash, price) shares, at least one, keeps the ticket and lowers the flag, or fails on a zero price. Every held ticket stays backed by an order |
| BuyStock.BeforeCloseStep | Kevin/qc_BuyStock.py:83-104 | with no tickets the daily pass changes nothing |
| BuyStock.TicketStepSpec | Kevin/qc_BuyStock.py:84-102 | a ticket is closed exactly when it is three days old, or when the price is no new high and at or below round(high * 0.975, 2); a close liquidates that ticket's symbol alone. A young ticket seeing a new high raises the recorded high to the price, a stop close resets it to zero, and an age close leaves it |
| BuyStock.PassHighFallsOnlyWithClose | Kevin/qc_BuyStock.py:84-102 | a pass only appends host calls, and the recorded high falls only when some ticket is closed |
| BuyStock.BeforeCloseKeepsTicketsOrdered | Kevin/qc_BuyStock.py:82-104 | after the daily pass every remaining ticket is still backed by a market order |
| BuyStock.PriceAboveStopClosesOnlyOld | Kevin/qc_BuyStock.py:84-102 | with the price above the stop at every high it can reach, only tickets three days old are closed |
| BuyStock.Algorithm.constructor | Kevin/qc_BuyStock.py:47-50 | tickets, flag and quantity start empty or zero, and the high at its class default of zero |
| BuyStock.Algorithm.BuySignal | Kevin/qc_BuyStock.py:78-80 | raises the flag and changes nothing else |
| BuyStock.Algorithm.OnData | Kevin/qc_BuyStock.py:69-75 | ends in the state OnDataStep gives, or raises its error and changes nothing |
| BuyStock.Algorithm.EveryDayBeforeMarketClose | Kevin/qc_BuyStock.py:82-104 | the loop that removes from the list it walks ends in BeforeCloseStep's state |
| CallStopLoss.InitializeSpec | Kevin/qc_Call_StopLoss.py:59-73 | loading fails exactly when the month/day/year date does not split into three columns, a predicted row's year does not cast, or a kept row's month or day does not; otherwise there is one 9:31 event in 2012 per kept row |
| CallStopLoss.OptionFilter | Kevin/qc_Call_StopLoss.py:83-86 | standard contracts only (the host default), strikes from 0 up to int(price * 0.10) steps out, 10 to 20 days to expiry |
| CallStopLoss.BuyCallStep | Kevin/qc_Call_StopLoss.py:116-135 | a contract is bought exactly when one is picked or still in the slot; it is the pick when there is one, else the slot's contract. Then one contract is bought with a stop order selling it at 75% of its ask, the stop ticket is recorded and the flag lowered; otherwise nothing changes |
| CallStopLoss.OnDataOrders | Kevin/qc_Call_StopLoss.py:80-95 | every slice first sets the option filter. A market order is placed only with more than 30000 in cash and the flag raised, and is always followed by its stop order for the same symbol and the opposite quantity |
| CallStopLoss.OnDataTail | Kevin/qc_Call_StopLoss.py:80-95 | the host calls a slice adds are the filter, then possibly a market order and its stop order, then possibly a liquidation |
| CallStopLoss.SlotNeverNearExpiry | Kevin/qc_Call_StopLoss.py:91-95 | after a slice the slot never holds a contract within a day of expiry; a held one that close is liquidated and the slot emptied |
| CallStopLoss.OnOrderEventSpec | Kevin/qc_Call_StopLoss.py:138-145 | the stop's time is recorded exactly for an event of the stop order, and nothing else changes |
| CallStopLoss.Algorithm.constructor | Kevin/qc_Call_StopLoss.py:23-24 | no stop ticket and no fill time at the start |
| CallStopLoss.Algorithm.BuySignal | Kevin/qc_Call_StopLoss.py:111-113 | raises the flag and changes nothing else |
| CallStopLoss.Algorithm.BuyCall | Kevin/qc_Call_StopLoss.py:116-135 | ends in the state BuyCallStep gives |
| CallStopLoss.Algorithm.OnData | Kevin/qc_Call_StopLoss.py:80-95 | ends in the state OnDataStep gives |
| CallStopLoss.Algorithm.OnOrderEvent | Kevin/qc_Call_StopLoss.py:138-145 | ends in the state OnOrderEventStep gives |
| CallOptionsArchive.InitializeSpec | Kevin/Archive/qc_CallOptions.py:53-67 | loading fails exactly when the date does not split into three columns, a predicted row's year does not cast, or a kept row's month or day does not; otherwise there is one 9:31 event from 2010 on per kept row |
| CallOptionsArchive.FilterStep | Kevin/Archive/qc_CallOptions.py:111-144 | the search never leaves the slot Empty: NotFound exactly when no contract qualifies, and otherwise the slot holds the best qualifying contract, which is remembered and subscribed to whether or not it was before |
| CallOptionsArchive.BuyCallStep | Kevin/Archive/qc_CallOptions.py:95-109 | an empty slot gets the search's result (FilterStep) and nothing is bought; a failed search's slot is emptied; a held contract is bought, 50 of it with the flag lowered, when the slice carries it, and nothing changes while it does not |
| CallOptionsArchive.CloseStep | Kevin/Archive/qc_CallOptions.py:83-87 | a held contract within five days of expiry is liquidated and the slot emptied; otherwise nothing changes; afterwards no near contract is in the slot |
| CallOptionsArchive.OnDataBuys | Kevin/Archive/qc_CallOptions.py:79-109 | a slice only appends host calls. It buys exactly when there is more than 30000 in cash, the flag is raised, the slot holds a contract and the slice carries it; then it buys 50 of it and lowers the flag, and the flag changes only then |
| CallOptionsArchive.NoBuyWithoutHeldContract | Kevin/Archive/qc_CallOptions.py:95-109 | the slot is filled at one call and bought from at a later one: a slice starting with no contract in the slot buys nothing |
| CallOptionsArchive.SlotNeverNearExpiry | Kevin/Archive/qc_CallOptions.py:83-87 | after a slice the slot never holds a contract within five days of expiry. A contract held that close is liquidated, as the last host call, and the slot emptied; one held farther from expiry stays in the slot |
| CallOptionsArchive.OnDataKeepsInvariants | Kevin/Archive/qc_CallOptions.py:79-144 | the remembered set only grows, by qualifying contracts; every contract in the slot has been remembered and subscribed to; the last order event is a fill |
| CallOptionsArchive.OnOrderEventSpec | Kevin/Archive/qc_CallOptions.py:153-161 | only a fill is recorded; any other event changes nothing |
| CallOptionsArchive.StartKeepsInvariants | Kevin/Archive/qc_CallOptions.py:32-36 | the initial state satisfies both invariants |
| CallOptionsArchive.Algorithm.constructor | Kevin/Archive/qc_CallOptions.py:32-36 | empty slot, nothing remembered, flag 0, no order event |
| CallOptionsArchive.Algorithm.BuySignal | Kevin/Archive/qc_CallOptions.py:90-92 | raises the flag and changes nothing else |
| CallOptionsArchive.Algorithm.CallOptionsFilter | Kevin/Archive/qc_CallOptions.py:111-144 | returns the search's result, remembers it and subscribes to it in both branches of the membership test |
| CallOptionsArchive.Algorithm.BuyCall | Kevin/Archive/qc_CallOptions.py:95-109 | ends in the state BuyCallStep gives |
| CallOptionsArchive.Algorithm.OnData | Kevin/Archive/qc_CallOptions.py:74-87 | ends in the state OnDataStep gives |
| CallOptionsArchive.Algorithm.OnOrderEvent | Kevin/Archive/qc_CallOptions.py:153-161 | ends in the state OnOrderEventStep gives |
| QuantTestTek.FilterStep | Kevin/quantTest_tek.py:78-106 | the search empties the slot exactly when no contract qualifies. Otherwise the slot holds the best qualifying contract, which is remembered and subscribed to only the first time it is found |
| QuantTestTek.BuyCallStep | Kevin/quantTest_tek.py:70-76 | an empty slot gets the search's result (FilterStep) and nothing is bought; a contract in the slot is bought, 20 of it, when the portfolio does not hold it and the slice carries it, and otherwise nothing changes |
| QuantTestTek.CloseNearExpiry | Kevin/quantTest_tek.py:64-68 | a contract in the slot within three days of expiry is liquidated and the slot emptied; one farther from expiry, or an empty slot, leaves everything unchanged. Nothing is bought |
| QuantTestTek.BuyCallBuys | Kevin/quantTest_tek.py:70-76 | BuyCall buys 20 exactly when the slot holds a contract that is not held and that the slice carries |
| QuantTestTek.OnDataBuys | Kevin/quantTest_tek.py:50-76 | during warm-up a slice does nothing. Afterwards it buys exactly when the rank is above 0.25, the slot holds a contract that is not held and the slice carries it, and then it buys 20 of that contract |
| QuantTestTek.SubscribesOnce | Kevin/quantTest_tek.py:98-104 | the remembered set only grows, by qualifying contracts, and every subscription a slice makes is for a newly remembered contract |
| QuantTestTek.OnDataKeepsInvariants | Kevin/quantTest_tek.py:50-106 | every contract in the slot and every remembered contract has been subscribed to, and after warm-up no contract within three days of expiry stays in the slot |
| QuantTestTek.StartKeepsInvariants | Kevin/quantTest_tek.py:20-22 | the initial state satisfies both invariants |
| QuantTestTek.Algorithm.constructor | Kevin/quantTest_tek.py:20-22 | empty slot and nothing remembered |
| QuantTestTek.Algorithm.OptionsFilter | Kevin/quantTest_tek.py:78-106 | returns the search's result, and remembers and subscribes to a contract only the first time it is found |
| QuantTestTek.Algorithm.BuyCall | Kevin/quantTest_tek.py:70-76 | ends in the state BuyCallStep gives |
| QuantTestTek.Algorithm.OnData | Kevin/quantTest_tek.py:50-68 | ends in the state OnDataStep gives |
| CallOptions.Remove | Kevin/qc_CallOptions.py:80 | `replace(ch, "")` keeps exactly the characters other than `ch`, in their order (the comprehension that drops `ch`), so every other character keeps its count and `ch` is gone |
| CallOptions.CleanLine | Kevin/qc_CallOptions.py:80 | a cleaned line is the line with its carriage returns, spaces and slashes dropped and every other character kept in order |
| CallOptions.CleanLineIsReplaceChain | Kevin/qc_CallOptions.py:80 | the one-pass cleaning equals the source's chain of three replacements |
| CallOptions.CleanLineIdempotent | Kevin/qc_CallOptions.py:80 | cleaning a cleaned line changes nothing |
| CallOptions.MatchNeedsMinLength | Kevin/qc_CallOptions.py:84 | text matching "%m%d%Y" is at least six characters long |
| CallOptions.Parse | Kevin/qc_CallOptions.py:75-86 | Parse returns the last cleaned line, or the error of the first line that is empty (IndexError) or whose first character does not parse as a date (ValueError) |
| CallOptions.ParseAlwaysFails | Kevin/qc_CallOptions.py:77-86 | with "%m%d%Y", Parse always fails on its first line: with IndexError when that line is empty after cleaning, ValueError otherwise |
| CallOptions.FilterStep | Kevin/qc_CallOptions.py:131-158 | the search finds nothing exactly when no contract qualifies; otherwise it finds the best qualifying contract, subscribed to only the first time it is found. Storing the result in the slot is the model's own wiring (see Left out) |
| CallOptions.CloseStepSpec | Kevin/qc_CallOptions.py:107-111 | a contract in the slot within two days of expiry is liquidated and the slot emptied; one farther from expiry stays with nothing changed; the tracking invariant is kept |
| CallOptions.FilterStepKeepsTracked | Kevin/qc_CallOptions.py:146-156 | a search keeps the tracking invariant and grows the remembered set only by a qualifying contract |
| CallOptions.Algorithm.constructor | Kevin/qc_CallOptions.py:40-42 | empty slot and nothing remembered |
| CallOptions.Algorithm.OptionsFilter | Kevin/qc_CallOptions.py:131-158 | returns the search's result and ends in FilterStep's state |
| CallOptions.Algorithm.CloseNearExpiry | Kevin/qc_CallOptions.py:107-111 | ends in CloseStep's state |
| SimpleCallOptions.DayBoundIsOver35 | Kevin/simple_qc_CallOptions.py:39-41 | the chained bound `28 < days > 35` only asks for more than 35 days |
| SimpleCallOptions.CheaperIsLex | Kevin/simple_qc_CallOptions.py:45 | the order of the two sort keys is: lower strike, then earlier expiry |
| SimpleCallOptions.PickCheapest | Kevin/simple_qc_CallOptions.py:45 | the pick is a candidate with the lowest strike and, among those, the earliest expiry |
| SimpleCallOptions.OnDataSpec | Kevin/simple_qc_CallOptions.py:28-47 | a slice orders nothing while anything is held, when it lacks the underlying, or when no contract qualifies; otherwise it subscribes to the cheapest qualifying call and buys one |
| EmaMomentumUniverse.FromHistory | Steen/QuantConnectTest.py:60-66 | both indicators are fed the history's closes, and the pair is ready exactly when the history has at least 15 of them |
| EmaMomentumUniverse.IsReadyTracking | Steen/QuantConnectTest.py:68-69 | with both indicators fed the same prices, the pair is ready exactly when the slow one has its 15 prices |
| EmaMomentumUniverse.UpdateTracking | Steen/QuantConnectTest.py:71-73 | an update feeds the same price to both indicators |
| EmaMomentumUniverse.UniverseIsTop | Steen/QuantConnectTest.py:20-23 | the universe has exactly min(100, number of liquid records) members, and every liquid record trading more than its last member is in it |
| EmaMomentumUniverse.UniverseSpec | Steen/QuantConnectTest.py:20-23 | the walked universe holds exactly min(100, number of liquid) liquid records of the input, in decreasing dollar volume; every liquid record trading more than its last member is in it, and all liquid records are when no more than 100 are liquid |
| EmaMomentumUniverse.VisitSpec | Steen/QuantConnectTest.py:28-35 | a visit keeps the table well formed, adds the visited symbol, and gives its indicators the record's adjusted price |
| EmaMomentumUniverse.TableKeys | Steen/QuantConnectTest.py:25-35 | after the walk the table holds the symbols it held before and those walked |
| EmaMomentumUniverse.TableAverages | Steen/QuantConnectTest.py:25-35 | each symbol's indicators have seen its earlier entry (or its history when new), then every adjusted price the walk gave it: an entry is created once and never replaced |
| EmaMomentumUniverse.TableLeavesOthers | Steen/QuantConnectTest.py:25-35 | an entry for a symbol the walk does not visit is left alone |
| EmaMomentumUniverse.PickedFromWalk | Steen/QuantConnectTest.py:37-41 | the records selected come from the walk, in its order of decreasing dollar volume |
| EmaMomentumUniverse.PickedExactly | Steen/QuantConnectTest.py:25-41 | when the walk visits each symbol once, a record is selected exactly when its final indicators are ready with the fast average above the slow |
| EmaMomentumUniverse.SelectionSpec | Steen/QuantConnectTest.py:18-43 | the result is at most 10 symbols of liquid input records, in decreasing dollar volume. With distinct symbols each is rising, and when no more than 10 are rising all of them are returned |
| EmaMomentumUniverse.Algorithm.constructor | Steen/QuantConnectTest.py:16 | the table starts empty |
| EmaMomentumUniverse.Algorithm.CoarseSelectionFunction | Steen/QuantConnectTest.py:18-43 | keeps the table well formed, ends with the walked table, and returns the first 10 symbols of the selected records |
| EmaMomentumUniverse.Algorithm.Walk | Steen/QuantConnectTest.py:25-41 | the loop ends with the walked table and the selected symbols, in walk order |
| EmaMomentumUniverse.Algorithm.Observe | Steen/QuantConnectTest.py:28-35 | the loop body's table update equals one visit |
| EmaMomentumUniverse.Algorithm.OnSecuritiesChanged | Steen/QuantConnectTest.py:45-54 | liquidates each removed security, then sets each added one to a 10% holding, in order |

## Left out

- Downloading the CSV and pandas' parsing of it. Rows arrive already split
  into columns (`Signals.Row`).
- The column layout of the signal CSV. The scripts read a kept row's fields
  by position (`x[0]` to `x[3]` as symbol, year, month and day), so a file
  with an extra or reordered column would shift those fields; the model
  takes the layout the scripts expect as given.
- Everything logged, debugged or plotted (`Log`, `Debug`, `Plot`, the
  `Plotting` callbacks), and the OnOrderEvent callbacks that only log.
- The host itself. Order fills, the portfolio, the cash, prices, the option
  chains and the contract lists are parameters of the callbacks. Orders are
  recorded as `Effect` values rather than placed, and a scheduled event is
  the host calling the method.
- The slice's time and the algorithm's clock are taken to be the same
  instant (`now`) wherever a script uses both.
- Floating point. Prices and cash are exact reals, and `round(_, 2)` is
  half-up to the cent. Python's binary rounding can differ on values
  exactly half a cent apart.
- The host's ExponentialMovingAverage. An indicator is its period plus the
  prices it was fed, and its value is a caller-supplied function `value`.
  `History` is a caller-supplied function `history`.
- VIXRank in Kevin/quantTest_tek.py: the rank is a parameter of OnData,
  because it depends on the host's price history.
- The start and end dates, cash, benchmark and resolution settings, which
  only configure the host.
- Kevin/qc_CallOptions.py's wiring. Its Initialize refers to `Self` and
  its OnData to `SetWarmup.IsReady`, so it fails before any helper runs.
  Its BuyCall (a bare `Buy` of the slot) is not modelled. Parse,
  OptionsFilter and the expiry close are modelled as helpers. The script
  never calls OptionsFilter and only ever sets the slot to the empty
  string, so in the source the slot is never filled. `CallOptions.FilterStep`
  storing the search result in the slot is this model's own wiring.
- Base.ParseInt: rejects surrounding white space and underscores between
  digits, which Python's `int()` accepts. A date field written that way
  casts in the scripts but fails here.
- Signals.ThreeColumns: lets an empty file through the three-column check,
  where pandas raises ValueError. Kevin/Archive/nn_call_underlyingTrailStop.py
  and Kevin/qc_BuyStock.py then fail on the empty array with IndexError
  instead. The date-only scripts (Kevin/nn_call_underlyingTrailStop.py,
  Kevin/qc_Call_StopLoss.py, Kevin/Archive/qc_CallOptions.py) schedule
  nothing and succeed, where the scripts raise ValueError.
- `strptime` is modelled by the pattern its format accepts. That is a
  necessary condition for success; the check that the day exists in the
  month is not modelled.
- Python's `remove(x)` deletes the first element equal to x. The model
  deletes the element under the iterator, because the scripts' lists never
  hold the same contract or ticket twice.
- EmaMomentumUniverse.PickedExactly: needs each symbol to appear once in
  the coarse universe, as it does on the host. A repeated symbol is updated
  twice and may be selected twice.
- Kevin/nn_code_midpoint.py and AlphaV.py are not part of this model. They
  prepare data and are not strategy scripts.
