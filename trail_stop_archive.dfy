/** Kevin/Archive/nn_call_underlyingTrailStop.py: buys calls on the days a
    neural-net prediction file flags, sizes each purchase to 5% of the cash,
    trails a stop at 95% of the underlying's highest price since the last
    reset, and closes contracts three days before they expire. */
module TrailStopArchive {
  import opened Base
  import opened ListIteration
  import opened ChainSort
  import Signals
  import Sorting

  const DaysBeforeExp: int := 3
  const StopLossPercent: real := 0.95
  const OTM: real := 0.10
  const MinDTE: int := 25
  const MaxDTE: int := 35
  const PortfolioRisk: real := 0.05
  /** At or below this much cash OnData only logs a low balance. */
  const LowBalance: real := 10000.0

  // ------------------------------------------------------------ Initialize

  /** Initialize's handling of the prediction file: rows predicted 1, dated
      2010 or later, give a 9:35 BuySignal each; the backtest runs from the
      first such row to the last, on the first row's symbol. */
  function Initialize(rows: seq<Signals.Row>): Result<Signals.Backtest>
  {
    var sigs :- Signals.SymbolSignals(rows, Signals.Predicted);
    Signals.Setup(sigs, 9, 35)
  }

  lemma InitializeSpec(rows: seq<Signals.Row>)
    ensures Initialize(rows).Ok? <==>
      (Signals.ThreeColumns(rows, Signals.YearMonthDay)
       && (forall r :: r in rows && Signals.Predicted(r) ==> Signals.Castable(r))
       && Signals.KeptSignals(rows, Signals.Predicted) != [])
    ensures Initialize(rows).Ok? ==>
      var kept := Signals.KeptSignals(rows, Signals.Predicted);
      var b := Initialize(rows).value;
      b.start == kept[0] && b.end == kept[|kept| - 1] && b.symbol == kept[0].symbol
      && |b.events| == |kept|
      && forall i :: 0 <= i < |kept| ==>
           b.events[i] == At(kept[i].year, kept[i].month, kept[i].day, 9, 35) && kept[i].year >= 2010
  {
    Signals.SymbolSignalsSpec(rows, Signals.Predicted);
  }

  /** FilterOptions: contracts, weeklies included, from the money up to int(price * OTM)
      strikes out, expiring in 25 to 35 days. */
  function FilterOptions(price: real): (f: Effect)
    ensures f.SetStrikeFilter? && f.weeklies == IncludeWeeklys && f.minStrike == 0 && f.minDays == MinDTE && f.maxDays == MaxDTE
    ensures price >= 0.0 ==> 0 <= f.maxStrike && f.maxStrike as real <= price * OTM < f.maxStrike as real + 1.0
  {
    SetStrikeFilter(IncludeWeeklys, 0, Trunc(price * OTM), MinDTE, MaxDTE)
  }

  // --------------------------------------------------------------- BuyCall

  /** The pick from a sorted chain. */
  function PickFrom(sorted: seq<Contract>): Result<Option<Contract>>
  {
    if |sorted| == 0 then Ok(None)
    else if sorted[0].ask != 0.0 then Ok(Some(sorted[0]))
    else if |sorted| < 2 then Err(IndexError)
    else Ok(Some(sorted[1]))
  }

  /** BuyCall's pick from the slice's chain for the option symbol: the head of
      the sorted chain, or the second contract when the head has no ask. None
      when the slice has no chain for the symbol or the chain is empty. */
  function Choose(chain: Option<Chain>): Result<Option<Contract>>
  {
    match chain
    case None => Ok(None)
    case Some(ch) => PickFrom(SortChain(ch, true))
  }

  /** What the pick means on a sequence ordered by Precedes. */
  lemma PickFromOrdered(s: seq<Contract>, u: real)
    requires forall i, j :: 0 <= i < j < |s| ==> Precedes(u, true, s[i], s[j])
    ensures PickFrom(s).Err? <==> |s| == 1 && s[0].ask == 0.0
    ensures PickFrom(s) == Ok(None) <==> s == []
    ensures PickFrom(s).Ok? && PickFrom(s).value.Some? ==>
      var c := PickFrom(s).value.value;
      && (forall x :: x in multiset(s) ==> Precedes(u, true, s[0], x))
      && (s[0].ask != 0.0 ==> c == s[0])
      && (s[0].ask == 0.0 ==>
            c in multiset(s) - multiset{s[0]}
            && forall x :: x in multiset(s) - multiset{s[0]} ==> Precedes(u, true, c, x))
  {
    if |s| > 0 {
      HeadPrecedes(s, u);
      if |s| >= 2 {
        assert s == [s[0]] + s[1..];
        assert multiset(s) - multiset{s[0]} == multiset(s[1..]);
        HeadPrecedes(s[1..], u);
      }
    }
  }

  /** The head of a sequence ordered by Precedes ranks no later than any of
      its elements. */
  lemma HeadPrecedes(s: seq<Contract>, u: real)
    requires forall i, j :: 0 <= i < j < |s| ==> Precedes(u, true, s[i], s[j])
    requires |s| > 0
    ensures s[0] in multiset(s) && forall x :: x in multiset(s) ==> Precedes(u, true, s[0], x)
  {
    var keys := ChainKeys(u, true);
    forall i, j | 0 <= i < j < |s| ensures Sorting.LexLe(keys, s[i], s[j]) {
      PrecedesIsLex(u, true, s[i], s[j]);
    }
    Sorting.HeadIsMinimal(s, keys);
    forall x | x in multiset(s) ensures Precedes(u, true, s[0], x) {
      PrecedesIsLex(u, true, s[0], x);
    }
  }

  /** The pick fails only on a one-contract chain with a zero ask, and finds
      nothing only on an empty chain. */
  lemma ChooseFailsOnlyOnLoneZeroAsk(ch: Chain)
    ensures Choose(Some(ch)).Err? <==> |ch.contracts| == 1 && ch.contracts[0].ask == 0.0
    ensures Choose(Some(ch)) == Ok(None) <==> ch.contracts == []
  {
    var s := SortChain(ch, true);
    SortChainOrdered(ch, true);
    PickFromOrdered(s, ch.underlyingPrice);
    if |s| == 1 {
      assert multiset(s) == multiset(ch.contracts);
      assert ch.contracts[0] in multiset{s[0]};
    }
  }

  /** c ranks first by Precedes among the contracts m, or, when the contract
      that ranks first has no ask, first among the others. */
  ghost predicate RanksFirstWithAsk(c: Contract, m: multiset<Contract>, u: real)
  {
    exists first :: first in m
      && (forall x :: x in m ==> Precedes(u, true, first, x))
      && (first.ask != 0.0 ==> c == first)
      && (first.ask == 0.0 ==>
            c in m - multiset{first}
            && forall x :: x in m - multiset{first} ==> Precedes(u, true, c, x))
  }

  lemma PickFromRanksFirst(s: seq<Contract>, u: real)
    requires forall i, j :: 0 <= i < j < |s| ==> Precedes(u, true, s[i], s[j])
    requires PickFrom(s).Ok? && PickFrom(s).value.Some?
    ensures RanksFirstWithAsk(PickFrom(s).value.value, multiset(s), u)
  {
    PickFromOrdered(s, u);
    assert s[0] in multiset(s);
  }

  /** The pick is the first contract by Precedes (calls first, latest expiry,
      strike farthest from the price) or, when that one has no ask, the first
      of the others. */
  lemma ChooseRanksFirst(ch: Chain)
    requires Choose(Some(ch)).Ok? && Choose(Some(ch)).value.Some?
    ensures RanksFirstWithAsk(Choose(Some(ch)).value.value, multiset(ch.contracts), ch.underlyingPrice)
  {
    var s := SortChain(ch, true);
    SortChainOrdered(ch, true);
    PickFromRanksFirst(s, ch.underlyingPrice);
  }

  /** int(portfolioRisk * cash / (ask * 100)) contracts, and at least one. A
      zero ask divides by zero. */
  function ContractsToBuy(cash: real, ask: real): (r: Result<int>)
    ensures r.Err? <==> ask == 0.0
    ensures r.Err? ==> r.error == ZeroDivisionError
    ensures r.Ok? ==> r.value >= 1
  {
    if ask == 0.0 then Err(ZeroDivisionError)
    else Ok(Max(1, Trunc(PortfolioRisk * cash / (ask * 100.0))))
  }

  /** n contracts at this ask cost at most the 5% budget unless n is one, and
      n + 1 would cost more. */
  predicate WithinBudget(cash: real, ask: real, n: int)
  {
    (n > 1 ==> n as real * (ask * 100.0) <= PortfolioRisk * cash)
    && PortfolioRisk * cash < (n + 1) as real * (ask * 100.0)
  }

  /** With a positive ask and non-negative cash the order spends at most the
      5% budget unless a single contract already exceeds it, and one more
      contract would exceed it. */
  lemma ContractsToBuyWithinBudget(cash: real, ask: real)
    requires cash >= 0.0 && ask > 0.0
    ensures WithinBudget(cash, ask, ContractsToBuy(cash, ask).value)
  {
    var a := ask * 100.0;
    TruncDivBounds(PortfolioRisk * cash, a);
    var t := Trunc(PortfolioRisk * cash / a);
    var n := Max(1, t);
    assert ContractsToBuy(cash, ask) == Ok(n);
    MulMonotone(t as real + 1.0, (n + 1) as real, a);
  }

  // ------------------------------------------------------------ algorithm

  /** The fields OnData, BuyCall and BuySignal read and write, and the host
      calls made so far. */
  datatype State = State(
    high: real,              // highestUnderlyingPrice
    stop: real,              // newStopPrice
    contract: Option<Contract>,
    held: seq<Contract>,     // contractList
    signal: int,             // buyOptionSignal
    quantity: int,           // buyNumOfContracts
    orders: seq<Effect>)

  datatype Step = Step(state: State, outcome: Outcome)

  const Start: State := State(0.0, 0.0, None, [], 0, 0, [])

  /** The trailing stop sits at 95% of the high, rounded to cents. */
  predicate StopTracksHigh(st: State)
  {
    st.stop == Round2(st.high * StopLossPercent)
  }

  /** The contract BuyCall buys: the pick from the slice's chain when there
      is one, else whatever the slot already holds. */
  function Target(st: State, chain: Option<Chain>): Option<Contract>
  {
    if Choose(chain).Ok? && Choose(chain).value.Some? then Choose(chain).value else st.contract
  }

  /** BuyCall leaves the high and the stop alone. A failing pick raises with
      the state unchanged; with no target nothing happens; a target with no
      ask raises ZeroDivisionError after filling the slot; otherwise one
      market order for ContractsToBuy contracts of the target is placed, the
      target joins the held list, and the slot and the flag are cleared. */
  function BuyCallStep(st: State, chain: Option<Chain>, cash: real): (r: Step)
    ensures r.state.high == st.high && r.state.stop == st.stop
    ensures Choose(chain).Err? ==> r == Step(st, Raised(Choose(chain).error))
    ensures Choose(chain).Ok? && Target(st, chain).None? ==> r == Step(st, Done)
    ensures Choose(chain).Ok? && Target(st, chain).Some? ==>
      var c := Target(st, chain).value;
      match ContractsToBuy(cash, c.ask)
      case Err(e) => r == Step(st.(contract := Some(c)), Raised(e))
      case Ok(n) =>
        && r.outcome.Done?
        && r.state.orders == st.orders + [MarketOrder(c.symbol, n)]
        && r.state.held == st.held + [c]
        && r.state.quantity == n && r.state.contract.None? && r.state.signal == 0
  {
    match Choose(chain)
    case Err(e) => Step(st, Raised(e))
    case Ok(pick) =>
      var slot := if pick.Some? then pick else st.contract;
      if slot.None? then Step(st, Done)
      else
        match ContractsToBuy(cash, slot.value.ask)
        case Err(e) => Step(st.(contract := slot), Raised(e))
        case Ok(n) =>
          Step(st.(contract := None, held := st.held + [slot.value], signal := 0, quantity := n,
                   orders := st.orders + [MarketOrder(slot.value.symbol, n)]), Done)
  }

  /** A buy from the slice's chain orders the contract that ranks first (or
      first among the rest when that one has no ask), in a quantity that
      keeps to the 5% budget unless one contract already exceeds it. */
  lemma BuyCallBuysFirstRanked(st: State, ch: Chain, cash: real)
    requires cash >= 0.0
    requires Choose(Some(ch)).Ok? && Choose(Some(ch)).value.Some?
    requires Choose(Some(ch)).value.value.ask > 0.0
    ensures var c := Choose(Some(ch)).value.value;
      var r := BuyCallStep(st, Some(ch), cash);
      && RanksFirstWithAsk(c, multiset(ch.contracts), ch.underlyingPrice)
      && r.outcome.Done? && r.state.orders == st.orders + [MarketOrder(c.symbol, r.state.quantity)]
      && WithinBudget(cash, c.ask, r.state.quantity)
  {
    var c := Choose(Some(ch)).value.value;
    ChooseRanksFirst(ch);
    BoughtQuantity(st, Some(ch), cash, c);
    ContractsToBuyWithinBudget(cash, c.ask);
  }

  lemma BoughtQuantity(st: State, chain: Option<Chain>, cash: real, c: Contract)
    requires Choose(chain).Ok? && Target(st, chain) == Some(c) && c.ask != 0.0
    ensures var r := BuyCallStep(st, chain, cash);
      && r.outcome.Done? && r.state.quantity == ContractsToBuy(cash, c.ask).value
      && r.state.orders == st.orders + [MarketOrder(c.symbol, r.state.quantity)]
  {
  }

  /** The trailing-stop update made while contracts are held. A new high
      raises the high to the price and the stop to 95% of it; otherwise a
      price at or below the stop liquidates everything, empties the held list
      and resets high and stop to zero; otherwise nothing changes. Only the
      high, the stop, the held list and the host calls are touched. */
  function Trail(st: State, price: real): (r: State)
    ensures r == st.(high := r.high, stop := r.stop, held := r.held, orders := r.orders)
    ensures price > st.high ==>
      r.high == price && r.stop == Round2(price * StopLossPercent) && r.held == st.held && r.orders == st.orders
    ensures !(price > st.high) && price <= st.stop ==>
      r.high == 0.0 && r.stop == 0.0 && r.held == [] && r.orders == st.orders + [LiquidateAll]
    ensures !(price > st.high) && price > st.stop ==> r == st
  {
    if price > st.high then st.(high := price, stop := Round2(price * StopLossPercent))
    else if price <= st.stop then st.(orders := st.orders + [LiquidateAll], held := [], high := 0.0, stop := 0.0)
    else st
  }

  predicate NearExpiry(c: Contract, now: int)
  {
    c.expiry - now <= Days(DaysBeforeExp)
  }

  /** The body of the expiry loop: liquidate and remove a contract that expires
      within DaysBeforeExp days. */
  function CloseStep(now: int): (seq<Effect>, Contract) -> (seq<Effect>, bool)
  {
    (log: seq<Effect>, c: Contract) =>
      if NearExpiry(c, now) then (log + [Liquidate(c.symbol)], true) else (log, false)
  }

  /** The host calls the expiry loop may make: liquidating a held contract
      that is near expiry. */
  ghost function LiquidateNear(held: seq<Contract>, now: int): set<Effect>
  {
    set c | c in held && NearExpiry(c, now) :: Liquidate(c.symbol)
  }

  /** The expiry loop over the held list. It changes only the list and the
      host calls: it keeps every contract that is not near expiry, adds only
      liquidations of contracts near expiry, and each contract either stays
      or is liquidated. */
  function SweepExpiring(st: State, now: int): (r: State)
    ensures r == st.(held := r.held, orders := r.orders)
    ensures |st.orders| <= |r.orders| && r.orders[..|st.orders|] == st.orders
    ensures forall k :: |st.orders| <= k < |r.orders| ==> r.orders[k] in LiquidateNear(st.held, now)
    ensures forall c :: c in st.held && !NearExpiry(c, now) ==> c in r.held
    ensures multiset(r.held) <= multiset(st.held)
    ensures |r.held| + |r.orders| == |st.held| + |st.orders|
  {
    IterateIsWalk(st.held, st.orders, CloseStep(now));
    SweepSpec(st.held, st.orders, now);
    var p := Iterate(st.held, 0, st.orders, CloseStep(now));
    st.(held := p.list, orders := p.state)
  }

  /** OnData's buy gate: BuyCall runs only above the low balance and with
      the flag raised. */
  function Bought(st: State, chain: Option<Chain>, cash: real): Step
  {
    if cash > LowBalance && st.signal == 1 then BuyCallStep(st, chain, cash) else Step(st, Done)
  }

  /** What OnData does while contracts are held: the trailing stop, then the
      expiry loop. It adds only liquidations to the host calls and leaves the
      flag and the slot alone. */
  function Manage(b: State, price: real, now: int): (r: State)
    ensures |b.orders| <= |r.orders| && r.orders[..|b.orders|] == b.orders
    ensures forall k :: |b.orders| <= k < |r.orders| ==>
      r.orders[k] == LiquidateAll || r.orders[k] in LiquidateNear(b.held, now)
    ensures r.signal == b.signal && r.contract == b.contract && r.quantity == b.quantity
  {
    var t := Trail(b, price);
    var r := SweepExpiring(t, now);
    assert t.orders[..|b.orders|] == b.orders;
    assert r.orders[..|b.orders|] == r.orders[..|t.orders|][..|b.orders|];
    assert LiquidateNear(t.held, now) <= LiquidateNear(b.held, now);
    assert forall k :: |b.orders| <= k < |t.orders| ==> r.orders[k] == t.orders[k] == LiquidateAll;
    r
  }

  function OnDataStep(st: State, chain: Option<Chain>, cash: real, price: real, now: int): Step
  {
    var bought := Bought(st, chain, cash);
    if bought.outcome.Raised? || bought.state.held == [] then bought
    else Step(Manage(bought.state, price, now), Done)
  }

  // ------------------------------------------------------------ properties

  /** One pass of the expiry loop, on the original list. */
  lemma {:induction false} SweepLog(held: seq<Contract>, log: seq<Effect>, now: int)
    ensures var p := Walk(held, log, CloseStep(now));
      && |log| <= |p.state| && p.state[..|log|] == log
      && |p.list| + |p.state| == |held| + |log|
      && (forall k :: |log| <= k < |p.state| ==> p.state[k] in LiquidateNear(held, now))
    decreases |held|
  {
    var step := CloseStep(now);
    if held != [] {
      var next := step(log, held[0]);
      var rest := if !next.1 || |held| == 1 then held[1..] else held[2..];
      SweepLog(rest, next.0, now);
      var p := Walk(held, log, step);
      assert p.state == Walk(rest, next.0, step).state;
      assert LiquidateNear(rest, now) <= LiquidateNear(held, now) by {
        forall e | e in LiquidateNear(rest, now) ensures e in LiquidateNear(held, now) {
          var c :| c in rest && NearExpiry(c, now) && e == Liquidate(c.symbol);
          assert c in held;
        }
      }
      if next.1 {
        assert held[0] in held;
        assert next.0 == log + [Liquidate(held[0].symbol)];
        assert p.state[..|next.0|] == next.0;
        assert p.state[..|log|] == log;
      }
    }
  }

  lemma SweepSpec(held: seq<Contract>, log: seq<Effect>, now: int)
    ensures var p := Walk(held, log, CloseStep(now));
      && |log| <= |p.state| && p.state[..|log|] == log
      && |p.list| + |p.state| == |held| + |log|
      && (forall k :: |log| <= k < |p.state| ==> p.state[k] in LiquidateNear(held, now))
      && (forall c :: c in held && !NearExpiry(c, now) ==> c in p.list)
      && multiset(p.list) <= multiset(held)
  {
    SweepLog(held, log, now);
    forall c | c in held && !NearExpiry(c, now) ensures c in Walk(held, log, CloseStep(now)).list {
      WalkKeeps(held, log, CloseStep(now), c);
    }
    WalkShrinks(held, log, CloseStep(now));
  }

  /** When no two neighbouring contracts are both near expiry, the loop removes
      exactly the contracts near expiry. */
  lemma {:induction false} SweepWithoutNeighboursFilters(held: seq<Contract>, log: seq<Effect>, now: int)
    requires forall i :: 0 <= i < |held| - 1 ==> !(NearExpiry(held[i], now) && NearExpiry(held[i + 1], now))
    ensures Walk(held, log, CloseStep(now)).list == Filter(held, (c: Contract) => !NearExpiry(c, now))
    decreases |held|
  {
    var keep := (c: Contract) => !NearExpiry(c, now);
    if held != [] {
      var next := CloseStep(now)(log, held[0]);
      forall i | 0 <= i < |held[1..]| - 1
        ensures !(NearExpiry(held[1..][i], now) && NearExpiry(held[1..][i + 1], now))
      {
        assert held[1..][i] == held[i + 1] && held[1..][i + 1] == held[i + 2];
      }
      if !next.1 || |held| == 1 {
        SweepWithoutNeighboursFilters(held[1..], next.0, now);
      } else {
        assert held[1..][1..] == held[2..];
        forall i | 0 <= i < |held[2..]| - 1
          ensures !(NearExpiry(held[2..][i], now) && NearExpiry(held[2..][i + 1], now))
        {
          assert held[2..][i] == held[i + 2] && held[2..][i + 1] == held[i + 3];
        }
        SweepWithoutNeighboursFilters(held[2..], next.0, now);
        assert Filter(held[1..], keep) == [held[1]] + Filter(held[2..], keep);
      }
    }
  }

  /** Two contracts in a row near expiry: the second one is not examined and
      stays held through the tick. */
  lemma SweepSkipsNext(held: seq<Contract>, log: seq<Effect>, now: int)
    requires |held| >= 2 && NearExpiry(held[0], now) && NearExpiry(held[1], now)
    ensures var p := Iterate(held, 0, log, CloseStep(now));
      |p.list| > 0 && p.list[0] == held[1] && |p.state| > |log| && p.state[|log|] == Liquidate(held[0].symbol)
  {
    RemovalSkipsNext(held, log, CloseStep(now));
    var log1 := log + [Liquidate(held[0].symbol)];
    var w := Walk(held[2..], log1, CloseStep(now));
    SweepLog(held[2..], log1, now);
    assert w.state[..|log1|][|log|] == Liquidate(held[0].symbol);
  }

  /** BuyCall, the stop and the expiry loop keep the stop at 95% of the high. */
  lemma OnDataKeepsStopTracking(st: State, chain: Option<Chain>, cash: real, price: real, now: int)
    requires StopTracksHigh(st)
    ensures StopTracksHigh(OnDataStep(st, chain, cash, price, now).state)
  {
    assert Round2(0.0 * StopLossPercent) == 0.0;
  }

  lemma StartTracks()
    ensures StopTracksHigh(Start) && Start.held == [] && Start.signal == 0
  {
    assert Round2(0.0 * StopLossPercent) == 0.0;
  }

  /** Between resets the stop only rises: a tick either leaves the stop at or
      above where it was, or liquidates the whole portfolio and resets the
      high and the stop to zero. */
  lemma StopNeverFalls(st: State, chain: Option<Chain>, cash: real, price: real, now: int)
    requires StopTracksHigh(st)
    ensures var r := OnDataStep(st, chain, cash, price, now).state;
      r.stop >= st.stop
      || (r.high == 0.0 && r.stop == 0.0 && r.held == [] && |r.orders| > 0 && r.orders[|r.orders| - 1] == LiquidateAll)
  {
    var bought := Bought(st, chain, cash);
    var b := bought.state;
    assert b.high == st.high && b.stop == st.stop;
    if !(bought.outcome.Raised? || b.held == []) {
      var t := Trail(b, price);
      var r := SweepExpiring(t, now);
      assert Manage(b, price, now) == r;
      assert r.high == t.high && r.stop == t.stop;
      if price > b.high {
        Round2Monotone(b.high * StopLossPercent, price * StopLossPercent);
      } else if price <= b.stop {
        assert t.held == [] && t.orders[|t.orders| - 1] == LiquidateAll;
        assert r.orders == r.orders[..|t.orders|] == t.orders;
      }
    }
  }

  /** While contracts are held, a new high raises the high to the price and
      the stop to 95% of it, and a price above the stop that is not a new high
      leaves both where they were. */
  lemma OnDataTrailsNewHigh(st: State, chain: Option<Chain>, cash: real, price: real, now: int)
    requires st.held != []
    ensures var r := OnDataStep(st, chain, cash, price, now);
      r.outcome.Done? ==>
        && (price > st.high ==> r.state.high == price && r.state.stop == Round2(price * StopLossPercent))
        && (!(price > st.high) && price > st.stop ==> r.state.high == st.high && r.state.stop == st.stop)
  {
    var bought := Bought(st, chain, cash);
    var b := bought.state;
    assert b.high == st.high && b.stop == st.stop;
    assert |b.held| >= |st.held|;
    if bought.outcome.Done? {
      var t := Trail(b, price);
      assert Manage(b, price, now) == SweepExpiring(t, now);
    }
  }

  /** While contracts are held, a price at or below the stop that is not a new
      high liquidates everything, empties the list and resets high and stop. */
  lemma StopHitLiquidatesAll(st: State, chain: Option<Chain>, cash: real, price: real, now: int)
    requires st.held != [] && !(price > st.high) && price <= st.stop
    ensures var r := OnDataStep(st, chain, cash, price, now);
      r.outcome.Done? ==>
        r.state.held == [] && r.state.high == 0.0 && r.state.stop == 0.0
        && |r.state.orders| > |st.orders| && r.state.orders[..|st.orders|] == st.orders
        && r.state.orders[|r.state.orders| - 1] == LiquidateAll
  {
    var b := Bought(st, chain, cash).state;
    assert b.orders[..|st.orders|] == st.orders;
    var t := Trail(b, price);
    assert t.orders[..|st.orders|] == st.orders;
  }

  /** A market order is placed only when cash exceeds 10000 and the buy flag
      is raised. */
  lemma BuyOnlyOnSignal(st: State, chain: Option<Chain>, cash: real, price: real, now: int)
    ensures var r := OnDataStep(st, chain, cash, price, now).state;
      && |st.orders| <= |r.orders| && r.orders[..|st.orders|] == st.orders
      && ((exists k :: |st.orders| <= k < |r.orders| && r.orders[k].MarketOrder?) ==> cash > LowBalance && st.signal == 1)
  {
    var bought := Bought(st, chain, cash);
    var b := bought.state;
    assert b.orders[..|st.orders|] == st.orders;
    if !(bought.outcome.Raised? || b.held == []) {
      var r := Manage(b, price, now).orders;
      assert r[..|st.orders|] == r[..|b.orders|][..|st.orders|];
      forall k | |b.orders| <= k < |r| ensures !r[k].MarketOrder? {
        if r[k] != LiquidateAll {
          var c :| c in b.held && NearExpiry(c, now) && r[k] == Liquidate(c.symbol);
        }
      }
      if !(cash > LowBalance && st.signal == 1) {
        assert b.orders == st.orders;
      }
    }
  }

  /** The flag drops from 1 only when a market order for at least one
      contract is placed, and then it drops to 0. */
  lemma SignalClearedOnlyByOrder(st: State, chain: Option<Chain>, cash: real, price: real, now: int)
    requires st.signal == 1
    ensures var r := OnDataStep(st, chain, cash, price, now).state;
      r.signal != 1 ==>
        && cash > LowBalance && r.signal == 0
        && |r.orders| > |st.orders| && r.orders[|st.orders|].MarketOrder? && r.orders[|st.orders|].quantity >= 1
  {
    var bought := Bought(st, chain, cash);
    var b := bought.state;
    if b.signal != 1 {
      assert b.orders == st.orders + [MarketOrder(b.held[|st.held|].symbol, b.quantity)];
      if !(bought.outcome.Raised? || b.held == []) {
        var r := Manage(b, price, now).orders;
        assert r[|st.orders|] == r[..|b.orders|][|st.orders|];
      }
    }
  }

  /** A contract held before the tick that is not near expiry is still held
      after it, unless the stop was hit. */
  lemma DistantContractsStay(st: State, chain: Option<Chain>, cash: real, price: real, now: int)
    requires !(!(price > st.high) && price <= st.stop)
    ensures var r := OnDataStep(st, chain, cash, price, now);
      r.outcome.Done? ==> forall c :: c in st.held && !NearExpiry(c, now) ==> c in r.state.held
  {
    var bought := Bought(st, chain, cash);
    var b := bought.state;
    assert forall c :: c in st.held ==> c in b.held;
  }

  // ------------------------------------------------------------ the class

  class Algorithm {
    var highestUnderlyingPrice: real
    var newStopPrice: real
    var contract: Option<Contract>
    var contractList: seq<Contract>
    var buyOptionSignal: int
    var buyNumOfContracts: int
    var orders: seq<Effect>

    function Snapshot(): State
      reads this
    {
      State(highestUnderlyingPrice, newStopPrice, contract, contractList, buyOptionSignal, buyNumOfContracts, orders)
    }

    /** The option fields as Initialize leaves them. */
    constructor ()
      ensures Snapshot() == Start
    {
      highestUnderlyingPrice, newStopPrice := 0.0, 0.0;
      contract, contractList := None, [];
      buyOptionSignal, buyNumOfContracts := 0, 0;
      orders := [];
    }

    /** The scheduled event: raise the buy flag. */
    method BuySignal()
      modifies this
      ensures Snapshot() == old(Snapshot()).(signal := 1)
    {
      buyOptionSignal := 1;
    }

    method BuyCall(chain: Option<Chain>, cash: real) returns (outcome: Outcome)
      modifies this
      ensures Step(Snapshot(), outcome) == BuyCallStep(old(Snapshot()), chain, cash)
    {
      var pick := Choose(chain);
      if pick.Err? {
        return Raised(pick.error);
      }
      if pick.value.Some? {
        contract := pick.value;
      }
      if contract.Some? {
        var n := ContractsToBuy(cash, contract.value.ask);
        if n.Err? {
          return Raised(n.error);
        }
        buyNumOfContracts := n.value;
        orders := orders + [MarketOrder(contract.value.symbol, n.value)];
        contractList := contractList + [contract.value];
        contract := None;
        buyOptionSignal := 0;
      }
      return Done;
    }

    /** The `for i in self.contractList` loop that closes contracts near expiry,
        removing from the list it walks. */
    method CloseExpiring(now: int)
      modifies this
      ensures Snapshot() == SweepExpiring(old(Snapshot()), now)
    {
      var i := 0;
      while i < |contractList|
        invariant Iterate(contractList, i, orders, CloseStep(now))
               == Iterate(old(contractList), 0, old(orders), CloseStep(now))
        invariant Snapshot().(held := old(contractList), orders := old(orders)) == old(Snapshot())
        decreases |contractList| + 1 - i
      {
        var c := contractList[i];
        if NearExpiry(c, now) {
          orders := orders + [Liquidate(c.symbol)];
          contractList := contractList[..i] + contractList[i + 1..];
        }
        i := i + 1;
      }
    }

    /** OnData's trailing-stop update while contracts are held: raise the
        high and the stop, or liquidate everything when the stop is hit. */
    method RaiseOrHitStop(price: real)
      modifies this
      ensures Snapshot() == Trail(old(Snapshot()), price)
    {
      if price > highestUnderlyingPrice {
        highestUnderlyingPrice := price;
        newStopPrice := Round2(highestUnderlyingPrice * StopLossPercent);
      } else if price <= newStopPrice {
        orders := orders + [LiquidateAll];
        contractList := [];
        highestUnderlyingPrice, newStopPrice := 0.0, 0.0;
      }
    }

    method OnData(chain: Option<Chain>, cash: real, price: real, now: int) returns (outcome: Outcome)
      modifies this
      ensures Step(Snapshot(), outcome) == OnDataStep(old(Snapshot()), chain, cash, price, now)
    {
      outcome := Done;
      if cash <= LowBalance {
        // only logs
      } else if buyOptionSignal == 1 {
        outcome := BuyCall(chain, cash);
        if outcome.Raised? {
          return;
        }
      }
      ghost var b := Snapshot();
      assert Bought(old(Snapshot()), chain, cash) == Step(b, outcome);
      if contractList != [] {
        RaiseOrHitStop(price);
        CloseExpiring(now);
        assert Snapshot() == Manage(b, price, now);
      }
    }
  }
}
