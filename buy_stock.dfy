/** Kevin/qc_BuyStock.py: buys shares of the stock on each day a prediction
    file flags (the `expected` column), sizing each buy to 5% of the cash.
    Shortly before every close it walks the order tickets: a ticket three days
    old is closed, a new high of the price is recorded, and a price at or below
    97.5% of the high (rounded to cents) closes the ticket under examination. */
module BuyStock {
  import opened Base
  import opened ListIteration
  import Signals

  const PortfolioRisk: real := 0.05
  const StopLossPercentage: real := 0.025
  const HoldDays: int := 3

  // ------------------------------------------------------------ Initialize

  /** This script keeps the rows whose `expected` column is 1. */
  predicate ExpectedBuy(r: Signals.Row) { r.expected == 1 }

  /** Initialize's handling of the prediction file: rows with `expected` 1,
      dated 2010 or later, give a 9:35 BuySignal each; the backtest runs from
      the first such row to the last, on the first row's symbol. */
  function Initialize(rows: seq<Signals.Row>): Result<Signals.Backtest>
  {
    var sigs :- Signals.SymbolSignals(rows, ExpectedBuy);
    Signals.Setup(sigs, 9, 35)
  }

  lemma InitializeSpec(rows: seq<Signals.Row>)
    ensures Initialize(rows).Ok? <==>
      (Signals.ThreeColumns(rows, Signals.YearMonthDay)
       && (forall r :: r in rows && ExpectedBuy(r) ==> Signals.Castable(r))
       && Signals.KeptSignals(rows, ExpectedBuy) != [])
    ensures Initialize(rows).Ok? ==>
      var kept := Signals.KeptSignals(rows, ExpectedBuy);
      var b := Initialize(rows).value;
      b.start == kept[0] && b.end == kept[|kept| - 1] && b.symbol == kept[0].symbol
      && |b.events| == |kept|
      && forall i :: 0 <= i < |kept| ==>
           b.events[i] == At(kept[i].year, kept[i].month, kept[i].day, 9, 35) && kept[i].year >= 2010
  {
    Signals.SymbolSignalsSpec(rows, ExpectedBuy);
  }

  // ---------------------------------------------------------------- sizing

  /** int(portfolioRisk * cash / price) shares, and at least one. A zero price
      divides by zero. */
  function SharesToBuy(cash: real, price: real): (r: Result<int>)
    ensures r.Err? <==> price == 0.0
    ensures r.Err? ==> r.error == ZeroDivisionError
    ensures r.Ok? ==> r.value >= 1
  {
    if price == 0.0 then Err(ZeroDivisionError)
    else Ok(Max(1, Trunc(PortfolioRisk * cash / price)))
  }

  /** With a positive price and non-negative cash the buy costs at most 5% of
      the cash unless one share already costs more, and one more share would
      cost more than that. */
  lemma SharesToBuyWithinBudget(cash: real, price: real)
    requires cash >= 0.0 && price > 0.0
    ensures var n := SharesToBuy(cash, price).value;
      (n > 1 ==> n as real * price <= PortfolioRisk * cash)
      && PortfolioRisk * cash < (n + 1) as real * price
  {
    TruncDivBounds(PortfolioRisk * cash, price);
    var t := Trunc(PortfolioRisk * cash / price);
    var n := Max(1, t);
    assert SharesToBuy(cash, price) == Ok(n);
    MulMonotone(t as real + 1.0, (n + 1) as real, price);
  }

  // ------------------------------------------------------------ algorithm

  /** An order ticket: what was bought, how many, and when. */
  datatype Ticket = Ticket(symbol: Symbol, quantity: int, time: int)

  datatype State = State(
    newHigh: real,
    tickets: seq<Ticket>,    // ticketList
    signal: int,             // buyOptionSignal
    quantity: int,           // buyNumOfContracts
    orders: seq<Effect>)

  const Start: State := State(0.0, [], 0, 0, [])

  /** OnData: with the flag raised, buy the sized number of shares, keep the
      ticket and lower the flag. */
  function OnDataStep(st: State, symbol: Symbol, cash: real, price: real, now: int): (Result<State>)
  {
    if st.signal != 1 then Ok(st)
    else
      var n :- SharesToBuy(cash, price);
      Ok(st.(quantity := n, tickets := st.tickets + [Ticket(symbol, n, now)],
             orders := st.orders + [MarketOrder(symbol, n)], signal := 0))
  }

  /** Every ticket held is for a market order that was placed. */
  ghost predicate TicketsOrdered(st: State)
  {
    forall t :: t in st.tickets ==> MarketOrder(t.symbol, t.quantity) in st.orders
  }

  /** OnData buys exactly when the flag is raised: it places one market order
      for SharesToBuy shares (at least one), keeps its ticket and lowers the flag, or fails on
      a zero price; without the flag it changes nothing. It keeps every ticket
      backed by an order. */
  lemma OnDataSpec(st: State, symbol: Symbol, cash: real, price: real, now: int)
    ensures var r := OnDataStep(st, symbol, cash, price, now);
      && (st.signal != 1 ==> r == Ok(st))
      && (st.signal == 1 ==> (r.Err? <==> price == 0.0))
      && (st.signal == 1 && r.Ok? ==>
            && r.value.signal == 0 && r.value.quantity == SharesToBuy(cash, price).value >= 1
            && r.value.newHigh == st.newHigh
            && r.value.tickets == st.tickets + [Ticket(symbol, r.value.quantity, now)]
            && r.value.orders == st.orders + [MarketOrder(symbol, r.value.quantity)])
      && (TicketsOrdered(st) && r.Ok? ==> TicketsOrdered(r.value))
  {
  }

  /** The part of the state the ticket loop reads and writes. */
  datatype Trailing = Trailing(newHigh: real, orders: seq<Effect>)

  function StopLevel(newHigh: real): real
  {
    Round2(newHigh * (1.0 - StopLossPercentage))
  }

  predicate Aged(t: Ticket, now: int)
  {
    now >= t.time + Days(HoldDays)
  }

  /** The body of `for i in self.ticketList`: exactly one of the age close, the
      new-high update and the stop close applies, in that order. */
  function TicketStep(price: real, now: int): (Trailing, Ticket) -> (Trailing, bool)
  {
    (s: Trailing, t: Ticket) =>
      if Aged(t, now) then (s.(orders := s.orders + [Liquidate(t.symbol)]), true)
      else if price > s.newHigh then (s.(newHigh := price), false)
      else if price <= StopLevel(s.newHigh) then (s.(orders := s.orders + [Liquidate(t.symbol)], newHigh := 0.0), true)
      else (s, false)
  }

  /** EveryDayBeforeMarketClose: one pass over the tickets; nothing at all
      when there are none. */
  function BeforeCloseStep(st: State, price: real, now: int): (r: State)
    ensures st.tickets == [] ==> r == st
  {
    var p := Iterate(st.tickets, 0, Trailing(st.newHigh, st.orders), TicketStep(price, now));
    st.(newHigh := p.state.newHigh, orders := p.state.orders, tickets := p.list)
  }

  // ------------------------------------------------------------ properties

  /** One ticket examined: it is closed (and removed) exactly when it is three
      days old, or when it is not, the price is no new high and is at or below
      the stop level. A close liquidates that ticket's symbol alone. A young
      ticket seeing a new high raises the recorded high to the price; a stop
      close resets it to zero; an age close leaves it alone. */
  lemma TicketStepSpec(s: Trailing, t: Ticket, price: real, now: int)
    ensures var (u, removed) := TicketStep(price, now)(s, t);
      && (removed <==> Aged(t, now) || (price <= s.newHigh && price <= StopLevel(s.newHigh)))
      && (removed ==> u.orders == s.orders + [Liquidate(t.symbol)])
      && (!removed ==> u.orders == s.orders)
      && (!Aged(t, now) && price > s.newHigh ==> !removed && u.newHigh == price)
      && (removed && !Aged(t, now) ==> u.newHigh == 0.0)
      && (Aged(t, now) ==> u.newHigh == s.newHigh)
      && (u.newHigh != s.newHigh ==>
            !Aged(t, now) && ((u.newHigh == price > s.newHigh) || (removed && u.newHigh == 0.0)))
  {
  }

  /** Over a pass the host calls only grow, and the recorded high falls only
      when some ticket was closed. */
  lemma PassHighFallsOnlyWithClose(tickets: seq<Ticket>, s: Trailing, price: real, now: int)
    ensures var p := Iterate(tickets, 0, s, TicketStep(price, now)).state;
      && |s.orders| <= |p.orders| && p.orders[..|s.orders|] == s.orders
      && (p.newHigh < s.newHigh ==> |p.orders| > |s.orders|)
  {
    var h, n, log := s.newHigh, |s.orders|, s.orders;
    IteratePreserves(tickets, 0, s, TicketStep(price, now),
      (u: Trailing) => |u.orders| >= n && u.orders[..n] == log && (u.newHigh >= h || |u.orders| > n));
  }

  /** The daily pass keeps every remaining ticket backed by an order. */
  lemma BeforeCloseKeepsTicketsOrdered(st: State, price: real, now: int)
    requires TicketsOrdered(st)
    ensures TicketsOrdered(BeforeCloseStep(st, price, now))
  {
    var s := Trailing(st.newHigh, st.orders);
    var step := TicketStep(price, now);
    PassHighFallsOnlyWithClose(st.tickets, s, price, now);
    IterateIsWalk(st.tickets, s, step);
    WalkShrinks(st.tickets, s, step);
    var r := BeforeCloseStep(st, price, now);
    forall t | t in r.tickets ensures MarketOrder(t.symbol, t.quantity) in r.orders {
      assert t in multiset(st.tickets);
      var m := MarketOrder(t.symbol, t.quantity);
      var k :| 0 <= k < |st.orders| && st.orders[k] == m;
      assert r.orders[..|st.orders|][k] == m;
    }
  }

  /** A ticket that is neither old nor examined at or below the stop stays:
      with the price above the stop level at every high reached, only old
      tickets are closed. */
  lemma {:induction false} PriceAboveStopClosesOnlyOld(tickets: seq<Ticket>, s: Trailing, price: real, now: int, x: Ticket)
    requires price > 0.0 && price > StopLevel(s.newHigh) && price > StopLevel(price)
    requires x in tickets && !Aged(x, now)
    ensures x in Walk(tickets, s, TicketStep(price, now)).list
    decreases |tickets|
  {
    var step := TicketStep(price, now);
    var next := step(s, tickets[0]);
    assert price > StopLevel(next.0.newHigh);
    if x != tickets[0] {
      assert x in tickets[1..];
      if !next.1 {
        PriceAboveStopClosesOnlyOld(tickets[1..], next.0, price, now, x);
      } else if x != tickets[1] {
        assert x in tickets[2..];
        PriceAboveStopClosesOnlyOld(tickets[2..], next.0, price, now, x);
      }
    }
  }

  // ------------------------------------------------------------ the class

  class Algorithm {
    const stockSymbol: Symbol
    var newHigh: real
    var ticketList: seq<Ticket>
    var buyOptionSignal: int
    var buyNumOfContracts: int
    var orders: seq<Effect>

    function Snapshot(): State
      reads this
    {
      State(newHigh, ticketList, buyOptionSignal, buyNumOfContracts, orders)
    }

    constructor (symbol: Symbol)
      ensures stockSymbol == symbol && Snapshot() == Start
    {
      stockSymbol := symbol;
      newHigh := 0.0;
      ticketList := [];
      buyOptionSignal, buyNumOfContracts := 0, 0;
      orders := [];
    }

    method BuySignal()
      modifies this
      ensures Snapshot() == old(Snapshot()).(signal := 1)
    {
      buyOptionSignal := 1;
    }

    method OnData(cash: real, price: real, now: int) returns (outcome: Outcome)
      modifies this
      ensures match OnDataStep(old(Snapshot()), stockSymbol, cash, price, now)
              case Ok(r) => outcome == Done && Snapshot() == r
              case Err(e) => outcome == Raised(e) && Snapshot() == old(Snapshot())
    {
      if buyOptionSignal == 1 {
        var n := SharesToBuy(cash, price);
        if n.Err? {
          return Raised(n.error);
        }
        buyNumOfContracts := n.value;
        var ticket := Ticket(stockSymbol, n.value, now);
        orders := orders + [MarketOrder(stockSymbol, n.value)];
        ticketList := ticketList + [ticket];
        buyOptionSignal := 0;
      }
      return Done;
    }

    /** The scheduled pass shortly before the close, removing from the list it
        walks. */
    method EveryDayBeforeMarketClose(price: real, now: int)
      modifies this
      ensures Snapshot() == BeforeCloseStep(old(Snapshot()), price, now)
    {
      if ticketList == [] {
        return;
      }
      var i := 0;
      while i < |ticketList|
        invariant Iterate(ticketList, i, Trailing(newHigh, orders), TicketStep(price, now))
               == Iterate(old(ticketList), 0, Trailing(old(newHigh), old(orders)), TicketStep(price, now))
        invariant buyOptionSignal == old(buyOptionSignal) && buyNumOfContracts == old(buyNumOfContracts)
        decreases |ticketList| + 1 - i
      {
        var t := ticketList[i];
        if Aged(t, now) {
          orders := orders + [Liquidate(t.symbol)];
          ticketList := ticketList[..i] + ticketList[i + 1..];
        } else if price > newHigh {
          newHigh := price;
        } else if price <= StopLevel(newHigh) {
          orders := orders + [Liquidate(t.symbol)];
          newHigh := 0.0;
          ticketList := ticketList[..i] + ticketList[i + 1..];
        }
        i := i + 1;
      }
    }
  }
}
