/** Kevin/qc_Call_StopLoss.py: on each day a prediction file flags in 2012,
    buys one call and places a stop order to sell it at 75% of its ask, and
    closes the contract one day before it expires. */
module CallStopLoss {
  import opened Base
  import opened ChainSort
  import Signals

  const DaysBeforeExp: int := 1
  const OTM: real := 0.10
  const MinDTE: int := 10
  const MaxDTE: int := 20
  const ContractAmounts: int := 1
  /** OnData buys only with more cash than this. */
  const MinCash: real := 30000.0
  const StopFraction: real := 0.75

  // ------------------------------------------------------------ Initialize

  function In2012(year: int): bool { year == 2012 }

  /** Initialize's handling of the prediction file: the `date` column is split
      on '/' as month, day, year; rows predicted 1 from the year 2012 are kept,
      and each gets a 9:31 BuySignal on (int(year), int(month), int(day)). */
  function Initialize(rows: seq<Signals.Row>): Result<seq<Scheduled>>
  {
    var kept :- Signals.DateOnlySignals(rows, Signals.MonthDayYear, In2012);
    Signals.ScheduleKept(kept, 9, 31)
  }

  /** Initialize fails exactly when the date column does not split into
      three, a predicted row's year does not cast, or a kept row's month or
      day does not; otherwise it schedules one 9:31 event in 2012 per kept
      row, in file order. */
  lemma InitializeSpec(rows: seq<Signals.Row>)
    ensures Initialize(rows).Ok? <==>
      && Signals.ThreeColumns(rows, Signals.MonthDayYear)
      && (forall r :: r in rows && Signals.Predicted(r) ==> Signals.YearCastable(r, Signals.MonthDayYear))
      && forall k :: k in Signals.KeptDates(rows, Signals.MonthDayYear, In2012) ==>
           Signals.CastField(k.month).Ok? && Signals.CastField(k.day).Ok?
    ensures Initialize(rows).Ok? ==>
      var kept := Signals.KeptDates(rows, Signals.MonthDayYear, In2012);
      |Initialize(rows).value| == |kept|
      && forall i :: 0 <= i < |kept| ==>
           Initialize(rows).value[i]
           == At(2012, Signals.CastField(kept[i].month).value, Signals.CastField(kept[i].day).value, 9, 31)
  {
    Signals.DateOnlySignalsSpec(rows, Signals.MonthDayYear, In2012);
    var d := Signals.DateOnlySignals(rows, Signals.MonthDayYear, In2012);
    if d.Ok? {
      var kept := d.value;
      if Initialize(rows).Err? {
        var i :| 0 <= i < |kept| && !(Signals.CastField(kept[i].month).Ok? && Signals.CastField(kept[i].day).Ok?);
        assert kept[i] in kept;
      } else {
        forall i | 0 <= i < |kept| ensures kept[i].year == 2012 {
          assert kept[i] in kept;
        }
      }
    }
  }

  // ------------------------------------------------------------ algorithm

  datatype State = State(
    contract: Option<Contract>,
    signal: int,                    // buyOptions
    stopTicket: Option<nat>,        // the stop order's id; None before the first buy
    stopFillTime: Option<int>,      // None stands for datetime.min
    orders: seq<Effect>)

  const Start: State := State(None, 0, None, None, [])

  /** The option filter OnData sets on every slice: standard contracts (the
      host's default excludes weeklies) from the money up to
      int(price * OTM) strikes out, expiring in 10 to 20 days. */
  function OptionFilter(price: real): (f: Effect)
    ensures f.SetStrikeFilter? && f.weeklies == StandardOnly && f.minStrike == 0 && f.minDays == MinDTE && f.maxDays == MaxDTE
    ensures price >= 0.0 ==> 0 <= f.maxStrike && f.maxStrike as real <= price * OTM < f.maxStrike as real + 1.0
  {
    SetStrikeFilter(StandardOnly, 0, Trunc(price * OTM), MinDTE, MaxDTE)
  }

  /** BuyCall: buy one of the pick (or of the contract still in the slot) and
      place a stop order selling it at 75% of its ask; the host gives the stop
      order the id `orderId`. The slot keeps the contract. */
  function BuyCallStep(st: State, chain: Option<Chain>, orderId: nat): (r: State)
    ensures r.stopFillTime == st.stopFillTime
    ensures (Pick(chain).Some? || st.contract.Some?) <==> r.contract.Some?
    ensures r.contract.None? ==> r == st
    ensures r.contract.Some? ==>
      var c := r.contract.value;
      && (Pick(chain).Some? ==> c == Pick(chain).value)
      && (Pick(chain).None? ==> c == st.contract.value)
      && r.signal == 0 && r.stopTicket == Some(orderId)
      && r.orders == st.orders + [MarketOrder(c.symbol, ContractAmounts),
                                  StopMarketOrder(c.symbol, -ContractAmounts, StopFraction * c.ask)]
  {
    var slot := if Pick(chain).Some? then Pick(chain) else st.contract;
    if slot.None? then st
    else
      var c := slot.value;
      st.(contract := slot, signal := 0, stopTicket := Some(orderId),
          orders := st.orders + [MarketOrder(c.symbol, ContractAmounts),
                                 StopMarketOrder(c.symbol, -ContractAmounts, StopFraction * c.ask)])
  }

  predicate NearExpiry(c: Contract, now: int)
  {
    c.expiry - now <= Days(DaysBeforeExp)
  }

  function OnDataStep(st: State, chain: Option<Chain>, cash: real, price: real, now: int, orderId: nat): State
  {
    var f := st.(orders := st.orders + [OptionFilter(price)]);
    var b := if cash > MinCash && st.signal == 1 then BuyCallStep(f, chain, orderId) else f;
    if b.contract.Some? && NearExpiry(b.contract.value, now) then
      b.(orders := b.orders + [Liquidate(b.contract.value.symbol)], contract := None)
    else b
  }

  /** OnOrderEvent: any event of the stop order records the time, whatever its
      status. */
  function OnOrderEventStep(st: State, ev: OrderEvent, now: int): State
  {
    if st.stopTicket.Some? && st.stopTicket.value == ev.orderId then st.(stopFillTime := Some(now)) else st
  }

  // ------------------------------------------------------------ properties

  /** Every slice first sets the option filter. A market order is placed only
      with more than 30000 in cash and the flag raised, and always together
      with its stop order at 75% of the contract's ask. */
  lemma OnDataOrders(st: State, chain: Option<Chain>, cash: real, price: real, now: int, orderId: nat)
    ensures var r := OnDataStep(st, chain, cash, price, now, orderId);
      && |r.orders| > |st.orders| && r.orders[..|st.orders| + 1] == st.orders + [OptionFilter(price)]
      && (forall k :: |st.orders| <= k < |r.orders| && r.orders[k].MarketOrder? ==>
            && cash > MinCash && st.signal == 1 && r.signal == 0
            && k + 1 < |r.orders| && r.orders[k + 1].StopMarketOrder?
            && r.orders[k + 1].symbol == r.orders[k].symbol
            && r.orders[k + 1].quantity == -r.orders[k].quantity)
      && (st.signal == 1 && cash > MinCash && (Pick(chain).Some? || st.contract.Some?) ==> r.signal == 0)
  {
    var n := |st.orders|;
    var r := OnDataStep(st, chain, cash, price, now, orderId);
    var tail := OnDataTail(st, chain, cash, price, now, orderId);
    forall k | n <= k < |r.orders| && r.orders[k].MarketOrder?
      ensures && cash > MinCash && st.signal == 1 && r.signal == 0
              && k + 1 < |r.orders| && r.orders[k + 1].StopMarketOrder?
              && r.orders[k + 1].symbol == r.orders[k].symbol
              && r.orders[k + 1].quantity == -r.orders[k].quantity
    {
      assert r.orders[k] == tail[k - n];
      assert k - n == 1;
      assert r.orders[k + 1] == tail[2];
    }
    assert r.orders[..n + 1] == st.orders + [tail[0]];
  }

  /** The host calls a slice adds: the option filter, then possibly a market
      order and its stop order, then possibly a liquidation. */
  lemma OnDataTail(st: State, chain: Option<Chain>, cash: real, price: real, now: int, orderId: nat)
    returns (tail: seq<Effect>)
    ensures var r := OnDataStep(st, chain, cash, price, now, orderId);
      && r.orders == st.orders + tail && |tail| >= 1 && tail[0] == OptionFilter(price)
      && forall i :: 0 <= i < |tail| && tail[i].MarketOrder? ==>
           && i == 1 && |tail| >= 3 && cash > MinCash && st.signal == 1 && r.signal == 0
           && tail[2].StopMarketOrder? && tail[2].symbol == tail[1].symbol && tail[2].quantity == -tail[1].quantity
  {
    if cash > MinCash && st.signal == 1 && (Pick(chain).Some? || st.contract.Some?) {
      tail := BuyingTail(st, chain, cash, price, now, orderId);
    } else {
      tail := IdleTail(st, chain, cash, price, now, orderId);
    }
  }

  lemma IdleTail(st: State, chain: Option<Chain>, cash: real, price: real, now: int, orderId: nat)
    returns (tail: seq<Effect>)
    requires !(cash > MinCash && st.signal == 1 && (Pick(chain).Some? || st.contract.Some?))
    ensures var r := OnDataStep(st, chain, cash, price, now, orderId);
      && r.orders == st.orders + tail && |tail| >= 1 && tail[0] == OptionFilter(price)
      && forall i :: 0 <= i < |tail| ==> !tail[i].MarketOrder?
  {
    var f := st.(orders := st.orders + [OptionFilter(price)]);
    var b := if cash > MinCash && st.signal == 1 then BuyCallStep(f, chain, orderId) else f;
    assert b == f;
    var added := if f.contract.Some? && NearExpiry(f.contract.value, now) then [Liquidate(f.contract.value.symbol)] else [];
    assert OnDataStep(st, chain, cash, price, now, orderId).orders == f.orders + added;
    tail := [OptionFilter(price)] + added;
    AppendAssoc(st.orders, [OptionFilter(price)], added);
  }

  lemma BuyingTail(st: State, chain: Option<Chain>, cash: real, price: real, now: int, orderId: nat)
    returns (tail: seq<Effect>)
    requires cash > MinCash && st.signal == 1 && (Pick(chain).Some? || st.contract.Some?)
    ensures var r := OnDataStep(st, chain, cash, price, now, orderId);
      && r.orders == st.orders + tail && |tail| >= 3 && r.signal == 0
      && tail[0] == OptionFilter(price) && tail[1].MarketOrder?
      && tail[2].StopMarketOrder? && tail[2].symbol == tail[1].symbol && tail[2].quantity == -tail[1].quantity
      && forall i :: 0 <= i < |tail| && i != 1 ==> !tail[i].MarketOrder?
  {
    var f := st.(orders := st.orders + [OptionFilter(price)]);
    var b := BuyCallStep(f, chain, orderId);
    var c := b.contract.value;
    var added := if NearExpiry(c, now) then [Liquidate(c.symbol)] else [];
    var r := OnDataStep(st, chain, cash, price, now, orderId);
    assert r.orders == b.orders + added && r.signal == 0;
    var pair := [MarketOrder(c.symbol, ContractAmounts), StopMarketOrder(c.symbol, -ContractAmounts, StopFraction * c.ask)];
    assert b.orders == f.orders + pair;
    AppendAssoc(f.orders, pair, added);
    AppendAssoc(st.orders, [OptionFilter(price)], pair + added);
    AppendAssoc([OptionFilter(price)], pair, added);
    tail := [OptionFilter(price)] + pair + added;
    assert forall i :: 3 <= i < |tail| ==> tail[i] == added[i - 3];
  }

  /** Helper for the log equalities above, which the solver does not regroup
      on its own. */
  lemma AppendAssoc<T>(a: seq<T>, b: seq<T>, c: seq<T>)
    ensures (a + b) + c == a + (b + c)
  {
  }

  /** After a slice, the slot never holds a contract within a day of expiry:
      such a contract is liquidated and the slot emptied. */
  lemma SlotNeverNearExpiry(st: State, chain: Option<Chain>, cash: real, price: real, now: int, orderId: nat)
    ensures var r := OnDataStep(st, chain, cash, price, now, orderId);
      && (r.contract.Some? ==> !NearExpiry(r.contract.value, now))
      && (st.contract.Some? && NearExpiry(st.contract.value, now) && !(cash > MinCash && st.signal == 1) ==>
            r.contract.None? && r.orders[|r.orders| - 1] == Liquidate(st.contract.value.symbol))
  {
  }

  /** The stop's time is recorded exactly for an event of the stop order, and
      only once a stop order exists. */
  lemma OnOrderEventSpec(st: State, ev: OrderEvent, now: int)
    ensures var r := OnOrderEventStep(st, ev, now);
      && (st.stopTicket == Some(ev.orderId) ==> r == st.(stopFillTime := Some(now)))
      && (st.stopTicket != Some(ev.orderId) ==> r == st)
  {
  }

  // ------------------------------------------------------------ the class

  class Algorithm {
    var contract: Option<Contract>
    var buyOptions: int
    var stopMarketTicket: Option<nat>
    var stopMarketFillTime: Option<int>
    var orders: seq<Effect>

    function Snapshot(): State
      reads this
    {
      State(contract, buyOptions, stopMarketTicket, stopMarketFillTime, orders)
    }

    constructor ()
      ensures Snapshot() == Start
    {
      contract, buyOptions := None, 0;
      stopMarketTicket, stopMarketFillTime := None, None;
      orders := [];
    }

    method BuySignal()
      modifies this
      ensures Snapshot() == old(Snapshot()).(signal := 1)
    {
      buyOptions := 1;
    }

    method BuyCall(chain: Option<Chain>, orderId: nat)
      modifies this
      ensures Snapshot() == BuyCallStep(old(Snapshot()), chain, orderId)
    {
      var pick := Pick(chain);
      if pick.Some? {
        contract := pick;
      }
      if contract.Some? {
        var c := contract.value;
        ghost var before := orders;
        orders := orders + [MarketOrder(c.symbol, ContractAmounts)];
        stopMarketTicket := Some(orderId);
        orders := orders + [StopMarketOrder(c.symbol, -ContractAmounts, StopFraction * c.ask)];
        AppendAssoc(before, [MarketOrder(c.symbol, ContractAmounts)], [StopMarketOrder(c.symbol, -ContractAmounts, StopFraction * c.ask)]);
        buyOptions := 0;
      }
    }

    method OnData(chain: Option<Chain>, cash: real, price: real, now: int, orderId: nat)
      modifies this
      ensures Snapshot() == OnDataStep(old(Snapshot()), chain, cash, price, now, orderId)
    {
      orders := orders + [OptionFilter(price)];
      if cash > MinCash && buyOptions == 1 {
        BuyCall(chain, orderId);
      }
      if contract.Some? {
        if NearExpiry(contract.value, now) {
          orders := orders + [Liquidate(contract.value.symbol)];
          contract := None;
        }
      }
    }

    method OnOrderEvent(ev: OrderEvent, now: int)
      modifies this
      ensures Snapshot() == OnOrderEventStep(old(Snapshot()), ev, now)
    {
      if stopMarketTicket.Some? && stopMarketTicket.value == ev.orderId {
        stopMarketFillTime := Some(now);
      }
    }
  }
}
