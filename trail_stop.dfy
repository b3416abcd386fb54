/** Kevin/nn_call_underlyingTrailStop.py: buys one call on each day a
    prediction file flags, and walks the held contracts on every tick: a
    contract within three days of expiry is closed, a new high of the
    underlying raises the stop to 95% of it, and a price at or below the stop
    closes the contract under examination. */
module TrailStop {
  import opened Base
  import opened ListIteration
  import opened ChainSort
  import Signals

  const DaysBeforeExp: int := 3
  const OTM: real := 0.10
  const MinDTE: int := 15
  const MaxDTE: int := 30
  const ContractAmounts: int := 1
  const LowBalance: real := 10000.0

  // ------------------------------------------------------------ Initialize

  function FromYear2010(year: int): bool { year >= 2010 }

  /** Initialize's handling of the prediction file: the `dates` column is
      split on '-', rows predicted 1 whose year is 2010 or later are kept, and
      each gets a 9:35 BuySignal on (int(year), int(month), int(day)). */
  function Initialize(rows: seq<Signals.Row>): Result<seq<Scheduled>>
  {
    var kept :- Signals.DateOnlySignals(rows, Signals.YearMonthDay, FromYear2010);
    Signals.ScheduleKept(kept, 9, 35)
  }

  /** Initialize fails exactly when the date column does not split into
      three, a predicted row's year does not cast, or a kept row's month or
      day does not; otherwise it schedules one 9:35 event per kept row, in
      file order. */
  lemma InitializeSpec(rows: seq<Signals.Row>)
    ensures Initialize(rows).Ok? <==>
      && Signals.ThreeColumns(rows, Signals.YearMonthDay)
      && (forall r :: r in rows && Signals.Predicted(r) ==> Signals.YearCastable(r, Signals.YearMonthDay))
      && forall k :: k in Signals.KeptDates(rows, Signals.YearMonthDay, FromYear2010) ==>
           Signals.CastField(k.month).Ok? && Signals.CastField(k.day).Ok?
    ensures Initialize(rows).Ok? ==>
      var kept := Signals.KeptDates(rows, Signals.YearMonthDay, FromYear2010);
      |Initialize(rows).value| == |kept|
      && forall i :: 0 <= i < |kept| ==>
           kept[i].year >= 2010
           && Initialize(rows).value[i]
              == At(kept[i].year, Signals.CastField(kept[i].month).value, Signals.CastField(kept[i].day).value, 9, 35)
  {
    Signals.DateOnlySignalsSpec(rows, Signals.YearMonthDay, FromYear2010);
    var d := Signals.DateOnlySignals(rows, Signals.YearMonthDay, FromYear2010);
    if d.Ok? {
      var kept := d.value;
      if Initialize(rows).Err? {
        var i :| 0 <= i < |kept| && !(Signals.CastField(kept[i].month).Ok? && Signals.CastField(kept[i].day).Ok?);
        assert kept[i] in kept;
      } else {
        forall i | 0 <= i < |kept| ensures kept[i].year >= 2010 {
          assert kept[i] in kept;
        }
      }
    }
  }

  /** FilterOptions: weekly contracts only, from the money up to int(price * OTM)
      strikes out, expiring in 15 to 30 days. */
  function FilterOptions(price: real): (f: Effect)
    ensures f.SetStrikeFilter? && f.weeklies == WeeklysOnly && f.minStrike == 0 && f.minDays == MinDTE && f.maxDays == MaxDTE
    ensures price >= 0.0 ==> 0 <= f.maxStrike && f.maxStrike as real <= price * OTM < f.maxStrike as real + 1.0
  {
    SetStrikeFilter(WeeklysOnly, 0, Trunc(price * OTM), MinDTE, MaxDTE)
  }

  // --------------------------------------------------------------- BuyCall

  // ------------------------------------------------------------ algorithm

  datatype State = State(
    high: real,              // highestUnderlyingPrice
    stop: real,              // newStopPrice
    contract: Option<Contract>,
    held: seq<Contract>,     // contractList
    signal: int,             // buyOptions
    orders: seq<Effect>)

  const Start: State := State(0.0, 0.0, None, [], 0, [])

  /** The contract BuyCall buys: the pick from the slice's chain when there
      is one, else whatever the slot already holds. */
  function Target(st: State, chain: Option<Chain>): Option<Contract>
  {
    if Pick(chain).Some? then Pick(chain) else st.contract
  }

  /** BuyCall: set the option filter, then buy ContractAmounts of the target,
      hold it, and clear the slot and the flag. Without a target only the
      filter is set. High and stop are left alone. */
  function BuyCallStep(st: State, chain: Option<Chain>, price: real): (r: State)
    ensures r.high == st.high && r.stop == st.stop
    ensures Target(st, chain).None? ==> r == st.(orders := st.orders + [FilterOptions(price)])
    ensures Target(st, chain).Some? ==>
      var c := Target(st, chain).value;
      && r.orders == st.orders + [FilterOptions(price), MarketOrder(c.symbol, ContractAmounts)]
      && r.held == st.held + [c]
      && r.contract.None? && r.signal == 0
  {
    var filtered := st.orders + [FilterOptions(price)];
    var slot := Target(st, chain);
    if slot.None? then st.(orders := filtered)
    else
      st.(contract := None, held := st.held + [slot.value], signal := 0,
          orders := filtered + [MarketOrder(slot.value.symbol, ContractAmounts)])
  }

  /** With a non-empty chain in the slice, BuyCall orders ContractAmounts of
      the contract of the chain that ranks first: calls before puts, then the
      latest expiry, then the strike nearest the price. */
  lemma BuyCallBuysFirstRanked(st: State, ch: Chain, price: real)
    requires ch.contracts != []
    ensures var r := BuyCallStep(st, Some(ch), price);
      exists c :: && c in ch.contracts
                  && (forall x :: x in ch.contracts ==> Precedes(ch.underlyingPrice, false, c, x))
                  && r.orders == st.orders + [FilterOptions(price), MarketOrder(c.symbol, ContractAmounts)]
                  && r.held == st.held + [c]
  {
    PickRanksFirst(Some(ch));
    assert Target(st, Some(ch)) == Pick(Some(ch));
  }

  /** The part of the state the contract loop reads and writes. */
  datatype Trailing = Trailing(high: real, stop: real, orders: seq<Effect>)

  predicate NearExpiry(c: Contract, now: int)
  {
    c.expiry - now <= Days(DaysBeforeExp)
  }

  /** The body of `for i in self.contractList`: exactly one of the expiry
      close, the new-high update and the stop close applies, in that order. */
  function ContractStep(price: real, now: int): (Trailing, Contract) -> (Trailing, bool)
  {
    (s: Trailing, c: Contract) =>
      if NearExpiry(c, now) then (s.(orders := s.orders + [Liquidate(c.symbol)]), true)
      else if price > s.high then (s.(high := price, stop := Round2(price * 0.95)), false)
      else if price <= s.stop then (s.(orders := s.orders + [Liquidate(c.symbol)], stop := 0.0), true)
      else (s, false)
  }

  function Walked(st: State, price: real, now: int): State
  {
    var p := Iterate(st.held, 0, Trailing(st.high, st.stop, st.orders), ContractStep(price, now));
    st.(high := p.state.high, stop := p.state.stop, orders := p.state.orders, held := p.list)
  }

  function OnDataStep(st: State, chain: Option<Chain>, cash: real, price: real, now: int): State
  {
    var b := if cash > LowBalance && st.signal == 1 then BuyCallStep(st, chain, price) else st;
    if b.held == [] then b else Walked(b, price, now)
  }

  // ------------------------------------------------------------ properties

  /** One contract examined: it is closed (and removed) exactly when it is
      near expiry, or when it is not, the price is no new high and is at or
      below the stop. A close liquidates that contract alone. Away from expiry
      a new high raises the high to the price and the stop to 95% of it, and
      the high moves no other way; a stop close zeroes the stop and keeps the
      high. */
  lemma ContractStepSpec(s: Trailing, c: Contract, price: real, now: int)
    ensures var (t, removed) := ContractStep(price, now)(s, c);
      && (removed <==> NearExpiry(c, now) || (price <= s.high && price <= s.stop))
      && (removed ==> t.orders == s.orders + [Liquidate(c.symbol)] && t.high == s.high)
      && (!removed ==> t.orders == s.orders)
      && (!NearExpiry(c, now) && price > s.high ==> !removed && t.high == price && t.stop == Round2(price * 0.95))
      && (t.high != s.high ==> !NearExpiry(c, now) && t.high == price > s.high)
      && (removed && !NearExpiry(c, now) ==> t.stop == 0.0)
      && (t.stop != s.stop ==> t.high != s.high || (removed && t.stop == 0.0))
  {
  }

  /** The stop is either cleared or at 95% of the high. */
  predicate StopTrails(s: Trailing)
  {
    s.stop == 0.0 || s.stop == Round2(s.high * 0.95)
  }

  /** Over a whole pass the high never falls and the stop keeps trailing it. */
  lemma PassKeepsStopTrailing(held: seq<Contract>, s: Trailing, price: real, now: int)
    requires StopTrails(s)
    ensures var p := Iterate(held, 0, s, ContractStep(price, now)).state;
      p.high >= s.high && StopTrails(p)
  {
    var h := s.high;
    IteratePreserves(held, 0, s, ContractStep(price, now), (t: Trailing) => t.high >= h && StopTrails(t));
  }

  /** After a stop close, and while the price stays positive, the rest of the
      pass closes contracts only for expiry: the stop is zero and the price is
      no new high. */
  lemma AfterStopCloseOnlyExpiry(held: seq<Contract>, s: Trailing, c: Contract, price: real, now: int)
    requires price > 0.0
    requires !NearExpiry(c, now) && price <= s.high && price <= s.stop
    ensures var t := ContractStep(price, now)(s, c).0;
      && t.stop == 0.0 && t.high == s.high
      && var p := Iterate(held, 0, t, ContractStep(price, now));
         && p.state.stop == 0.0 && p.state.high == s.high
         && forall x :: x in held && !NearExpiry(x, now) ==> x in p.list
  {
    var t := ContractStep(price, now)(s, c).0;
    var h := s.high;
    var step := ContractStep(price, now);
    IteratePreserves(held, 0, t, step, (u: Trailing) => u.stop == 0.0 && u.high == h);
    IterateIsWalk(held, t, step);
    forall x | x in held && !NearExpiry(x, now) ensures x in Iterate(held, 0, t, step).list {
      CalmKeeps(held, t, x, price, now);
    }
  }

  lemma {:induction false} CalmKeeps(held: seq<Contract>, t: Trailing, x: Contract, price: real, now: int)
    requires price > 0.0 && price <= t.high && t.stop == 0.0
    requires x in held && !NearExpiry(x, now)
    ensures x in Walk(held, t, ContractStep(price, now)).list
    decreases |held|
  {
    var step := ContractStep(price, now);
    var next := step(t, held[0]);
    assert next.0.stop == 0.0 && next.0.high == t.high;
    if x != held[0] {
      assert x in held[1..];
      if !next.1 {
        CalmKeeps(held[1..], next.0, x, price, now);
      } else if x != held[1] {
        assert x in held[2..];
        CalmKeeps(held[2..], next.0, x, price, now);
      }
    }
  }

  /** A market order is placed only when cash exceeds 10000 and the buy flag
      is raised, and the contract loop only liquidates. */
  lemma BuyOnlyOnSignal(st: State, chain: Option<Chain>, cash: real, price: real, now: int)
    ensures var r := OnDataStep(st, chain, cash, price, now);
      && |st.orders| <= |r.orders| && r.orders[..|st.orders|] == st.orders
      && ((exists k :: |st.orders| <= k < |r.orders| && r.orders[k].MarketOrder?) ==> cash > LowBalance && st.signal == 1)
  {
    var b := if cash > LowBalance && st.signal == 1 then BuyCallStep(st, chain, price) else st;
    assert b.orders[..|st.orders|] == st.orders;
    if b.held != [] {
      var r := Walked(b, price, now).orders;
      var step := ContractStep(price, now);
      var s0 := Trailing(b.high, b.stop, b.orders);
      var n := |b.orders|;
      IteratePreserves(b.held, 0, s0, step,
        (u: Trailing) => |u.orders| >= n && u.orders[..n] == b.orders
                         && forall k :: n <= k < |u.orders| ==> u.orders[k].Liquidate?);
      assert r[..|st.orders|] == r[..n][..|st.orders|];
      if !(cash > LowBalance && st.signal == 1) {
        assert b.orders == st.orders;
      }
    }
  }

  /** OnData never lowers the high and keeps the stop trailing it. */
  lemma OnDataKeepsStopTrailing(st: State, chain: Option<Chain>, cash: real, price: real, now: int)
    requires StopTrails(Trailing(st.high, st.stop, st.orders))
    ensures var r := OnDataStep(st, chain, cash, price, now);
      r.high >= st.high && StopTrails(Trailing(r.high, r.stop, r.orders))
  {
    var b := if cash > LowBalance && st.signal == 1 then BuyCallStep(st, chain, price) else st;
    PassKeepsStopTrailing(b.held, Trailing(b.high, b.stop, b.orders), price, now);
  }

  // ------------------------------------------------------------ the class

  class Algorithm {
    var highestUnderlyingPrice: real
    var newStopPrice: real
    var contract: Option<Contract>
    var contractList: seq<Contract>
    var buyOptions: int
    var orders: seq<Effect>

    function Snapshot(): State
      reads this
    {
      State(highestUnderlyingPrice, newStopPrice, contract, contractList, buyOptions, orders)
    }

    constructor ()
      ensures Snapshot() == Start
    {
      highestUnderlyingPrice, newStopPrice := 0.0, 0.0;
      contract, contractList := None, [];
      buyOptions := 0;
      orders := [];
    }

    method BuySignal()
      modifies this
      ensures Snapshot() == old(Snapshot()).(signal := 1)
    {
      buyOptions := 1;
    }

    method BuyCall(chain: Option<Chain>, price: real)
      modifies this
      ensures Snapshot() == BuyCallStep(old(Snapshot()), chain, price)
    {
      orders := orders + [FilterOptions(price)];
      var pick := Pick(chain);
      if pick.Some? {
        contract := pick;
      }
      if contract.Some? {
        orders := orders + [MarketOrder(contract.value.symbol, ContractAmounts)];
        contractList := contractList + [contract.value];
        contract := None;
        buyOptions := 0;
      }
    }

    /** The `for i in self.contractList` loop, removing from the list it walks. */
    method WalkContracts(price: real, now: int)
      modifies this
      ensures Snapshot() == Walked(old(Snapshot()), price, now)
    {
      var i := 0;
      while i < |contractList|
        invariant Iterate(contractList, i, Trailing(highestUnderlyingPrice, newStopPrice, orders), ContractStep(price, now))
               == Iterate(old(contractList), 0, Trailing(old(highestUnderlyingPrice), old(newStopPrice), old(orders)), ContractStep(price, now))
        invariant contract == old(contract) && buyOptions == old(buyOptions)
        decreases |contractList| + 1 - i
      {
        var c := contractList[i];
        if NearExpiry(c, now) {
          orders := orders + [Liquidate(c.symbol)];
          contractList := contractList[..i] + contractList[i + 1..];
        } else if price > highestUnderlyingPrice {
          highestUnderlyingPrice := price;
          newStopPrice := Round2(highestUnderlyingPrice * 0.95);
        } else if price <= newStopPrice {
          orders := orders + [Liquidate(c.symbol)];
          contractList := contractList[..i] + contractList[i + 1..];
          newStopPrice := 0.0;
        }
        i := i + 1;
      }
    }

    method OnData(chain: Option<Chain>, cash: real, price: real, now: int)
      modifies this
      ensures Snapshot() == OnDataStep(old(Snapshot()), chain, cash, price, now)
    {
      if cash <= LowBalance {
        // only logs
      } else if buyOptions == 1 {
        BuyCall(chain, price);
      }
      if contractList != [] {
        WalkContracts(price, now);
      }
    }
  }
}
