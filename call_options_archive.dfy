/** Kevin/Archive/qc_CallOptions.py: on each day a prediction file flags
    from 2010 on, searches the underlying's option contracts for a call at
    most 5% out of the money with more than 5 and fewer than 25 days left,
    buys 50 of it on a later slice that carries it, and closes it five days
    before expiry. */
module CallOptionsArchive {
  import opened Base
  import opened ChainProvider
  import Signals

  const DaysBeforeExp: int := 5
  const DTE: int := 15
  const OTM: real := 0.05
  const ContractAmounts: int := 50
  /** OnData buys only with more cash than this. */
  const MinCash: real := 30000.0

  /** CallOptionsFilter's settings: DTE - 10 < days < DTE + 10. */
  const Criteria: Search := Search(OTM, DTE - 10, DTE + 10, DTE)

  // ------------------------------------------------------------ Initialize

  function FromYear2010(year: int): bool { year >= 2010 }

  /** Initialize's handling of the prediction file: the `date` column is split
      on '/' as month, day, year; rows predicted 1 from 2010 on are kept, and
      each gets a 9:31 BuySignal on (int(year), int(month), int(day)). */
  function Initialize(rows: seq<Signals.Row>): Result<seq<Scheduled>>
  {
    var kept :- Signals.DateOnlySignals(rows, Signals.MonthDayYear, FromYear2010);
    Signals.ScheduleKept(kept, 9, 31)
  }

  /** Initialize fails exactly when the date column does not split into
      three, a predicted row's year does not cast, or a kept row's month or
      day does not; otherwise it schedules one 9:31 event from 2010 on per
      kept row, in file order. */
  lemma InitializeSpec(rows: seq<Signals.Row>)
    ensures Initialize(rows).Ok? <==>
      && Signals.ThreeColumns(rows, Signals.MonthDayYear)
      && (forall r :: r in rows && Signals.Predicted(r) ==> Signals.YearCastable(r, Signals.MonthDayYear))
      && forall k :: k in Signals.KeptDates(rows, Signals.MonthDayYear, FromYear2010) ==>
           Signals.CastField(k.month).Ok? && Signals.CastField(k.day).Ok?
    ensures Initialize(rows).Ok? ==>
      var kept := Signals.KeptDates(rows, Signals.MonthDayYear, FromYear2010);
      |Initialize(rows).value| == |kept|
      && forall i :: 0 <= i < |kept| ==>
           && kept[i].year >= 2010
           && Initialize(rows).value[i]
              == At(kept[i].year, Signals.CastField(kept[i].month).value, Signals.CastField(kept[i].day).value, 9, 31)
  {
    Signals.DateOnlySignalsSpec(rows, Signals.MonthDayYear, FromYear2010);
    var d := Signals.DateOnlySignals(rows, Signals.MonthDayYear, FromYear2010);
    if d.Ok? {
      var kept := d.value;
      if Initialize(rows).Err? {
        var i :| 0 <= i < |kept| && !(Signals.CastField(kept[i].month).Ok? && Signals.CastField(kept[i].day).Ok?);
        assert kept[i] in kept;
      } else {
        forall i | 0 <= i < |kept| ensures kept[i].year >= 2010 {
          assert kept[i] in kept;
        }
      }
    }
  }

  // ------------------------------------------------------------ algorithm

  /** self.contract: the empty string before a search, None after a search
      that found nothing, or the contract found. */
  datatype Slot = Empty | NotFound | Held(contract: Contract)

  datatype State = State(
    slot: Slot,
    signal: int,                    // buyOptions
    added: set<Contract>,           // contractsAdded
    lastFill: Option<OrderEvent>,   // lastOrderEvent
    orders: seq<Effect>)

  const Start: State := State(Empty, 0, {}, None, [])

  /** CallOptionsFilter: the search result goes into the slot, which is never
      left Empty. It holds the best contract exactly when one qualifies, and
      that contract is remembered in `added` and subscribed to, whether or not
      it was there already. */
  function FilterStep(st: State, contracts: seq<Contract>, price: real, now: int): (r: State)
    ensures r.signal == st.signal && r.lastFill == st.lastFill
    ensures !r.slot.Empty?
    ensures r.slot.Held? <==> exists c :: c in contracts && Candidate(c, price, Criteria, now)
    ensures r.slot.NotFound? <==> forall c :: c in contracts ==> !Candidate(c, price, Criteria, now)
    ensures r.slot.NotFound? ==> r == st.(slot := NotFound)
    ensures r.slot.Held? ==>
      var c := r.slot.contract;
      && c in contracts && Candidate(c, price, Criteria, now)
      && (forall x :: x in contracts && Candidate(x, price, Criteria, now) ==> Better(c, x, DTE, now))
      && r.added == st.added + {c}
      && r.orders == st.orders + [AddOptionContract(c.symbol)]
  {
    SelectSpec(contracts, price, Criteria, now, now);
    match Select(contracts, price, Criteria, now, now)
    case None => st.(slot := NotFound)
    case Some(c) => st.(slot := Held(c), added := st.added + {c}, orders := st.orders + [AddOptionContract(c.symbol)])
  }

  /** BuyCall: an empty slot is filled by a search and nothing is bought; a
      failed search only empties the slot; a held contract is bought, 50 of
      it with the flag lowered, once the slice carries it (`inSlice` is the
      set of symbols the slice carries), and nothing happens before. */
  function BuyCallStep(st: State, contracts: seq<Contract>, price: real, now: int, inSlice: set<Symbol>): (r: State)
    ensures st.slot.Empty? ==> r == FilterStep(st, contracts, price, now)
    ensures st.slot.NotFound? ==> r == st.(slot := Empty)
    ensures st.slot.Held? && st.slot.contract.symbol in inSlice ==>
      r == st.(orders := st.orders + [MarketOrder(st.slot.contract.symbol, ContractAmounts)], signal := 0)
    ensures st.slot.Held? && st.slot.contract.symbol !in inSlice ==> r == st
  {
    match st.slot
    case Empty => FilterStep(st, contracts, price, now)
    case NotFound => st.(slot := Empty)
    case Held(c) =>
      if c.symbol in inSlice then st.(orders := st.orders + [MarketOrder(c.symbol, ContractAmounts)], signal := 0)
      else st
  }

  predicate NearExpiry(c: Contract, now: int)
  {
    c.expiry - now <= Days(DaysBeforeExp)
  }

  /** OnData's close: a held contract within five days of expiry is
      liquidated and the slot emptied; otherwise nothing changes. */
  function CloseStep(b: State, now: int): (r: State)
    ensures b.slot.Held? && NearExpiry(b.slot.contract, now) ==>
      r == b.(orders := b.orders + [Liquidate(b.slot.contract.symbol)], slot := Empty)
    ensures !(b.slot.Held? && NearExpiry(b.slot.contract, now)) ==> r == b
    ensures r.slot.Held? ==> !NearExpiry(r.slot.contract, now)
  {
    if b.slot.Held? && NearExpiry(b.slot.contract, now) then
      b.(orders := b.orders + [Liquidate(b.slot.contract.symbol)], slot := Empty)
    else b
  }

  /** OnData; the slice's time and the algorithm's clock are both `now`. */
  function OnDataStep(st: State, cash: real, contracts: seq<Contract>, price: real, now: int, inSlice: set<Symbol>): State
  {
    var b := if cash > MinCash && st.signal == 1 then BuyCallStep(st, contracts, price, now, inSlice) else st;
    CloseStep(b, now)
  }

  function OnOrderEventStep(st: State, ev: OrderEvent): State
  {
    if ev.status == Filled then st.(lastFill := Some(ev)) else st
  }

  // ------------------------------------------------------------ properties

  /** Some order in the tail of the log is a market order. */
  predicate Buys(log: seq<Effect>)
  {
    exists e :: e in log && e.MarketOrder?
  }

  /** A slice only appends to the order log. It buys exactly when there is
      more than 30000 in cash, the flag is raised, the slot holds a contract
      and the slice carries it; then it buys 50 of that contract and lowers
      the flag. */
  lemma OnDataBuys(st: State, cash: real, contracts: seq<Contract>, price: real, now: int, inSlice: set<Symbol>)
    ensures var r := OnDataStep(st, cash, contracts, price, now, inSlice);
      && |st.orders| <= |r.orders| && r.orders[..|st.orders|] == st.orders
      && (Buys(r.orders[|st.orders|..]) <==>
            cash > MinCash && st.signal == 1 && st.slot.Held? && st.slot.contract.symbol in inSlice)
      && (Buys(r.orders[|st.orders|..]) ==>
            r.orders[|st.orders|] == MarketOrder(st.slot.contract.symbol, ContractAmounts) && r.signal == 0)
      && (r.signal != st.signal ==> Buys(r.orders[|st.orders|..]))
  {
    var n := |st.orders|;
    var b := if cash > MinCash && st.signal == 1 then BuyCallStep(st, contracts, price, now, inSlice) else st;
    var r := OnDataStep(st, cash, contracts, price, now, inSlice);
    var tail := if b.slot.Held? && NearExpiry(b.slot.contract, now) then [Liquidate(b.slot.contract.symbol)] else [];
    assert r.orders == b.orders + tail by {
      if tail == [] { assert b.orders + tail == b.orders; }
    }
    if cash > MinCash && st.signal == 1 && st.slot.Held? && st.slot.contract.symbol in inSlice {
      var m := MarketOrder(st.slot.contract.symbol, ContractAmounts);
      assert r.orders == st.orders + ([m] + tail);
      assert r.orders[n..] == [m] + tail;
      assert m in r.orders[n..];
    } else if cash > MinCash && st.signal == 1 && st.slot.Empty? {
      var f := FilterStep(st, contracts, price, now);
      var extra := f.orders[n..];
      assert f.orders == st.orders + extra;
      assert r.orders == st.orders + (extra + tail);
      assert r.orders[n..] == extra + tail;
      assert !Buys(extra + tail);
    } else {
      assert r.orders == st.orders + tail;
      assert r.orders[n..] == tail;
    }
  }

  /** The slot is filled by a search at one call and bought from at a later
      one: a slice that starts with no contract in the slot buys nothing. */
  lemma NoBuyWithoutHeldContract(st: State, cash: real, contracts: seq<Contract>, price: real, now: int, inSlice: set<Symbol>)
    requires !st.slot.Held?
    ensures var r := OnDataStep(st, cash, contracts, price, now, inSlice);
      !Buys(r.orders[|st.orders|..]) && r.signal == st.signal
  {
    OnDataBuys(st, cash, contracts, price, now, inSlice);
  }

  /** After a slice, the slot never holds a contract within five days of
      expiry. A contract held that close is liquidated, last, and the slot
      emptied, whether or not the slice also bought it; a contract held
      farther from expiry stays in the slot. */
  lemma SlotNeverNearExpiry(st: State, cash: real, contracts: seq<Contract>, price: real, now: int, inSlice: set<Symbol>)
    ensures var r := OnDataStep(st, cash, contracts, price, now, inSlice);
      && (r.slot.Held? ==> !NearExpiry(r.slot.contract, now))
      && (st.slot.Held? && NearExpiry(st.slot.contract, now) ==>
            && r.slot.Empty? && |r.orders| > |st.orders|
            && r.orders[|r.orders| - 1] == Liquidate(st.slot.contract.symbol))
      && (st.slot.Held? && !NearExpiry(st.slot.contract, now) ==> r.slot == st.slot)
  {
    var b := if cash > MinCash && st.signal == 1 then BuyCallStep(st, contracts, price, now, inSlice) else st;
    if st.slot.Held? {
      assert b.slot == st.slot && |b.orders| >= |st.orders|;
    }
  }

  /** Every contract the algorithm has held was subscribed to and remembered. */
  ghost predicate Tracked(st: State)
  {
    st.slot.Held? ==> st.slot.contract in st.added && AddOptionContract(st.slot.contract.symbol) in st.orders
  }

  /** lastOrderEvent only ever holds a fill. */
  ghost predicate LastIsFill(st: State)
  {
    st.lastFill.Some? ==> st.lastFill.value.status == Filled
  }

  /** `added` only grows, and a slice keeps the algorithm's invariants. */
  lemma OnDataKeepsInvariants(st: State, cash: real, contracts: seq<Contract>, price: real, now: int, inSlice: set<Symbol>)
    requires Tracked(st) && LastIsFill(st)
    ensures var r := OnDataStep(st, cash, contracts, price, now, inSlice);
      && st.added <= r.added
      && (forall c :: c in r.added - st.added ==> c in contracts && Candidate(c, price, Criteria, now))
      && Tracked(r) && LastIsFill(r)
  {
    OnDataBuys(st, cash, contracts, price, now, inSlice);
    var r := OnDataStep(st, cash, contracts, price, now, inSlice);
    if r.slot.Held? && r.slot == st.slot {
      assert AddOptionContract(r.slot.contract.symbol) in r.orders[..|st.orders|];
    }
  }

  /** Only a fill is recorded; any other event changes nothing. */
  lemma OnOrderEventSpec(st: State, ev: OrderEvent)
    requires LastIsFill(st)
    ensures var r := OnOrderEventStep(st, ev);
      && LastIsFill(r)
      && (ev.status == Filled ==> r.lastFill == Some(ev))
      && (ev.status != Filled ==> r == st)
      && r.(lastFill := st.lastFill) == st
  {
  }

  lemma StartKeepsInvariants()
    ensures Tracked(Start) && LastIsFill(Start)
  {
  }

  // ------------------------------------------------------------ the class

  class Algorithm {
    var contract: Slot
    var contractsAdded: set<Contract>
    var buyOptions: int
    var lastOrderEvent: Option<OrderEvent>
    var orders: seq<Effect>

    function Snapshot(): State
      reads this
    {
      State(contract, buyOptions, contractsAdded, lastOrderEvent, orders)
    }

    constructor ()
      ensures Snapshot() == Start
    {
      contract, contractsAdded, buyOptions := Empty, {}, 0;
      lastOrderEvent, orders := None, [];
    }

    method BuySignal()
      modifies this
      ensures Snapshot() == old(Snapshot()).(signal := 1)
    {
      buyOptions := 1;
    }

    /** Returns the search's result and subscribes to a contract found. */
    method CallOptionsFilter(contracts: seq<Contract>, price: real, now: int) returns (found: Option<Contract>)
      modifies this
      ensures found == Select(contracts, price, Criteria, now, now)
      ensures contract == old(contract) && buyOptions == old(buyOptions) && lastOrderEvent == old(lastOrderEvent)
      ensures found.None? ==> contractsAdded == old(contractsAdded) && orders == old(orders)
      ensures found.Some? ==>
        && contractsAdded == old(contractsAdded) + {found.value}
        && orders == old(orders) + [AddOptionContract(found.value.symbol)]
    {
      var calls := Candidates(contracts, price, Criteria, now);
      if |calls| > 0 {
        var c := Rank(calls, price, DTE, now)[0];
        if c !in contractsAdded {
          contractsAdded := contractsAdded + {c};
          orders := orders + [AddOptionContract(c.symbol)];
        } else {
          orders := orders + [AddOptionContract(c.symbol)];
        }
        found := Some(c);
      } else {
        found := None;
      }
    }

    method BuyCall(contracts: seq<Contract>, price: real, now: int, inSlice: set<Symbol>)
      modifies this
      ensures Snapshot() == BuyCallStep(old(Snapshot()), contracts, price, now, inSlice)
    {
      if contract == Empty {
        var found := CallOptionsFilter(contracts, price, now);
        contract := if found.Some? then Held(found.value) else NotFound;
        return;
      } else if contract == NotFound {
        contract := Empty;
      } else if contract.contract.symbol in inSlice {
        orders := orders + [MarketOrder(contract.contract.symbol, ContractAmounts)];
        buyOptions := 0;
      }
    }

    method OnData(cash: real, contracts: seq<Contract>, price: real, now: int, inSlice: set<Symbol>)
      modifies this
      ensures Snapshot() == OnDataStep(old(Snapshot()), cash, contracts, price, now, inSlice)
    {
      if cash > MinCash && buyOptions == 1 {
        BuyCall(contracts, price, now, inSlice);
      }
      if contract.Held? {
        if NearExpiry(contract.contract, now) {
          orders := orders + [Liquidate(contract.contract.symbol)];
          contract := Empty;
        }
      }
    }

    method OnOrderEvent(ev: OrderEvent)
      modifies this
      ensures Snapshot() == OnOrderEventStep(old(Snapshot()), ev)
    {
      if ev.status == Filled {
        lastOrderEvent := Some(ev);
      }
    }
  }
}
