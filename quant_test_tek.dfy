/** Kevin/quantTest_tek.py: once warmed up, whenever the VIX rank is above
    0.25, searches the underlying's option contracts for a call at most 10%
    out of the money with more than 30 and fewer than 90 days left, buys 20
    of it on a later slice that carries it while it is not held, and closes
    it three days before expiry. */
module QuantTestTek {
  import opened Base
  import opened ChainProvider

  const DaysBeforeExp: int := 3
  const DTE: int := 60
  const OTM: real := 0.10
  /** The VIX rank above which OnData goes on to BuyCall. */
  const IVLevel: real := 0.25
  const ContractAmounts: int := 20

  /** OptionsFilter's settings: DTE - 30 < days < DTE + 30. */
  const Criteria: Search := Search(OTM, DTE - 30, DTE + 30, DTE)

  /** self.contract is the empty string (None here) or a contract; a search
      that finds nothing leaves the empty string. */
  datatype State = State(
    contract: Option<Contract>,
    added: set<Contract>,           // contractsAdded
    orders: seq<Effect>)

  const Start: State := State(None, {}, [])

  /** OptionsFilter: the search result goes into the slot; a contract found
      is subscribed to only the first time it is found. */
  function FilterStep(st: State, contracts: seq<Contract>, price: real, now: int): (r: State)
    ensures r.contract.None? <==> forall c :: c in contracts ==> !Candidate(c, price, Criteria, now)
    ensures r.contract.None? ==> r == st.(contract := None)
    ensures r.contract.Some? ==>
      var c := r.contract.value;
      && c in contracts && Candidate(c, price, Criteria, now)
      && (forall x :: x in contracts && Candidate(x, price, Criteria, now) ==> Better(c, x, DTE, now))
      && r.added == st.added + {c}
      && r.orders == st.orders + (if c in st.added then [] else [AddOptionContract(c.symbol)])
  {
    SelectSpec(contracts, price, Criteria, now, now);
    match Select(contracts, price, Criteria, now, now)
    case None => st.(contract := None)
    case Some(c) =>
      if c in st.added then st.(contract := Some(c))
      else st.(contract := Some(c), added := st.added + {c}, orders := st.orders + [AddOptionContract(c.symbol)])
  }

  /** BuyCall: an empty slot is filled by a search and nothing is bought; a
      contract in the slot is bought when the portfolio does not hold it
      (`invested`) and the slice carries it (`inSlice`). */
  function BuyCallStep(st: State, contracts: seq<Contract>, price: real, now: int,
                       invested: set<Symbol>, inSlice: set<Symbol>): (r: State)
    ensures st.contract.None? ==> r == FilterStep(st, contracts, price, now)
    ensures st.contract.Some? && st.contract.value.symbol !in invested && st.contract.value.symbol in inSlice ==>
      r == st.(orders := st.orders + [MarketOrder(st.contract.value.symbol, ContractAmounts)])
    ensures st.contract.Some? && !(st.contract.value.symbol !in invested && st.contract.value.symbol in inSlice) ==>
      r == st
  {
    match st.contract
    case None => FilterStep(st, contracts, price, now)
    case Some(c) =>
      if c.symbol !in invested && c.symbol in inSlice then st.(orders := st.orders + [MarketOrder(c.symbol, ContractAmounts)])
      else st
  }

  predicate NearExpiry(c: Contract, now: int)
  {
    c.expiry - now <= Days(DaysBeforeExp)
  }

  predicate Buys(log: seq<Effect>)
  {
    exists e :: e in log && e.MarketOrder?
  }

  /** OnData's last part: a contract in the slot that is within three days
      of expiry is liquidated and the slot emptied; a contract farther from
      expiry, or an empty slot, leaves everything as it was. Nothing is
      bought. */
  function CloseNearExpiry(b: State, now: int): (r: State)
    ensures b.contract.Some? && NearExpiry(b.contract.value, now) ==>
      r == b.(orders := b.orders + [Liquidate(b.contract.value.symbol)], contract := None)
    ensures !(b.contract.Some? && NearExpiry(b.contract.value, now)) ==> r == b
    ensures r.added == b.added
    ensures r.contract.Some? ==> r.contract == b.contract && !NearExpiry(r.contract.value, now)
    ensures |b.orders| <= |r.orders| && r.orders[..|b.orders|] == b.orders && !Buys(r.orders[|b.orders|..])
  {
    if b.contract.Some? && NearExpiry(b.contract.value, now) then
      var r := b.(orders := b.orders + [Liquidate(b.contract.value.symbol)], contract := None);
      assert r.orders[|b.orders|..] == [Liquidate(b.contract.value.symbol)];
      r
    else b
  }

  /** OnData; `rank` is the value VIXRank last stored, and the slice's time
      and the algorithm's clock are both `now`. */
  function OnDataStep(st: State, warmingUp: bool, rank: real, contracts: seq<Contract>, price: real, now: int,
                      invested: set<Symbol>, inSlice: set<Symbol>): State
  {
    if warmingUp then st
    else
      var b := if rank > IVLevel then BuyCallStep(st, contracts, price, now, invested, inSlice) else st;
      CloseNearExpiry(b, now)
  }

  // ------------------------------------------------------------ properties

  /** BuyCall appends to the log, and buys exactly when the slot holds a
      contract the portfolio does not hold and the slice carries it. */
  lemma BuyCallBuys(st: State, contracts: seq<Contract>, price: real, now: int, invested: set<Symbol>, inSlice: set<Symbol>)
    ensures var b := BuyCallStep(st, contracts, price, now, invested, inSlice);
      && |st.orders| <= |b.orders| && b.orders[..|st.orders|] == st.orders
      && (if st.contract.Some? && st.contract.value.symbol !in invested && st.contract.value.symbol in inSlice
          then b.orders[|st.orders|..] == [MarketOrder(st.contract.value.symbol, ContractAmounts)]
          else !Buys(b.orders[|st.orders|..]))
  {
    var n := |st.orders|;
    var b := BuyCallStep(st, contracts, price, now, invested, inSlice);
    if st.contract.None? {
      var f := FilterStep(st, contracts, price, now);
      assert f.orders == st.orders || f.orders == st.orders + [AddOptionContract(f.contract.value.symbol)];
      assert b.orders[n..] == [] || b.orders[n..] == [AddOptionContract(f.contract.value.symbol)];
    } else if st.contract.value.symbol !in invested && st.contract.value.symbol in inSlice {
      assert b.orders == st.orders + [MarketOrder(st.contract.value.symbol, ContractAmounts)];
    } else {
      assert b.orders[n..] == [];
    }
  }

  /** A slice only appends to the order log. During warm-up it does nothing;
      afterwards it buys exactly when the rank is above 0.25, the slot holds
      a contract the portfolio does not hold and the slice carries it, and it
      then buys 20 of that contract. */
  lemma OnDataBuys(st: State, warmingUp: bool, rank: real, contracts: seq<Contract>, price: real, now: int,
                   invested: set<Symbol>, inSlice: set<Symbol>)
    ensures var r := OnDataStep(st, warmingUp, rank, contracts, price, now, invested, inSlice);
      && (warmingUp ==> r == st)
      && |st.orders| <= |r.orders| && r.orders[..|st.orders|] == st.orders
      && (Buys(r.orders[|st.orders|..]) <==>
            && !warmingUp && rank > IVLevel && st.contract.Some?
            && st.contract.value.symbol !in invested && st.contract.value.symbol in inSlice)
      && (Buys(r.orders[|st.orders|..]) ==>
            r.orders[|st.orders|] == MarketOrder(st.contract.value.symbol, ContractAmounts))
  {
    var n := |st.orders|;
    if !warmingUp {
      var b := if rank > IVLevel then BuyCallStep(st, contracts, price, now, invested, inSlice) else st;
      BuyCallBuys(st, contracts, price, now, invested, inSlice);
      var r := CloseNearExpiry(b, now);
      assert OnDataStep(st, warmingUp, rank, contracts, price, now, invested, inSlice) == r;
      LogExtends(st.orders, b.orders, r.orders);
      if rank > IVLevel && st.contract.Some? && st.contract.value.symbol !in invested && st.contract.value.symbol in inSlice {
        assert b.orders[n..][0] in b.orders[n..];
      } else if rank <= IVLevel {
        assert b.orders[n..] == [];
      }
    }
  }

  /** A log extended twice, the second time without a buy, buys after its
      first part exactly when the first extension does. */
  lemma LogExtends(s: seq<Effect>, b: seq<Effect>, r: seq<Effect>)
    requires |s| <= |b| && b[..|s|] == s
    requires |b| <= |r| && r[..|b|] == b && !Buys(r[|b|..])
    ensures |s| <= |r| && r[..|s|] == s
    ensures Buys(r[|s|..]) <==> Buys(b[|s|..])
    ensures |s| < |b| ==> r[|s|] == b[|s|]
  {
    assert r[..|s|] == r[..|b|][..|s|];
    assert r[|s|..] == b[|s|..] + r[|b|..];
    BuysAppend(b[|s|..], r[|b|..]);
  }

  lemma BuysAppend(a: seq<Effect>, b: seq<Effect>)
    requires !Buys(b)
    ensures Buys(a + b) <==> Buys(a)
  {
    if Buys(a + b) {
      var e :| e in a + b && e.MarketOrder?;
      assert e in a || e in b;
    }
  }

  /** A contract is subscribed to at most once: every subscription a slice
      makes is for a contract it newly remembers. */
  lemma SubscribesOnce(st: State, warmingUp: bool, rank: real, contracts: seq<Contract>, price: real, now: int,
                       invested: set<Symbol>, inSlice: set<Symbol>)
    ensures var r := OnDataStep(st, warmingUp, rank, contracts, price, now, invested, inSlice);
      && st.added <= r.added
      && (forall c :: c in r.added - st.added ==> c in contracts && Candidate(c, price, Criteria, now))
      && forall e :: e in r.orders[|st.orders|..] && e.AddOptionContract? ==>
           exists c :: c in r.added - st.added && e.symbol == c.symbol
  {
    var n := |st.orders|;
    if !warmingUp {
      var b := if rank > IVLevel then BuyCallStep(st, contracts, price, now, invested, inSlice) else st;
      var r := CloseNearExpiry(b, now);
      assert OnDataStep(st, warmingUp, rank, contracts, price, now, invested, inSlice) == r;
      if rank > IVLevel && st.contract.None? {
        var f := FilterStep(st, contracts, price, now);
        // a contract found has more than 30 days left, so it is not closed on this slice
        assert b == f && r == f;
        if f.contract.Some? && f.contract.value !in st.added {
          var c := f.contract.value;
          assert r.orders[n..] == [AddOptionContract(c.symbol)];
          assert c in r.added - st.added;
        } else {
          assert r.orders[n..] == [];
        }
      } else {
        assert b.added == st.added;
        var extra := if b.orders == st.orders then [] else [MarketOrder(st.contract.value.symbol, ContractAmounts)];
        assert b.orders == st.orders + extra;
        var tail := if b.contract.Some? && NearExpiry(b.contract.value, now) then [Liquidate(b.contract.value.symbol)] else [];
        assert r.orders == b.orders + tail;
        assert r.orders[n..] == extra + tail;
      }
    }
  }

  /** Every contract in the slot has been remembered and subscribed to. */
  ghost predicate Tracked(st: State)
  {
    st.contract.Some? ==> st.contract.value in st.added && AddOptionContract(st.contract.value.symbol) in st.orders
  }

  /** Remembered contracts have all been subscribed to. */
  ghost predicate Subscribed(st: State)
  {
    forall c :: c in st.added ==> AddOptionContract(c.symbol) in st.orders
  }

  /** A slice keeps both invariants, and never leaves a contract within three
      days of expiry in the slot. */
  lemma OnDataKeepsInvariants(st: State, warmingUp: bool, rank: real, contracts: seq<Contract>, price: real, now: int,
                              invested: set<Symbol>, inSlice: set<Symbol>)
    requires Tracked(st) && Subscribed(st)
    ensures var r := OnDataStep(st, warmingUp, rank, contracts, price, now, invested, inSlice);
      && Tracked(r) && Subscribed(r)
      && (r.contract.Some? ==> warmingUp || !NearExpiry(r.contract.value, now))
  {
    if !warmingUp {
      var b := if rank > IVLevel then BuyCallStep(st, contracts, price, now, invested, inSlice) else st;
      var r := CloseNearExpiry(b, now);
      assert OnDataStep(st, warmingUp, rank, contracts, price, now, invested, inSlice) == r;
      BuyCallBuys(st, contracts, price, now, invested, inSlice);
      assert |st.orders| <= |b.orders| && b.orders[..|st.orders|] == st.orders;
      PrefixMembers(st.orders, b.orders);
      PrefixMembers(b.orders, r.orders);
      if rank > IVLevel && st.contract.None? {
        var f := FilterStep(st, contracts, price, now);
        assert b == f;
        if f.contract.Some? {
          assert AddOptionContract(f.contract.value.symbol) in f.orders;
        }
      }
    }
  }

  lemma PrefixMembers<T>(s: seq<T>, r: seq<T>)
    requires |s| <= |r| && r[..|s|] == s
    ensures forall e :: e in s ==> e in r
  {
    forall e | e in s ensures e in r {
      var i :| 0 <= i < |s| && s[i] == e;
      assert r[i] == e;
    }
  }

  lemma StartKeepsInvariants()
    ensures Tracked(Start) && Subscribed(Start)
  {
  }

  // ------------------------------------------------------------ the class

  class Algorithm {
    var contract: Option<Contract>
    var contractsAdded: set<Contract>
    var orders: seq<Effect>

    function Snapshot(): State
      reads this
    {
      State(contract, contractsAdded, orders)
    }

    constructor ()
      ensures Snapshot() == Start
    {
      contract, contractsAdded, orders := None, {}, [];
    }

    method OptionsFilter(contracts: seq<Contract>, price: real, now: int) returns (found: Option<Contract>)
      modifies this
      ensures found == Select(contracts, price, Criteria, now, now)
      ensures contract == old(contract)
      ensures found.None? ==> contractsAdded == old(contractsAdded) && orders == old(orders)
      ensures found.Some? ==>
        && contractsAdded == old(contractsAdded) + {found.value}
        && orders == old(orders) + (if found.value in old(contractsAdded) then [] else [AddOptionContract(found.value.symbol)])
    {
      var calls := Candidates(contracts, price, Criteria, now);
      if |calls| > 0 {
        var c := Rank(calls, price, DTE, now)[0];
        if c !in contractsAdded {
          contractsAdded := contractsAdded + {c};
          orders := orders + [AddOptionContract(c.symbol)];
        }
        found := Some(c);
      } else {
        found := None;
      }
    }

    method BuyCall(contracts: seq<Contract>, price: real, now: int, invested: set<Symbol>, inSlice: set<Symbol>)
      modifies this
      ensures Snapshot() == BuyCallStep(old(Snapshot()), contracts, price, now, invested, inSlice)
    {
      if contract.None? {
        contract := OptionsFilter(contracts, price, now);
        return;
      } else if contract.value.symbol !in invested && contract.value.symbol in inSlice {
        orders := orders + [MarketOrder(contract.value.symbol, ContractAmounts)];
      }
    }

    method OnData(warmingUp: bool, rank: real, contracts: seq<Contract>, price: real, now: int,
                  invested: set<Symbol>, inSlice: set<Symbol>)
      modifies this
      ensures Snapshot() == OnDataStep(old(Snapshot()), warmingUp, rank, contracts, price, now, invested, inSlice)
    {
      if warmingUp {
        return;
      }
      if rank > IVLevel {
        BuyCall(contracts, price, now, invested, inSlice);
      }
      if contract.Some? {
        if NearExpiry(contract.value, now) {
          orders := orders + [Liquidate(contract.value.symbol)];
          contract := None;
        }
      }
    }
  }
}
