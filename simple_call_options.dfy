/** Kevin/simple_qc_CallOptions.py: while nothing is held, on each slice
    carrying the underlying, buys one call at least 10% out of the money,
    the one with the lowest strike and, among those, the earliest expiry. */
module SimpleCallOptions {
  import opened Base
  import opened Sorting

  /** The strike a candidate must reach: price + 0.1 * price. */
  function Over(price: real): real { price + 0.1 * price }

  /** The comprehension's test. Its day bound is the chained comparison
      `28 < days > 35`, that is `28 < days and days > 35`. */
  predicate Candidate(c: Contract, price: real, dataTime: int)
  {
    var days := WholeDays(c.expiry - dataTime);
    c.right == Call && c.strike >= Over(price) && 28 < days && days > 35
  }

  /** The chained day bound only asks for more than 35 days. */
  lemma DayBoundIsOver35(c: Contract, price: real, dataTime: int)
    ensures Candidate(c, price, dataTime) <==>
      c.right == Call && c.strike >= Over(price) && WholeDays(c.expiry - dataTime) > 35
  {
  }

  function Candidates(contracts: seq<Contract>, price: real, dataTime: int): seq<Contract>
  {
    Filter(contracts, (c: Contract) => Candidate(c, price, dataTime))
  }

  function ExpiryKey(c: Contract): real { c.expiry as real }
  function StrikeKey(c: Contract): real { c.strike }

  /** The head of the candidates sorted by expiry and then, stably, by strike. */
  function Pick(calls: seq<Contract>): Contract
    requires calls != []
  {
    SortBy(SortBy(calls, ExpiryKey), StrikeKey)[0]
  }

  /** a ranks no later than b: the lower strike, then the earlier expiry. */
  predicate Cheaper(a: Contract, b: Contract)
  {
    a.strike < b.strike || (a.strike == b.strike && a.expiry <= b.expiry)
  }

  lemma CheaperIsLex(a: Contract, b: Contract)
    ensures LexLe([StrikeKey, ExpiryKey], a, b) <==> Cheaper(a, b)
  {
    var ks := [StrikeKey, ExpiryKey];
    assert ks[1..] == [ExpiryKey] && [ExpiryKey][1..] == [];
    assert LexLe([ExpiryKey], a, b) <==> a.expiry <= b.expiry;
  }

  /** The pick is one of the calls, with the lowest strike and, among
      those, the earliest expiry. */
  lemma PickCheapest(calls: seq<Contract>)
    requires calls != []
    ensures Pick(calls) in calls
    ensures forall x :: x in calls ==> Cheaper(Pick(calls), x)
  {
    var s1 := SortBy(calls, ExpiryKey);
    var r := SortBy(s1, StrikeKey);
    AnySorted(calls);
    SortByRefines(calls, ExpiryKey, []);
    assert [ExpiryKey] + [] == [ExpiryKey];
    SortByRefines(s1, StrikeKey, [ExpiryKey]);
    assert [StrikeKey] + [ExpiryKey] == [StrikeKey, ExpiryKey];
    HeadIsMinimal(r, [StrikeKey, ExpiryKey]);
    assert r[0] in multiset(r);
    forall x | x in calls ensures Cheaper(r[0], x) {
      assert x in multiset(r);
      CheaperIsLex(r[0], x);
    }
  }

  /** OnData: the host calls it makes. `invested` is Portfolio.Invested and
      `hasEquity` whether the slice carries the underlying. */
  function OnData(invested: bool, hasEquity: bool, contracts: seq<Contract>, price: real, dataTime: int): seq<Effect>
  {
    if invested || !hasEquity then []
    else
      var calls := Candidates(contracts, price, dataTime);
      if |calls| == 0 then []
      else
        var c := Pick(calls);
        [AddOptionContract(c.symbol), MarketOrder(c.symbol, 1)]
  }

  /** A slice orders nothing while anything is held, when it does not carry
      the underlying, or when no contract qualifies; otherwise it subscribes
      to the cheapest qualifying call and buys one of it. */
  lemma OnDataSpec(invested: bool, hasEquity: bool, contracts: seq<Contract>, price: real, dataTime: int)
    ensures var effects := OnData(invested, hasEquity, contracts, price, dataTime);
      && (effects == [] <==>
            invested || !hasEquity || forall c :: c in contracts ==> !Candidate(c, price, dataTime))
      && (effects != [] ==>
            exists c ::
              && c in contracts && Candidate(c, price, dataTime)
              && (forall x :: x in contracts && Candidate(x, price, dataTime) ==> Cheaper(c, x))
              && effects == [AddOptionContract(c.symbol), MarketOrder(c.symbol, 1)])
  {
    var calls := Candidates(contracts, price, dataTime);
    if !invested && hasEquity {
      if |calls| == 0 {
        forall c | c in contracts ensures !Candidate(c, price, dataTime) {
          var i :| 0 <= i < |contracts| && contracts[i] == c;
        }
      } else {
        PickCheapest(calls);
        var c := Pick(calls);
        assert c in contracts && Candidate(c, price, dataTime);
        assert forall x :: x in contracts && Candidate(x, price, dataTime) ==> x in calls;
        assert calls[0] in contracts && Candidate(calls[0], price, dataTime);
      }
    }
  }
}
