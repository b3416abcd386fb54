/** The contract search shared by Kevin/Archive/qc_CallOptions.py,
    Kevin/quantTest_tek.py and Kevin/qc_CallOptions.py, which list the
    contracts of the underlying with the host's OptionChainProvider.

    A candidate is a call whose strike lies at most OTM times the price above
    the price, with a number of whole days to expiry strictly between two
    bounds. The candidates are sorted by how far their days to expiry are
    from the target DTE, then (stably) by price minus strike, and the first
    is taken.

    The candidate test measures days from the slice's time, the ranking from
    the algorithm's clock; both are parameters. */
module ChainProvider {
  import opened Base
  import opened Sorting

  /** The script's search settings. */
  datatype Search = Search(otm: real, minDays: int, maxDays: int, dte: int)

  /** (expiry - t).days */
  function DaysLeft(c: Contract, t: int): int { WholeDays(c.expiry - t) }

  predicate Candidate(c: Contract, price: real, s: Search, dataTime: int)
  {
    && c.right == Call
    && c.strike - price <= s.otm * price
    && s.minDays < DaysLeft(c, dataTime) < s.maxDays
  }

  function Candidates(contracts: seq<Contract>, price: real, s: Search, dataTime: int): seq<Contract>
  {
    Filter(contracts, (c: Contract) => Candidate(c, price, s, dataTime))
  }

  function DteKey(dte: int, now: int): Contract -> real
  {
    (c: Contract) => AbsInt(DaysLeft(c, now) - dte) as real
  }

  function OtmKey(price: real): Contract -> real { (c: Contract) => price - c.strike }

  function Rank(calls: seq<Contract>, price: real, dte: int, now: int): seq<Contract>
  {
    SortBy(SortBy(calls, DteKey(dte, now)), OtmKey(price))
  }

  /** a ranks no later than b: the higher strike, then the expiry nearer the
      target number of days. */
  predicate Better(a: Contract, b: Contract, dte: int, now: int)
  {
    a.strike > b.strike
    || (a.strike == b.strike && AbsInt(DaysLeft(a, now) - dte) <= AbsInt(DaysLeft(b, now) - dte))
  }

  lemma RankOrdered(calls: seq<Contract>, price: real, dte: int, now: int)
    ensures multiset(Rank(calls, price, dte, now)) == multiset(calls)
    ensures SortedLex(Rank(calls, price, dte, now), [OtmKey(price), DteKey(dte, now)])
  {
    var k1, k2 := DteKey(dte, now), OtmKey(price);
    AnySorted(calls);
    SortByRefines(calls, k1, []);
    SortByRefines(SortBy(calls, k1), k2, [k1]);
    assert [k1] + [] == [k1];
    assert [k2] + [k1] == [OtmKey(price), DteKey(dte, now)];
  }

  lemma BetterIsLex(a: Contract, b: Contract, price: real, dte: int, now: int)
    ensures LexLe([OtmKey(price), DteKey(dte, now)], a, b) <==> Better(a, b, dte, now)
  {
    var k1, k2 := OtmKey(price), DteKey(dte, now);
    var ks := [k1, k2];
    assert ks[1..] == [k2] && [k2][1..] == [];
    assert LexLe([k2], a, b) <==> k2(a) <= k2(b);
    assert LexLe(ks, a, b) <==> k1(a) < k1(b) || (k1(a) == k1(b) && k2(a) <= k2(b));
    assert k1(a) < k1(b) <==> a.strike > b.strike;
    assert k1(a) == k1(b) <==> a.strike == b.strike;
  }

  /** The head of the ranking is one of the calls and ranks no later than any
      of them. */
  lemma RankHeadBest(calls: seq<Contract>, price: real, dte: int, now: int)
    requires calls != []
    ensures Rank(calls, price, dte, now)[0] in calls
    ensures forall x :: x in calls ==> Better(Rank(calls, price, dte, now)[0], x, dte, now)
  {
    var r := Rank(calls, price, dte, now);
    var ks := [OtmKey(price), DteKey(dte, now)];
    RankOrdered(calls, price, dte, now);
    HeadIsMinimal(r, ks);
    assert r[0] in multiset(r);
    forall x | x in calls ensures Better(r[0], x, dte, now) {
      assert x in multiset(r);
      BetterIsLex(r[0], x, price, dte, now);
    }
  }

  /** The contract the search settles on, if any call qualifies. */
  function Select(contracts: seq<Contract>, price: real, s: Search, dataTime: int, now: int): Option<Contract>
  {
    var calls := Candidates(contracts, price, s, dataTime);
    if calls == [] then None else Some(Rank(calls, price, s.dte, now)[0])
  }

  /** The search finds nothing exactly when no contract qualifies; otherwise
      it finds a qualifying contract with the highest strike, and among those
      one nearest the target number of days. */
  lemma SelectSpec(contracts: seq<Contract>, price: real, s: Search, dataTime: int, now: int)
    ensures Select(contracts, price, s, dataTime, now).None? <==>
      forall c :: c in contracts ==> !Candidate(c, price, s, dataTime)
    ensures Select(contracts, price, s, dataTime, now).Some? ==>
      var c := Select(contracts, price, s, dataTime, now).value;
      && c in contracts && Candidate(c, price, s, dataTime)
      && forall x :: x in contracts && Candidate(x, price, s, dataTime) ==> Better(c, x, s.dte, now)
  {
    var calls := Candidates(contracts, price, s, dataTime);
    if calls != [] {
      RankHeadBest(calls, price, s.dte, now);
      assert calls[0] in contracts && Candidate(calls[0], price, s, dataTime);
    } else {
      forall c | c in contracts ensures !Candidate(c, price, s, dataTime) {
        var i :| 0 <= i < |contracts| && contracts[i] == c;
      }
    }
  }
}
