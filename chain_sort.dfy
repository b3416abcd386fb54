/** The option-chain ranking shared by Kevin/Archive/nn_call_underlyingTrailStop.py,
    Kevin/nn_call_underlyingTrailStop.py and Kevin/qc_Call_StopLoss.py: three
    chained stable sorts of the chain, first by the distance between the
    underlying's price and the strike, then by expiry in descending order,
    then by the option right.

    The archived script sorts the distance in descending order, the other
    two in ascending order. */
module ChainSort {
  import opened Base
  import opened Sorting

  /** The option chain a slice holds for the script's option symbol. */
  datatype Chain = Chain(underlyingPrice: real, contracts: seq<Contract>)

  function Distance(u: real, c: Contract): real { Abs(u - c.strike) }

  function DistanceKey(u: real, farthestFirst: bool): Contract -> real
  {
    if farthestFirst then (c: Contract) => -Distance(u, c) else (c: Contract) => Distance(u, c)
  }

  /** reverse=True on the expiry: the latest expiry first. */
  function ExpiryKey(): Contract -> real { (c: Contract) => -(c.expiry as real) }

  function RightKey(): Contract -> real { (c: Contract) => RightOrdinal(c.right) as real }

  function ChainKeys(u: real, farthestFirst: bool): seq<Contract -> real>
  {
    [RightKey(), ExpiryKey(), DistanceKey(u, farthestFirst)]
  }

  /** The three chained stable sorts. */
  function SortChain(chain: Chain, farthestFirst: bool): seq<Contract>
  {
    var u := chain.underlyingPrice;
    SortBy(SortBy(SortBy(chain.contracts, DistanceKey(u, farthestFirst)), ExpiryKey()), RightKey())
  }

  /** a ranks no later than b: calls before puts, then the later expiry, then
      the farther (or nearer) strike. */
  predicate Precedes(u: real, farthestFirst: bool, a: Contract, b: Contract)
  {
    || (a.right == Call && b.right == Put)
    || (a.right == b.right &&
        (|| a.expiry > b.expiry
         || (a.expiry == b.expiry &&
             if farthestFirst then Distance(u, a) >= Distance(u, b) else Distance(u, a) <= Distance(u, b))))
  }

  lemma PrecedesIsLex(u: real, farthestFirst: bool, a: Contract, b: Contract)
    ensures LexLe(ChainKeys(u, farthestFirst), a, b) <==> Precedes(u, farthestFirst, a, b)
  {
    var ks := ChainKeys(u, farthestFirst);
    var k3 := DistanceKey(u, farthestFirst);
    assert ks[1..] == [ExpiryKey(), k3];
    assert ks[1..][1..] == [k3];
    assert ks[1..][1..][1..] == [];
    assert LexLe([k3], a, b) <==> k3(a) <= k3(b);
    assert LexLe([ExpiryKey(), k3], a, b) <==> a.expiry > b.expiry || (a.expiry == b.expiry && k3(a) <= k3(b));
    assert RightOrdinal(a.right) == RightOrdinal(b.right) <==> a.right == b.right;
    assert RightOrdinal(a.right) < RightOrdinal(b.right) <==> a.right == Call && b.right == Put;
    if farthestFirst {
      assert k3(a) <= k3(b) <==> Distance(u, a) >= Distance(u, b);
    } else {
      assert k3(a) <= k3(b) <==> Distance(u, a) <= Distance(u, b);
    }
  }

  lemma SortChainLex(chain: Chain, farthestFirst: bool)
    ensures SortedLex(SortChain(chain, farthestFirst), ChainKeys(chain.underlyingPrice, farthestFirst))
  {
    var u := chain.underlyingPrice;
    ThreeSorts(chain.contracts, DistanceKey(u, farthestFirst), ExpiryKey(), RightKey());
  }

  /** The chained sorts rearrange the chain and leave it ordered by Precedes. */
  lemma SortChainOrdered(chain: Chain, farthestFirst: bool)
    ensures multiset(SortChain(chain, farthestFirst)) == multiset(chain.contracts)
    ensures forall i, j :: 0 <= i < j < |SortChain(chain, farthestFirst)| ==>
      Precedes(chain.underlyingPrice, farthestFirst, SortChain(chain, farthestFirst)[i], SortChain(chain, farthestFirst)[j])
  {
    var s3 := SortChain(chain, farthestFirst);
    SortChainLex(chain, farthestFirst);
    forall i, j | 0 <= i < j < |s3| ensures Precedes(chain.underlyingPrice, farthestFirst, s3[i], s3[j]) {
      PrecedesIsLex(chain.underlyingPrice, farthestFirst, s3[i], s3[j]);
    }
  }

  /** The head of the sorted chain is a contract of the chain that ranks no
      later than any other. */
  lemma SortChainHeadMinimal(chain: Chain, farthestFirst: bool)
    requires chain.contracts != []
    ensures SortChain(chain, farthestFirst)[0] in chain.contracts
    ensures forall x :: x in chain.contracts ==>
      Precedes(chain.underlyingPrice, farthestFirst, SortChain(chain, farthestFirst)[0], x)
  {
    var s := SortChain(chain, farthestFirst);
    SortChainOrdered(chain, farthestFirst);
    assert s[0] in multiset(s);
    forall x | x in chain.contracts
      ensures Precedes(chain.underlyingPrice, farthestFirst, s[0], x)
    {
      assert x in multiset(s);
      var k :| 0 <= k < |s| && s[k] == x;
      if k == 0 {
        assert Distance(chain.underlyingPrice, x) == Distance(chain.underlyingPrice, x);
      }
    }
  }

  /** The pick of the two scripts that sort the distance ascending: the head
      of the sorted chain, when the slice has a non-empty chain for the option
      symbol. */
  function Pick(chain: Option<Chain>): Option<Contract>
  {
    if chain.None? then None
    else
      var sorted := SortChain(chain.value, false);
      if |sorted| == 0 then None else Some(sorted[0])
  }

  /** The pick is found exactly when the chain is present and not empty, and
      it is a contract of the chain that ranks first: calls before puts, then
      the latest expiry, then the strike nearest the underlying's price. */
  lemma PickRanksFirst(chain: Option<Chain>)
    ensures Pick(chain).Some? <==> chain.Some? && chain.value.contracts != []
    ensures Pick(chain).Some? ==>
      Pick(chain).value in chain.value.contracts
      && forall x :: x in chain.value.contracts ==> Precedes(chain.value.underlyingPrice, false, Pick(chain).value, x)
  {
    if chain.Some? {
      SortChainOrdered(chain.value, false);
      if chain.value.contracts != [] {
        SortChainHeadMinimal(chain.value, false);
      }
    }
  }
}
