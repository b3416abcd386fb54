/** Steen/QuantConnectTest.py: a coarse universe of the 100 most traded
    stocks above $25, from which the symbols whose 5-day exponential moving
    average is above their 15-day one are selected, at most 10 of them; each
    added security is set to a 10% holding and each removed one liquidated.

    The moving averages are the host's ExponentialMovingAverage indicator,
    which is not part of this model: an indicator is its period and the
    prices it has been given, and its current value is a function `value`
    of those, supplied by the caller. */
module EmaMomentumUniverse {
  import opened Base
  import opened Sorting

  const SlowPeriod: nat := 15
  const FastPeriod: nat := 5
  const MinPrice: real := 25.0
  const MinDollarVolume: real := 100000000.0
  const UniverseSize: nat := 100
  const MaxSelected: nat := 10
  const HoldingFraction: real := 0.10

  /** A coarse fundamental record of the universe. */
  datatype Coarse = Coarse(symbol: Symbol, price: real, dollarVolume: real, adjustedPrice: real)

  /** An indicator: its period and the prices it has been updated with. */
  datatype Ema = Ema(period: nat, samples: seq<real>)

  /** IsReady: the indicator has seen at least its period of prices. */
  predicate Ready(e: Ema) { |e.samples| >= e.period }

  datatype SelectionData = SelectionData(slow: Ema, fast: Ema)

  /** The two indicators after being given the prices `s`. */
  function Tracking(s: seq<real>): SelectionData
  {
    SelectionData(Ema(SlowPeriod, s), Ema(FastPeriod, s))
  }

  /** SelectionData(history): both indicators are fed the history's closes. */
  function FromHistory(closes: seq<real>): (sd: SelectionData)
    ensures sd == Tracking(closes)
    ensures IsReady(sd) <==> |closes| >= SlowPeriod
  {
    SelectionData(Ema(SlowPeriod, closes), Ema(FastPeriod, closes))
  }

  /** update(time, price) */
  function Update(sd: SelectionData, price: real): SelectionData
  {
    SelectionData(Ema(sd.slow.period, sd.slow.samples + [price]), Ema(sd.fast.period, sd.fast.samples + [price]))
  }

  predicate IsReady(sd: SelectionData) { Ready(sd.slow) && Ready(sd.fast) }

  /** With both indicators fed the same prices, the pair is ready exactly
      when the slow one has its 15 prices; the fast one then has its 5. */
  lemma IsReadyTracking(s: seq<real>)
    ensures IsReady(Tracking(s)) <==> |s| >= SlowPeriod
    ensures IsReady(Tracking(s)) <==> Ready(Tracking(s).slow)
  {
  }

  lemma UpdateTracking(s: seq<real>, price: real)
    ensures Update(Tracking(s), price) == Tracking(s + [price])
  {
  }

  // ------------------------------------------------------------ the universe

  predicate Liquid(c: Coarse) { c.price > MinPrice && c.dollarVolume > MinDollarVolume }

  function NegDollarVolume(c: Coarse): real { -c.dollarVolume }

  /** The universe the loop walks: sorted by dollar volume, largest first
      (`reverse=True` keeps equal volumes in input order), filtered, and cut
      to 100. */
  function Universe(universe: seq<Coarse>): seq<Coarse>
  {
    Take(Filter(SortBy(universe, NegDollarVolume), Liquid), UniverseSize)
  }

  ghost predicate ByDollarVolume(s: seq<Coarse>)
  {
    forall i, j :: 0 <= i < j < |s| ==> s[i].dollarVolume >= s[j].dollarVolume
  }

  lemma {:induction false} FilterByDollarVolume(s: seq<Coarse>)
    requires ByDollarVolume(s)
    ensures ByDollarVolume(Filter(s, Liquid))
  {
    if s != [] {
      var t := s[1..];
      assert ByDollarVolume(t) by {
        forall i, j | 0 <= i < j < |t| ensures t[i].dollarVolume >= t[j].dollarVolume {
          assert t[i] == s[i + 1] && t[j] == s[j + 1];
        }
      }
      FilterByDollarVolume(t);
      var r := Filter(t, Liquid);
      var f := Filter(s, Liquid);
      if Liquid(s[0]) {
        assert f == [s[0]] + r;
        forall y | y in r ensures s[0].dollarVolume >= y.dollarVolume {
          var k :| 0 <= k < |r| && r[k] == y;
          assert y in t;
          var m :| 0 <= m < |t| && t[m] == y;
          assert t[m] == s[m + 1];
        }
        PrependByDollarVolume(s[0], r);
      } else {
        assert f == r;
      }
    }
  }

  lemma PrependByDollarVolume(x: Coarse, r: seq<Coarse>)
    requires ByDollarVolume(r) && forall y :: y in r ==> x.dollarVolume >= y.dollarVolume
    ensures ByDollarVolume([x] + r)
  {
    var f := [x] + r;
    forall i, j | 0 <= i < j < |f| ensures f[i].dollarVolume >= f[j].dollarVolume {
      assert f[j] == r[j - 1];
      if i > 0 {
        assert f[i] == r[i - 1];
      }
    }
  }

  /** `sorted(universe, key=DollarVolume, reverse=True)` is in decreasing
      dollar volume. */
  lemma SortedByDollarVolume(universe: seq<Coarse>)
    ensures ByDollarVolume(SortBy(universe, NegDollarVolume))
  {
    var s := SortBy(universe, NegDollarVolume);
    AnySorted(universe);
    SortByRefines(universe, NegDollarVolume, []);
    assert [NegDollarVolume] + [] == [NegDollarVolume];
    forall i, j | 0 <= i < j < |s| ensures s[i].dollarVolume >= s[j].dollarVolume {
      assert LexLe([NegDollarVolume], s[i], s[j]);
    }
  }

  lemma UniverseOrdered(universe: seq<Coarse>)
    ensures |Universe(universe)| <= UniverseSize
    ensures ByDollarVolume(Universe(universe))
  {
    var s := SortBy(universe, NegDollarVolume);
    SortedByDollarVolume(universe);
    FilterByDollarVolume(s);
    var f := Filter(s, Liquid);
    var u := Universe(universe);
    forall i, j | 0 <= i < j < |u| ensures u[i].dollarVolume >= u[j].dollarVolume {
      assert u[i] == f[i] && u[j] == f[j];
    }
  }

  lemma UniverseMembers(universe: seq<Coarse>)
    ensures forall c :: c in Universe(universe) ==> c in universe && Liquid(c)
  {
    var s := SortBy(universe, NegDollarVolume);
    var f := Filter(s, Liquid);
    var u := Universe(universe);
    forall c | c in u ensures c in universe && Liquid(c) {
      var k :| 0 <= k < |u| && u[k] == c;
      assert c == f[k];
      assert c in s;
      assert c in multiset(s);
    }
  }

  lemma UniverseComplete(universe: seq<Coarse>)
    requires |Filter(SortBy(universe, NegDollarVolume), Liquid)| <= UniverseSize
    ensures forall c :: c in universe && Liquid(c) ==> c in Universe(universe)
  {
    var s := SortBy(universe, NegDollarVolume);
    var f := Filter(s, Liquid);
    assert Universe(universe) == f;
    forall c | c in universe && Liquid(c) ensures c in f {
      assert c in multiset(s);
      var k :| 0 <= k < |s| && s[k] == c;
    }
  }

  /** The universe is the top of the liquid records: it is cut at 100, and no
      liquid record trading more than its last member is left out. */
  lemma UniverseIsTop(universe: seq<Coarse>)
    ensures var f := Filter(SortBy(universe, NegDollarVolume), Liquid);
      |Universe(universe)| == (if |f| < UniverseSize then |f| else UniverseSize)
    ensures var u := Universe(universe);
      u != [] ==> forall c :: c in universe && Liquid(c) && c.dollarVolume > u[|u| - 1].dollarVolume ==> c in u
  {
    var s := SortBy(universe, NegDollarVolume);
    SortedByDollarVolume(universe);
    FilterByDollarVolume(s);
    var f := Filter(s, Liquid);
    var u := Universe(universe);
    if u != [] {
      forall c | c in universe && Liquid(c) && c.dollarVolume > u[|u| - 1].dollarVolume ensures c in u {
        assert c in multiset(s);
        var k :| 0 <= k < |s| && s[k] == c;
        var m :| 0 <= m < |f| && f[m] == c;
        assert u[|u| - 1] == f[|u| - 1];
        if m >= |u| {
          assert false;
        }
        assert u[m] == f[m];
      }
    }
  }

  /** The walked universe holds the 100 most traded liquid records of the
      input (all of them when fewer are liquid), in decreasing dollar
      volume. */
  lemma UniverseSpec(universe: seq<Coarse>)
    ensures var u := Universe(universe);
      && |u| <= UniverseSize
      && ByDollarVolume(u)
      && (forall c :: c in u ==> c in universe && Liquid(c))
      && (|Filter(SortBy(universe, NegDollarVolume), Liquid)| <= UniverseSize ==>
            forall c :: c in universe && Liquid(c) ==> c in u)
    ensures var f := Filter(SortBy(universe, NegDollarVolume), Liquid);
      |Universe(universe)| == (if |f| < UniverseSize then |f| else UniverseSize)
    ensures var u := Universe(universe);
      u != [] ==> forall c :: c in universe && Liquid(c) && c.dollarVolume > u[|u| - 1].dollarVolume ==> c in u
  {
    UniverseIsTop(universe);
    UniverseOrdered(universe);
    UniverseMembers(universe);
    if |Filter(SortBy(universe, NegDollarVolume), Liquid)| <= UniverseSize {
      UniverseComplete(universe);
    }
  }

  // ------------------------------------------------------------ selection

  /** The moving-average condition of the selection. */
  predicate Rising(sd: SelectionData, value: Ema -> real)
  {
    IsReady(sd) && value(sd.fast) > value(sd.slow)
  }

  /** One step of the loop: a symbol seen for the first time gets indicators
      warmed up on its history; then its indicators are updated. */
  function Visit(avgs: map<Symbol, SelectionData>, c: Coarse, history: Symbol -> seq<real>): map<Symbol, SelectionData>
  {
    var sd := if c.symbol in avgs then avgs[c.symbol] else FromHistory(history(c.symbol));
    avgs[c.symbol := Update(sd, c.adjustedPrice)]
  }

  /** The table after the loop has walked `u`. */
  function Table(avgs: map<Symbol, SelectionData>, u: seq<Coarse>, history: Symbol -> seq<real>): map<Symbol, SelectionData>
    decreases |u|
  {
    if u == [] then avgs else Table(Visit(avgs, u[0], history), u[1..], history)
  }

  /** The records the loop selects while walking `u`, in walk order: those
      whose indicators, just updated, are ready and rising. */
  function Picked(avgs: map<Symbol, SelectionData>, u: seq<Coarse>, history: Symbol -> seq<real>, value: Ema -> real): seq<Coarse>
    decreases |u|
  {
    if u == [] then []
    else
      var a := Visit(avgs, u[0], history);
      (if Rising(a[u[0].symbol], value) then [u[0]] else []) + Picked(a, u[1..], history, value)
  }

  function Symbols(cs: seq<Coarse>): (r: seq<Symbol>)
    ensures |r| == |cs| && forall k :: 0 <= k < |cs| ==> r[k] == cs[k].symbol
  {
    seq(|cs|, k requires 0 <= k < |cs| => cs[k].symbol)
  }

  /** The adjusted prices the walk gives `sym`'s indicators, in order. */
  function PricesOf(u: seq<Coarse>, sym: Symbol): seq<real>
  {
    if u == [] then [] else (if u[0].symbol == sym then [u[0].adjustedPrice] else []) + PricesOf(u[1..], sym)
  }

  /** Both indicators of every symbol in the table have seen the same prices. */
  ghost predicate WellFormed(avgs: map<Symbol, SelectionData>)
  {
    forall sym :: sym in avgs ==> avgs[sym] == Tracking(avgs[sym].fast.samples)
  }

  /** What a symbol's indicators start the walk with. */
  function Initial(avgs: map<Symbol, SelectionData>, sym: Symbol, history: Symbol -> seq<real>): seq<real>
  {
    if sym in avgs then avgs[sym].fast.samples else history(sym)
  }

  /** A visit keeps the table well formed, adds the visited symbol, and
      gives its indicators the record's adjusted price. */
  lemma VisitSpec(avgs: map<Symbol, SelectionData>, c: Coarse, history: Symbol -> seq<real>)
    requires WellFormed(avgs)
    ensures var v := Visit(avgs, c, history);
      && WellFormed(v)
      && v.Keys == avgs.Keys + {c.symbol}
      && forall sym :: Initial(v, sym, history)
           == Initial(avgs, sym, history) + (if sym == c.symbol then [c.adjustedPrice] else [])
  {
    var v := Visit(avgs, c, history);
    assert v[c.symbol] == Tracking(Initial(avgs, c.symbol, history) + [c.adjustedPrice]);
    forall sym ensures Initial(v, sym, history) == Initial(avgs, sym, history) + (if sym == c.symbol then [c.adjustedPrice] else []) {
      if sym != c.symbol {
        assert Initial(avgs, sym, history) + [] == Initial(avgs, sym, history);
      }
    }
  }

  /** After the walk the table holds the symbols it held and those walked. */
  lemma {:induction false} TableKeys(avgs: map<Symbol, SelectionData>, u: seq<Coarse>, history: Symbol -> seq<real>)
    requires WellFormed(avgs)
    ensures Table(avgs, u, history).Keys == avgs.Keys + (set c | c in u :: c.symbol)
    ensures WellFormed(Table(avgs, u, history))
    decreases |u|
  {
    if u != [] {
      VisitSpec(avgs, u[0], history);
      TableKeys(Visit(avgs, u[0], history), u[1..], history);
      assert (set x | x in u :: x.symbol) == {u[0].symbol} + (set x | x in u[1..] :: x.symbol);
    }
  }

  /** After the walk each symbol's indicators have seen what they started
      with (its entry, or its history when it was new) followed by every
      adjusted price the walk gave it: an entry is created once and never
      replaced. */
  lemma {:induction false} TableAverages(avgs: map<Symbol, SelectionData>, u: seq<Coarse>, history: Symbol -> seq<real>)
    requires WellFormed(avgs)
    ensures var a := Table(avgs, u, history);
      forall sym :: sym in a ==> a[sym] == Tracking(Initial(avgs, sym, history) + PricesOf(u, sym))
    decreases |u|
  {
    var a := Table(avgs, u, history);
    if u == [] {
      forall sym | sym in a ensures a[sym] == Tracking(Initial(avgs, sym, history) + PricesOf(u, sym)) {
        assert Initial(avgs, sym, history) + [] == avgs[sym].fast.samples;
      }
    } else {
      var v := Visit(avgs, u[0], history);
      VisitSpec(avgs, u[0], history);
      TableAverages(v, u[1..], history);
      forall sym | sym in a ensures a[sym] == Tracking(Initial(avgs, sym, history) + PricesOf(u, sym)) {
        PricesStep(avgs, v, u, history, sym);
      }
    }
  }

  lemma PricesStep(avgs: map<Symbol, SelectionData>, v: map<Symbol, SelectionData>, u: seq<Coarse>, history: Symbol -> seq<real>, sym: Symbol)
    requires u != []
    requires Initial(v, sym, history) == Initial(avgs, sym, history) + (if sym == u[0].symbol then [u[0].adjustedPrice] else [])
    ensures Initial(v, sym, history) + PricesOf(u[1..], sym) == Initial(avgs, sym, history) + PricesOf(u, sym)
  {
    var head := if sym == u[0].symbol then [u[0].adjustedPrice] else [];
    assert PricesOf(u, sym) == head + PricesOf(u[1..], sym);
    AppendShift(Initial(v, sym, history), Initial(avgs, sym, history), head, PricesOf(u[1..], sym), PricesOf(u, sym));
  }

  lemma AppendShift<T>(x: seq<T>, y: seq<T>, head: seq<T>, q: seq<T>, p: seq<T>)
    requires x == y + head && p == head + q
    ensures x + q == y + p
  {
  }

  /** The walk from position i is a visit of u[i] followed by the walk from
      position i + 1. */
  lemma WalkStep(avgs: map<Symbol, SelectionData>, u: seq<Coarse>, i: nat, a: map<Symbol, SelectionData>,
                 history: Symbol -> seq<real>, value: Ema -> real)
    requires i < |u| && a == Visit(avgs, u[i], history)
    ensures Table(avgs, u[i..], history) == Table(a, u[i + 1..], history)
    ensures Picked(avgs, u[i..], history, value)
            == (if Rising(a[u[i].symbol], value) then [u[i]] else []) + Picked(a, u[i + 1..], history, value)
  {
    assert u[i..][0] == u[i] && u[i..][1..] == u[i + 1..];
  }

  lemma Regroup<T>(chosen: seq<T>, head: seq<T>, rest: seq<T>, p: seq<T>, whole: seq<T>)
    requires chosen + p == whole && p == head + rest
    ensures (chosen + head) + rest == whole
  {
  }

  /** An entry for a symbol the walk does not visit is left alone. */
  lemma {:induction false} TableLeavesOthers(avgs: map<Symbol, SelectionData>, u: seq<Coarse>, history: Symbol -> seq<real>, sym: Symbol)
    requires sym in avgs && forall c :: c in u ==> c.symbol != sym
    ensures sym in Table(avgs, u, history) && Table(avgs, u, history)[sym] == avgs[sym]
    decreases |u|
  {
    if u != [] {
      TableLeavesOthers(Visit(avgs, u[0], history), u[1..], history, sym);
    }
  }

  predicate UniqueSymbols(u: seq<Coarse>)
  {
    forall i, j :: 0 <= i < j < |u| ==> u[i].symbol != u[j].symbol
  }

  /** The records selected come from the walk, in its order. */
  lemma {:induction false} PickedFromWalk(avgs: map<Symbol, SelectionData>, u: seq<Coarse>, history: Symbol -> seq<real>, value: Ema -> real)
    ensures var p := Picked(avgs, u, history, value);
      && |p| <= |u|
      && (forall c :: c in p ==> c in u)
      && (ByDollarVolume(u) ==> ByDollarVolume(p))
    decreases |u|
  {
    if u != [] {
      var c, t := u[0], u[1..];
      var v := Visit(avgs, c, history);
      PickedFromWalk(v, t, history, value);
      var rest := Picked(v, t, history, value);
      forall x | x in rest ensures x in u {
        var k :| 0 <= k < |t| && t[k] == x;
        assert x == u[k + 1];
      }
      if ByDollarVolume(u) {
        assert ByDollarVolume(t) by {
          forall i, j | 0 <= i < j < |t| ensures t[i].dollarVolume >= t[j].dollarVolume {
            assert t[i] == u[i + 1] && t[j] == u[j + 1];
          }
        }
        if Rising(v[c.symbol], value) {
          forall x | x in rest ensures c.dollarVolume >= x.dollarVolume {
            var k :| 0 <= k < |t| && t[k] == x;
            assert x == u[k + 1];
          }
          PrependByDollarVolume(c, rest);
        }
      }
    }
  }

  /** When the walk visits each symbol once, the records selected are
      exactly the walked records whose final indicators are ready with the
      fast average above the slow. */
  lemma {:induction false} PickedExactly(avgs: map<Symbol, SelectionData>, u: seq<Coarse>, history: Symbol -> seq<real>, value: Ema -> real)
    requires UniqueSymbols(u)
    ensures var a, p := Table(avgs, u, history), Picked(avgs, u, history, value);
      forall c :: c in u ==> c.symbol in a && (c in p <==> Rising(a[c.symbol], value))
    decreases |u|
  {
    if u != [] {
      var c, t := u[0], u[1..];
      var v := Visit(avgs, c, history);
      assert UniqueSymbols(t) by {
        forall i, j | 0 <= i < j < |t| ensures t[i].symbol != t[j].symbol {
          assert t[i] == u[i + 1] && t[j] == u[j + 1];
        }
      }
      PickedExactly(v, t, history, value);
      PickedFromWalk(v, t, history, value);
      forall x | x in t ensures x.symbol != c.symbol {
        var k :| 0 <= k < |t| && t[k] == x;
        assert x == u[k + 1];
      }
      TableLeavesOthers(v, t, history, c.symbol);
      var a, p := Table(avgs, u, history), Picked(avgs, u, history, value);
      assert c !in Picked(v, t, history, value);
      forall x | x in u ensures x.symbol in a && (x in p <==> Rising(a[x.symbol], value)) {
        if x != c {
          assert x in t;
        }
      }
    }
  }

  /** The records selected are liquid records of the input, in decreasing
      dollar volume. */
  lemma SelectionFromUniverse(avgs: map<Symbol, SelectionData>, universe: seq<Coarse>, history: Symbol -> seq<real>, value: Ema -> real)
    ensures var chosen := Picked(avgs, Universe(universe), history, value);
      && ByDollarVolume(chosen)
      && forall c :: c in chosen ==> c in universe && Liquid(c)
  {
    UniverseSpec(universe);
    PickedFromWalk(avgs, Universe(universe), history, value);
  }

  /** When the walk visits each symbol once, every selected symbol has
      indicators ready with the fast average above the slow, and when no
      more than 10 are selected every such symbol of the walk is among the
      first 10. */
  lemma SelectionRising(avgs: map<Symbol, SelectionData>, u: seq<Coarse>, history: Symbol -> seq<real>, value: Ema -> real)
    requires UniqueSymbols(u)
    ensures var a, chosen := Table(avgs, u, history), Picked(avgs, u, history, value);
      && (forall c :: c in chosen ==> c.symbol in a && Rising(a[c.symbol], value))
      && (|chosen| <= MaxSelected ==>
            forall c :: c in u && c.symbol in a && Rising(a[c.symbol], value) ==> c.symbol in Take(Symbols(chosen), MaxSelected))
  {
    PickedFromWalk(avgs, u, history, value);
    PickedExactly(avgs, u, history, value);
    var a, chosen := Table(avgs, u, history), Picked(avgs, u, history, value);
    if |chosen| <= MaxSelected {
      forall c | c in u && c.symbol in a && Rising(a[c.symbol], value)
        ensures c.symbol in Take(Symbols(chosen), MaxSelected)
      {
        var k :| 0 <= k < |chosen| && chosen[k] == c;
        assert Symbols(chosen)[k] == c.symbol;
      }
    }
  }

  /** The selection: at most 10 symbols, the first of those selected. Each
      is the symbol of a liquid record of the input, they come in decreasing
      dollar volume, and when the walked universe holds each symbol once each
      has indicators ready with the fast average above the slow; then every
      such symbol of the walked universe is selected while no more than 10
      are. */
  lemma SelectionSpec(avgs: map<Symbol, SelectionData>, universe: seq<Coarse>, history: Symbol -> seq<real>, value: Ema -> real)
    ensures var u := Universe(universe);
      var a, chosen := Table(avgs, u, history), Picked(avgs, u, history, value);
      var selected := Take(Symbols(chosen), MaxSelected);
      && |selected| <= MaxSelected
      && selected == Symbols(Take(chosen, MaxSelected))
      && ByDollarVolume(chosen)
      && (forall c :: c in chosen ==> c in universe && Liquid(c))
      && (UniqueSymbols(u) ==>
            && (forall c :: c in chosen ==> c.symbol in a && Rising(a[c.symbol], value))
            && (|chosen| <= MaxSelected ==>
                  forall c :: c in u && c.symbol in a && Rising(a[c.symbol], value) ==> c.symbol in selected))
  {
    var u := Universe(universe);
    SelectionFromUniverse(avgs, universe, history, value);
    if UniqueSymbols(u) {
      SelectionRising(avgs, u, history, value);
    }
  }

  // ------------------------------------------------------------ OnSecuritiesChanged

  function Liquidations(removed: seq<Symbol>): (r: seq<Effect>)
    ensures |r| == |removed| && forall k :: 0 <= k < |r| ==> r[k] == Liquidate(removed[k])
  {
    seq(|removed|, k requires 0 <= k < |removed| => Liquidate(removed[k]))
  }

  function Holdings(added: seq<Symbol>): (r: seq<Effect>)
    ensures |r| == |added| && forall k :: 0 <= k < |r| ==> r[k] == SetHoldings(added[k], HoldingFraction)
  {
    seq(|added|, k requires 0 <= k < |added| => SetHoldings(added[k], HoldingFraction))
  }

  // ------------------------------------------------------------ the class

  class Algorithm {
    var averages: map<Symbol, SelectionData>
    var orders: seq<Effect>

    ghost predicate Valid()
      reads this
    {
      WellFormed(averages)
    }

    constructor ()
      ensures Valid() && averages == map[] && orders == []
    {
      averages, orders := map[], [];
    }

    /** CoarseSelectionFunction; `history(symbol)` is the 15 daily closes
        History returns for it. */
    method CoarseSelectionFunction(universe: seq<Coarse>, history: Symbol -> seq<real>, value: Ema -> real)
      returns (selected: seq<Symbol>)
      requires Valid()
      modifies this
      ensures Valid()
      ensures averages == Table(old(averages), Universe(universe), history)
      ensures selected == Take(Symbols(Picked(old(averages), Universe(universe), history, value)), MaxSelected)
      ensures orders == old(orders)
    {
      var u := Universe(universe);
      TableKeys(averages, u, history);
      var sel := Walk(u, history, value);
      selected := Take(sel, MaxSelected);
    }

    /** The loop over the sorted, filtered universe: update each symbol's
        indicators and collect the symbols whose fast average is above the
        slow. */
    method Walk(u: seq<Coarse>, history: Symbol -> seq<real>, value: Ema -> real) returns (sel: seq<Symbol>)
      modifies this
      ensures averages == Table(old(averages), u, history)
      ensures sel == Symbols(Picked(old(averages), u, history, value))
      ensures orders == old(orders)
    {
      sel := [];
      ghost var chosen: seq<Coarse> := [];
      var i := 0;
      assert u[i..] == u;
      while i < |u|
        invariant 0 <= i <= |u|
        invariant orders == old(orders)
        invariant Table(averages, u[i..], history) == Table(old(averages), u, history)
        invariant chosen + Picked(averages, u[i..], history, value) == Picked(old(averages), u, history, value)
        invariant sel == Symbols(chosen)
      {
        ghost var before := averages;
        var coarse := u[i];
        Observe(coarse, history);
        WalkStep(before, u, i, averages, history, value);
        var symbol := coarse.symbol;
        ghost var head := if Rising(averages[symbol], value) then [coarse] else [];
        Regroup(chosen, head, Picked(averages, u[i + 1..], history, value), Picked(before, u[i..], history, value),
                Picked(old(averages), u, history, value));
        if IsReady(averages[symbol]) && value(averages[symbol].fast) > value(averages[symbol].slow) {
          assert head == [coarse];
          assert Symbols(chosen + [coarse]) == Symbols(chosen) + [symbol];
          sel := sel + [symbol];
        } else {
          assert chosen + head == chosen;
        }
        chosen := chosen + head;
        i := i + 1;
      }
      assert u[i..] == [];
    }

    /** The loop body's bookkeeping: a symbol seen for the first time gets
        indicators warmed with its history, then its indicators take the
        record's adjusted price. */
    method Observe(coarse: Coarse, history: Symbol -> seq<real>)
      modifies this
      ensures averages == Visit(old(averages), coarse, history)
      ensures orders == old(orders)
    {
      var symbol := coarse.symbol;
      if symbol !in averages {
        averages := averages[symbol := FromHistory(history(symbol))];
      }
      averages := averages[symbol := Update(averages[symbol], coarse.adjustedPrice)];
    }

    method OnSecuritiesChanged(removed: seq<Symbol>, added: seq<Symbol>)
      modifies this
      ensures averages == old(averages)
      ensures orders == old(orders) + Liquidations(removed) + Holdings(added)
    {
      var i := 0;
      while i < |removed|
        invariant 0 <= i <= |removed|
        invariant averages == old(averages)
        invariant orders == old(orders) + Liquidations(removed[..i])
      {
        assert removed[..i + 1] == removed[..i] + [removed[i]];
        orders := orders + [Liquidate(removed[i])];
        i := i + 1;
      }
      assert removed[..i] == removed;
      var j := 0;
      while j < |added|
        invariant 0 <= j <= |added|
        invariant averages == old(averages)
        invariant orders == old(orders) + Liquidations(removed) + Holdings(added[..j])
      {
        assert added[..j + 1] == added[..j] + [added[j]];
        orders := orders + [SetHoldings(added[j], HoldingFraction)];
        j := j + 1;
      }
      assert added[..j] == added;
    }
  }
}
