/** Kevin/qc_CallOptions.py: the helpers of a script that was to buy calls on
    predicted dates. Its scheduling (`Self` for `self`) and its OnData guard
    (`SetWarmup.IsReady`) fail before any of them runs; this module models
    the line cleaning and date parsing of Parse, the contract search of
    OptionsFilter and OnData's closing of a contract near expiry. */
module CallOptions {
  import opened Base
  import opened ChainProvider

  const DaysBeforeExp: int := 2
  const DTE: int := 40
  const OTM: real := 0.05

  /** OptionsFilter's settings: DTE - 30 < days < DTE + 30. */
  const Criteria: Search := Search(OTM, DTE - 30, DTE + 30, DTE)

  // ------------------------------------------------------------ Parse

  /** The characters Parse strips from every line. */
  predicate Formatting(c: char) { c == '\r' || c == ' ' || c == '/' }

  /** `x.replace(ch, "")` for a single character. */
  function Remove(x: string, ch: char): (y: string)
    ensures ch !in y && |y| <= |x|
    ensures multiset(y) == multiset(x)[ch := 0]
    ensures y == Filter(x, (c: char) => c != ch)
  {
    if x == [] then []
    else
      assert x == [x[0]] + x[1..];
      (if x[0] == ch then [] else [x[0]]) + Remove(x[1..], ch)
  }

  /** Parse's cleaning of one line, one character at a time. */
  function CleanLine(x: string): (y: string)
    ensures |y| <= |x|
    ensures forall i :: 0 <= i < |y| ==> !Formatting(y[i])
    ensures forall c :: c in x && !Formatting(c) ==> c in y
    ensures y == Filter(x, (c: char) => !Formatting(c))
  {
    if x == [] then []
    else
      assert x == [x[0]] + x[1..];
      assert forall c :: c in x ==> c == x[0] || c in x[1..];
      (if Formatting(x[0]) then [] else [x[0]]) + CleanLine(x[1..])
  }

  lemma {:induction false} RemoveAppend(a: string, b: string, ch: char)
    ensures Remove(a + b, ch) == Remove(a, ch) + Remove(b, ch)
  {
    if a != [] {
      var h := if a[0] == ch then [] else [a[0]];
      assert (a + b)[0] == a[0] && (a + b)[1..] == a[1..] + b;
      assert Remove(a + b, ch) == h + Remove(a[1..] + b, ch);
      assert Remove(a, ch) == h + Remove(a[1..], ch);
      RemoveAppend(a[1..], b, ch);
    } else {
      assert a + b == b;
    }
  }

  /** The cleaning is the source's chain of three replacements. */
  lemma {:induction false} CleanLineIsReplaceChain(x: string)
    ensures CleanLine(x) == Remove(Remove(Remove(x, '\r'), ' '), '/')
  {
    if x != [] {
      var h, t := x[0], x[1..];
      var p1 := if h == '\r' then [] else [h];
      var p2 := if h == '\r' || h == ' ' then [] else [h];
      var p := if Formatting(h) then [] else [h];
      assert Remove(p1, ' ') == p2;
      assert Remove(p2, '/') == p;
      var r1 := Remove(t, '\r');
      var r2 := Remove(r1, ' ');
      assert Remove(x, '\r') == p1 + r1;
      RemoveAppend(p1, r1, ' ');
      assert Remove(Remove(x, '\r'), ' ') == p2 + r2;
      RemoveAppend(p2, r2, '/');
      CleanLineIsReplaceChain(t);
    }
  }

  lemma {:induction false} CleanLineAppend(a: string, b: string)
    ensures CleanLine(a + b) == CleanLine(a) + CleanLine(b)
  {
    if a != [] {
      var h := if Formatting(a[0]) then [] else [a[0]];
      assert (a + b)[0] == a[0] && (a + b)[1..] == a[1..] + b;
      assert CleanLine(a + b) == h + CleanLine(a[1..] + b);
      assert CleanLine(a) == h + CleanLine(a[1..]);
      CleanLineAppend(a[1..], b);
    } else {
      assert a + b == b;
    }
  }

  /** A line without formatting characters is left as it is, so cleaning
      twice is cleaning once. */
  lemma {:induction false} CleanLineKeepsClean(x: string)
    requires forall i :: 0 <= i < |x| ==> !Formatting(x[i])
    ensures CleanLine(x) == x
  {
    if x != [] {
      CleanLineKeepsClean(x[1..]);
    }
  }

  lemma CleanLineIdempotent(x: string)
    ensures CleanLine(CleanLine(x)) == CleanLine(x)
  {
    CleanLineKeepsClean(CleanLine(x));
  }

  /** The strptime directives Parse's format uses. */
  datatype Directive = Month | Day | Year

  /** "%m%d%Y" */
  const MonthDayYear: seq<Directive> := [Month, Day, Year]

  /** The pattern strptime gives each directive. */
  predicate Field(d: Directive, s: string)
  {
    match d
    case Month =>
      || (|s| == 1 && '1' <= s[0] <= '9')
      || (|s| == 2 && ((s[0] == '0' && '1' <= s[1] <= '9') || (s[0] == '1' && '0' <= s[1] <= '2')))
    case Day =>
      || (|s| == 1 && '1' <= s[0] <= '9')
      || (|s| == 2 && (|| (s[0] == '3' && (s[1] == '0' || s[1] == '1'))
                       || ((s[0] == '1' || s[0] == '2') && IsDigit(s[1]))
                       || ((s[0] == '0' || s[0] == ' ') && '1' <= s[1] <= '9')))
    case Year => |s| == 4 && AllDigits(s)
  }

  function MinWidth(d: Directive): nat { if d == Year then 4 else 1 }

  function MinLength(fmt: seq<Directive>): nat
  {
    if fmt == [] then 0 else MinWidth(fmt[0]) + MinLength(fmt[1..])
  }

  /** The text matches the format's pattern as a whole; strptime succeeds
      only on such text. */
  predicate Matches(s: string, fmt: seq<Directive>)
    decreases |fmt|
  {
    if fmt == [] then s == []
    else exists k :: 0 <= k <= |s| && Field(fmt[0], s[..k]) && Matches(s[k..], fmt[1..])
  }

  /** Text matching a format is at least as long as the format's narrowest
      fields together: six characters for "%m%d%Y". */
  lemma {:induction false} MatchNeedsMinLength(s: string, fmt: seq<Directive>)
    requires Matches(s, fmt)
    ensures |s| >= MinLength(fmt)
    decreases |fmt|
  {
    if fmt != [] {
      var k :| 0 <= k <= |s| && Field(fmt[0], s[..k]) && Matches(s[k..], fmt[1..]);
      assert |s[..k]| >= MinWidth(fmt[0]);
      MatchNeedsMinLength(s[k..], fmt[1..]);
    }
  }

  /** Parse's loop over the cleaned lines: each line's first character is
      read as a date with `fmt`; the loop ends with the last line, or with
      the error of the first line that is empty (IndexError) or whose first
      character does not match (ValueError). */
  function ParseLines(lines: seq<string>, fmt: seq<Directive>, last: string): Result<string>
  {
    if lines == [] then Ok(last)
    else if lines[0] == [] then Err(IndexError)
    else if !Matches(lines[0][..1], fmt) then Err(ValueError)
    else ParseLines(lines[1..], fmt, lines[0])
  }

  function Cleaned(csv: string): (lines: seq<string>)
    ensures |lines| >= 1
  {
    var parts := Split(csv, '\n');
    seq(|parts|, k requires 0 <= k < |parts| => CleanLine(parts[k]))
  }

  /** Parse(url), with the downloaded text as `csv` and strptime's format as
      a parameter. */
  method Parse(csv: string, fmt: seq<Directive>) returns (r: Result<string>)
    ensures r == ParseLines(Cleaned(csv), fmt, [])
  {
    var lines := Split(csv, '\n');
    var buyDates := seq(|lines|, k requires 0 <= k < |lines| => CleanLine(lines[k]));
    var arr: string := [];
    var i := 0;
    while i < |buyDates|
      invariant 0 <= i <= |buyDates|
      invariant ParseLines(buyDates[i..], fmt, arr) == ParseLines(buyDates, fmt, [])
    {
      assert buyDates[i..][1..] == buyDates[i + 1..];
      arr := buyDates[i];
      if arr == [] {
        return Err(IndexError);
      }
      if !Matches(arr[..1], fmt) {
        return Err(ValueError);
      }
      i := i + 1;
    }
    return Ok(arr);
  }

  /** With the script's "%m%d%Y", Parse always fails on its first line: a
      single character never matches, so the error is IndexError when that
      line is empty after cleaning and ValueError otherwise. */
  lemma ParseAlwaysFails(csv: string)
    ensures ParseLines(Cleaned(csv), MonthDayYear, []).Err?
    ensures ParseLines(Cleaned(csv), MonthDayYear, []).error
            == (if CleanLine(Split(csv, '\n')[0]) == [] then IndexError else ValueError)
  {
    var first := Cleaned(csv)[0];
    if first != [] && Matches(first[..1], MonthDayYear) {
      MatchNeedsMinLength(first[..1], MonthDayYear);
      assert false;
    }
  }

  // ------------------------------------------------------------ contracts

  datatype State = State(
    contract: Option<Contract>,     // None stands for the empty string
    added: set<Contract>,           // contractsAdded
    orders: seq<Effect>)

  const Start: State := State(None, {}, [])

  /** OptionsFilter: a contract found is subscribed to only the first time it
      is found. The script never calls OptionsFilter and never stores its
      result; storing the result in the slot is this model's own wiring, so
      that the closing step has a contract to act on. */
  function FilterStep(st: State, contracts: seq<Contract>, price: real, now: int): (r: State)
    ensures r.contract.None? <==> forall c :: c in contracts ==> !Candidate(c, price, Criteria, now)
    ensures r.contract.None? ==> r == st.(contract := None)
    ensures r.contract.Some? ==>
      var c := r.contract.value;
      && c in contracts && Candidate(c, price, Criteria, now)
      && (forall x :: x in contracts && Candidate(x, price, Criteria, now) ==> Better(c, x, DTE, now))
      && r.added == st.added + {c}
      && r.orders == st.orders + (if c in st.added then [] else [AddOptionContract(c.symbol)])
  {
    SelectSpec(contracts, price, Criteria, now, now);
    match Select(contracts, price, Criteria, now, now)
    case None => st.(contract := None)
    case Some(c) =>
      if c in st.added then st.(contract := Some(c))
      else st.(contract := Some(c), added := st.added + {c}, orders := st.orders + [AddOptionContract(c.symbol)])
  }

  predicate NearExpiry(c: Contract, now: int)
  {
    c.expiry - now <= Days(DaysBeforeExp)
  }

  /** OnData's closing step. */
  function CloseStep(st: State, now: int): State
  {
    if st.contract.Some? && NearExpiry(st.contract.value, now) then
      st.(orders := st.orders + [Liquidate(st.contract.value.symbol)], contract := None)
    else st
  }

  /** Every contract in the slot has been remembered and subscribed to. */
  ghost predicate Tracked(st: State)
  {
    st.contract.Some? ==> st.contract.value in st.added && AddOptionContract(st.contract.value.symbol) in st.orders
  }

  /** The closing step leaves no contract within two days of expiry in the
      slot: one that close is liquidated and the slot emptied, and one farther
      from expiry stays with nothing changed. It keeps the invariant. */
  lemma CloseStepSpec(st: State, now: int)
    requires Tracked(st)
    ensures var r := CloseStep(st, now);
      && Tracked(r) && r.added == st.added
      && (st.contract.Some? && NearExpiry(st.contract.value, now) ==>
            r.contract.None? && r.orders == st.orders + [Liquidate(st.contract.value.symbol)])
      && (st.contract.Some? && !NearExpiry(st.contract.value, now) ==> r == st)
      && (r.contract.Some? ==> r.contract == st.contract && !NearExpiry(r.contract.value, now))
      && (r.contract != st.contract ==> r.orders == st.orders + [Liquidate(st.contract.value.symbol)])
      && (r.contract == st.contract ==> r == st)
  {
    var r := CloseStep(st, now);
    if r.contract.Some? {
      assert r == st;
    }
  }

  /** A search keeps the invariant, and only grows the set of remembered
      contracts, by a qualifying one. */
  lemma FilterStepKeepsTracked(st: State, contracts: seq<Contract>, price: real, now: int)
    requires Tracked(st) && forall c :: c in st.added ==> AddOptionContract(c.symbol) in st.orders
    ensures var r := FilterStep(st, contracts, price, now);
      && Tracked(r)
      && st.added <= r.added
      && forall c :: c in r.added - st.added ==> c in contracts && Candidate(c, price, Criteria, now)
  {
    var r := FilterStep(st, contracts, price, now);
    if r.contract.Some? && r.contract.value !in st.added {
      assert r.orders[|st.orders|] == AddOptionContract(r.contract.value.symbol);
    }
  }

  // ------------------------------------------------------------ the class

  class Algorithm {
    var contract: Option<Contract>
    var contractsAdded: set<Contract>
    var orders: seq<Effect>

    function Snapshot(): State
      reads this
    {
      State(contract, contractsAdded, orders)
    }

    constructor ()
      ensures Snapshot() == Start
    {
      contract, contractsAdded, orders := None, {}, [];
    }

    method OptionsFilter(contracts: seq<Contract>, price: real, now: int) returns (found: Option<Contract>)
      modifies this
      ensures found == Select(contracts, price, Criteria, now, now)
      ensures State(found, contractsAdded, orders) == FilterStep(old(Snapshot()), contracts, price, now)
      ensures contract == old(contract)
    {
      var calls := Candidates(contracts, price, Criteria, now);
      if |calls| > 0 {
        var c := Rank(calls, price, DTE, now)[0];
        if c !in contractsAdded {
          contractsAdded := contractsAdded + {c};
          orders := orders + [AddOptionContract(c.symbol)];
        }
        found := Some(c);
      } else {
        found := None;
      }
    }

    /** The end of OnData: a contract within two days of expiry is
        liquidated and the slot emptied. */
    method CloseNearExpiry(now: int)
      modifies this
      ensures Snapshot() == CloseStep(old(Snapshot()), now)
    {
      if contract.Some? {
        if NearExpiry(contract.value, now) {
          orders := orders + [Liquidate(contract.value.symbol)];
          contract := None;
        }
      }
    }
  }
}
