/** Values shared by every strategy script: the Python errors a script can
    raise, option contracts, clock arithmetic, Python's numeric and string
    conversions, and the host-platform calls a script makes (recorded as
    effects rather than performed). */
module Base {

  datatype Option<+T> = None | Some(value: T)

  /** The Python exceptions the scripts can raise; any of them aborts the algorithm. */
  datatype Error =
    | IndexError         // indexing past the end of a list or a string
    | ValueError         // int() or strptime() on malformed text, or a column-count mismatch
    | TypeError          // int() applied to a missing (None) field
    | ZeroDivisionError

  datatype Result<+T> = Ok(value: T) | Err(error: Error) {
    predicate IsFailure() { Err? }
    function PropagateFailure<U>(): Result<U> requires Err? { Err(error) }
    function Extract(): T requires Ok? { value }
  }

  /** How a host callback ends: normally, or by raising an exception. */
  datatype Outcome = Done | Raised(error: Error)

  type Symbol = string

  /** The host's OptionRight enumeration: Call is 0 and Put is 1, so a sort
      on the right puts calls first. */
  datatype Right = Call | Put

  function RightOrdinal(r: Right): (n: int)
    ensures n == 0 <==> r == Call
    ensures n == 1 <==> r == Put
  {
    match r
    case Call => 0
    case Put => 1
  }

  /** An option contract as the scripts read it from the host: symbol, right,
      strike, expiry (a clock reading) and current ask. */
  datatype Contract = Contract(symbol: Symbol, right: Right, strike: real, expiry: int, ask: real)

  /** An order event delivered by the host to OnOrderEvent. */
  datatype OrderStatus = Submitted | PartiallyFilled | Filled | Canceled | Invalid
  datatype OrderEvent = OrderEvent(orderId: nat, status: OrderStatus)

  /** Which expiries an option filter admits: the host's standard contracts
      only, weeklies as well (IncludeWeeklys), or weeklies alone (WeeklysOnly). */
  datatype Weeklies = StandardOnly | IncludeWeeklys | WeeklysOnly

  /** A host call a script makes, recorded in the order in which it is made. */
  datatype Effect =
    | LiquidateAll
    | Liquidate(symbol: Symbol)
    | MarketOrder(symbol: Symbol, quantity: int)
    | StopMarketOrder(symbol: Symbol, quantity: int, stopPrice: real)
    | AddOptionContract(symbol: Symbol)
    | SetStrikeFilter(weeklies: Weeklies, minStrike: int, maxStrike: int, minDays: int, maxDays: int)
    | SetHoldings(symbol: Symbol, fraction: real)

  /** A scheduled call of BuySignal: DateRules.On(year, month, day) at TimeRules.At(hour, minute). */
  datatype Scheduled = At(year: int, month: int, day: int, hour: int, minute: int)

  // ---------------------------------------------------------------- clock

  /** The clock counts minutes. */
  const MinutesPerDay: int := 1440

  /** timedelta(n): n days, in minutes. */
  function Days(n: int): int { n * MinutesPerDay }

  /** timedelta.days: the whole days in a span, rounded toward minus infinity. */
  function WholeDays(minutes: int): (d: int)
    ensures Days(d) <= minutes < Days(d + 1)
  {
    minutes / MinutesPerDay
  }

  // ------------------------------------------------------ numeric conversions

  /** Python's int() on a float: truncation toward zero. */
  function Trunc(x: real): (n: int)
    ensures x >= 0.0 ==> n >= 0 && n as real <= x < n as real + 1.0
    ensures x < 0.0 ==> n <= 0 && n as real - 1.0 < x <= n as real
  {
    if x >= 0.0 then x.Floor else -((-x).Floor)
  }

  /** round(x, 2): the nearest cent, halves rounded up. */
  function Round2(x: real): (r: real)
    ensures x - 0.005 < r <= x + 0.005
  {
    ((x * 100.0 + 0.5).Floor as real) / 100.0
  }

  /** Rounding to cents never reverses the order of two prices. */
  lemma Round2Monotone(x: real, y: real)
    requires x <= y
    ensures Round2(x) <= Round2(y)
  {
    var a, b := x * 100.0 + 0.5, y * 100.0 + 0.5;
    assert a.Floor <= b.Floor;
  }

  /** Helper for the budget bounds: scaling by a positive factor keeps order. */
  lemma MulMonotone(a: real, b: real, c: real)
    requires a <= b && c > 0.0
    ensures a * c <= b * c && (a < b ==> a * c < b * c)
  {
  }

  /** int(b / a) whole multiples of a fit in b, and one more does not. */
  lemma TruncDivBounds(b: real, a: real)
    requires b >= 0.0 && a > 0.0
    ensures Trunc(b / a) >= 0
    ensures Trunc(b / a) as real * a <= b < (Trunc(b / a) as real + 1.0) * a
  {
    var q := b / a;
    assert q * a == b;
    if q < 0.0 {
      MulMonotone(q, 0.0, a);
    }
    var t := Trunc(q);
    assert q < t as real + 1.0;
    MulMonotone(t as real, q, a);
    MulMonotone(q, t as real + 1.0, a);
    assert q * a < (t as real + 1.0) * a;
    assert b < (t as real + 1.0) * a;
  }

  function Max(a: int, b: int): int { if a >= b then a else b }
  function MaxReal(a: real, b: real): real { if a >= b then a else b }
  function Min(a: int, b: int): int { if a <= b then a else b }
  function Abs(x: real): real { if x >= 0.0 then x else -x }
  function AbsInt(x: int): int { if x >= 0 then x else -x }

  /** Python's slice s[:n] for n >= 0. */
  function Take<T>(s: seq<T>, n: nat): (r: seq<T>)
    ensures |r| == Min(n, |s|)
    ensures forall i :: 0 <= i < |r| ==> r[i] == s[i]
  {
    if n <= |s| then s[..n] else s
  }

  /** A list comprehension `[x for x in s if p(x)]`. */
  function Filter<T>(s: seq<T>, p: T -> bool): (r: seq<T>)
    ensures |r| <= |s|
    ensures forall i :: 0 <= i < |r| ==> r[i] in s && p(r[i])
    ensures forall i :: 0 <= i < |s| && p(s[i]) ==> s[i] in r
  {
    if s == [] then []
    else
      var rest := Filter(s[1..], p);
      assert forall i :: 0 < i < |s| ==> s[i] == s[1..][i - 1];
      (if p(s[0]) then [s[0]] else []) + rest
  }

  // ---------------------------------------------------------- int(text)

  predicate IsDigit(c: char) { '0' <= c <= '9' }

  predicate AllDigits(s: string) { forall i :: 0 <= i < |s| ==> IsDigit(s[i]) }

  function DigitsValue(s: string): nat
    requires AllDigits(s)
  {
    if s == [] then 0 else DigitsValue(s[..|s| - 1]) * 10 + (s[|s| - 1] as int - '0' as int)
  }

  /** Python's int() on text, restricted to an optional sign followed by
      ASCII decimal digits. Python also accepts surrounding white space and
      single underscores between digits; this model rejects both. */
  function ParseInt(s: string): Option<int>
  {
    if |s| >= 2 && s[0] == '-' && AllDigits(s[1..]) then Some(0 - DigitsValue(s[1..]) as int)
    else if |s| >= 2 && s[0] == '+' && AllDigits(s[1..]) then Some(DigitsValue(s[1..]))
    else if |s| >= 1 && AllDigits(s) then Some(DigitsValue(s))
    else None
  }

  function DigitChar(d: nat): char
    requires d < 10
  {
    ('0' as int + d) as char
  }

  /** str(n) for a natural number. */
  function NatString(n: nat): (s: string)
    ensures |s| >= 1 && AllDigits(s)
  {
    if n < 10 then [DigitChar(n)] else NatString(n / 10) + [DigitChar(n % 10)]
  }

  /** str(n) for an integer. */
  function IntString(n: int): string
  {
    if n < 0 then ['-'] + NatString(-n) else NatString(n)
  }

  lemma {:induction false} NatStringValue(n: nat)
    ensures DigitsValue(NatString(n)) == n
  {
    if n >= 10 {
      var p := NatString(n / 10);
      var s := p + [DigitChar(n % 10)];
      assert s[..|s| - 1] == p;
      NatStringValue(n / 10);
    }
  }

  /** int(str(n)) == n: printing a date field and reading it back is lossless. */
  lemma IntStringRoundTrip(n: int)
    ensures ParseInt(IntString(n)) == Some(n)
  {
    if n < 0 {
      NatStringValue(-n);
      assert IntString(n)[1..] == NatString(-n);
    } else {
      NatStringValue(n);
    }
  }

  // ------------------------------------------------------------ str.split

  /** Joins pieces with a separator; the inverse of Split. */
  function Join(parts: seq<string>, sep: char): string
    requires |parts| >= 1
  {
    if |parts| == 1 then parts[0] else parts[0] + [sep] + Join(parts[1..], sep)
  }

  /** Python's s.split(sep) for a one-character separator. */
  function Split(s: string, sep: char): (parts: seq<string>)
    ensures |parts| >= 1
    ensures forall i :: 0 <= i < |parts| ==> sep !in parts[i]
    ensures Join(parts, sep) == s
  {
    if s == [] then [[]]
    else
      var rest := Split(s[1..], sep);
      if s[0] == sep then
        assert ([[]] + rest)[1..] == rest;
        [[]] + rest
      else
        var parts := [[s[0]] + rest[0]] + rest[1..];
        assert parts[1..] == rest[1..];
        assert |rest| > 1 ==> Join(rest, sep) == rest[0] + [sep] + Join(rest[1..], sep);
        parts
  }
}
