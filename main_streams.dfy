/** The live streams of the application entry point: the connection manager that fans a
    message out to every open socket, and the two candle streams, which bucket each clock
    reading into a candle start and update the current candle in place. */
module MainStreams {
  import opened Common

  // ---------------------------------------------------------------- integer division

  /** Python's `a // b`: floor division, for either sign of a nonzero divisor. */
  function FloorDiv(a: int, b: int): (q: int)
    requires b != 0
    ensures b > 0 ==> q * b <= a < q * b + b
    ensures b < 0 ==> q * b + b < a <= q * b
  {
    if b > 0 then a / b else (-a) / (-b)
  }

  lemma MulLe(a: int, b: int, c: int)
    requires a <= b && c > 0
    ensures a * c <= b * c
  {
    assert b * c - a * c == (b - a) * c;
  }

  /** The quotient of floor division is the only q with q * b <= a < (q + 1) * b. */
  lemma FloorUnique(a: int, b: int, q: int)
    requires b > 0 && q * b <= a < q * b + b
    ensures a / b == q
  {
    var r := a / b;
    if r < q {
      MulLe(r + 1, q, b);
    } else if r > q {
      MulLe(q + 1, r, b);
    }
  }

  /** The start of the width-`w` bucket, counted from the epoch, that `t` lies in. */
  function Floor(t: int, w: int): (r: int)
    requires w > 0
    ensures r <= t < r + w
  {
    (t / w) * w
  }

  /** Every instant of a bucket floors to the bucket's start. */
  lemma FloorConstant(t: int, w: int, t': int)
    requires w > 0 && Floor(t, w) <= t' < Floor(t, w) + w
    ensures Floor(t', w) == Floor(t, w)
  {
    FloorUnique(t', w, t / w);
  }

  /** Flooring to whole units of `m` and then to multiples of `n` of them is flooring to
      multiples of `m * n`. */
  lemma NestedFloor(t: int, m: int, n: int)
    requires m > 0 && n > 0
    ensures (t / m) / n * n * m == Floor(t, m * n)
  {
    var a := t / m;
    var q := a / n;
    assert q * n <= a < q * n + n;
    MulLe(q * n, a, m);
    MulLe(a + 1, q * n + n, m);
    assert q * (m * n) == q * n * m;
    assert (q + 1) * (m * n) == (q * n + n) * m;
    FloorUnique(t, m * n, q);
  }

  // ---------------------------------------------------------------- parsing a unit count

  predicate IsDigits(s: string)
  {
    |s| > 0 && forall i :: 0 <= i < |s| ==> '0' <= s[i] <= '9'
  }

  function DigitsValue(s: string): (n: nat)
    requires IsDigits(s)
    decreases |s|
  {
    var d := (s[|s| - 1] as int) - ('0' as int);
    if |s| == 1 then d else 10 * DigitsValue(s[..|s| - 1]) + d
  }

  /** The decimal digits of `n`, most significant first. */
  function Decimal(n: nat): (s: string)
    ensures IsDigits(s)
    decreases n
  {
    var c := (('0' as int) + n % 10) as char;
    if n < 10 then [c] else Decimal(n / 10) + [c]
  }

  /** Python's `int(s)` on a string: an optional sign and decimal digits; `None` is the
      `ValueError` it raises on anything else. */
  function ParseInt(s: string): (r: Option<int>)
    ensures r.Some? <==> IsDigits(s) || (|s| > 1 && (s[0] == '+' || s[0] == '-') && IsDigits(s[1..]))
    ensures r.Some? && IsDigits(s) ==> r.value >= 0
  {
    if IsDigits(s) then Some(DigitsValue(s))
    else if |s| > 1 && s[0] == '+' && IsDigits(s[1..]) then Some(DigitsValue(s[1..]))
    else if |s| > 1 && s[0] == '-' && IsDigits(s[1..]) then Some(0 - DigitsValue(s[1..]) as int)
    else None
  }

  lemma {:induction false} DecimalValue(n: nat)
    ensures DigitsValue(Decimal(n)) == n
    decreases n
  {
    var s := Decimal(n);
    if n >= 10 {
      DecimalValue(n / 10);
      assert s[..|s| - 1] == Decimal(n / 10);
    }
  }

  /** `int` reads back every count written in decimal, with or without a sign. */
  lemma ParseDecimal(n: nat)
    ensures ParseInt(Decimal(n)) == Some(n)
    ensures n > 0 ==> ParseInt("-" + Decimal(n)) == Some(0 - n as int)
    ensures ParseInt("+" + Decimal(n)) == Some(n)
  {
    DecimalValue(n);
    assert ("-" + Decimal(n))[1..] == Decimal(n);
    assert ("+" + Decimal(n))[1..] == Decimal(n);
  }

  // ---------------------------------------------------------------- timeframes

  /** The two candle streams: the chart stream and the market stream. */
  datatype Stream = ChartStream | MarketStream

  /** Each stream's `timeframe_seconds` table. */
  function Table(kind: Stream): map<string, int>
  {
    match kind
    case ChartStream =>
      map["1s" := 1, "5s" := 5, "1m" := 60, "5m" := 300, "15m" := 900,
          "1h" := 3600, "4h" := 14400, "1D" := 86400, "1W" := 604800]
    case MarketStream =>
      map["1s" := 1, "5s" := 5, "15s" := 15, "1m" := 60, "5m" := 300, "15m" := 900,
          "1H" := 3600, "1D" := 86400, "1W" := 604800]
  }

  /** Seconds per unit of a timeframe suffix letter. */
  function UnitSeconds(c: char): int
  {
    match c
    case 's' => 1
    case 'm' => 60
    case 'h' => 3600
    case 'H' => 3600
    case 'D' => 86400
    case 'W' => 604800
    case _ => 0
  }

  /** The duration a timeframe such as "15m" names: its count times its unit. */
  function NamedSeconds(tf: string): (r: Option<int>)
    ensures r.Some? ==> |tf| >= 2 && ParseInt(tf[..|tf| - 1]).Some?
  {
    if |tf| < 2 then None
    else match ParseInt(tf[..|tf| - 1])
      case None => None
      case Some(n) => Some(n * UnitSeconds(tf[|tf| - 1]))
  }

  /** `interval`: the table's entry, or 60 s in the chart stream and 1 s in the market
      stream for a timeframe the table does not list. */
  function Interval(kind: Stream, tf: string): (r: int)
    ensures r >= 1
    ensures tf !in Table(kind) ==> r == (if kind == ChartStream then 60 else 1)
    ensures tf in Table(kind) ==> r == Table(kind)[tf]
  {
    if tf in Table(kind) then Table(kind)[tf]
    else if kind == ChartStream then 60 else 1
  }

  /** A count written in decimal followed by a unit letter names count times unit. */
  lemma NamedCount(n: nat, c: char)
    ensures NamedSeconds(Decimal(n) + [c]) == Some(n * UnitSeconds(c))
  {
    var tf := Decimal(n) + [c];
    assert tf[..|tf| - 1] == Decimal(n);
    ParseDecimal(n);
  }

  lemma SmallDecimals()
    ensures Decimal(1) == "1" && Decimal(4) == "4" && Decimal(5) == "5" && Decimal(15) == "15"
  {
  }

  /** The timeframe made of a decimal count and a unit letter names its duration. */
  lemma Names(tf: string, n: nat, c: char)
    requires tf == Decimal(n) + [c]
    ensures NamedSeconds(tf) == Some(n * UnitSeconds(c))
  {
    NamedCount(n, c);
  }

  /** Every entry of the chart stream's table is the duration its own name spells. */
  lemma ChartTableMatchesNames()
    ensures forall tf :: tf in Table(ChartStream) ==> NamedSeconds(tf) == Some(Table(ChartStream)[tf])
  {
    SmallDecimals();
    var t := Table(ChartStream);
    forall tf | tf in t ensures NamedSeconds(tf) == Some(t[tf]) {
      if tf == "1s" { Names(tf, 1, 's'); }
      else if tf == "5s" { Names(tf, 5, 's'); }
      else if tf == "1m" { Names(tf, 1, 'm'); }
      else if tf == "5m" { Names(tf, 5, 'm'); }
      else if tf == "15m" { Names(tf, 15, 'm'); }
      else if tf == "1h" { Names(tf, 1, 'h'); }
      else if tf == "4h" { Names(tf, 4, 'h'); }
      else if tf == "1D" { Names(tf, 1, 'D'); }
      else { Names(tf, 1, 'W'); }
    }
  }

  /** Every entry of the market stream's table is the duration its own name spells. */
  lemma MarketTableMatchesNames()
    ensures forall tf :: tf in Table(MarketStream) ==> NamedSeconds(tf) == Some(Table(MarketStream)[tf])
  {
    SmallDecimals();
    var t := Table(MarketStream);
    forall tf | tf in t ensures NamedSeconds(tf) == Some(t[tf]) {
      if tf == "1s" { Names(tf, 1, 's'); }
      else if tf == "5s" { Names(tf, 5, 's'); }
      else if tf == "15s" { Names(tf, 15, 's'); }
      else if tf == "1m" { Names(tf, 1, 'm'); }
      else if tf == "5m" { Names(tf, 5, 'm'); }
      else if tf == "15m" { Names(tf, 15, 'm'); }
      else if tf == "1H" { Names(tf, 1, 'H'); }
      else if tf == "1D" { Names(tf, 1, 'D'); }
      else { Names(tf, 1, 'W'); }
    }
  }

  // ---------------------------------------------------------------- bucketing

  const SECOND: int := MICROS_PER_SECOND
  const MINUTE: int := MICROS_PER_MINUTE
  const HOUR: int := MICROS_PER_HOUR
  const DAY: int := MICROS_PER_DAY
  const WEEK: int := 7 * MICROS_PER_DAY

  /** The branch of the bucketing `if` chain a timeframe takes. */
  datatype Rule = BySeconds | CountOf(unit: int) | WholeHour | WholeDay | WholeWeek | Exact

  function RuleOf(kind: Stream, tf: string): (r: Rule)
    ensures r == BySeconds <==> EndsWith(tf, "s")
    ensures r == CountOf(MINUTE) <==> !EndsWith(tf, "s") && EndsWith(tf, "m")
    ensures r == CountOf(HOUR) <==> kind == ChartStream && !EndsWith(tf, "s") && !EndsWith(tf, "m") && EndsWith(tf, "h")
    ensures r == WholeHour <==> kind == MarketStream && tf == "1H"
    ensures r == Exact ==> tf != "1D" && tf != "1W"
  {
    if EndsWith(tf, "s") then BySeconds
    else if EndsWith(tf, "m") then CountOf(MINUTE)
    else if kind == ChartStream && EndsWith(tf, "h") then CountOf(HOUR)
    else if kind == MarketStream && tf == "1H" then WholeHour
    else if tf == "1D" then WholeDay
    else if tf == "1W" then WholeWeek
    else Exact
  }

  /** The unit count before the suffix letter, as `int(timeframe[:-1])` reads it. */
  function Count(tf: string): Option<int>
  {
    if |tf| == 0 then None else ParseInt(tf[..|tf| - 1])
  }

  /** A counted timeframe raises: its count is not an integer (`ValueError`) or is zero
      (`ZeroDivisionError`). */
  predicate Raises(kind: Stream, tf: string)
  {
    RuleOf(kind, tf).CountOf? && (Count(tf).None? || Count(tf).value == 0)
  }

  /** `candle_start` for the clock reading `now`; `None` when computing it raises, which
      ends the stream. */
  function CandleStart(kind: Stream, tf: string, now: Instant): (r: Option<Instant>)
    ensures r.None? <==> Raises(kind, tf)
    ensures RuleOf(kind, tf) == Exact ==> r == Some(now)
  {
    match RuleOf(kind, tf)
    case BySeconds =>
      var i := Interval(kind, tf);
      Some(FloorDiv(TruncDiv(now, SECOND), i) * i * SECOND)
    case CountOf(unit) =>
      if Count(tf).None? || Count(tf).value == 0 then None
      else
        var n := Count(tf).value;
        Some(FloorDiv(now / unit, n) * n * unit)
    case WholeHour => Some(Floor(now, HOUR))
    case WholeDay => Some(Floor(now, DAY))
    case WholeWeek =>
      var d := now / DAY;
      Some((d - (d + 3) % 7) * DAY)
    case Exact => Some(now)
  }

  /** The length of the bucket a timeframe cuts the clock into; `None` for one that raises
      and for a negative count, whose bucket lies ahead of the clock. */
  function Width(kind: Stream, tf: string): (w: Option<int>)
    ensures w.Some? ==> w.value > 0
    ensures w.Some? ==> !Raises(kind, tf)
  {
    match RuleOf(kind, tf)
    case BySeconds => Some(SECOND * Interval(kind, tf))
    case CountOf(unit) =>
      if Count(tf).Some? && Count(tf).value > 0 then Some(unit * Count(tf).value) else None
    case WholeHour => Some(HOUR)
    case WholeDay => Some(DAY)
    case WholeWeek => Some(WEEK)
    case Exact => Some(1)
  }

  /** The week bucket starts on the Monday midnight on or before `now`
      (1 January 1970 was a Thursday, weekday 3). */
  lemma WeekStart(now: Instant)
    ensures CandleStart(ChartStream, "1W", now).value <= now < CandleStart(ChartStream, "1W", now).value + WEEK
    ensures (CandleStart(ChartStream, "1W", now).value / DAY + 3) % 7 == 0
    ensures CandleStart(ChartStream, "1W", now) == CandleStart(MarketStream, "1W", now)
  {
    var d := now / DAY;
    var k := d - (d + 3) % 7;
    assert RuleOf(ChartStream, "1W") == WholeWeek;
    assert RuleOf(MarketStream, "1W") == WholeWeek;
    MulLe(k, d, DAY);
    MulLe(d + 1, k + 7, DAY);
    assert (k + 7) * DAY == k * DAY + WEEK;
    FloorUnique(k * DAY, DAY, k);
  }

  /** Every instant of the week bucket has the same start. */
  lemma WeekConstant(now: Instant, t: Instant)
    requires CandleStart(ChartStream, "1W", now).value <= t < CandleStart(ChartStream, "1W", now).value + WEEK
    ensures CandleStart(ChartStream, "1W", t) == CandleStart(ChartStream, "1W", now)
  {
    var d := now / DAY;
    var k := d - (d + 3) % 7;
    assert RuleOf(ChartStream, "1W") == WholeWeek;
    var e := t / DAY;
    assert (k + 7) * DAY == k * DAY + WEEK;
    assert k <= e < k + 7 by {
      if e < k {
        MulLe(e + 1, k, DAY);
      }
      if e >= k + 7 {
        MulLe(k + 7, e, DAY);
      }
    }
    assert (k + 3) % 7 == 0;
    assert (e + 3) % 7 == e - k;
  }

  /** For a timeframe with a width, the clock lies in its own candle: the start is at most
      `now` and the candle ends after it. */
  lemma {:induction false} BucketContainsNow(kind: Stream, tf: string, now: Instant)
    requires now >= 0 && Width(kind, tf).Some?
    ensures CandleStart(kind, tf, now).Some?
    ensures CandleStart(kind, tf, now).value <= now < CandleStart(kind, tf, now).value + Width(kind, tf).value
  {
    var start := CandleStart(kind, tf, now).value;
    match RuleOf(kind, tf)
    case BySeconds =>
      var i := Interval(kind, tf);
      NestedFloor(now, SECOND, i);
      assert start == Floor(now, SECOND * i);
    case CountOf(unit) =>
      var n := Count(tf).value;
      NestedFloor(now, unit, n);
      assert start == Floor(now, unit * n);
      assert Width(kind, tf).value == unit * n;
    case WholeHour =>
    case WholeDay =>
    case WholeWeek =>
      WeekStart(now);
      assert CandleStart(kind, tf, now) == CandleStart(ChartStream, "1W", now);
    case Exact =>
  }

  /** Every instant of an `m * n` bucket floors, in two steps, to the same start. */
  lemma NestedConstant(now: int, t: int, m: int, n: int)
    requires m > 0 && n > 0
    requires Floor(now, m * n) <= t < Floor(now, m * n) + m * n
    ensures (t / m) / n * n * m == (now / m) / n * n * m == Floor(now, m * n)
  {
    NestedFloor(now, m, n);
    NestedFloor(t, m, n);
    FloorConstant(now, m * n, t);
  }

  /** Every instant of a candle's bucket maps to the same candle start, so a candle is
      replaced exactly when the clock leaves its bucket. */
  lemma {:induction false} BucketConstant(kind: Stream, tf: string, now: Instant, t: Instant)
    requires now >= 0 && Width(kind, tf).Some?
    requires CandleStart(kind, tf, now).Some?
    requires CandleStart(kind, tf, now).value <= t < CandleStart(kind, tf, now).value + Width(kind, tf).value
    ensures CandleStart(kind, tf, t) == CandleStart(kind, tf, now)
  {
    var start := CandleStart(kind, tf, now).value;
    match RuleOf(kind, tf)
    case BySeconds =>
      var i := Interval(kind, tf);
      NestedFloor(now, SECOND, i);
      MulLe(0, now / (SECOND * i), SECOND * i);
      NestedConstant(now, t, SECOND, i);
    case CountOf(unit) =>
      var n := Count(tf).value;
      NestedFloor(now, unit, n);
      NestedConstant(now, t, unit, n);
    case WholeHour =>
      FloorConstant(now, HOUR, t);
    case WholeDay =>
      FloorConstant(now, DAY, t);
    case WholeWeek =>
      assert CandleStart(kind, tf, now) == CandleStart(ChartStream, "1W", now);
      assert CandleStart(kind, tf, t) == CandleStart(ChartStream, "1W", t);
      WeekConstant(now, t);
    case Exact =>
  }

  // ---------------------------------------------------------------- the current candle

  /** `current_candle`, with `candle_start_time` as its start; it is sent to the chart stream
      as `time`, the start in whole seconds, and to the market stream as an ISO timestamp. */
  datatype Candle = Candle(start: Instant, open: real, high: real, low: real, close: real, volume: real)

  /** The chart stream's `time` field: `int(candle_start.timestamp())`. */
  function ChartTime(c: Candle): (t: int)
    ensures c.start >= 0 ==> t * SECOND <= c.start < t * SECOND + SECOND
  {
    TruncDiv(c.start, SECOND)
  }

  /** The shape every candle of a stream keeps: open and close within [low, high], and at
      least the smallest opening volume. */
  predicate WellFormed(c: Candle)
  {
    c.low <= c.open <= c.high && c.low <= c.close <= c.high && c.volume >= 100000.0
  }

  /** A tick opens a new candle when there is none yet or its bucket starts strictly later. */
  predicate Opens(live: Option<Candle>, start: Instant)
  {
    live.None? || start > live.value.start
  }

  /** The current candle after a tick at `price` whose bucket starts at `start`; `u` is the
      draw behind the tick's `random.uniform` volume. */
  function Advance(live: Option<Candle>, start: Instant, price: real, u: Draw): (c: Candle)
    ensures Opens(live, start) ==>
      c.start == start && c.open == price && c.high == price && c.low == price && c.close == price
      && 100000.0 <= c.volume <= 1000000.0
    ensures !Opens(live, start) ==>
      c.start == live.value.start && c.open == live.value.open && c.close == price
      && c.high == Max(live.value.high, price) && c.low == Min(live.value.low, price)
      && live.value.volume + 10000.0 <= c.volume <= live.value.volume + 100000.0
  {
    if Opens(live, start) then Candle(start, price, price, price, price, Uniform(100000.0, 1000000.0, u))
    else
      var c := live.value;
      c.(high := Max(c.high, price), low := Min(c.low, price), close := price,
         volume := c.volume + Uniform(10000.0, 100000.0, u))
  }

  /** A tick keeps a well-formed candle well formed, whatever the price. */
  lemma AdvanceWellFormed(live: Option<Candle>, start: Instant, price: real, u: Draw)
    requires live.Some? ==> WellFormed(live.value)
    ensures WellFormed(Advance(live, start, price, u))
  {
  }

  /** The candle after a run of ticks, all in the bucket starting at `start`. */
  function Run(live: Option<Candle>, start: Instant, prices: seq<real>, draws: seq<Draw>): (r: Option<Candle>)
    requires |draws| == |prices|
    ensures |prices| > 0 ==> r.Some?
  {
    if |prices| == 0 then live
    else
      var n := |prices| - 1;
      Some(Advance(Run(live, start, prices[..n], draws[..n]), start, prices[n], draws[n]))
  }

  /** A candle opened by the first tick of a bucket and fed the rest of it opens at the first
      price, closes at the last, spans exactly the range of the prices and keeps its start. */
  lemma {:induction false} RunInOneBucket(start: Instant, prices: seq<real>, draws: seq<Draw>)
    requires |prices| == |draws| > 0
    ensures var c := Run(None, start, prices, draws).value;
      && c.start == start && c.open == prices[0] && c.close == prices[|prices| - 1]
      && (forall i :: 0 <= i < |prices| ==> c.low <= prices[i] <= c.high)
      && c.high in prices && c.low in prices
      && c.volume >= 100000.0 + 10000.0 * (|prices| - 1) as real
  {
    var n := |prices| - 1;
    if n > 0 {
      RunInOneBucket(start, prices[..n], draws[..n]);
      var prev := Run(None, start, prices[..n], draws[..n]);
      assert prices[..n][0] == prices[0];
      assert forall i :: 0 <= i < n ==> prices[..n][i] == prices[i];
      assert prev.value.high in prices && prev.value.low in prices by {
        assert forall x :: x in prices[..n] ==> x in prices;
      }
    }
  }

  /** One candle stream's state between passes of its loop. */
  class CandleStreamState {
    const kind: Stream
    const timeframe: string
    var live: Option<Candle>
    var closed: bool

    ghost predicate Valid()
      reads this
    {
      live.Some? ==> WellFormed(live.value)
    }

    constructor (kind: Stream, timeframe: string)
      ensures this.kind == kind && this.timeframe == timeframe
      ensures live == None && !closed && Valid()
    {
      this.kind := kind;
      this.timeframe := timeframe;
      live := None;
      closed := false;
    }

    /** One pass of the stream loop at clock `now` with the quoted `price`: returns the
        candle sent, or `None` when computing the bucket raised and the stream ended. */
    method Tick(now: Instant, price: real, u: Draw) returns (sent: Option<Candle>)
      requires Valid() && !closed
      modifies this
      ensures Valid()
      ensures CandleStart(kind, timeframe, now).None? ==> closed && live == old(live) && sent == None
      ensures CandleStart(kind, timeframe, now).Some? ==>
        !closed && live == Some(Advance(old(live), CandleStart(kind, timeframe, now).value, price, u)) && sent == live
    {
      var start := CandleStart(kind, timeframe, now);
      if start.None? {
        closed := true;
        return None;
      }
      AdvanceWellFormed(live, start.value, price, u);
      if live.None? || start.value > live.value.start {
        live := Some(Candle(start.value, price, price, price, price, Uniform(100000.0, 1000000.0, u)));
      } else {
        var c := live.value;
        live := Some(c.(high := Max(c.high, price), low := Min(c.low, price), close := price,
                        volume := c.volume + Uniform(10000.0, 100000.0, u)));
      }
      sent := live;
    }
  }

  /** With a timeframe that has no bucket rule, every tick at a later clock opens a new
      candle. */
  lemma ExactTimeframeOpensEveryTick(kind: Stream, tf: string, live: Candle, now: Instant)
    requires RuleOf(kind, tf) == Exact && now > live.start
    ensures Opens(Some(live), CandleStart(kind, tf, now).value)
  {
  }

  /** While the clock stays in the current candle's bucket, ticks update it in place. */
  lemma SameBucketUpdates(kind: Stream, tf: string, live: Candle, now: Instant, t: Instant)
    requires now >= 0 && Width(kind, tf).Some?
    requires live.start == CandleStart(kind, tf, now).value
    requires live.start <= t < live.start + Width(kind, tf).value
    ensures !Opens(Some(live), CandleStart(kind, tf, t).value)
  {
    BucketContainsNow(kind, tf, now);
    BucketConstant(kind, tf, now, t);
  }

  // ---------------------------------------------------------------- connections

  /** The identity of an accepted WebSocket. */
  type Socket = nat

  /** Python's `list.remove(x)`: drops the first occurrence of `x`; a list without `x`
      (the `ValueError` case) is returned unchanged. */
  function RemoveFirst(s: seq<Socket>, x: Socket): (r: seq<Socket>)
    ensures x in s ==> |r| == |s| - 1 && multiset(r) == multiset(s) - multiset{x}
    ensures x !in s ==> r == s
  {
    if |s| == 0 then []
    else
      assert s == [s[0]] + s[1..];
      if s[0] == x then s[1..] else [s[0]] + RemoveFirst(s[1..], x)
  }

  /** `list.remove` applied for each of `xs` in turn. */
  function RemoveAll(s: seq<Socket>, xs: seq<Socket>): (r: seq<Socket>)
    ensures |r| <= |s|
  {
    if |xs| == 0 then s else RemoveFirst(RemoveAll(s, xs[..|xs| - 1]), xs[|xs| - 1])
  }

  /** The sockets whose send failed, in list order: `dead_connections`. */
  function Failed(conns: seq<Socket>, ok: seq<bool>): (r: seq<Socket>)
    requires |ok| == |conns|
    ensures forall c :: c in r ==> c in conns
  {
    if |conns| == 0 then []
    else
      var n := |conns| - 1;
      Failed(conns[..n], ok[..n]) + (if ok[n] then [] else [conns[n]])
  }

  /** The sockets whose send succeeded, in list order. */
  function Delivered(conns: seq<Socket>, ok: seq<bool>): (r: seq<Socket>)
    requires |ok| == |conns|
    ensures forall c :: c in r ==> c in conns
  {
    if |conns| == 0 then []
    else
      var n := |conns| - 1;
      Delivered(conns[..n], ok[..n]) + (if ok[n] then [conns[n]] else [])
  }

  /** The number of times `x` occurs in `s`. */
  function Occurrences(s: seq<Socket>, x: Socket): nat
  {
    if |s| == 0 then 0 else Occurrences(s[..|s| - 1], x) + (if s[|s| - 1] == x then 1 else 0)
  }

  lemma OccurrencesSnoc(s: seq<Socket>, c: Socket, x: Socket)
    ensures Occurrences(s + [c], x) == Occurrences(s, x) + (if c == x then 1 else 0)
  {
    assert (s + [c])[..|s|] == s;
  }

  /** Every socket is either delivered to or failed, never both: each socket occurs as
      often among the failed and the delivered ones together as in the list. */
  lemma {:induction false} FailedAndDeliveredSplit(conns: seq<Socket>, ok: seq<bool>, x: Socket)
    requires |ok| == |conns|
    ensures Occurrences(Failed(conns, ok), x) + Occurrences(Delivered(conns, ok), x) == Occurrences(conns, x)
  {
    if |conns| > 0 {
      var n := |conns| - 1;
      var f, d := Failed(conns[..n], ok[..n]), Delivered(conns[..n], ok[..n]);
      FailedAndDeliveredSplit(conns[..n], ok[..n], x);
      if ok[n] {
        assert Failed(conns, ok) == f;
        OccurrencesSnoc(d, conns[n], x);
      } else {
        assert Delivered(conns, ok) == d;
        OccurrencesSnoc(f, conns[n], x);
      }
    }
  }

  lemma {:induction false} RemoveFirstSnoc(s: seq<Socket>, x: Socket, y: Socket)
    requires y != x
    ensures RemoveFirst(s + [x], y) == RemoveFirst(s, y) + [x]
    decreases |s|
  {
    if |s| > 0 {
      assert (s + [x])[1..] == s[1..] + [x];
      if s[0] != y {
        RemoveFirstSnoc(s[1..], x, y);
      }
    }
  }

  lemma {:induction false} RemoveAllSnoc(s: seq<Socket>, x: Socket, xs: seq<Socket>)
    requires x !in xs
    ensures RemoveAll(s + [x], xs) == RemoveAll(s, xs) + [x]
    decreases |xs|
  {
    if |xs| > 0 {
      var n := |xs| - 1;
      assert x !in xs[..n] by {
        assert forall z :: z in xs[..n] ==> z in xs;
      }
      RemoveAllSnoc(s, x, xs[..n]);
      RemoveFirstSnoc(RemoveAll(s, xs[..n]), x, xs[n]);
    }
  }

  lemma {:induction false} RemoveFirstLast(s: seq<Socket>, x: Socket)
    requires x !in s
    ensures RemoveFirst(s + [x], x) == s
    decreases |s|
  {
    if |s| > 0 {
      assert (s + [x])[1..] == s[1..] + [x];
      RemoveFirstLast(s[1..], x);
    }
  }

  /** With each socket listed once, removing the failed sockets leaves exactly the sockets
      that were delivered to, in their original order. */
  lemma {:induction false} RemoveFailedKeepsDelivered(conns: seq<Socket>, ok: seq<bool>)
    requires |ok| == |conns| && Distinct(conns)
    ensures RemoveAll(conns, Failed(conns, ok)) == Delivered(conns, ok)
  {
    if |conns| > 0 {
      var n := |conns| - 1;
      var init := conns[..n];
      var c := conns[n];
      assert conns == init + [c];
      assert Distinct(init);
      assert c !in init;
      RemoveFailedKeepsDelivered(init, ok[..n]);
      var f := Failed(init, ok[..n]);
      var d := Delivered(init, ok[..n]);
      assert c !in f;
      assert c !in d;
      RemoveAllSnoc(init, c, f);
      assert RemoveAll(conns, f) == d + [c];
      if ok[n] {
        assert Failed(conns, ok) == f;
        assert Delivered(conns, ok) == d + [c];
      } else {
        assert Failed(conns, ok) == f + [c];
        assert (f + [c])[..|f|] == f;
        assert RemoveAll(conns, f + [c]) == RemoveFirst(RemoveAll(conns, f), c);
        RemoveFirstLast(d, c);
        assert Delivered(conns, ok) == d;
      }
    }
  }

  /** `ConnectionManager`: the list of accepted sockets. */
  class ConnectionManager {
    var active: seq<Socket>

    constructor ()
      ensures active == []
    {
      active := [];
    }

    /** `connect`: an accepted socket joins the end of the list. */
    method Connect(ws: Socket)
      modifies this
      ensures active == old(active) + [ws]
    {
      active := active + [ws];
    }

    /** `disconnect`: removes the socket's first entry; `raised` is the `ValueError` of a
        socket that is no longer listed, which leaves the list unchanged. */
    method Disconnect(ws: Socket) returns (raised: bool)
      modifies this
      ensures raised <==> ws !in old(active)
      ensures active == RemoveFirst(old(active), ws)
    {
      raised := ws !in active;
      active := RemoveFirst(active, ws);
    }

    /** `broadcast`: sends to every socket in order (`sendOk[i]` says whether the send to
        the i-th succeeded), collects the failures, then removes each one. */
    method Broadcast(sendOk: seq<bool>) returns (dead: seq<Socket>)
      requires |sendOk| == |active|
      modifies this
      ensures dead == Failed(old(active), sendOk)
      ensures active == RemoveAll(old(active), dead)
    {
      dead := [];
      var i := 0;
      while i < |active|
        invariant 0 <= i <= |active|
        invariant dead == Failed(active[..i], sendOk[..i])
      {
        assert active[..i + 1][..i] == active[..i];
        assert sendOk[..i + 1][..i] == sendOk[..i];
        if !sendOk[i] {
          dead := dead + [active[i]];
        }
        i := i + 1;
      }
      assert active[..i] == active && sendOk[..i] == sendOk;
      var original := active;
      var j := 0;
      while j < |dead|
        invariant 0 <= j <= |dead|
        invariant active == RemoveAll(original, dead[..j])
      {
        assert dead[..j + 1][..j] == dead[..j];
        active := RemoveFirst(active, dead[j]);
        j := j + 1;
      }
      assert dead[..j] == dead;
    }
  }

  /** Connecting only new sockets keeps every socket listed once, and then a broadcast
      drops exactly the sockets whose send failed and keeps the rest in order. */
  lemma BroadcastKeepsDelivered(conns: seq<Socket>, ok: seq<bool>)
    requires |ok| == |conns| && Distinct(conns)
    ensures RemoveAll(conns, Failed(conns, ok)) == Delivered(conns, ok)
    ensures Distinct(Delivered(conns, ok))
  {
    RemoveFailedKeepsDelivered(conns, ok);
    DeliveredDistinct(conns, ok);
  }

  lemma {:induction false} DeliveredDistinct(conns: seq<Socket>, ok: seq<bool>)
    requires |ok| == |conns| && Distinct(conns)
    ensures Distinct(Delivered(conns, ok))
  {
    if |conns| > 0 {
      var n := |conns| - 1;
      assert Distinct(conns[..n]);
      DeliveredDistinct(conns[..n], ok[..n]);
      if ok[n] {
        assert conns[n] !in conns[..n];
        DistinctSnoc(Delivered(conns[..n], ok[..n]), conns[n]);
      }
    }
  }
}
