/** The never-fail wrapper around the multi-vendor service: prices fall back to
    a random demo price, history falls back to 100 synthetic daily bars, and a
    snapshot is completed with demo entries before being persisted. */
module DataServices {
  import opened Common
  import opened TradingModels
  import opened MultiSource

  const SYNTHETIC_BAR_COUNT: nat := 100

  // ---------------------------------------------------------------- history

  /** A vendor bar as a `MarketData` record; the vendors' bars carry no vwap,
      so it defaults to the close. */
  function ToMarketBar(symbol: string, b: Bar): (m: MarketBar)
    ensures m.symbol == symbol && m.timestamp == b.timestamp
    ensures m.open == b.open && m.high == b.high && m.low == b.low && m.close == b.close && m.volume == b.volume
    ensures m.vwap == Some(b.close)
  {
    MarketBar(symbol, b.timestamp, b.open, b.high, b.low, b.close, b.volume, Some(b.close))
  }

  /** The random walk's base price after `i` steps: draw 0 picks the start in
      [100, 500], and step `i` multiplies by 1 + a change in [-3%, 3%] taken
      from draw 1 + 6i. */
  function SynthBase(rnd: nat -> Draw, i: nat): real
  {
    if i == 0 then Uniform(100.0, 500.0, rnd(0))
    else SynthBase(rnd, i - 1) * (1.0 + Uniform(-0.03, 0.03, rnd(1 + 6 * (i - 1))))
  }

  /** The bar the demo loop appends at step `i` once the walk stands at `base`:
      open, high, low, volume and vwap use draws 2 + 6i … 6 + 6i in that order. */
  function BarAt(symbol: string, timestamp: Instant, base: real, rnd: nat -> Draw, i: nat): MarketBar
  {
    MarketBar(symbol, timestamp,
              base * Uniform(0.99, 1.01, rnd(2 + 6 * i)),
              base * Uniform(1.00, 1.03, rnd(3 + 6 * i)),
              base * Uniform(0.97, 1.00, rnd(4 + 6 * i)),
              base,
              Uniform(1000000.0, 10000000.0, rnd(5 + 6 * i)),
              Some(base * Uniform(0.995, 1.005, rnd(6 + 6 * i))))
  }

  /** Bar `i` of the fallback series: dated `100 - i` days before now, on the
      walk's base after step `i`. */
  function SynthBar(symbol: string, now: Instant, rnd: nat -> Draw, i: nat): MarketBar
  {
    BarAt(symbol, now - (100 - i) * MICROS_PER_DAY, SynthBase(rnd, i + 1), rnd, i)
  }

  function SyntheticBars(symbol: string, now: Instant, rnd: nat -> Draw): seq<MarketBar>
  {
    seq(SYNTHETIC_BAR_COUNT, i requires 0 <= i < SYNTHETIC_BAR_COUNT => SynthBar(symbol, now, rnd, i))
  }

  lemma {:induction false} SynthBasePositive(rnd: nat -> Draw, i: nat)
    ensures SynthBase(rnd, i) > 0.0
  {
    if i > 0 {
      SynthBasePositive(rnd, i - 1);
      MulPositive(SynthBase(rnd, i - 1), 1.0 + Uniform(-0.03, 0.03, rnd(1 + 6 * (i - 1))));
    }
  }

  /** Every fallback bar has a positive close between its low and high. */
  lemma SynthBarShape(symbol: string, now: Instant, rnd: nat -> Draw, i: nat)
    ensures var b := SynthBar(symbol, now, rnd, i);
            0.0 < b.close && b.low <= b.close && b.close <= b.high
  {
    var base := SynthBase(rnd, i + 1);
    SynthBasePositive(rnd, i + 1);
    var lowDraw := Uniform(0.97, 1.00, rnd(4 + 6 * i));
    var highDraw := Uniform(1.00, 1.03, rnd(3 + 6 * i));
    MulMonotone(base, lowDraw, 1.0);
    MulMonotone(base, 1.0, highDraw);
    var b := SynthBar(symbol, now, rnd, i);
    assert b.low == base * lowDraw && b.high == base * highDraw && b.close == base;
  }

  /** The fallback series has exactly 100 bars, one per day from now − 100 days
      to now − 1 day, each with a positive close between its low and high. */
  lemma SyntheticBarsShape(symbol: string, now: Instant, rnd: nat -> Draw)
    ensures |SyntheticBars(symbol, now, rnd)| == 100
    ensures forall i :: 0 <= i < 100 ==> SyntheticBars(symbol, now, rnd)[i].timestamp == now - (100 - i) * MICROS_PER_DAY
    ensures forall i, j :: 0 <= i < j < 100 ==>
              SyntheticBars(symbol, now, rnd)[i].timestamp < SyntheticBars(symbol, now, rnd)[j].timestamp
    ensures forall i :: 0 <= i < 100 ==>
              var b := SyntheticBars(symbol, now, rnd)[i];
              0.0 < b.close && b.low <= b.close && b.close <= b.high
  {
    var bars := SyntheticBars(symbol, now, rnd);
    forall i | 0 <= i < 100
      ensures bars[i].timestamp == now - (100 - i) * MICROS_PER_DAY
      ensures 0.0 < bars[i].close && bars[i].low <= bars[i].close && bars[i].close <= bars[i].high
    {
      assert bars[i] == SynthBar(symbol, now, rnd, i);
      SynthBarShape(symbol, now, rnd, i);
    }
  }

  /** The open is not kept inside [low, high]: a first change of −3% and an open
      draw of 0.75 put the open at 1.005 × base while the high is 1.00 × base. */
  lemma SyntheticOpenMayExceedHigh()
    ensures var bars := SyntheticBars("X", 0, k => if k == 2 then 0.75 else 0.0);
            bars[0].open > bars[0].high
  {
    var rnd: nat -> Draw := k => if k == 2 then 0.75 else 0.0;
    assert SynthBase(rnd, 0) == 100.0;
    assert SynthBase(rnd, 1) == 97.0;
    var b := SyntheticBars("X", 0, rnd)[0];
    assert b == SynthBar("X", 0, rnd, 0);
    assert b.open == 97.0 * 1.005;
    assert b.high == 97.0;
  }

  // ---------------------------------------------------------------- snapshots

  datatype SnapshotEntry = SnapshotEntry(price: real, changePct: real, volume: real, isDemo: bool)

  datatype DataSource = DemoSource | ProviderSource

  function DataSourceValue(d: DataSource): string
  {
    match d
    case DemoSource => "demo"
    case ProviderSource => "provider"
  }

  /** One market-snapshot row as written to the database. */
  datatype SnapshotRow = SnapshotRow(symbol: string, price: real, changePct: real, volume: real,
                                     high: Option<real>, low: Option<real>, openPrice: Option<real>,
                                     dataSource: DataSource)

  function RowFor(symbol: string, e: SnapshotEntry): SnapshotRow
  {
    SnapshotRow(symbol, e.price, e.changePct, e.volume, None, None, None,
                if e.isDemo then DemoSource else ProviderSource)
  }

  /** The rows the persist loop builds: entries with a missing or non-positive
      price are skipped. */
  function SnapshotRows(snapshot: map<string, SnapshotEntry>): (rows: map<string, SnapshotRow>)
    ensures rows.Keys == set s | s in snapshot && snapshot[s].price > 0.0
    ensures forall s :: s in rows ==> rows[s].price == snapshot[s].price && rows[s].price > 0.0
    ensures forall s :: s in rows ==> (rows[s].dataSource == DemoSource <==> snapshot[s].isDemo)
  {
    map s | s in snapshot && snapshot[s].price > 0.0 :: RowFor(s, snapshot[s])
  }

  /** The entry the vendors' snapshot gives, before filling. */
  function ProviderEntry(e: QuoteSummary): SnapshotEntry
  {
    SnapshotEntry(e.price, e.changePct, e.volume, false)
  }

  /** Draws used to fill one symbol: for its demo price, change and volume. */
  datatype DemoDraws = DemoDraws(price: Draw, changePct: Draw, volume: Draw)

  /** The conversion loop over the vendor bars. */
  method ConvertBars(symbol: string, hist: seq<Bar>) returns (data: seq<MarketBar>)
    ensures |data| == |hist|
    ensures forall i :: 0 <= i < |hist| ==> data[i] == ToMarketBar(symbol, hist[i])
  {
    data := [];
    var i := 0;
    while i < |hist|
      invariant 0 <= i <= |hist|
      invariant |data| == i
      invariant forall j :: 0 <= j < i ==> data[j] == ToMarketBar(symbol, hist[j])
    {
      data := data + [ToMarketBar(symbol, hist[i])];
      i := i + 1;
    }
  }

  /** The demo-data loop: a random walk of 100 daily bars ending yesterday. */
  method GenerateSyntheticBars(symbol: string, now: Instant, rnd: nat -> Draw) returns (data: seq<MarketBar>)
    ensures data == SyntheticBars(symbol, now, rnd)
  {
    data := [];
    var basePrice := Uniform(100.0, 500.0, rnd(0));
    var i := 0;
    while i < 100
      invariant 0 <= i <= 100
      invariant |data| == i
      invariant basePrice == SynthBase(rnd, i)
      invariant forall j :: 0 <= j < i ==> data[j] == SynthBar(symbol, now, rnd, j)
    {
      var timestamp := now - (100 - i) * MICROS_PER_DAY;
      var change := Uniform(-0.03, 0.03, rnd(1 + 6 * i));
      SynthStep(rnd, i, basePrice, change);
      basePrice := basePrice * (1.0 + change);
      var bar := BarAt(symbol, timestamp, basePrice, rnd, i);
      data := data + [bar];
      i := i + 1;
    }
    SynthBarsAre(symbol, now, rnd, data);
  }

  /** One step of the walk uses the change draw of that step. */
  lemma SynthStep(rnd: nat -> Draw, i: nat, base: real, change: real)
    requires base == SynthBase(rnd, i) && change == Uniform(-0.03, 0.03, rnd(1 + 6 * i))
    ensures base * (1.0 + change) == SynthBase(rnd, i + 1)
  {
    assert 1 + 6 * ((i + 1) - 1) == 1 + 6 * i;
  }

  lemma SynthBarsAre(symbol: string, now: Instant, rnd: nat -> Draw, data: seq<MarketBar>)
    requires |data| == SYNTHETIC_BAR_COUNT
    requires forall j :: 0 <= j < |data| ==> data[j] == SynthBar(symbol, now, rnd, j)
    ensures data == SyntheticBars(symbol, now, rnd)
  {
  }

  class DataService {
    const multi: MultiSourceDataService

    ghost predicate Valid()
      reads this, multi
    {
      multi.Valid()
    }

    constructor (m: MultiSourceDataService)
      ensures multi == m
    {
      multi := m;
    }

    /** `get_current_price`: the vendor price when it is positive, otherwise a
        demo price in [100, 500]; either way the result is positive. */
    method GetCurrentPrice(symbol: string, now: Instant, vendors: Vendors, u: Draw) returns (price: real)
      requires Valid()
      modifies multi
      ensures Valid()
      ensures var run := RunChain(if IsCrypto(symbol) then CRYPTO_PRICE_CHAIN else STOCK_PRICE_CHAIN,
                                  multi.providers, c => vendors.quote(symbol, c), old(multi.stats), now);
              multi.stats == run.1
              && (run.0.Some? && run.0.value > 0.0 ==> price == run.0.value)
              && (!(run.0.Some? && run.0.value > 0.0) ==> price == Uniform(100.0, 500.0, u))
      ensures price > 0.0
    {
      var p := multi.GetPrice(symbol, now, vendors);
      if p.Some? && p.value > 0.0 {
        return p.value;
      }
      price := Uniform(100.0, 500.0, u);
    }

    /** `get_market_data`: non-empty vendor history converted bar for bar in
        order, otherwise the 100-bar synthetic series. */
    method GetMarketData(symbol: string, now: Instant, vendors: Vendors, rnd: nat -> Draw)
      returns (data: seq<MarketBar>)
      requires Valid()
      modifies multi
      ensures Valid()
      ensures var run := RunChain(if IsCrypto(symbol) then CRYPTO_HISTORY_CHAIN else STOCK_HISTORY_CHAIN,
                                  multi.providers, c => vendors.bars(symbol, 100, c), old(multi.stats), now);
              var hist := if run.0.Some? then run.0.value else [];
              multi.stats == run.1
              && (|hist| > 0 ==> |data| == |hist| && forall i :: 0 <= i < |hist| ==> data[i] == ToMarketBar(symbol, hist[i]))
              && (|hist| == 0 ==> data == SyntheticBars(symbol, now, rnd))
    {
      var hist := multi.GetHistoricalData(symbol, 100, now, vendors);
      if |hist| > 0 {
        data := ConvertBars(symbol, hist);
      } else {
        data := GenerateSyntheticBars(symbol, now, rnd);
      }
    }

    /** The filling loop of `get_market_snapshot`: each requested symbol that is
        missing or has a zero price gets a demo entry with a positive price;
        every other entry is left as it was. `demo(i)` supplies the draws for
        the symbol at position `i`. */
    method FillDemoEntries(snapshot: map<string, SnapshotEntry>, symbols: seq<string>, now: Instant,
                           vendors: Vendors, demo: nat -> DemoDraws)
      returns (filled: map<string, SnapshotEntry>)
      requires Valid()
      modifies multi
      ensures Valid()
      ensures filled.Keys == snapshot.Keys + set s | s in symbols
      ensures forall s :: s in snapshot && snapshot[s].price != 0.0 ==> filled[s] == snapshot[s]
      ensures forall s :: s in snapshot && s !in symbols ==> filled[s] == snapshot[s]
      ensures forall s :: s in symbols && (s !in snapshot || snapshot[s].price == 0.0) ==>
                filled[s].isDemo && filled[s].price > 0.0
                && -5.0 <= filled[s].changePct <= 5.0 && 1000000.0 <= filled[s].volume <= 10000000.0
    {
      filled := snapshot;
      var i := 0;
      while i < |symbols|
        invariant 0 <= i <= |symbols|
        invariant Valid()
        invariant filled.Keys == snapshot.Keys + set s | s in symbols[..i]
        invariant forall s :: s in snapshot && snapshot[s].price != 0.0 ==> filled[s] == snapshot[s]
        invariant forall s :: s in snapshot && s !in symbols[..i] ==> filled[s] == snapshot[s]
        invariant forall s :: s in symbols[..i] && (s !in snapshot || snapshot[s].price == 0.0) ==>
                    filled[s].isDemo && filled[s].price > 0.0
                    && -5.0 <= filled[s].changePct <= 5.0 && 1000000.0 <= filled[s].volume <= 10000000.0
      {
        var symbol := symbols[i];
        assert symbols[..i + 1] == symbols[..i] + [symbol];
        if symbol !in filled || filled[symbol].price == 0.0 {
          var entry := DemoEntry(symbol, now, vendors, demo(i));
          filled := filled[symbol := entry];
        }
        i := i + 1;
      }
      assert symbols[..|symbols|] == symbols;
    }

    /** The entry filled in for a symbol without vendor data: its price from
        `get_current_price`, a change in [-5, 5] and a volume in [10^6, 10^7]. */
    method DemoEntry(symbol: string, now: Instant, vendors: Vendors, d: DemoDraws) returns (e: SnapshotEntry)
      requires Valid()
      modifies multi
      ensures Valid()
      ensures e.isDemo && e.price > 0.0
      ensures -5.0 <= e.changePct <= 5.0 && 1000000.0 <= e.volume <= 10000000.0
    {
      var price := GetCurrentPrice(symbol, now, vendors, d.price);
      e := SnapshotEntry(price, Uniform(-5.0, 5.0, d.changePct), Uniform(1000000.0, 10000000.0, d.volume), true);
    }

    /** `get_market_snapshot`: the vendors' snapshot completed with demo entries,
        and the rows persisted from it. */
    method GetMarketSnapshot(symbols: seq<string>, now: Instant, vendors: Vendors, demo: nat -> DemoDraws)
      returns (snapshot: map<string, SnapshotEntry>, rows: map<string, SnapshotRow>)
      requires Valid()
      modifies multi
      ensures Valid()
      ensures snapshot.Keys == set s | s in symbols
      ensures forall s :: s in snapshot ==> snapshot[s].price != 0.0
      ensures forall s :: s in snapshot && snapshot[s].isDemo ==> snapshot[s].price > 0.0
      ensures rows == SnapshotRows(snapshot)
    {
      var fromVendors := multi.GetMarketSnapshot(symbols, now, vendors);
      var base := map s | s in fromVendors :: ProviderEntry(fromVendors[s]);
      snapshot := FillDemoEntries(base, symbols, now, vendors, demo);
      rows := PersistRows(snapshot);
    }

    /** The persist loop over the snapshot entries. */
    method PersistRows(snapshot: map<string, SnapshotEntry>) returns (rows: map<string, SnapshotRow>)
      ensures rows == SnapshotRows(snapshot)
    {
      rows := map[];
      var pending := snapshot.Keys;
      while pending != {}
        invariant pending <= snapshot.Keys
        invariant rows == map s | s in snapshot.Keys - pending && snapshot[s].price > 0.0 :: RowFor(s, snapshot[s])
        decreases |pending|
      {
        var s :| s in pending;
        var e := snapshot[s];
        if e.price > 0.0 {
          rows := rows[s := RowFor(s, e)];
        }
        pending := pending - {s};
      }
    }
  }
}
