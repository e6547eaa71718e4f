/** The multi-vendor market-data service: symbols are classified as crypto or
    stock, a fixed ordered chain of vendor clients is tried for that class, the
    first usable answer wins, and per-vendor counters and timestamps are
    updated in place along the way. Vendor SDK calls are oracles. */
module MultiSource {
  import opened Common
  import opened Config

  /** The entries of the service's `providers` dictionary. */
  datatype Client = AlpacaStock | AlpacaCrypto | AlphaVantageTs | AlphaVantageTech
                  | PolygonClient | CoinbaseClient | YFinanceModule

  /** The keys of `provider_stats`. */
  datatype Vendor = Alpaca | AlphaVantage | Polygon | Coinbase | YFinance

  const ALL_VENDORS: set<Vendor> := {Alpaca, AlphaVantage, Polygon, Coinbase, YFinance}

  /** Vendor SDK packages that may or may not be importable. */
  datatype Library = AlpacaLib | AlphaVantageLib | PolygonLib | CoinbaseLib | YFinanceLib

  datatype Stats = Stats(lastSuccess: Option<Instant>, lastError: Option<Instant>,
                         requestCount: nat, successCount: nat)

  const FRESH_STATS: Stats := Stats(None, None, 0, 0)

  /** What one vendor call came to, after the source's own guard at that step:
      `Got` passed the guard (a quote present, a non-empty frame, the symbol in
      the bar set), `NoData` failed it, `Raised` is any exception inside the try. */
  datatype Answer<T> = Got(value: T) | NoData | Raised

  /** One daily bar as the vendors' answers are converted to dictionaries. */
  datatype Bar = Bar(timestamp: Instant, open: real, high: real, low: real, close: real, volume: real)

  /** The vendors' answers, as a function of the request. */
  datatype Vendors = Vendors(
    quote: (string, Client) -> Answer<real>,
    bars: (string, int, Client) -> Answer<seq<Bar>>)

  type Step = (Client, Vendor)

  const STOCK_PRICE_CHAIN: seq<Step> :=
    [(AlpacaStock, Alpaca), (PolygonClient, Polygon), (AlphaVantageTs, AlphaVantage), (YFinanceModule, YFinance)]
  const CRYPTO_PRICE_CHAIN: seq<Step> :=
    [(AlpacaCrypto, Alpaca), (CoinbaseClient, Coinbase), (YFinanceModule, YFinance)]
  const STOCK_HISTORY_CHAIN: seq<Step> := [(AlpacaStock, Alpaca), (YFinanceModule, YFinance)]
  const CRYPTO_HISTORY_CHAIN: seq<Step> := [(AlpacaCrypto, Alpaca), (YFinanceModule, YFinance)]

  const CRYPTO_SUFFIXES: seq<string> := ["-USD", "/USD", "USDT", "BUSD"]
  const CRYPTO_SYMBOLS: seq<string> := ["BTC", "ETH", "SOL", "ADA", "DOT", "DOGE", "MATIC"]

  /** Five minutes, the freshness window of `active`. */
  const ACTIVE_WINDOW: int := 5 * MICROS_PER_MINUTE

  // ---------------------------------------------------------------- classification

  function ContainsAny(s: string, subs: seq<string>): (r: bool)
    ensures r <==> exists k :: 0 <= k < |subs| && Contains(s, subs[k])
  {
    if |subs| == 0 then false
    else Contains(s, subs[0]) || ContainsAny(s, subs[1..])
  }

  function StartsWithAny(s: string, prefixes: seq<string>): (r: bool)
    ensures r <==> exists k :: 0 <= k < |prefixes| && StartsWith(s, prefixes[k])
  {
    if |prefixes| == 0 then false
    else StartsWith(s, prefixes[0]) || StartsWithAny(s, prefixes[1..])
  }

  /** `_is_crypto`: the symbol contains a crypto quote suffix, or starts with a
      known coin ticker. */
  /** A string without the first character of `sub` cannot contain `sub`. */
  lemma {:induction false} MissingFirstChar(s: string, sub: string)
    requires |sub| > 0 && sub[0] !in s
    ensures !Contains(s, sub)
    decreases |s|
  {
    if |s| > 0 {
      assert s[0] != sub[0];
      assert s[1..] <= s[1..];
      assert forall c :: c in s[1..] ==> c in s;
      MissingFirstChar(s[1..], sub);
    }
  }

  function IsCrypto(symbol: string): (r: bool)
    ensures r <==> (Contains(symbol, "-USD") || Contains(symbol, "/USD") || Contains(symbol, "USDT")
                    || Contains(symbol, "BUSD")
                    || StartsWith(symbol, "BTC") || StartsWith(symbol, "ETH") || StartsWith(symbol, "SOL")
                    || StartsWith(symbol, "ADA") || StartsWith(symbol, "DOT") || StartsWith(symbol, "DOGE")
                    || StartsWith(symbol, "MATIC"))
  {
    assert CRYPTO_SUFFIXES[0] == "-USD" && CRYPTO_SUFFIXES[1] == "/USD";
    assert CRYPTO_SUFFIXES[2] == "USDT" && CRYPTO_SUFFIXES[3] == "BUSD";
    assert CRYPTO_SYMBOLS[0] == "BTC" && CRYPTO_SYMBOLS[1] == "ETH" && CRYPTO_SYMBOLS[2] == "SOL";
    assert CRYPTO_SYMBOLS[3] == "ADA" && CRYPTO_SYMBOLS[4] == "DOT" && CRYPTO_SYMBOLS[5] == "DOGE";
    assert CRYPTO_SYMBOLS[6] == "MATIC";
    ContainsAny(symbol, CRYPTO_SUFFIXES) || StartsWithAny(symbol, CRYPTO_SYMBOLS)
  }

  lemma CryptoExamples()
    ensures IsCrypto("BTC-USD") && IsCrypto("ETH/USD") && IsCrypto("DOGEUSDT") && IsCrypto("SOL")
    // A plain ticker that happens to begin with a coin name is classed as crypto.
    ensures IsCrypto("DOTX")
  {
    assert StartsWith("BTC-USD", "BTC");
    assert StartsWith("ETH/USD", "ETH");
    assert StartsWith("DOGEUSDT", "DOGE");
    assert StartsWith("SOL", "SOL");
    assert StartsWith("DOTX", "DOT");
  }

  lemma StockExamples()
    ensures !IsCrypto("AAPL") && !IsCrypto("SPY")
  {
    assert "AAPL"[..3] != "ADA" by { assert "AAPL"[..3][1] != "ADA"[1]; }
    assert !StartsWith("AAPL", "BTC") && !StartsWith("AAPL", "ETH") && !StartsWith("AAPL", "SOL");
    assert !StartsWith("AAPL", "DOT") && !StartsWith("AAPL", "DOGE") && !StartsWith("AAPL", "MATIC");
    assert "SPY"[..3] != "SOL" by { assert "SPY"[..3][1] != "SOL"[1]; }
    assert !StartsWith("SPY", "BTC") && !StartsWith("SPY", "ETH") && !StartsWith("SPY", "ADA");
    assert !StartsWith("SPY", "DOT") && !StartsWith("SPY", "DOGE") && !StartsWith("SPY", "MATIC");
    MissingFirstChar("AAPL", "-USD");
    MissingFirstChar("AAPL", "/USD");
    MissingFirstChar("AAPL", "USDT");
    MissingFirstChar("AAPL", "BUSD");
    MissingFirstChar("SPY", "-USD");
    MissingFirstChar("SPY", "/USD");
    MissingFirstChar("SPY", "USDT");
    MissingFirstChar("SPY", "BUSD");
  }

  // ---------------------------------------------------------------- initialisation

  /** `_initialize_providers`: a vendor's clients are created when its library
      imports and its API key is set (the secret is not checked). A client whose
      construction raises is not added, and for Alpaca and Alpha Vantage a
      failure of the first client also prevents the second. */
  function InitialProviders(creds: Credentials, libs: set<Library>, failing: set<Client>): (r: set<Client>)
    ensures AlpacaStock in r <==> AlpacaLib in libs && TruthyStr(creds.alpacaApiKey) && AlpacaStock !in failing
    ensures AlpacaCrypto in r <==> AlpacaStock in r && AlpacaCrypto !in failing
    ensures AlphaVantageTs in r <==>
              AlphaVantageLib in libs && TruthyStr(creds.alphaVantageApiKey) && AlphaVantageTs !in failing
    ensures AlphaVantageTech in r <==> AlphaVantageTs in r && AlphaVantageTech !in failing
    ensures PolygonClient in r <==> PolygonLib in libs && TruthyStr(creds.polygonApiKey) && PolygonClient !in failing
    ensures CoinbaseClient in r <==>
              CoinbaseLib in libs && TruthyStr(creds.coinbaseApiKey) && CoinbaseClient !in failing
    ensures YFinanceModule in r <==> YFinanceLib in libs
  {
    var alpaca: set<Client> :=
      if AlpacaLib in libs && TruthyStr(creds.alpacaApiKey) && AlpacaStock !in failing then
        (if AlpacaCrypto in failing then {AlpacaStock} else {AlpacaStock, AlpacaCrypto})
      else {};
    var av: set<Client> :=
      if AlphaVantageLib in libs && TruthyStr(creds.alphaVantageApiKey) && AlphaVantageTs !in failing then
        (if AlphaVantageTech in failing then {AlphaVantageTs} else {AlphaVantageTs, AlphaVantageTech})
      else {};
    var poly: set<Client> :=
      if PolygonLib in libs && TruthyStr(creds.polygonApiKey) && PolygonClient !in failing then {PolygonClient} else {};
    var cb: set<Client> :=
      if CoinbaseLib in libs && TruthyStr(creds.coinbaseApiKey) && CoinbaseClient !in failing then {CoinbaseClient} else {};
    var yf: set<Client> := if YFinanceLib in libs then {YFinanceModule} else {};
    alpaca + av + poly + cb + yf
  }

  // ---------------------------------------------------------------- the chain, as a specification

  /** The effect of one attempted call on its vendor's stats. */
  function Attempt<T>(st: Stats, a: Answer<T>, now: Instant): (r: Stats)
    ensures r.requestCount == st.requestCount + 1
    ensures a.Got? ==> r.successCount == st.successCount + 1 && r.lastSuccess == Some(now) && r.lastError == st.lastError
    ensures a.NoData? ==> r.successCount == st.successCount && r.lastSuccess == st.lastSuccess && r.lastError == st.lastError
    ensures a.Raised? ==> r.successCount == st.successCount && r.lastSuccess == st.lastSuccess && r.lastError == Some(now)
  {
    match a
    case Got(_) => Stats(Some(now), st.lastError, st.requestCount + 1, st.successCount + 1)
    case NoData => Stats(st.lastSuccess, st.lastError, st.requestCount + 1, st.successCount)
    case Raised => Stats(st.lastSuccess, Some(now), st.requestCount + 1, st.successCount)
  }

  ghost predicate CountsConsistent(stats: map<Vendor, Stats>)
  {
    forall v :: v in stats ==> stats[v].successCount <= stats[v].requestCount
  }

  function ChainVendors(chain: seq<Step>): set<Vendor>
  {
    set i | 0 <= i < |chain| :: chain[i].1
  }

  /** The chain run from `stats`: the first usable answer of a present client,
      and the stats after every attempt up to that one. */
  function RunChain<T>(chain: seq<Step>, providers: set<Client>, answer: Client -> Answer<T>,
                       stats: map<Vendor, Stats>, now: Instant): (r: (Option<T>, map<Vendor, Stats>))
    requires ChainVendors(chain) <= stats.Keys
    ensures r.1.Keys == stats.Keys
  {
    if |chain| == 0 then (None, stats)
    else
      var c := chain[0].0;
      var v := chain[0].1;
      assert chain[0].1 in ChainVendors(chain);
      assert ChainVendors(chain[1..]) <= ChainVendors(chain) by {
        forall w | w in ChainVendors(chain[1..]) ensures w in ChainVendors(chain) {
          var i :| 0 <= i < |chain[1..]| && chain[1..][i].1 == w;
          assert chain[i + 1].1 == w;
        }
      }
      if c !in providers then RunChain(chain[1..], providers, answer, stats, now)
      else
        var stats' := stats[v := Attempt(stats[v], answer(c), now)];
        if answer(c).Got? then (Some(answer(c).value), stats')
        else RunChain(chain[1..], providers, answer, stats', now)
  }

  ghost predicate Usable<T>(step: Step, providers: set<Client>, answer: Client -> Answer<T>)
  {
    step.0 in providers && answer(step.0).Got?
  }

  /** Step `i` is attempted: its client is present and no earlier step was usable. */
  ghost predicate Tried<T>(chain: seq<Step>, providers: set<Client>, answer: Client -> Answer<T>, i: int)
  {
    0 <= i < |chain| && chain[i].0 in providers
    && forall j :: 0 <= j < i ==> !Usable(chain[j], providers, answer)
  }

  ghost predicate DistinctVendors(chain: seq<Step>)
  {
    forall i, j :: 0 <= i < j < |chain| ==> chain[i].1 != chain[j].1
  }

  lemma TriedShift<T>(chain: seq<Step>, providers: set<Client>, answer: Client -> Answer<T>, i: int)
    requires |chain| > 0 && 1 <= i
    ensures Tried(chain, providers, answer, i) <==>
              !Usable(chain[0], providers, answer) && Tried(chain[1..], providers, answer, i - 1)
  {
    if !Usable(chain[0], providers, answer) && Tried(chain[1..], providers, answer, i - 1) {
      forall j | 0 <= j < i ensures !Usable(chain[j], providers, answer) {
        if j > 0 { assert chain[j] == chain[1..][j - 1]; }
      }
    }
    if Tried(chain, providers, answer, i) {
      forall j | 0 <= j < i - 1 ensures !Usable(chain[1..][j], providers, answer) {
        assert chain[1..][j] == chain[j + 1];
      }
    }
  }

  /** The chain returns the answer of the first usable step, and nothing when no
      present client gives a usable answer. */
  lemma {:induction false} ChainOutcome<T>(chain: seq<Step>, providers: set<Client>, answer: Client -> Answer<T>,
                                           stats: map<Vendor, Stats>, now: Instant)
    requires ChainVendors(chain) <= stats.Keys
    ensures RunChain(chain, providers, answer, stats, now).0.Some? <==>
              exists i :: Tried(chain, providers, answer, i) && answer(chain[i].0).Got?
    ensures forall i :: Tried(chain, providers, answer, i) && answer(chain[i].0).Got? ==>
              RunChain(chain, providers, answer, stats, now).0 == Some(answer(chain[i].0).value)
    decreases |chain|
  {
    if |chain| > 0 {
      var c := chain[0].0;
      var v := chain[0].1;
      assert v in ChainVendors(chain);
      var stats' := if c in providers then stats[v := Attempt(stats[v], answer(c), now)] else stats;
      assert ChainVendors(chain[1..]) <= ChainVendors(chain) by {
        forall w | w in ChainVendors(chain[1..]) ensures w in ChainVendors(chain) {
          var i :| 0 <= i < |chain[1..]| && chain[1..][i].1 == w;
          assert chain[i + 1].1 == w;
        }
      }
      if Usable(chain[0], providers, answer) {
        assert Tried(chain, providers, answer, 0);
        forall i | Tried(chain, providers, answer, i) && answer(chain[i].0).Got? ensures i == 0 {
        }
      } else {
        ChainOutcome(chain[1..], providers, answer, stats', now);
        assert RunChain(chain, providers, answer, stats, now) == RunChain(chain[1..], providers, answer, stats', now);
        forall i | 1 <= i ensures Tried(chain, providers, answer, i) <==> Tried(chain[1..], providers, answer, i - 1) {
          TriedShift(chain, providers, answer, i);
        }
        assert !(Tried(chain, providers, answer, 0) && answer(chain[0].0).Got?);
        if exists i :: Tried(chain, providers, answer, i) && answer(chain[i].0).Got? {
          var i :| Tried(chain, providers, answer, i) && answer(chain[i].0).Got?;
          assert chain[1..][i - 1] == chain[i];
        }
        if exists i :: Tried(chain[1..], providers, answer, i) && answer(chain[1..][i].0).Got? {
          var i :| Tried(chain[1..], providers, answer, i) && answer(chain[1..][i].0).Got?;
          assert Tried(chain, providers, answer, i + 1);
        }
        forall i | 1 <= i && Tried(chain, providers, answer, i) && answer(chain[i].0).Got?
          ensures RunChain(chain, providers, answer, stats, now).0 == Some(answer(chain[i].0).value)
        {
          assert chain[1..][i - 1] == chain[i];
        }
      }
    }
  }

  /** In a chain that names each vendor once, an attempted step applies `Attempt`
      to its vendor's stats, and every vendor with no attempted step keeps its
      stats: absent clients and the steps after the first success change nothing. */
  lemma {:induction false} ChainStats<T>(chain: seq<Step>, providers: set<Client>, answer: Client -> Answer<T>,
                                         stats: map<Vendor, Stats>, now: Instant)
    requires ChainVendors(chain) <= stats.Keys
    requires DistinctVendors(chain)
    ensures forall i :: Tried(chain, providers, answer, i) ==>
              RunChain(chain, providers, answer, stats, now).1[chain[i].1]
                == Attempt(stats[chain[i].1], answer(chain[i].0), now)
    ensures forall v :: v in stats && (forall i :: 0 <= i < |chain| && chain[i].1 == v ==> !Tried(chain, providers, answer, i)) ==>
              RunChain(chain, providers, answer, stats, now).1[v] == stats[v]
    decreases |chain|
  {
    if |chain| > 0 {
      var c := chain[0].0;
      var v := chain[0].1;
      assert v in ChainVendors(chain);
      var stats' := if c in providers then stats[v := Attempt(stats[v], answer(c), now)] else stats;
      assert ChainVendors(chain[1..]) <= ChainVendors(chain) by {
        forall w | w in ChainVendors(chain[1..]) ensures w in ChainVendors(chain) {
          var i :| 0 <= i < |chain[1..]| && chain[1..][i].1 == w;
          assert chain[i + 1].1 == w;
        }
      }
      forall i | 1 <= i ensures Tried(chain, providers, answer, i) <==>
          !Usable(chain[0], providers, answer) && Tried(chain[1..], providers, answer, i - 1) {
        TriedShift(chain, providers, answer, i);
      }
      if Usable(chain[0], providers, answer) {
        forall i | Tried(chain, providers, answer, i) ensures i == 0 { }
      } else {
        assert DistinctVendors(chain[1..]) by {
          forall i, j | 0 <= i < j < |chain[1..]| ensures chain[1..][i].1 != chain[1..][j].1 {
            assert chain[1..][i] == chain[i + 1] && chain[1..][j] == chain[j + 1];
          }
        }
        assert forall k :: 0 <= k < |chain[1..]| ==> chain[1..][k].1 != v by {
          forall k | 0 <= k < |chain[1..]| ensures chain[1..][k].1 != v {
            assert chain[1..][k] == chain[k + 1];
          }
        }
        ChainStats(chain[1..], providers, answer, stats', now);
        assert RunChain(chain, providers, answer, stats, now) == RunChain(chain[1..], providers, answer, stats', now);
        forall i | Tried(chain, providers, answer, i)
          ensures RunChain(chain, providers, answer, stats, now).1[chain[i].1]
                    == Attempt(stats[chain[i].1], answer(chain[i].0), now)
        {
          if i > 0 {
            assert chain[1..][i - 1] == chain[i];
            assert chain[i].1 != v;
          }
        }
        forall w | w in stats && (forall i :: 0 <= i < |chain| && chain[i].1 == w ==> !Tried(chain, providers, answer, i))
          ensures RunChain(chain, providers, answer, stats, now).1[w] == stats[w]
        {
          if w == v {
            assert !Tried(chain, providers, answer, 0);
          } else {
            forall k | 0 <= k < |chain[1..]| && chain[1..][k].1 == w
              ensures !Tried(chain[1..], providers, answer, k)
            {
              assert chain[1..][k] == chain[k + 1];
            }
          }
        }
      }
    }
  }

  /** A run never breaks `success_count <= request_count`. */
  lemma {:induction false} ChainKeepsCounts<T>(chain: seq<Step>, providers: set<Client>, answer: Client -> Answer<T>,
                                               stats: map<Vendor, Stats>, now: Instant)
    requires ChainVendors(chain) <= stats.Keys
    requires CountsConsistent(stats)
    ensures CountsConsistent(RunChain(chain, providers, answer, stats, now).1)
    decreases |chain|
  {
    if |chain| > 0 {
      var c := chain[0].0;
      var v := chain[0].1;
      assert v in ChainVendors(chain);
      var stats' := if c in providers then stats[v := Attempt(stats[v], answer(c), now)] else stats;
      assert ChainVendors(chain[1..]) <= ChainVendors(chain) by {
        forall w | w in ChainVendors(chain[1..]) ensures w in ChainVendors(chain) {
          var i :| 0 <= i < |chain[1..]| && chain[1..][i].1 == w;
          assert chain[i + 1].1 == w;
        }
      }
      assert CountsConsistent(stats');
      if !Usable(chain[0], providers, answer) {
        ChainKeepsCounts(chain[1..], providers, answer, stats', now);
      }
    }
  }

  lemma ChainsNameEachVendorOnce()
    ensures DistinctVendors(STOCK_PRICE_CHAIN) && DistinctVendors(CRYPTO_PRICE_CHAIN)
    ensures DistinctVendors(STOCK_HISTORY_CHAIN) && DistinctVendors(CRYPTO_HISTORY_CHAIN)
    ensures ChainVendors(STOCK_PRICE_CHAIN) <= ALL_VENDORS && ChainVendors(CRYPTO_PRICE_CHAIN) <= ALL_VENDORS
    ensures ChainVendors(STOCK_HISTORY_CHAIN) <= ALL_VENDORS && ChainVendors(CRYPTO_HISTORY_CHAIN) <= ALL_VENDORS
  {
  }

  // ---------------------------------------------------------------- status view

  datatype ProviderStatus = ProviderStatus(available: bool, active: bool, lastSuccess: Option<Instant>,
                                           successCount: nat, requestCount: nat)

  datatype QuoteSummary = QuoteSummary(price: real, changePct: real, volume: real)

  class MultiSourceDataService {
    const providers: set<Client>
    var stats: map<Vendor, Stats>

    ghost predicate Valid()
      reads this
    {
      stats.Keys == ALL_VENDORS && CountsConsistent(stats)
    }

    /** The service after `_initialize_providers`, with all counters at zero. */
    constructor (creds: Credentials, libs: set<Library>, failing: set<Client>)
      ensures Valid()
      ensures providers == InitialProviders(creds, libs, failing)
      ensures forall v :: v in ALL_VENDORS ==> stats[v] == FRESH_STATS
    {
      providers := InitialProviders(creds, libs, failing);
      stats := map v | v in ALL_VENDORS :: FRESH_STATS;
    }

    /** `_is_provider_initialized`: Alpaca counts when either of its clients exists. */
    function IsInitialized(v: Vendor): (r: bool)
      ensures r <==> (v == Alpaca && (AlpacaStock in providers || AlpacaCrypto in providers))
                     || (v == AlphaVantage && AlphaVantageTs in providers)
                     || (v == Polygon && PolygonClient in providers)
                     || (v == Coinbase && CoinbaseClient in providers)
                     || (v == YFinance && YFinanceModule in providers)
    {
      match v
      case Alpaca => AlpacaStock in providers || AlpacaCrypto in providers
      case AlphaVantage => AlphaVantageTs in providers
      case Polygon => PolygonClient in providers
      case Coinbase => CoinbaseClient in providers
      case YFinance => YFinanceModule in providers
    }

    /** `get_provider_status` at clock `now`: a vendor is active when it is
        initialised and its last success is less than five minutes old. */
    function Status(now: Instant): (r: map<Vendor, ProviderStatus>)
      reads this
      requires Valid()
      ensures r.Keys == ALL_VENDORS
      ensures forall v :: v in r ==> r[v].available == IsInitialized(v)
      ensures forall v :: v in r ==>
                (r[v].active <==> IsInitialized(v) && stats[v].lastSuccess.Some?
                                  && now - stats[v].lastSuccess.value < ACTIVE_WINDOW)
      ensures forall v :: v in r ==> r[v].successCount <= r[v].requestCount
      ensures forall v :: v in r ==>
                r[v].successCount == stats[v].successCount && r[v].requestCount == stats[v].requestCount
      ensures forall v :: v in r ==> r[v].lastSuccess == stats[v].lastSuccess
    {
      map v | v in ALL_VENDORS ::
        ProviderStatus(IsInitialized(v),
                       IsInitialized(v) && stats[v].lastSuccess.Some? && now - stats[v].lastSuccess.value < ACTIVE_WINDOW,
                       stats[v].lastSuccess, stats[v].successCount, stats[v].requestCount)
    }

    /** Reading the status changes nothing, so two readings at one clock agree. */
    method GetProviderStatus(now: Instant) returns (r: map<Vendor, ProviderStatus>)
      requires Valid()
      ensures r == Status(now)
    {
      ghost var status := Status(now);
      r := map[];
      var pending := ALL_VENDORS;
      while pending != {}
        invariant pending <= ALL_VENDORS
        invariant r.Keys == ALL_VENDORS - pending
        invariant forall v :: v in r ==> r[v] == status[v]
        decreases pending
      {
        var v :| v in pending;
        var initialized := IsInitialized(v);
        var lastSuccess := stats[v].lastSuccess;
        var active := initialized && lastSuccess.Some? && now - lastSuccess.value < ACTIVE_WINDOW;
        r := r[v := ProviderStatus(initialized, active, lastSuccess, stats[v].successCount, stats[v].requestCount)];
        pending := pending - {v};
      }
    }

    /** One `if key in self.providers: try ...` block of a chain. */
    method TryClient<T>(c: Client, v: Vendor, a: Answer<T>, now: Instant) returns (r: Option<T>)
      requires Valid()
      modifies this
      ensures Valid()
      ensures c !in providers ==> r.None? && stats == old(stats)
      ensures c in providers ==> stats == old(stats)[v := Attempt(old(stats)[v], a, now)]
      ensures c in providers && a.Got? ==> r == Some(a.value)
      ensures !a.Got? ==> r.None?
    {
      r := None;
      if c in providers {
        var st := stats[v];
        st := st.(requestCount := st.requestCount + 1);
        match a {
          case Got(x) =>
            st := st.(lastSuccess := Some(now), successCount := st.successCount + 1);
            r := Some(x);
          case NoData =>
          case Raised =>
            st := st.(lastError := Some(now));
        }
        stats := stats[v := st];
      }
    }

    /** `_get_stock_price`: alpaca_stock, polygon, alpha_vantage, yfinance. */
    method GetStockPrice(symbol: string, now: Instant, vendors: Vendors) returns (price: Option<real>)
      requires Valid()
      modifies this
      ensures Valid()
      ensures (price, stats) == RunChain(STOCK_PRICE_CHAIN, providers, c => vendors.quote(symbol, c), old(stats), now)
    {
      ghost var answer := c => vendors.quote(symbol, c);
      ghost var chain := STOCK_PRICE_CHAIN;
      price := TryClient(AlpacaStock, Alpaca, vendors.quote(symbol, AlpacaStock), now);
      ghost var s1 := stats;
      assert price.Some? ==> RunChain(chain, providers, answer, old(stats), now) == (price, stats);
      assert price.None? ==> RunChain(chain, providers, answer, old(stats), now)
                             == RunChain(chain[1..], providers, answer, s1, now);
      if price.Some? { return; }
      price := TryClient(PolygonClient, Polygon, vendors.quote(symbol, PolygonClient), now);
      ghost var s2 := stats;
      assert price.Some? ==> RunChain(chain[1..], providers, answer, s1, now) == (price, stats);
      assert price.None? ==> RunChain(chain[1..], providers, answer, s1, now)
                             == RunChain(chain[2..], providers, answer, s2, now);
      if price.Some? { return; }
      price := TryClient(AlphaVantageTs, AlphaVantage, vendors.quote(symbol, AlphaVantageTs), now);
      ghost var s3 := stats;
      assert price.Some? ==> RunChain(chain[2..], providers, answer, s2, now) == (price, stats);
      assert price.None? ==> RunChain(chain[2..], providers, answer, s2, now)
                             == RunChain(chain[3..], providers, answer, s3, now);
      if price.Some? { return; }
      price := TryClient(YFinanceModule, YFinance, vendors.quote(symbol, YFinanceModule), now);
      assert RunChain(chain[3..], providers, answer, s3, now) == (price, stats);
    }

    /** `_get_crypto_price`: alpaca_crypto (counted under alpaca), coinbase, yfinance. */
    method GetCryptoPrice(symbol: string, now: Instant, vendors: Vendors) returns (price: Option<real>)
      requires Valid()
      modifies this
      ensures Valid()
      ensures (price, stats) == RunChain(CRYPTO_PRICE_CHAIN, providers, c => vendors.quote(symbol, c), old(stats), now)
    {
      ghost var answer := c => vendors.quote(symbol, c);
      ghost var chain := CRYPTO_PRICE_CHAIN;
      price := TryClient(AlpacaCrypto, Alpaca, vendors.quote(symbol, AlpacaCrypto), now);
      ghost var s1 := stats;
      assert price.Some? ==> RunChain(chain, providers, answer, old(stats), now) == (price, stats);
      assert price.None? ==> RunChain(chain, providers, answer, old(stats), now)
                             == RunChain(chain[1..], providers, answer, s1, now);
      if price.Some? { return; }
      price := TryClient(CoinbaseClient, Coinbase, vendors.quote(symbol, CoinbaseClient), now);
      ghost var s2 := stats;
      assert price.Some? ==> RunChain(chain[1..], providers, answer, s1, now) == (price, stats);
      assert price.None? ==> RunChain(chain[1..], providers, answer, s1, now)
                             == RunChain(chain[2..], providers, answer, s2, now);
      if price.Some? { return; }
      price := TryClient(YFinanceModule, YFinance, vendors.quote(symbol, YFinanceModule), now);
      assert RunChain(chain[2..], providers, answer, s2, now) == (price, stats);
    }

    /** `get_price`: crypto symbols go to the crypto chain, all others to the stock chain. */
    method GetPrice(symbol: string, now: Instant, vendors: Vendors) returns (price: Option<real>)
      requires Valid()
      modifies this
      ensures Valid()
      ensures (price, stats) == RunChain(if IsCrypto(symbol) then CRYPTO_PRICE_CHAIN else STOCK_PRICE_CHAIN,
                                         providers, c => vendors.quote(symbol, c), old(stats), now)
    {
      if IsCrypto(symbol) {
        price := GetCryptoPrice(symbol, now, vendors);
      } else {
        price := GetStockPrice(symbol, now, vendors);
      }
    }

    /** `_get_stock_historical` / `_get_crypto_historical`: the bars of the first
        usable client, or the empty list when every client fails. */
    method GetHistoricalData(symbol: string, days: int, now: Instant, vendors: Vendors) returns (bars: seq<Bar>)
      requires Valid()
      modifies this
      ensures Valid()
      ensures var run := RunChain(if IsCrypto(symbol) then CRYPTO_HISTORY_CHAIN else STOCK_HISTORY_CHAIN,
                                  providers, c => vendors.bars(symbol, days, c), old(stats), now);
              stats == run.1 && bars == (if run.0.Some? then run.0.value else [])
    {
      var first := if IsCrypto(symbol) then AlpacaCrypto else AlpacaStock;
      ghost var chain := if IsCrypto(symbol) then CRYPTO_HISTORY_CHAIN else STOCK_HISTORY_CHAIN;
      ghost var answer := c => vendors.bars(symbol, days, c);
      var r := TryClient(first, Alpaca, vendors.bars(symbol, days, first), now);
      ghost var s1 := stats;
      assert r.Some? ==> RunChain(chain, providers, answer, old(stats), now) == (r, stats);
      assert r.None? ==> RunChain(chain, providers, answer, old(stats), now)
                         == RunChain(chain[1..], providers, answer, s1, now);
      if r.Some? { return r.value; }
      r := TryClient(YFinanceModule, YFinance, vendors.bars(symbol, days, YFinanceModule), now);
      assert RunChain(chain[1..], providers, answer, s1, now) == (r, stats);
      bars := if r.Some? then r.value else [];
    }

    /** `get_market_snapshot`: one entry per symbol whose price is truthy, with
        the change against the previous daily close; a zero previous close
        raises inside the try and the symbol is skipped. */
    method GetMarketSnapshot(symbols: seq<string>, now: Instant, vendors: Vendors)
      returns (snapshot: map<string, QuoteSummary>)
      requires Valid()
      modifies this
      ensures Valid()
      ensures forall s :: s in snapshot ==> s in symbols && snapshot[s].price != 0.0
    {
      snapshot := map[];
      var i := 0;
      while i < |symbols|
        invariant 0 <= i <= |symbols|
        invariant Valid()
        invariant forall s :: s in snapshot ==> s in symbols[..i] && snapshot[s].price != 0.0
      {
        var symbol := symbols[i];
        var price := GetPrice(symbol, now, vendors);
        if price.Some? && price.value != 0.0 {
          var hist := GetHistoricalData(symbol, 2, now, vendors);
          var prev := if |hist| >= 2 then hist[|hist| - 2].close else 1.0;
          if prev != 0.0 {
            var changePct := if |hist| >= 2 then (price.value - prev) / prev * 100.0 else 0.0;
            var volume := if |hist| > 0 then hist[|hist| - 1].volume else 0.0;
            snapshot := snapshot[symbol := QuoteSummary(price.value, changePct, volume)];
          }
        }
        i := i + 1;
      }
    }
  }
}
