/** The system endpoints: the provider health summary over the data service's
    provider status, and reading and updating the trading configuration. */
module SystemEndpoint {
  import opened Common
  import opened Config
  import opened MultiSource

  // ---------------------------------------------------------------- provider health

  datatype Health = Healthy | Degraded | Critical

  function HealthName(h: Health): string
  {
    match h
    case Healthy => "healthy"
    case Degraded => "degraded"
    case Critical => "critical"
  }

  /** The `overall_health` conditional. */
  function Classify(available: nat, active: nat): (h: Health)
    ensures h == Healthy <==> active > 0
    ensures h == Degraded <==> active == 0 && available > 0
    ensures h == Critical <==> active == 0 && available == 0
  {
    if active > 0 then Healthy else if available > 0 then Degraded else Critical
  }

  datatype Summary = Summary(total: nat, available: nat, active: nat, working: nat, health: Health)

  function AvailableSet(status: map<Vendor, ProviderStatus>): set<Vendor>
  {
    set v | v in status && status[v].available
  }

  function ActiveSet(status: map<Vendor, ProviderStatus>): set<Vendor>
  {
    set v | v in status && status[v].active
  }

  /** The `summary` and `overall_health` of `get_provider_status`. No status entry has
      a `can_attempt` key, so `p.get('can_attempt')` is `None` and nothing counts as
      working. */
  function ProviderSummary(status: map<Vendor, ProviderStatus>): (s: Summary)
    ensures s.total == |status|
    ensures s.available <= s.total && s.active <= s.total && s.working <= s.total
    ensures s.working == 0
    ensures s.health == Classify(s.available, s.active)
    ensures s.available == |AvailableSet(status)| && s.active == |ActiveSet(status)|
  {
    SubsetCard(AvailableSet(status), status.Keys);
    SubsetCard(ActiveSet(status), status.Keys);
    var available := |AvailableSet(status)|;
    var active := |ActiveSet(status)|;
    Summary(|status|, available, active, 0, Classify(available, active))
  }

  lemma {:induction false} SubsetCard<T>(a: set<T>, b: set<T>)
    requires a <= b
    ensures |a| <= |b|
    decreases b
  {
    if a != {} {
      var x :| x in a;
      SubsetCard(a - {x}, b - {x});
    }
  }

  /** On the data service's own status, a vendor is active only when it is available,
      so `active <= available`; the result is healthy iff some vendor is active and
      critical iff no vendor client exists. */
  lemma StatusSummary(svc: MultiSourceDataService, now: Instant)
    requires svc.Valid()
    ensures var s := ProviderSummary(svc.Status(now));
      s.total == |ALL_VENDORS| && s.active <= s.available &&
      (s.health == Healthy <==> exists v :: v in ALL_VENDORS && svc.Status(now)[v].active) &&
      (s.health == Critical <==> forall v :: v in ALL_VENDORS ==> !svc.IsInitialized(v))
  {
    var status := svc.Status(now);
    SubsetCard(ActiveSet(status), AvailableSet(status));
    if exists v :: v in ALL_VENDORS && status[v].active {
      var v :| v in ALL_VENDORS && status[v].active;
      assert v in ActiveSet(status);
    }
    if exists v :: v in ALL_VENDORS && svc.IsInitialized(v) {
      var v :| v in ALL_VENDORS && svc.IsInitialized(v);
      assert v in AvailableSet(status);
    }
  }

  // ---------------------------------------------------------------- configuration

  /** The body of `get_config`. */
  datatype ConfigView = ConfigView(paperTrading: bool, autoTrading: bool, maxPositionSize: real,
                                   maxDailyLoss: real, stopLossPct: real)

  function ViewOf(s: Settings): (v: ConfigView)
    reads s
    ensures v.paperTrading == s.paperTrading && v.autoTrading == s.enableAutoTrading
    ensures v.maxPositionSize == s.maxPositionSize && v.maxDailyLoss == s.maxDailyLoss
    ensures v.stopLossPct == s.stopLossPercentage
  {
    ConfigView(s.paperTrading, s.enableAutoTrading, s.maxPositionSize, s.maxDailyLoss, s.stopLossPercentage)
  }

  const AUTO_TRADING_KEY: string := "auto_trading"
  const MAX_POSITION_KEY: string := "max_position_size"

  /** The configuration `update_config` leaves behind: `auto_trading` and then
      `max_position_size` are copied when present; the first present value of the
      wrong kind stops the update there, with the earlier copy already made. */
  function ConfigAfter(v: ConfigView, config: map<string, Json>): (r: (ConfigView, Option<string>))
    ensures r.0.paperTrading == v.paperTrading && r.0.maxDailyLoss == v.maxDailyLoss
    ensures r.0.stopLossPct == v.stopLossPct
    ensures AUTO_TRADING_KEY !in config ==> r.0.autoTrading == v.autoTrading
    ensures AUTO_TRADING_KEY in config && config[AUTO_TRADING_KEY].JBool? ==>
      r.0.autoTrading == config[AUTO_TRADING_KEY].b
    ensures r.1.None? <==>
      (AUTO_TRADING_KEY in config ==> config[AUTO_TRADING_KEY].JBool?) &&
      (MAX_POSITION_KEY in config ==> config[MAX_POSITION_KEY].JNum?)
    ensures r.1.None? && MAX_POSITION_KEY in config ==> r.0.maxPositionSize == config[MAX_POSITION_KEY].n
    ensures r.1.None? && MAX_POSITION_KEY !in config ==> r.0.maxPositionSize == v.maxPositionSize
    ensures r.1.Some? ==> r.0.maxPositionSize == v.maxPositionSize
    ensures r.1.Some? ==> r.1.value == AUTO_TRADING_KEY || r.1.value == MAX_POSITION_KEY
  {
    var first :=
      if AUTO_TRADING_KEY !in config then (v, None)
      else match config[AUTO_TRADING_KEY]
        case JBool(b) => (v.(autoTrading := b), None)
        case _ => (v, Some(AUTO_TRADING_KEY));
    if first.1.Some? || MAX_POSITION_KEY !in config then first
    else match config[MAX_POSITION_KEY]
      case JNum(n) => (first.0.(maxPositionSize := n), None)
      case _ => (first.0, Some(MAX_POSITION_KEY))
  }

  /** `update_config`: `Ok` with the new `get_config` body, or `Err` naming the key whose
      value does not fit the setting. Nothing but the two named settings changes. */
  method UpdateConfig(s: Settings, config: map<string, Json>) returns (r: Result<ConfigView, string>)
    modifies s
    ensures var after := ConfigAfter(old(ViewOf(s)), config);
      ViewOf(s) == after.0 &&
      (after.1.None? ==> r == Ok(after.0)) &&
      (after.1.Some? ==> r == Err(after.1.value))
    ensures s.credentials == old(s.credentials)
  {
    if AUTO_TRADING_KEY in config {
      match config[AUTO_TRADING_KEY] {
        case JBool(b) => s.enableAutoTrading := b;
        case _ => return Err(AUTO_TRADING_KEY);
      }
    }
    if MAX_POSITION_KEY in config {
      match config[MAX_POSITION_KEY] {
        case JNum(n) => s.maxPositionSize := n;
        case _ => return Err(MAX_POSITION_KEY);
      }
    }
    r := Ok(ViewOf(s));
  }

  /** Updating with the configuration just read back changes nothing. */
  lemma UpdateWithCurrentIsIdentity(v: ConfigView)
    ensures ConfigAfter(v, map[AUTO_TRADING_KEY := JBool(v.autoTrading), MAX_POSITION_KEY := JNum(v.maxPositionSize)]) == (v, None)
  {
    var cfg := map[AUTO_TRADING_KEY := JBool(v.autoTrading), MAX_POSITION_KEY := JNum(v.maxPositionSize)];
    assert AUTO_TRADING_KEY != MAX_POSITION_KEY by {
      assert |AUTO_TRADING_KEY| != |MAX_POSITION_KEY|;
    }
    assert cfg[AUTO_TRADING_KEY] == JBool(v.autoTrading);
  }
}
