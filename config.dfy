/** Application settings: provider credentials, the risk limits and the trading
    switches, with the defaults the settings class declares. */
module Config {
  import opened Common

  /** The five vendors whose configuration `get_available_providers` reports. */
  datatype ConfiguredProvider = AlpacaP | AlphaVantageP | PolygonP | BinanceP | CoinbaseP

  datatype Credentials = Credentials(
    alpacaApiKey: Option<string>,
    alpacaSecretKey: Option<string>,
    alphaVantageApiKey: Option<string>,
    polygonApiKey: Option<string>,
    binanceApiKey: Option<string>,
    binanceSecretKey: Option<string>,
    coinbaseApiKey: Option<string>,
    coinbaseApiSecret: Option<string>)

  const NO_CREDENTIALS: Credentials := Credentials(None, None, None, None, None, None, None, None)

  const DEFAULT_MAX_POSITION_SIZE: real := 0.1
  const DEFAULT_MAX_DAILY_LOSS: real := 0.05
  const DEFAULT_STOP_LOSS_PERCENTAGE: real := 0.02

  /** The process-wide settings object; the system endpoint assigns two of its
      fields at run time. */
  class Settings {
    var credentials: Credentials
    var maxPositionSize: real
    var maxDailyLoss: real
    var stopLossPercentage: real
    var paperTrading: bool
    var enableAutoTrading: bool

    /** Settings with no credentials from the environment and the declared defaults. */
    constructor ()
      ensures credentials == NO_CREDENTIALS
      ensures maxPositionSize == 0.1 && maxDailyLoss == 0.05 && stopLossPercentage == 0.02
      ensures paperTrading && !enableAutoTrading
    {
      credentials := NO_CREDENTIALS;
      maxPositionSize := DEFAULT_MAX_POSITION_SIZE;
      maxDailyLoss := DEFAULT_MAX_DAILY_LOSS;
      stopLossPercentage := DEFAULT_STOP_LOSS_PERCENTAGE;
      paperTrading := true;
      enableAutoTrading := false;
    }

    /** Settings read from an environment that supplies `creds`. */
    constructor FromEnvironment(creds: Credentials)
      ensures credentials == creds
      ensures maxPositionSize == 0.1 && maxDailyLoss == 0.05 && stopLossPercentage == 0.02
      ensures paperTrading && !enableAutoTrading
    {
      credentials := creds;
      maxPositionSize := DEFAULT_MAX_POSITION_SIZE;
      maxDailyLoss := DEFAULT_MAX_DAILY_LOSS;
      stopLossPercentage := DEFAULT_STOP_LOSS_PERCENTAGE;
      paperTrading := true;
      enableAutoTrading := false;
    }

    /** `get_available_providers`: which vendors are configured. It only reads fields. */
    function AvailableProviders(): (r: map<ConfiguredProvider, bool>)
      reads this
      ensures r.Keys == {AlpacaP, AlphaVantageP, PolygonP, BinanceP, CoinbaseP}
      ensures r[AlpacaP] <==> TruthyStr(credentials.alpacaApiKey) && TruthyStr(credentials.alpacaSecretKey)
      ensures r[AlphaVantageP] <==> TruthyStr(credentials.alphaVantageApiKey)
      ensures r[PolygonP] <==> TruthyStr(credentials.polygonApiKey)
      ensures r[BinanceP] <==> TruthyStr(credentials.binanceApiKey) && TruthyStr(credentials.binanceSecretKey)
      ensures r[CoinbaseP] <==> TruthyStr(credentials.coinbaseApiKey) && TruthyStr(credentials.coinbaseApiSecret)
    {
      var c := credentials;
      map[AlpacaP := TruthyStr(c.alpacaApiKey) && TruthyStr(c.alpacaSecretKey),
          AlphaVantageP := TruthyStr(c.alphaVantageApiKey),
          PolygonP := TruthyStr(c.polygonApiKey),
          BinanceP := TruthyStr(c.binanceApiKey) && TruthyStr(c.binanceSecretKey),
          CoinbaseP := TruthyStr(c.coinbaseApiKey) && TruthyStr(c.coinbaseApiSecret)]
    }
  }
}
