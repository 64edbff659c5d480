/**
 * The records exchanged by the market-data engine: one DexScreener trading
 * pair (a listing of a token on one venue), the stability assessment derived
 * from it and the buy/sell band. Optional JSON fields are `Option`s.
 */
module MarketTypes {

  datatype Option<+T> = None | Some(value: T)

  datatype Result<+T, +E> = Ok(value: T) | Err(error: E)

  /** The token a pair tracks; `address` is the grouping key. */
  datatype BaseToken = BaseToken(address: string, name: string, symbol: string)

  /** Percentage price changes over trailing windows; the feed may omit any. */
  datatype PriceChange = PriceChange(h1: Option<real>, h6: Option<real>, h24: Option<real>)

  /**
   * One listing of a token pair (DexTokenData). `priceUsd` is the already
   * parsed price; `liquidity` is `liquidity?.usd`, absent when either the
   * object or its `usd` field is missing. `chainId`, `dexId`, `url`,
   * `pairAddress`, `quoteSymbol`, `fdv` and `pairCreatedAt` pass through.
   */
  datatype Pair = Pair(
    chainId: string,
    dexId: string,
    url: string,
    pairAddress: string,
    baseToken: BaseToken,
    quoteSymbol: string,
    priceUsd: real,
    priceChange: PriceChange,
    volumeH24: Option<real>,
    liquidity: Option<real>,
    fdv: Option<real>,
    pairCreatedAt: Option<int>)

  /** Why a single-address lookup produced no listing. */
  datatype SelectError = NoPairsFound

  datatype Status = Stable | Moderate | Volatile | Extreme

  datatype PriceVolatility = Low | Medium | High

  datatype VolumeTrend = Normal | Spike | LowLiquidity

  datatype Trend = Up | Down | Sideways

  datatype Factors = Factors(
    priceVolatility: PriceVolatility,
    volumeTrend: VolumeTrend,
    trend: Trend,
    abnormalMovement: bool)

  /**
   * The five fixed description messages, in the order the scorer tries them:
   * the severe-deviation warning, the illiquid/high stop-loss risk warning,
   * the volatility-above-threshold warning, the slippage caution and the
   * "stable baseline, fit for strategy entry" note.
   */
  datatype Description =
    | SevereDeviationWarning
    | StopLossRiskWarning
    | VolatilityWarning
    | SlippageCaution
    | StableBaselineNote

  datatype StabilityAnalysis = StabilityAnalysis(
    score: int,
    status: Status,
    factors: Factors,
    description: Description)

  datatype CalculatedStrategy = CalculatedStrategy(buyPrice: real, sellPrice: real, spread: real)

  /** `x || 0` on an optional number: absent and zero both give 0. */
  function OrZero(x: Option<real>): real {
    match x
    case None => 0.0
    case Some(v) => v
  }
}
