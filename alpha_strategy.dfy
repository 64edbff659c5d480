/**
 * The entry/exit band around the current price: buy 1% above it, sell 0.3%
 * below it, and the spread between the two.
 */
module AlphaStrategy {
  import opened MarketTypes

  /** `calculateAlphaStrategy`. */
  function CalculateAlphaStrategy(currentPrice: real): (r: CalculatedStrategy)
    ensures r.buyPrice - currentPrice == currentPrice / 100.0
    ensures currentPrice - r.sellPrice == currentPrice * 3.0 / 1000.0
    ensures r.spread == r.buyPrice - r.sellPrice
    ensures r.spread == currentPrice * 13.0 / 1000.0
    ensures currentPrice > 0.0 ==> r.sellPrice < currentPrice < r.buyPrice
    ensures currentPrice == 0.0 ==> r == CalculatedStrategy(0.0, 0.0, 0.0)
  {
    CalculatedStrategy(
      currentPrice * (1.0 + 0.01),
      currentPrice * (1.0 - 0.003),
      currentPrice * 1.01 - currentPrice * 0.997)
  }

  /** The band scales with the price. */
  lemma StrategyScales(p: real, k: real)
    ensures CalculateAlphaStrategy(k * p).buyPrice == k * CalculateAlphaStrategy(p).buyPrice
    ensures CalculateAlphaStrategy(k * p).sellPrice == k * CalculateAlphaStrategy(p).sellPrice
    ensures CalculateAlphaStrategy(k * p).spread == k * CalculateAlphaStrategy(p).spread
  {
  }

  /** At a price of 2: buy 2.02, sell 1.994, spread 0.026. */
  lemma StrategyAtTwo()
    ensures CalculateAlphaStrategy(2.0) == CalculatedStrategy(2.02, 1.994, 0.026)
  {
  }
}
