/**
 * The stability assessment of one trading pair: a score that starts at 100
 * and loses fixed penalties for thin liquidity, a large deviation from the
 * price implied one hour ago, a sharp hourly move, a stagnant turnover and an
 * abnormal movement; the score is clamped to [0, 100] and mapped to a status,
 * alongside three categorical factors, an abnormal flag and a description.
 *
 * Prices and ratios are exact reals. The one place where the JavaScript
 * code yields NaN, the deviation, is an `Option<real>` whose `None` is
 * NaN: every comparison with it is false.
 */
module StabilityScoring {
  import opened MarketTypes
  import PairSelection

  function Abs(x: real): real {
    if x < 0.0 then -x else x
  }

  /** `liquidity?.usd || 1`: absent or zero liquidity counts as 1 when scoring. */
  function ScoringLiquidity(d: Pair): (r: real)
    ensures r != 0.0
  {
    match d.liquidity
    case None => 1.0
    case Some(u) => if u == 0.0 then 1.0 else u
  }

  /**
   * The percentage by which `price` deviates from the price implied one hour
   * ago, `price / (1 + h1 / 100)`. A zero price or an hourly change of -100%
   * makes the JavaScript code divide zero by zero or infinity by infinity,
   * which is NaN; that is `None` here.
   */
  function DeviationPct(price: real, h1: real): (r: Option<real>)
    ensures r.None? <==> price == 0.0 || h1 == -100.0
  {
    if price == 0.0 || h1 == -100.0 then None
    else
      var basis := price / (1.0 + h1 / 100.0);
      assert basis * (1.0 + h1 / 100.0) == price;
      Some(Abs((price - basis) / basis) * 100.0)
  }

  /** `d > t` where `d` may be NaN. */
  predicate Exceeds(d: Option<real>, t: real) {
    d.Some? && d.value > t
  }

  /** The inputs of the scorer, with the source's defaults applied. */
  datatype Signals = Signals(
    h1: real,
    volume: real,
    liquidity: real,
    deviation: Option<real>,
    turnover: real)

  /**
   * Hourly change and 24h volume default to 0, liquidity to 1; turnover is
   * volume over that liquidity.
   */
  function SignalsOf(d: Pair): (s: Signals)
    ensures s.liquidity != 0.0 && s.turnover * s.liquidity == s.volume
    ensures d.liquidity.None? || d.liquidity == Some(0.0) ==> s.liquidity == 1.0
    ensures d.priceChange.h1.None? ==> s.h1 == 0.0
    ensures d.volumeH24.None? ==> s.volume == 0.0
    ensures s.deviation == DeviationPct(d.priceUsd, s.h1)
  {
    var h1 := OrZero(d.priceChange.h1);
    var volume := OrZero(d.volumeH24);
    var liquidity := ScoringLiquidity(d);
    Signals(h1, volume, liquidity, DeviationPct(d.priceUsd, h1), volume / liquidity)
  }

  // ---------------------------------------------------------------------
  // Penalties and score
  // ---------------------------------------------------------------------

  function LiquidityPenalty(liquidity: real): (r: int)
    ensures r in {0, 10, 25, 50}
    ensures r == 0 <==> liquidity >= 500000.0
    ensures r == 50 <==> liquidity < 20000.0
  {
    if liquidity < 20000.0 then 50
    else if liquidity < 100000.0 then 25
    else if liquidity < 500000.0 then 10
    else 0
  }

  function DeviationPenalty(deviation: Option<real>): (r: int)
    ensures r in {0, 10, 25, 40}
    ensures r == 0 <==> !Exceeds(deviation, 2.0)
    ensures r == 40 <==> Exceeds(deviation, 10.0)
  {
    if Exceeds(deviation, 10.0) then 40
    else if Exceeds(deviation, 5.0) then 25
    else if Exceeds(deviation, 2.0) then 10
    else 0
  }

  /** The crash check and the pump check are two separate tests. */
  function MomentumPenalty(h1: real): (r: int)
    ensures r in {0, 20}
    ensures r == 20 <==> h1 < -3.0 || h1 > 15.0
  {
    (if h1 < -3.0 then 20 else 0) + (if h1 > 15.0 then 20 else 0)
  }

  function TurnoverPenalty(turnover: real): (r: int)
    ensures r in {0, 20}
    ensures r == 20 <==> turnover < 0.05
  {
    if turnover < 0.05 then 20 else 0
  }

  /**
   * A deviation above 15% or a turnover above 20 is abnormal; either way the
   * top deviation bracket applies or the volume trend is a spike.
   */
  predicate IsAbnormal(s: Signals): (b: bool)
    ensures b ==> Exceeds(s.deviation, 10.0) || s.turnover > 5.0
    ensures !Exceeds(s.deviation, 15.0) && s.turnover <= 20.0 ==> !b
  {
    Exceeds(s.deviation, 15.0) || s.turnover > 20.0
  }

  function AbnormalPenalty(s: Signals): (r: int)
    ensures r in {0, 20}
    ensures r == 20 <==> IsAbnormal(s)
  {
    if IsAbnormal(s) then 20 else 0
  }

  function TotalPenalty(s: Signals): (r: int)
    ensures 0 <= r <= 150
  {
    LiquidityPenalty(s.liquidity) + DeviationPenalty(s.deviation) + MomentumPenalty(s.h1)
      + TurnoverPenalty(s.turnover) + AbnormalPenalty(s)
  }

  /** `Math.max(0, Math.min(100, x))`. */
  function Clamp(x: int): (r: int)
    ensures 0 <= r <= 100
    ensures 0 <= x <= 100 ==> r == x
    ensures x < 0 ==> r == 0
    ensures x > 100 ==> r == 100
  {
    if x < 0 then 0 else if x > 100 then 100 else x
  }

  /** The score: 100 less every penalty, clamped to [0, 100]. */
  function ScoreOf(s: Signals): (r: int)
    ensures 0 <= r <= 100
    ensures TotalPenalty(s) <= 100 ==> r == 100 - TotalPenalty(s)
    ensures TotalPenalty(s) >= 100 ==> r == 0
  {
    Clamp(100 - TotalPenalty(s))
  }

  // ---------------------------------------------------------------------
  // Classification
  // ---------------------------------------------------------------------

  /** The status bands; each lower bound belongs to the better band. */
  function StatusOf(score: int): (r: Status)
    ensures r == Extreme <==> score < 40
    ensures r == Volatile <==> 40 <= score < 60
    ensures r == Moderate <==> 60 <= score < 80
    ensures r == Stable <==> 80 <= score
  {
    if score < 40 then Extreme
    else if score < 60 then Volatile
    else if score < 80 then Moderate
    else Stable
  }

  /** How severe a status is, from 0 (stable) to 3 (extreme). */
  function Severity(status: Status): nat {
    match status
    case Stable => 0
    case Moderate => 1
    case Volatile => 2
    case Extreme => 3
  }

  function PriceVolatilityOf(deviation: Option<real>): (r: PriceVolatility)
    ensures r == High <==> Exceeds(deviation, 3.0)
    ensures r == Medium <==> Exceeds(deviation, 1.0) && !Exceeds(deviation, 3.0)
    ensures r == Low <==> !Exceeds(deviation, 1.0)
  {
    if Exceeds(deviation, 3.0) then High
    else if Exceeds(deviation, 1.0) then Medium
    else Low
  }

  function VolumeTrendOf(turnover: real, liquidity: real): (r: VolumeTrend)
    ensures r == Spike <==> turnover > 5.0
    ensures r == LowLiquidity <==> turnover <= 5.0 && liquidity < 50000.0
    ensures r == Normal <==> turnover <= 5.0 && liquidity >= 50000.0
  {
    if turnover > 5.0 then Spike
    else if liquidity < 50000.0 then LowLiquidity
    else Normal
  }

  function TrendOf(h1: real): (r: Trend)
    ensures r == Up <==> h1 > 0.5
    ensures r == Down <==> h1 < -0.5
    ensures r == Sideways <==> -0.5 <= h1 <= 0.5
  {
    if h1 > 0.5 then Up
    else if h1 < -0.5 then Down
    else Sideways
  }

  /** The factors come from the signals, not from the score. */
  function FactorsOf(s: Signals): Factors {
    Factors(PriceVolatilityOf(s.deviation), VolumeTrendOf(s.turnover, s.liquidity), TrendOf(s.h1), IsAbnormal(s))
  }

  /** The abnormal warning comes first, then the status from worst to best. */
  function DescriptionOf(abnormal: bool, status: Status): (r: Description)
    ensures r == SevereDeviationWarning <==> abnormal
    ensures !abnormal ==> (r == StopLossRiskWarning <==> status == Extreme)
    ensures !abnormal ==> (r == VolatilityWarning <==> status == Volatile)
    ensures !abnormal ==> (r == SlippageCaution <==> status == Moderate)
    ensures !abnormal ==> (r == StableBaselineNote <==> status == Stable)
  {
    if abnormal then SevereDeviationWarning
    else match status
      case Extreme => StopLossRiskWarning
      case Volatile => VolatilityWarning
      case Moderate => SlippageCaution
      case Stable => StableBaselineNote
  }

  // ---------------------------------------------------------------------
  // The scorer
  // ---------------------------------------------------------------------

  /**
   * `analyzeStability`: the score is built by successive deductions from
   * 100 and clamped; status and description are chosen by if-chains.
   */
  method AnalyzeStability(data: Pair) returns (analysis: StabilityAnalysis)
    ensures 0 <= analysis.score <= 100
    ensures analysis.score == ScoreOf(SignalsOf(data))
    ensures analysis.status == StatusOf(analysis.score)
    ensures analysis.factors == FactorsOf(SignalsOf(data))
    ensures analysis.factors.abnormalMovement ==> analysis.score <= 80
    ensures analysis.description == DescriptionOf(analysis.factors.abnormalMovement, analysis.status)
  {
    var currentPrice := data.priceUsd;
    var h1Change := OrZero(data.priceChange.h1);
    var volume := OrZero(data.volumeH24);
    var liquidity := ScoringLiquidity(data);

    var deviationPct := DeviationPct(currentPrice, h1Change);

    var rawScore := 100;

    if liquidity < 20000.0 {
      rawScore := rawScore - 50;
    } else if liquidity < 100000.0 {
      rawScore := rawScore - 25;
    } else if liquidity < 500000.0 {
      rawScore := rawScore - 10;
    }

    if Exceeds(deviationPct, 10.0) {
      rawScore := rawScore - 40;
    } else if Exceeds(deviationPct, 5.0) {
      rawScore := rawScore - 25;
    } else if Exceeds(deviationPct, 2.0) {
      rawScore := rawScore - 10;
    }

    if h1Change < -3.0 {
      rawScore := rawScore - 20;
    }
    if h1Change > 15.0 {
      rawScore := rawScore - 20;
    }

    var turnoverRate := volume / liquidity;
    var isAbnormal := Exceeds(deviationPct, 15.0) || turnoverRate > 20.0;

    if turnoverRate < 0.05 {
      rawScore := rawScore - 20;
    }
    if isAbnormal {
      rawScore := rawScore - 20;
    }

    // the score is already whole, so rounding leaves it unchanged
    rawScore := Clamp(rawScore);

    var status := Stable;
    if rawScore < 40 {
      status := Extreme;
    } else if rawScore < 60 {
      status := Volatile;
    } else if rawScore < 80 {
      status := Moderate;
    }

    var priceVol := PriceVolatilityOf(deviationPct);
    var volTrend := VolumeTrendOf(turnoverRate, liquidity);
    var trend := TrendOf(h1Change);

    var desc := StableBaselineNote;
    if isAbnormal {
      desc := SevereDeviationWarning;
    } else if status == Extreme {
      desc := StopLossRiskWarning;
    } else if status == Volatile {
      desc := VolatilityWarning;
    } else if status == Moderate {
      desc := SlippageCaution;
    }

    analysis := StabilityAnalysis(rawScore, status, Factors(priceVol, volTrend, trend, isAbnormal), desc);
  }

  // ---------------------------------------------------------------------
  // Properties
  // ---------------------------------------------------------------------

  /**
   * Each bracket deducts at most one of its penalties, the crash and pump
   * penalties never both apply, and so the unclamped score lies in [-50, 100].
   */
  lemma PenaltyBrackets(s: Signals)
    ensures LiquidityPenalty(s.liquidity) in {0, 10, 25, 50}
    ensures DeviationPenalty(s.deviation) in {0, 10, 25, 40}
    ensures MomentumPenalty(s.h1) in {0, 20}
    ensures 0 <= TotalPenalty(s) <= 150
  {
  }

  /** The boundary scores of the status bands. */
  lemma StatusBoundaries()
    ensures StatusOf(0) == Extreme && StatusOf(39) == Extreme
    ensures StatusOf(40) == Volatile && StatusOf(59) == Volatile
    ensures StatusOf(60) == Moderate && StatusOf(79) == Moderate
    ensures StatusOf(80) == Stable && StatusOf(100) == Stable
  {
  }

  /** A higher score never has a more severe status. */
  lemma StatusMonotone(lo: int, hi: int)
    requires lo <= hi
    ensures Severity(StatusOf(hi)) <= Severity(StatusOf(lo))
  {
  }

  /**
   * Over exact reals the reconstructed deviation is the size of the hourly
   * change: `price / basis` is `1 + h1 / 100`.
   */
  lemma DeviationIsAbsH1(price: real, h1: real)
    requires price != 0.0 && h1 != -100.0
    ensures DeviationPct(price, h1) == Some(Abs(h1))
  {
    var f := 1.0 + h1 / 100.0;
    var basis := price / f;
    assert basis * f == price;
    assert price / basis == f;
    calc {
      (price - basis) / basis;
      price / basis - basis / basis;
      f - 1.0;
      h1 / 100.0;
    }
  }

  /**
   * With NaN deviation (zero price or a -100% hour) no deviation penalty
   * applies, volatility reads LOW and only turnover can make it abnormal.
   */
  lemma UndefinedDeviationIsIgnored(d: Pair)
    requires d.priceUsd == 0.0 || OrZero(d.priceChange.h1) == -100.0
    ensures DeviationPenalty(SignalsOf(d).deviation) == 0
    ensures PriceVolatilityOf(SignalsOf(d).deviation) == Low
    ensures IsAbnormal(SignalsOf(d)) <==> SignalsOf(d).turnover > 20.0
  {
  }

  /** An abnormal movement costs at least 20 points. */
  lemma AbnormalCapsScore(s: Signals)
    requires IsAbnormal(s)
    ensures ScoreOf(s) <= 80
  {
  }

  /**
   * A deviation above 15% is an hourly move above 15% either way, so the
   * deviation, momentum and abnormal penalties all apply: the score is at
   * most 20 and the status EXTREME.
   */
  lemma SevereDeviationIsExtreme(d: Pair)
    ensures Exceeds(SignalsOf(d).deviation, 15.0) ==> ScoreOf(SignalsOf(d)) <= 20
    ensures Exceeds(SignalsOf(d).deviation, 15.0) ==> StatusOf(ScoreOf(SignalsOf(d))) == Extreme
  {
    var s := SignalsOf(d);
    if Exceeds(s.deviation, 15.0) {
      DeviationIsAbsH1(d.priceUsd, s.h1);
      assert s.h1 < -15.0 || s.h1 > 15.0;
      assert MomentumPenalty(s.h1) == 20;
    }
  }

  /**
   * The two defaults of a missing or zero liquidity: 1 when scoring, which
   * puts the pair in the lowest bracket, and 0 when choosing a listing.
   */
  lemma MissingLiquidityDefaults(d: Pair)
    requires d.liquidity.None? || d.liquidity == Some(0.0)
    ensures SignalsOf(d).liquidity == 1.0
    ensures SignalsOf(d).turnover == SignalsOf(d).volume
    ensures PairSelection.RankLiquidity(d) == 0.0
    ensures ScoreOf(SignalsOf(d)) <= 50
    ensures VolumeTrendOf(SignalsOf(d).turnover, SignalsOf(d).liquidity) != Normal
  {
  }

  /** SPIKE wins over LOW_LIQ whenever turnover exceeds 5. */
  lemma SpikeOverridesLowLiquidity(turnover: real, liquidity: real)
    requires turnover > 5.0
    ensures VolumeTrendOf(turnover, liquidity) == Spike
  {
  }

  /**
   * What the "fit for entry" note guarantees: no abnormal movement, a score
   * of at least 80 (so at most 20 points of penalty), liquidity of at least
   * 100,000 and a deviation of at most 5%.
   */
  lemma EntryNoteGuarantees(s: Signals)
    requires DescriptionOf(IsAbnormal(s), StatusOf(ScoreOf(s))) == StableBaselineNote
    ensures !IsAbnormal(s) && ScoreOf(s) >= 80
    ensures s.liquidity >= 100000.0
    ensures TotalPenalty(s) <= 20
    ensures !Exceeds(s.deviation, 5.0)
  {
    PenaltyBrackets(s);
  }

  /**
   * A deep, flat pool: no penalty at all. Price 1, no hourly change,
   * liquidity 1,000,000 and 24h volume 50,000 (turnover exactly 0.05).
   */
  lemma DeepFlatPoolScoresFull(d: Pair)
    requires d.priceUsd == 1.0 && d.priceChange.h1 == Some(0.0)
    requires d.liquidity == Some(1000000.0) && d.volumeH24 == Some(50000.0)
    ensures ScoreOf(SignalsOf(d)) == 100
    ensures StatusOf(ScoreOf(SignalsOf(d))) == Stable
    ensures !IsAbnormal(SignalsOf(d))
  {
    DeviationIsAbsH1(1.0, 0.0);
  }

  /**
   * A thin pool pumping 20% in an hour on turnover 30: every bracket bites,
   * the raw score is -30 and the clamped score 0.
   */
  lemma ThinPumpScoresZero(d: Pair)
    requires d.priceUsd == 1.0 && d.priceChange.h1 == Some(20.0)
    requires d.liquidity == Some(10000.0) && d.volumeH24 == Some(300000.0)
    ensures TotalPenalty(SignalsOf(d)) == 130
    ensures ScoreOf(SignalsOf(d)) == 0
    ensures StatusOf(ScoreOf(SignalsOf(d))) == Extreme
    ensures IsAbnormal(SignalsOf(d))
  {
    DeviationIsAbsH1(1.0, 20.0);
  }
}
