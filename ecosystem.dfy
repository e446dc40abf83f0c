/** Yearly bankroll ("GA") bookkeeping: the year's balance identities, the luxury
    tax on the surplus above the threshold, and the insolvency floor. */
module Ecosystem {

  /** One year's figures: starting bankroll, contributions, play result and tax. */
  datatype YearState = YearState(gaStart: real, contributions: real, playPnl: real, luxuryTax: real) {

    /** Bankroll now: start plus contributions plus play, less tax withdrawn. */
    function CurrentGa(): real {
      gaStart + contributions + playPnl - luxuryTax
    }

    /** Year-to-date result: play less tax. */
    function YtdPnl(): real {
      playPnl - luxuryTax
    }
  }

  /** The two properties agree: the bankroll is start plus contributions plus the
      year-to-date result. */
  lemma CurrentGaIsStartPlusContributionsPlusYtd(y: YearState)
    ensures y.CurrentGa() == y.gaStart + y.contributions + y.YtdPnl()
  {
  }

  const LuxuryThreshold: real := 12500.0
  const InsolvencyFloor: real := 1000.0

  /** Withdraw a quarter of the surplus above the threshold; nothing at or below it.
      The tax already withdrawn this year (`currentLt`) plays no part. */
  function LuxuryTax(ga: real, currentLt: real): (tax: real)
    ensures tax >= 0.0
    ensures ga <= LuxuryThreshold ==> tax == 0.0
    ensures ga > LuxuryThreshold ==> 0.0 < tax < ga - LuxuryThreshold && 4.0 * tax == ga - LuxuryThreshold
  {
    if ga > LuxuryThreshold then
      var surplus := ga - LuxuryThreshold;
      surplus * 0.25
    else
      0.0
  }

  /** The test is strict: a bankroll of exactly the threshold pays nothing, and the
      bankroll left after any tax stays at or above the threshold when it started
      above it (strictly above, in fact). */
  lemma LuxuryTaxKeepsAboveThreshold(ga: real, currentLt: real)
    ensures LuxuryTax(LuxuryThreshold, currentLt) == 0.0
    ensures ga > LuxuryThreshold ==> ga - LuxuryTax(ga, currentLt) > LuxuryThreshold
    ensures ga > LuxuryThreshold ==> ga - LuxuryTax(ga, currentLt) == LuxuryThreshold + 3.0 * LuxuryTax(ga, currentLt)
  {
  }

  /** The tax does not depend on the tax already withdrawn. */
  lemma LuxuryTaxIgnoresCurrentLt(ga: real, lt1: real, lt2: real)
    ensures LuxuryTax(ga, lt1) == LuxuryTax(ga, lt2)
  {
  }

  /** 13,000 against the 12,500 threshold: 125 is withdrawn, leaving 12,875. */
  lemma LuxuryTaxExample(currentLt: real)
    ensures LuxuryTax(13000.0, currentLt) == 125.0
    ensures 13000.0 - LuxuryTax(13000.0, currentLt) == 12875.0
  {
  }

  /** Insolvent when the bankroll is below the floor. */
  function IsInsolvent(ga: real): bool {
    ga < InsolvencyFloor
  }

  /** The floor itself is solvent; anything below it is not. */
  lemma FloorIsSolvent(ga: real)
    ensures !IsInsolvent(1000.0)
    ensures ga < 1000.0 ==> IsInsolvent(ga)
    ensures ga >= 1000.0 ==> !IsInsolvent(ga)
  {
  }
}
