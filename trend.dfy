/**
 * `getAQITrend`: the direction symbol from the difference between the
 * longer-window average `v3` and the live value `v1`, with a fixed ±5 band.
 * When the longer-window average lies more than 5 above the live value the
 * reading is falling (`arrow.down`); more than 5 below, it is rising.
 */
module AqiTrend {
  import opened JsValues

  const ARROW_DOWN := "arrow.down"
  const ARROW_UP := "arrow.up"
  const ARROW_STEADY := "arrow.left.and.right"

  function GetAQITrend(v1: Num, v3: Num): (r: string)
    ensures r == ARROW_DOWN || r == ARROW_UP || r == ARROW_STEADY
  {
    var partDelta := Sub(v3, v1);
    if Greater(partDelta, 5.0) then ARROW_DOWN
    else if Less(partDelta, -5.0) then ARROW_UP
    else ARROW_STEADY
  }

  /** The symbol for the opposite difference. */
  function Mirror(symbol: string): string
  {
    if symbol == ARROW_DOWN then ARROW_UP
    else if symbol == ARROW_UP then ARROW_DOWN
    else symbol
  }

  /**
   * Each of the three symbols has its own condition on the difference; a
   * missing (NaN) value reads as steady.
   */
  lemma TrendCases(v1: Num, v3: Num)
    ensures GetAQITrend(v1, v3) == ARROW_DOWN <==> v1.Fin? && v3.Fin? && v3.v - v1.v > 5.0
    ensures GetAQITrend(v1, v3) == ARROW_UP <==> v1.Fin? && v3.Fin? && v3.v - v1.v < -5.0
    ensures GetAQITrend(v1, v3) == ARROW_STEADY <==>
      v1.NaN? || v3.NaN? || -5.0 <= v3.v - v1.v <= 5.0
  {
  }

  /** Swapping the two windows swaps up and down and keeps steady. */
  lemma TrendSwap(v1: Num, v3: Num)
    ensures GetAQITrend(v3, v1) == Mirror(GetAQITrend(v1, v3))
  {
    TrendCases(v1, v3);
    TrendCases(v3, v1);
  }

  lemma TrendExamples()
    ensures GetAQITrend(Fin(10.0), Fin(20.0)) == ARROW_DOWN
    ensures GetAQITrend(Fin(10.0), Fin(12.0)) == ARROW_STEADY
    ensures GetAQITrend(Fin(20.0), Fin(10.0)) == ARROW_UP
    ensures GetAQITrend(Fin(10.0), Fin(15.0)) == ARROW_STEADY
  {
  }
}
