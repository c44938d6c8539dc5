/** The bar colour of `plot_gauge` in utils.py; the figure itself is rendering only. */
module Gauge {
  const Green: string := "#2ecc71"
  const Orange: string := "#f39c12"
  const Red: string := "#e74c3c"

  /** The gauge colour for a risk score on the 0-100 scale. */
  function GaugeColor(predictionDefault: real): string
  {
    if predictionDefault < 30.0 then Green
    else if predictionDefault < 50.0 then Orange
    else Red
  }

  /** Green below 30, orange on [30, 50), red from 50 up. */
  lemma GaugeBands(p: real)
    ensures GaugeColor(p) == Green <==> p < 30.0
    ensures GaugeColor(p) == Orange <==> 30.0 <= p < 50.0
    ensures GaugeColor(p) == Red <==> 50.0 <= p
  {
  }
}
