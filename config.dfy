/** The timeframe configuration shared by the chart components. */
module Config {
  /** The canonical order of the timeframes, shortest first. */
  const TimeframeOrder: seq<string> := ["1m", "5m", "15m", "1h", "4h", "1d"]

  const TimeframeLabels: map<string, string> :=
    map["1m" := "1 min", "5m" := "5 min", "15m" := "15 min", "1h" := "1 hour", "4h" := "4 hours", "1d" := "1 day"]

  /** Every timeframe of the canonical order has a label, and no two share one. */
  lemma LabelsCoverOrder()
    ensures forall tf :: tf in TimeframeOrder <==> tf in TimeframeLabels
    ensures forall i, j :: 0 <= i < j < |TimeframeOrder| ==> TimeframeLabels[TimeframeOrder[i]] != TimeframeLabels[TimeframeOrder[j]]
  {
  }
}
