/** The `PriceChart` component: the buffer of candles last applied to the
    chart series, its incremental update, and the timeframe controls. */
module PriceChart {
  import opened Wrappers
  import opened Config

  const TimeframeCooldownMs: int := 200

  /** A candle after its price fields were parsed. */
  datatype ChartCandle = ChartCandle(time: int, open: real, high: real, low: real, close: real)

  /** How the series was last updated. */
  datatype Update = NoChart | Cleared | Appended(candle: ChartCandle) | FullReplace(transition: bool)

  /** Whether new data counts as a polling update of the applied buffer. */
  predicate IsIncremental(newData: seq<ChartCandle>, applied: seq<ChartCandle>)
  {
    |newData| > 0 && |applied| > 0
    && newData[|newData| - 1].time > applied[|applied| - 1].time
    && |newData| >= |applied|
  }

  /** Under the incremental guard the last timestamps always differ, so
      the branch that replaces the last candle is dead. */
  lemma SameTimestampUnreachable(newData: seq<ChartCandle>, applied: seq<ChartCandle>)
    requires IsIncremental(newData, applied)
    ensures newData[|newData| - 1].time != applied[|applied| - 1].time
    ensures newData[|newData| - 1] !in applied[|applied| - 1..]
  {
  }

  class Chart {
    var hasChart: bool
    var appliedData: seq<ChartCandle>
    var isTransitioning: bool
    var lastTimeframeChange: int

    constructor ()
      ensures !hasChart && appliedData == [] && !isTransitioning && lastTimeframeChange == 0
    {
      hasChart := false;
      appliedData := [];
      isTransitioning := false;
      lastTimeframeChange := 0;
    }

    /** The mount effect: the chart is created once, with an empty buffer. */
    method Mount()
      modifies this`hasChart, this`appliedData
      ensures old(hasChart) ==> hasChart && appliedData == old(appliedData)
      ensures !old(hasChart) ==> hasChart && appliedData == []
    {
      if hasChart {
        return;
      }
      hasChart := true;
      appliedData := [];
    }

    /** The data effect. The delayed full replacement of a timeframe change
        is applied within the same step. */
    method ApplyData(data: seq<ChartCandle>) returns (update: Update)
      modifies this`appliedData, this`isTransitioning
      ensures !hasChart ==> (update == NoChart && appliedData == old(appliedData) && isTransitioning == old(isTransitioning))
      ensures hasChart ==> !isTransitioning
      ensures hasChart && data == [] ==> update == Cleared && appliedData == []
      ensures hasChart && IsIncremental(data, old(appliedData)) ==>
        (update == Appended(data[|data| - 1]) && appliedData == old(appliedData) + [data[|data| - 1]])
      ensures hasChart && data != [] && !IsIncremental(data, old(appliedData)) ==>
        (update == FullReplace(|old(appliedData)| > 0) && appliedData == data)
      ensures hasChart && data != [] ==> |appliedData| > 0 && appliedData[|appliedData| - 1] == data[|data| - 1]
    {
      if !hasChart {
        return NoChart;
      }
      if |data| == 0 {
        appliedData := [];
        isTransitioning := false;
        return Cleared;
      }
      var lastApplied := appliedData;
      if IsIncremental(data, lastApplied) {
        var newLast := data[|data| - 1];
        var oldLast := lastApplied[|lastApplied| - 1];
        if newLast.time == oldLast.time {
          // the guard above demands a later timestamp
          assert false;
        } else {
          appliedData := appliedData + [newLast];
          update := Appended(newLast);
        }
        isTransitioning := false;
      } else {
        var transition := |lastApplied| > 0;
        if transition {
          isTransitioning := true;
        }
        appliedData := data;
        isTransitioning := false;
        update := FullReplace(transition);
      }
    }

    /** `handleTimeframeClick`: returns the timeframe handed to the callback. */
    method HandleTimeframeClick(tf: string, timeframe: string, now: int, hasCallback: bool)
      returns (changed: Option<string>)
      modifies this`lastTimeframeChange, this`isTransitioning
      ensures tf == timeframe || now - old(lastTimeframeChange) < TimeframeCooldownMs ==>
        (changed.None? && lastTimeframeChange == old(lastTimeframeChange) && isTransitioning == old(isTransitioning))
      ensures tf != timeframe && now - old(lastTimeframeChange) >= TimeframeCooldownMs ==>
        (lastTimeframeChange == now && isTransitioning && changed == if hasCallback then Some(tf) else None)
    {
      changed := None;
      if tf == timeframe {
        return;
      }
      if now - lastTimeframeChange < TimeframeCooldownMs {
        return;
      }
      lastTimeframeChange := now;
      isTransitioning := true;
      if hasCallback {
        changed := Some(tf);
      }
    }
  }

  function SecondsVisible(timeframe: string): bool
  {
    timeframe == "1m" || timeframe == "5m"
  }

  /** Seconds are shown exactly for the two shortest timeframes of the canonical order. */
  lemma SecondsVisibleForShortest(timeframe: string)
    ensures SecondsVisible(timeframe) <==> timeframe in TimeframeOrder[..2]
  {
    assert TimeframeOrder[..2] == ["1m", "5m"];
  }

  /** `formatTimeframe`: the configured label, or the raw string. */
  function FormatTimeframe(tf: string): (r: string)
    ensures tf in TimeframeLabels ==> r == TimeframeLabels[tf] && r != ""
    ensures tf !in TimeframeLabels ==> r == tf
  {
    if tf in TimeframeLabels && TimeframeLabels[tf] != "" then TimeframeLabels[tf] else tf
  }
}
