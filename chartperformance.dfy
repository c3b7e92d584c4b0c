/** The chart latency probe: one timed request to the OHLCV endpoint per
    timeframe, each answer rated by how fast it came. */
module ChartPerformance {
  import opened Wrappers
  import opened JsString

  const ApiBase := "http://localhost:8000/api/ohlcv/"
  const ProbedTimeframes: seq<string> := ["1m", "5m", "15m", "1h"]
  const ProbedCurve := "0x1234567890123456789012345678901234567890"

  /** The request URL: the curve address in the path, the timeframe and a
      limit of 100 candles in the query. */
  function ProbeUrl(address: string, timeframe: string): string
  {
    ApiBase + address + "?" + Query(timeframe)
  }

  function Query(timeframe: string): string
  {
    "timeframe=" + timeframe + "&limit=100"
  }

  lemma NotInConcat(a: string, b: string, c: char)
    requires c !in a && c !in b
    ensures c !in a + b
  {
    forall k | 0 <= k < |a + b| ensures (a + b)[k] != c {
      if k < |a| { assert (a + b)[k] == a[k]; } else { assert (a + b)[k] == b[k - |a|]; }
    }
  }

  /** The probed URL splits at its one '?' into the API base followed by
      the address, and the query. */
  lemma PathSplits(address: string, timeframe: string)
    requires '?' !in address && '?' !in timeframe
    ensures Split(ProbeUrl(address, timeframe), "?") == [ApiBase + address, Query(timeframe)]
  {
    assert '?' !in ApiBase;
    NotInConcat(ApiBase, address, '?');
    NotInConcat("timeframe=", timeframe, '?');
    NotInConcat("timeframe=" + timeframe, "&limit=100", '?');
    SplitAround(ApiBase + address, '?', Query(timeframe));
  }

  lemma QuerySplits(timeframe: string)
    requires '&' !in timeframe
    ensures Split(Query(timeframe), "&") == ["timeframe=" + timeframe, "limit=100"]
  {
    var head := "timeframe=" + timeframe;
    NotInConcat("timeframe=", timeframe, '&');
    assert Query(timeframe) == head + ['&'] + "limit=100";
    SplitAround(head, '&', "limit=100");
  }

  /** What `response.json()` gives: no JSON at all, or a value of one of
      JSON's kinds. */
  datatype Body = NotJson | JsonNull | JsonBool | JsonNumber | JsonString | JsonArray | JsonObject

  /** `len(data)` is defined: the value is a string, a list or a dict. */
  predicate HasLength(b: Body)
  {
    b.JsonString? || b.JsonArray? || b.JsonObject?
  }

  /** What one request did between the clock readings `start` and `end`
      (seconds): an answer with its status and body, or an exception
      (including the timeout). */
  datatype Outcome = Answered(status: int, body: Body) | Raised
  datatype Probe = Probe(outcome: Outcome, start: real, end: real)

  /** `test_chart_api_response_time`: the latency in milliseconds of a
      successful request, None otherwise. A 200 answer whose body is not
      JSON, or whose JSON has no length, raises inside the `try` and gives
      None as well. */
  function Latency(p: Probe): (r: Option<real>)
    ensures r.Some? <==> p.outcome.Answered? && p.outcome.status == 200 && HasLength(p.outcome.body)
    ensures r.Some? ==> r.value == (p.end - p.start) * 1000.0
    ensures r.Some? && p.start <= p.end ==> r.value >= 0.0
  {
    match p.outcome
    case Raised => None
    case Answered(status, body) =>
      if status == 200 && HasLength(body) then Some((p.end - p.start) * 1000.0) else None
  }

  datatype Rating = Excellent | Good | Slow

  function Rank(r: Rating): nat
  {
    match r
    case Excellent => 0
    case Good => 1
    case Slow => 2
  }

  /** Under 100 ms is excellent, under 500 ms good, anything else slow. */
  function Classify(latency: real): (r: Rating)
    ensures r == Excellent <==> latency < 100.0
    ensures r == Slow <==> latency >= 500.0
  {
    if latency < 100.0 then Excellent else if latency < 500.0 then Good else Slow
  }

  /** A slower answer never gets a better rating. */
  lemma ClassifyIsMonotone(a: real, b: real)
    requires a <= b
    ensures Rank(Classify(a)) <= Rank(Classify(b))
  {
  }

  /** `if latency:` — a probe is rated when it has a latency that is not
      zero (a zero float is falsy in Python). */
  predicate Rated(p: Probe)
  {
    Latency(p).Some? && Latency(p).value != 0.0
  }

  /** The ratings printed for the probes, in order. */
  function Ratings(timeframes: seq<string>, probes: seq<Probe>): (r: seq<(string, Rating)>)
    requires |timeframes| == |probes|
    ensures |r| <= |probes|
    ensures forall k :: 0 <= k < |r| ==> r[k].0 in timeframes
  {
    if |probes| == 0 then []
    else
      var n := |probes| - 1;
      Ratings(timeframes[..n], probes[..n])
      + (if Rated(probes[n]) then [(timeframes[n], Classify(Latency(probes[n]).value))] else [])
  }

  predicate Rates(e: (string, Rating), timeframe: string, p: Probe)
  {
    e.0 == timeframe && Rated(p) && e.1 == Classify(Latency(p).value)
  }

  /** Every printed rating belongs to a probe that answered with a
      non-zero latency, and rates that latency. */
  lemma {:induction false} RatingsOnlyForAnswers(timeframes: seq<string>, probes: seq<Probe>)
    requires |timeframes| == |probes|
    ensures |Ratings(timeframes, probes)| <= |probes|
    ensures forall e :: e in Ratings(timeframes, probes) ==> exists i :: 0 <= i < |probes| && Rates(e, timeframes[i], probes[i])
  {
    if |probes| > 0 {
      var n := |probes| - 1;
      RatingsOnlyForAnswers(timeframes[..n], probes[..n]);
      forall e | e in Ratings(timeframes, probes)
        ensures exists i :: 0 <= i < |probes| && Rates(e, timeframes[i], probes[i])
      {
        if e in Ratings(timeframes[..n], probes[..n]) {
          var i :| 0 <= i < n && Rates(e, timeframes[..n][i], probes[..n][i]);
          assert probes[..n][i] == probes[i] && timeframes[..n][i] == timeframes[i];
        } else {
          assert Rates(e, timeframes[n], probes[n]);
        }
      }
    }
  }

  /** How many of the probes are rated. */
  function RatedCount(probes: seq<Probe>): nat
  {
    if |probes| == 0 then 0
    else RatedCount(probes[..|probes| - 1]) + (if Rated(probes[|probes| - 1]) then 1 else 0)
  }

  /** There is one rating per rated probe, and the rating of probe i comes
      right after those of the rated probes before it: every rated probe is
      printed, under its own timeframe, in probe order. */
  lemma {:induction false} RatingsInProbeOrder(timeframes: seq<string>, probes: seq<Probe>)
    requires |timeframes| == |probes|
    ensures |Ratings(timeframes, probes)| == RatedCount(probes)
    ensures forall i :: 0 <= i < |probes| && Rated(probes[i]) ==>
      RatedCount(probes[..i]) < |Ratings(timeframes, probes)|
      && Ratings(timeframes, probes)[RatedCount(probes[..i])] == (timeframes[i], Classify(Latency(probes[i]).value))
  {
    if |probes| > 0 {
      var n := |probes| - 1;
      var before := Ratings(timeframes[..n], probes[..n]);
      RatingsInProbeOrder(timeframes[..n], probes[..n]);
      var all := Ratings(timeframes, probes);
      assert all[..|before|] == before;
      forall i | 0 <= i < |probes| && Rated(probes[i])
        ensures RatedCount(probes[..i]) < |all|
          && all[RatedCount(probes[..i])] == (timeframes[i], Classify(Latency(probes[i]).value))
      {
        if i < n {
          assert probes[..n][i] == probes[i] && timeframes[..n][i] == timeframes[i];
          assert probes[..n][..i] == probes[..i];
          assert all[RatedCount(probes[..i])] == before[RatedCount(probes[..i])];
        } else {
          assert probes[..i] == probes[..n];
        }
      }
    }
  }

  /** `simulate_performance_test`: the timeframes in the order probed, the
      URLs requested and the ratings printed. */
  method SimulatePerformanceTest(probes: seq<Probe>)
    returns (requested: seq<string>, ratings: seq<(string, Rating)>)
    requires |probes| == |ProbedTimeframes|
    ensures requested == seq(|ProbedTimeframes|, i requires 0 <= i < |ProbedTimeframes| => ProbeUrl(ProbedCurve, ProbedTimeframes[i]))
    ensures ratings == Ratings(ProbedTimeframes, probes)
  {
    requested := [];
    ratings := [];
    var i := 0;
    while i < |ProbedTimeframes|
      invariant 0 <= i <= |ProbedTimeframes|
      invariant requested == seq(i, k requires 0 <= k < i => ProbeUrl(ProbedCurve, ProbedTimeframes[k]))
      invariant ratings == Ratings(ProbedTimeframes[..i], probes[..i])
    {
      var tf := ProbedTimeframes[i];
      requested := requested + [ProbeUrl(ProbedCurve, tf)];
      var latency := Latency(probes[i]);
      if latency.Some? && latency.value != 0.0 {
        ratings := ratings + [(tf, Classify(latency.value))];
      }
      assert ProbedTimeframes[..i + 1][..i] == ProbedTimeframes[..i];
      assert probes[..i + 1][..i] == probes[..i];
      i := i + 1;
    }
    assert ProbedTimeframes[..i] == ProbedTimeframes;
    assert probes[..i] == probes;
  }
}
