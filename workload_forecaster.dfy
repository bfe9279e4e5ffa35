/** The workload forecaster: the trained network's prediction for the next
    minute, rounded to a request count and, unless the last sample dropped,
    inflated by the configured prediction-error mitigation share. The
    network, its scalers and covariates are one opaque function here. */
module WorkloadForecaster {
  import opened Builtins
  import opened Logs

  /** What the forecasting model yields for a series: the inverse-scaled
      prediction, or a failure it raises. */
  datatype ModelReply = Predicted(raw: real) | ModelFailed

  datatype Forecast = Forecasted(requests: int) | ForecastRaised

  /** The last sample did not drop, comparing the integer parts of the
      samples at positions 8 and 9 as the code does. */
  predicate NotDropping(series: seq<real>)
    requires |series| >= 10
  {
    Trunc(series[8]) <= Trunc(series[9])
  }

  /** The branch at the end of `forecast_future_workload`. Falling through
      both conditions would make Python return `None`; that is `None` here. */
  function PostProcess(series: seq<real>, raw: real, mitigation: real): (r: Option<int>)
    requires |series| >= 10
    ensures r.Some?
  {
    if NotDropping(series) then
      Some(Trunc(RoundHalfEven(raw) as real * (1.0 + mitigation)))
    else if Trunc(series[8]) > Trunc(series[9]) then
      Some(RoundHalfEven(raw))
    else
      None
  }

  /** After a drop the forecast is the prediction rounded to the nearest
      integer, ties to even, with no inflation. */
  lemma DropNotInflated(series: seq<real>, raw: real, mitigation: real)
    requires |series| >= 10 && !NotDropping(series)
    ensures var k := PostProcess(series, raw, mitigation).value;
            && raw - 0.5 <= k as real <= raw + 0.5
            && (k as real - raw == 0.5 || raw - k as real == 0.5 ==> k % 2 == 0)
  {
  }

  /** Without a drop, and for a non-negative prediction and share, the
      forecast lies between the rounded prediction and that count inflated
      by the share, less than one below the latter. */
  lemma RiseInflated(series: seq<real>, raw: real, mitigation: real)
    requires |series| >= 10 && NotDropping(series)
    requires raw >= 0.0 && mitigation >= 0.0
    ensures var rounded := RoundHalfEven(raw);
            var k := PostProcess(series, raw, mitigation).value;
            && 0 <= rounded <= k
            && k as real <= rounded as real * (1.0 + mitigation) < k as real + 1.0
  {
    var rounded := RoundHalfEven(raw);
    assert rounded >= 0;
    var y := rounded as real * (1.0 + mitigation);
    assert y - rounded as real == rounded as real * mitigation;
    assert y >= rounded as real;
    assert Trunc(y) >= rounded;
  }

  /** Only the samples at positions 8 and 9 choose the branch: series that
      agree there give the same forecast for the same prediction. */
  lemma OnlyLastTwoSamplesDecide(s1: seq<real>, s2: seq<real>, raw: real, mitigation: real)
    requires |s1| >= 10 && |s2| >= 10
    requires Trunc(s1[8]) == Trunc(s2[8]) && Trunc(s1[9]) == Trunc(s2[9])
    ensures PostProcess(s1, raw, mitigation) == PostProcess(s2, raw, mitigation)
  {
  }

  function ForecastMessage(requests: int): string {
    "Forecasted workload for the next minute is: " + IntToString(requests)
  }

  /** `forecast_future_workload`: ask the model, post-process its prediction
      and log the result. A failing model raises and logs nothing. */
  method ForecastFutureWorkload(log: Recorder, series: seq<real>, model: seq<real> -> ModelReply,
                                mitigation: real)
    returns (r: Forecast)
    requires |series| >= 10
    modifies log
    ensures model(series).ModelFailed? ==> r == ForecastRaised && log.events == old(log.events)
    ensures model(series).Predicted? ==>
      && r == Forecasted(PostProcess(series, model(series).raw, mitigation).value)
      && log.events == old(log.events) + [Log(Info, ForecastMessage(r.requests))]
  {
    var reply := model(series);
    if reply.ModelFailed? {
      return ForecastRaised;
    }
    var requests := PostProcess(series, reply.raw, mitigation).value;
    log.LogAction(Info, ForecastMessage(requests));
    r := Forecasted(requests);
  }
}
