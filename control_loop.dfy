/** One iteration of the autoscaler (`main_method`), run at the top of every
    minute: fetch the last ten minutes of request counts, and when there are
    exactly ten samples forecast the next minute, decide and apply the
    replica count, and publish the metrics, where a publishing failure is
    logged and swallowed. A shorter series, or anything else, is logged and
    the iteration ends. The configuration and the forecasting model are
    fixed for the life of the process. */
module ControlLoop {
  import opened Builtins
  import opened Configuration
  import opened Logs
  import opened ResourceAdaptor
  import opened ScalingLines
  import opened WorkloadForecaster

  /** What `getTimeSeries` hands back. */
  datatype FetchResult =
    | Fetched(series: seq<real>, lastMinute: int)   // a TimeSeries of that many steps and the last minute's count
    | NotTimeSeries(lastMinute: int)                // a pair whose first item is not a TimeSeries
    | NoResult                                      // None: the server did not answer with the expected metric

  datatype PublishReply = Published | PublishFailed

  /** Where an exception that escapes the iteration was raised. */
  datatype Stage = FetchStage | ForecastStage | ScalingStage

  datatype Outcome = Completed | Raised(stage: Stage)

  const NewIterationMessage := "New iteration triggered"
  const PreparedMessage := "Time series prepared for prediction process!"
  const PublishErrorMessage := "Error while publishing metrics to cloud. Skipping process for current iteration!"
  const ShortPrefix := "Minimum of 10 time steps required for prediction process! Received "
  const ShortSuffix := " only!"
  const PreparingErrorMessage := "Error while preparing the time series!"
  const WaitingMessage := "Waiting for the next iteration..."

  function ShortSeriesMessage(n: int): string {
    ShortPrefix + IntToString(n) + ShortSuffix
  }

  /** The line logged for a short series carries the number of steps received. */
  lemma ShortSeriesMessageCarriesCount(n: int)
    ensures var m := ShortSeriesMessage(n);
            |ShortPrefix| + |ShortSuffix| < |m|
            && ParseInt(m[|ShortPrefix|..|m| - |ShortSuffix|]) == Some(n)
  {
    var m := ShortSeriesMessage(n);
    assert m[|ShortPrefix|..|m| - |ShortSuffix|] == IntToString(n);
    IntToStringRoundTrip(n);
  }

  /** The forecast, decision and publishing stages run only on this. */
  predicate Proceeds(f: FetchResult) {
    f.Fetched? && |f.series| == 10
  }

  predicate TooShort(f: FetchResult) {
    f.Fetched? && |f.series| < 10
  }

  function Opening(): seq<Event> {
    [Log(Info, NewIterationMessage), Called(FetchHistory)]
  }

  function Closing(): seq<Event> {
    [Log(Info, WaitingMessage)]
  }

  /** The events of the scaling and publishing stages: the scaling call,
      its log line, the publishing call and, if publishing failed, its
      error line. */
  function ScalingEvents(requests: int, scalingLine: string, podCount: int, lastMinute: int,
                         publish: PublishReply): seq<Event>
  {
    [ Called(Scale(requests)),
      Log(Info, scalingLine),
      Called(Publish(podCount, requests, lastMinute)) ]
    + (if publish == PublishFailed then [Log(Error, PublishErrorMessage)] else [])
  }

  /** The events of a proceeding iteration after the fetch, up to and
      including the publishing attempt and its error line. */
  function ProceedingEvents(series: seq<real>, requests: int, scalingLine: string, podCount: int,
                            lastMinute: int, publish: PublishReply): seq<Event>
  {
    [ Log(Info, PreparedMessage),
      Called(Forecast(series)),
      Log(Info, ForecastMessage(requests)) ]
    + ScalingEvents(requests, scalingLine, podCount, lastMinute, publish)
  }

  /** A proceeding iteration fetches, forecasts, scales and publishes, in
      that order and once each, and publishes what the earlier stages produced. */
  lemma ProceedingStagesInOrder(series: seq<real>, requests: int, scalingLine: string, podCount: int,
                                lastMinute: int, publish: PublishReply)
    ensures Calls(Opening() + ProceedingEvents(series, requests, scalingLine, podCount, lastMinute, publish) + Closing())
            == [FetchHistory, Forecast(series), Scale(requests), Publish(podCount, requests, lastMinute)]
  {
    var middle := ProceedingEvents(series, requests, scalingLine, podCount, lastMinute, publish);
    ProceedingCalls(series, requests, scalingLine, podCount, lastMinute, publish);
    CallsAppend(Opening() + middle, Closing());
    CallsAppend(Opening(), middle);
    NoCalls(Closing());
    CallsOfPair(Opening()[0], Opening()[1]);
    assert Opening() == [Opening()[0], Opening()[1]];
  }

  /** The calls of a proceeding iteration after the fetch. */
  lemma ProceedingCalls(series: seq<real>, requests: int, scalingLine: string, podCount: int,
                        lastMinute: int, publish: PublishReply)
    ensures Calls(ProceedingEvents(series, requests, scalingLine, podCount, lastMinute, publish))
            == [Forecast(series), Scale(requests), Publish(podCount, requests, lastMinute)]
  {
    var middle := ProceedingEvents(series, requests, scalingLine, podCount, lastMinute, publish);
    var body := [ Log(Info, PreparedMessage), Called(Forecast(series)), Log(Info, ForecastMessage(requests)),
                  Called(Scale(requests)), Log(Info, scalingLine), Called(Publish(podCount, requests, lastMinute)) ];
    var errs: seq<Event> := if publish == PublishFailed then [Log(Error, PublishErrorMessage)] else [];
    assert middle == body + errs by {
      assert middle == body[..3] + ScalingEvents(requests, scalingLine, podCount, lastMinute, publish);
      assert ScalingEvents(requests, scalingLine, podCount, lastMinute, publish) == body[3..] + errs;
    }
    CallsAppend(body, errs);
    NoCalls(errs);
    CallsOfAlternating(body[0], body[1], body[2], body[3], body[4], body[5]);
  }

  /** Appending the forecasting lines and then the scaling events is
      appending the events of a proceeding iteration. */
  lemma ProceedingEventsSplit(start: seq<Event>, series: seq<real>, requests: int, scalingLine: string,
                              podCount: int, lastMinute: int, publish: PublishReply)
    ensures start + [ Log(Info, PreparedMessage), Called(Forecast(series)), Log(Info, ForecastMessage(requests)) ]
                  + ScalingEvents(requests, scalingLine, podCount, lastMinute, publish)
            == start + ProceedingEvents(series, requests, scalingLine, podCount, lastMinute, publish)
  {
  }

  lemma CallsOfPair(a: Event, b: Event)
    requires a.Log? && b.Called?
    ensures Calls([a, b]) == [b.call]
  {
    assert [a, b][1..] == [b];
    assert [b][1..] == [];
  }

  lemma CallsOfAlternating(a: Event, b: Event, c: Event, d: Event, e: Event, f: Event)
    requires a.Log? && b.Called? && c.Log? && d.Called? && e.Log? && f.Called?
    ensures Calls([a, b, c, d, e, f]) == [b.call, d.call, f.call]
  {
    CallsOfPair(e, f);
    assert [c, d, e, f][1..] == [d, e, f];
    assert [d, e, f][1..] == [e, f];
    assert Calls([c, d, e, f]) == [d.call, f.call];
    assert [a, b, c, d, e, f][1..] == [b, c, d, e, f];
    assert [b, c, d, e, f][1..] == [c, d, e, f];
  }

  /** Log lines alone contain no calls. */
  lemma {:induction false} NoCalls(events: seq<Event>)
    requires forall i | 0 <= i < |events| :: events[i].Log?
    ensures Calls(events) == []
  {
    if events != [] {
      NoCalls(events[1..]);
    }
  }

  /** An iteration that does not proceed calls nothing after the fetch. */
  lemma StoppedIterationCallsOnlyFetch(line: Event)
    requires line.Log?
    ensures Calls(Opening() + [line] + Closing()) == [FetchHistory]
  {
    var events := Opening() + [line] + Closing();
    NoCalls(events[1..][1..]);
  }

  /** The module globals `configs` and `forecasting_model` of the running
      process, the deployment it scales and the log it writes. */
  class Controller {
    const configs: Config
    const model: seq<real> -> ModelReply
    const cluster: Cluster
    const log: Recorder

    constructor (configs: Config, model: seq<real> -> ModelReply, cluster: Cluster, log: Recorder)
      ensures this.configs == configs && this.model == model
      ensures this.cluster == cluster && this.log == log
    {
      this.configs, this.model := configs, model;
      this.cluster, this.log := cluster, log;
    }

    /** The scaling and publishing stages of a proceeding iteration, after
        the forecast: decide and apply, then publish, where a publishing
        failure adds only an error line. A scaling failure escapes. */
    method ScaleAndPublish(requests: int, lastMinute: int, publish: PublishReply) returns (outcome: Outcome)
      requires configs.threshold > 0
      modifies cluster, log
      ensures
        var current := old(cluster.desiredReplicas);
        var p := Decide(requests, current, configs);
        if !old(cluster.reachable) || (p.Patches() && p.target < 0) then
          && outcome == Raised(ScalingStage) && unchanged(cluster)
          && log.events == old(log.events) + [Called(Scale(requests))]
        else
          var podCount := if p.Patches() then cluster.readyReplicas else p.reported;
          var line := if p.Patches() then PatchMessage(p, current, cluster.readyReplicas)
                      else MaintainedMessage(p.reported);
          && outcome == Completed
          && (if p.Patches() then cluster.PatchedTo(p.target) else unchanged(cluster))
          && log.events == old(log.events) + ScalingEvents(requests, line, podCount, lastMinute, publish)
    {
      ghost var start := log.events;
      log.Enter(Scale(requests));
      var podCount := ScalingDecisions(cluster, log, requests, configs);
      if podCount.ApiError? {
        return Raised(ScalingStage);
      }
      ghost var decided := log.events;
      log.Enter(Publish(podCount.value, requests, lastMinute));
      if publish == PublishFailed {
        log.LogAction(Error, PublishErrorMessage);
      }
      outcome := Completed;
      ghost var line := decided[|decided| - 1].text;
      assert decided == start + [Called(Scale(requests)), Log(Info, line)];
      assert log.events == start + ScalingEvents(requests, line, podCount.value, lastMinute, publish);
    }

    /** The branch of `main_method` taken on a ten-step series: forecast,
        decide and apply, then publish, where a publishing failure is only
        logged. Exceptions from the forecaster and the scaling stage escape. */
    method Proceed(series: seq<real>, lastMinute: int, publish: PublishReply) returns (outcome: Outcome)
      requires |series| == 10
      requires configs.threshold > 0
      modifies cluster, log
      ensures |old(log.events)| < |log.events| && log.events[..|old(log.events)|] == old(log.events)
      ensures outcome.Raised? ==> log.events[|log.events| - 1].Called?
      ensures model(series).ModelFailed? ==>
        outcome == Raised(ForecastStage) && unchanged(cluster)
        && log.events == old(log.events) + [Log(Info, PreparedMessage), Called(Forecast(series))]
      ensures model(series).Predicted? ==>
        var requests := PostProcess(series, model(series).raw, configs.mitigation).value;
        var current := old(cluster.desiredReplicas);
        var p := Decide(requests, current, configs);
        if !old(cluster.reachable) || (p.Patches() && p.target < 0) then
          && outcome == Raised(ScalingStage) && unchanged(cluster)
          && log.events == old(log.events)
                           + [ Log(Info, PreparedMessage), Called(Forecast(series)),
                               Log(Info, ForecastMessage(requests)), Called(Scale(requests)) ]
        else
          var podCount := if p.Patches() then cluster.readyReplicas else p.reported;
          var line := if p.Patches() then PatchMessage(p, current, cluster.readyReplicas)
                      else MaintainedMessage(p.reported);
          && outcome == Completed
          && (if p.Patches() then cluster.PatchedTo(p.target) else unchanged(cluster))
          && log.events == old(log.events)
                           + ProceedingEvents(series, requests, line, podCount, lastMinute, publish)
    {
      ghost var start := log.events;
      log.LogAction(Info, PreparedMessage);
      log.Enter(Forecast(series));
      var forecast := ForecastFutureWorkload(log, series, model, configs.mitigation);
      if forecast.ForecastRaised? {
        return Raised(ForecastStage);
      }
      ghost var afterForecast := log.events;
      assert afterForecast == start + [ Log(Info, PreparedMessage), Called(Forecast(series)),
                                        Log(Info, ForecastMessage(forecast.requests)) ];
      outcome := ScaleAndPublish(forecast.requests, lastMinute, publish);
      ghost var p := Decide(forecast.requests, old(cluster.desiredReplicas), configs);
      if outcome == Completed {
        ghost var podCount := if p.Patches() then cluster.readyReplicas else p.reported;
        ghost var line := if p.Patches() then PatchMessage(p, old(cluster.desiredReplicas), cluster.readyReplicas)
                          else MaintainedMessage(p.reported);
        assert log.events == afterForecast + ScalingEvents(forecast.requests, line, podCount, lastMinute, publish);
        ProceedingEventsSplit(start, series, forecast.requests, line, podCount, lastMinute, publish);
      }
    }

    /** `main_method`. The fetch result and whether publishing fails come
        from outside; the forecast comes from the model and the replica
        counts from the cluster. A `None` from the fetch raises at the tuple
        unpack, before any branch. Publishing is attempted on every
        proceeding iteration whatever `enable_cloud_metric_publishing` says.
        Every iteration that does not raise ends with the waiting line. */
    method MainMethod(fetched: FetchResult, publish: PublishReply) returns (outcome: Outcome)
      requires configs.threshold > 0
      modifies cluster, log
      ensures |old(log.events)| < |log.events| && log.events[..|old(log.events)|] == old(log.events)
      ensures outcome == Completed <==> log.events[|log.events| - 1] == Log(Info, WaitingMessage)
      ensures fetched.NoResult? ==>
        outcome == Raised(FetchStage) && unchanged(cluster)
        && log.events == old(log.events) + Opening()
      ensures TooShort(fetched) ==>
        outcome == Completed && unchanged(cluster)
        && log.events == old(log.events) + Opening() + [Log(Error, ShortSeriesMessage(|fetched.series|))] + Closing()
      ensures !fetched.NoResult? && !TooShort(fetched) && !Proceeds(fetched) ==>
        outcome == Completed && unchanged(cluster)
        && log.events == old(log.events) + Opening() + [Log(Error, PreparingErrorMessage)] + Closing()
      ensures Proceeds(fetched) && model(fetched.series).ModelFailed? ==>
        outcome == Raised(ForecastStage) && unchanged(cluster)
        && log.events == old(log.events) + Opening() + [Log(Info, PreparedMessage), Called(Forecast(fetched.series))]
      ensures Proceeds(fetched) && model(fetched.series).Predicted? ==>
        var requests := PostProcess(fetched.series, model(fetched.series).raw, configs.mitigation).value;
        var current := old(cluster.desiredReplicas);
        var p := Decide(requests, current, configs);
        if !old(cluster.reachable) || (p.Patches() && p.target < 0) then
          && outcome == Raised(ScalingStage) && unchanged(cluster)
          && log.events == old(log.events) + Opening()
                           + [ Log(Info, PreparedMessage), Called(Forecast(fetched.series)),
                               Log(Info, ForecastMessage(requests)), Called(Scale(requests)) ]
        else
          var podCount := if p.Patches() then cluster.readyReplicas else p.reported;
          var line := if p.Patches() then PatchMessage(p, current, cluster.readyReplicas)
                      else MaintainedMessage(p.reported);
          && outcome == Completed
          && (if p.Patches() then cluster.PatchedTo(p.target) else unchanged(cluster))
          && log.events == old(log.events) + Opening()
                           + ProceedingEvents(fetched.series, requests, line, podCount, fetched.lastMinute, publish)
                           + Closing()
    {
      ghost var start := log.events;
      log.LogAction(Info, NewIterationMessage);
      log.Enter(FetchHistory);
      assert log.events == start + Opening();
      if fetched.NoResult? {
        return Raised(FetchStage);
      }
      if !Proceeds(fetched) {
        if TooShort(fetched) {
          log.LogAction(Error, ShortSeriesMessage(|fetched.series|));
        } else {
          log.LogAction(Error, PreparingErrorMessage);
        }
        log.LogAction(Info, WaitingMessage);
        return Completed;
      }
      outcome := Proceed(fetched.series, fetched.lastMinute, publish);
      if outcome.Raised? {
        return;
      }
      ghost var proceeded := log.events;
      log.LogAction(Info, WaitingMessage);
      assert log.events == proceeded + Closing();
    }
  }
}
