# Predictive autoscaler core, modelled in Dafny

The system is a custom horizontal pod autoscaler for a Kubernetes
deployment. Every minute it fetches the per-minute request counts of the
last ten minutes from Prometheus and asks a trained temporal convolutional
network for the next minute's request count. It then turns that forecast
into a replica count, patches the deployment and publishes metrics to a
cloud monitoring dashboard.

This project models three parts of it:

- **The scaling decision** (`scaling_decisions`), in module `ResourceAdaptor`.
  - The needed pod count is `ceil(predicted / threshold_value)`.
  - Above the current count, the deployment is patched straight to the
    needed count. There is no upper bound.
  - Below it, the needed count is lifted to `min_pod_replicas`, and the
    count moves by only `round(excess * resource_removal_strategy)` pods. A
    surplus of zero means no patch.
  - That branch does not remove pods when the deployment already runs
    below the minimum. The excess over the lifted count is then negative,
    so the branch adds pods and still logs "decreased". With threshold 1,
    minimum 5 and share 0.5, a deployment at 2 replicas is patched to 4 for
    one request, but holds at 2 for two requests
    (`ScaleDownBelowMinimumAddsPods`, `ScaleDownBelowMinimumLoggedAsDecrease`).
  - At the current count, no patch is issued; the hold line is logged and
    the current count returned.
  - After a patch, the function returns the ready-replica count it reads
    back, which may differ from the target.
  - Each logged scaling line reads back, through `ParseScalingLine` in
    module `ScalingLines`, as the counts and the wording it was written with.
  - The deployment is a `Cluster` object. Its `ScalingCommand` sets
    `spec.replicas`, records the patch and re-reads the ready count.
- **Forecast post-processing** (the end of `forecast_future_workload`), in
  `WorkloadForecaster`.
  - If the last sample did not drop, the rounded prediction is inflated by
    `1 + prediction_error_mitigation_value` and truncated.
  - Otherwise the rounded prediction is returned unchanged.
  - The network itself is an opaque function from series to reply.
- **One iteration of the control loop** (`main_method`), in `ControlLoop`.
  - It dispatches on the fetch result and runs forecast, decision and
    publishing in order.
  - A publishing failure is caught and only logged.
  - The iteration leaves a trace of log lines and collaborator calls in a
    `Recorder` (module `Logs`).

`Builtins` gives exact versions of the Python built-ins the code relies on:
`int()` on a float truncates, `round()` rounds half to even,
`math.ceil(p / t)`, and `str()` on an int, with a parser as its inverse.
`Configuration` holds the configuration record.

Numbers are exact. Replica and request counts are unbounded integers. The
threshold is a positive integer. The removal share, the mitigation share,
the samples and the raw prediction are exact reals.

The model follows the code as written:

- `max_pod_replicas` is loaded but never read, so scale-up is unbounded
  (`ScaleUpIgnoresMaximum`).
- When the damped surplus rounds to zero, the function reports the lifted
  needed count `max(needed, min_pod_replicas)`, not the current count. With
  threshold 100, 80 requests, 5 replicas, minimum 1 and share 0.1, it
  reports 1 while the deployment stays at 5 (`DampedHoldReportsLiftedCount`).
- No final clamp to `[min, max]` is applied.
- Rounding is half-to-even, as Python's `round` does.
- Failures of the forecaster or of the cluster are not caught in the
  iteration. They escape (`Raised`), and the "Waiting for the next
  iteration" line is not written.
- The branch on the last two samples compares their integer parts
  (`int(values[8]) <= int(values[9])`).

Outside behaviour enters as parameters:

- the fetch result of each iteration;
- whether publishing fails;
- the model's reply for a series (a function fixed for the process);
- whether the API server answers (`Cluster.reachable`);
- the ready count the cluster reports right after a patch
  (`Cluster.reconcile`).

The model assumes the API server refuses a negative replica count. Such a
patch is an API error, like an unreachable server.

## Model

| member | source | states |
|---|---|---|
| `Builtins.CeilDiv` | Modules/AdaptionManager/resource_adaptor.py:81-82 | the needed count n for p requests and threshold t satisfies n*t >= p and (n-1)*t < p, for every integer p |
| `Builtins.CeilDivUnique` | Modules/AdaptionManager/resource_adaptor.py:81-82 | those two inequalities determine n, so they fully describe `ceil(p / t)` |
| `Builtins.CeilDivMonotone` | Modules/AdaptionManager/resource_adaptor.py:81-82 | more predicted requests never need fewer pods |
| `Builtins.RoundHalfEven` | Modules/AdaptionManager/resource_adaptor.py:108-109 | `round` gives an integer within one half of its argument, and the even one on a tie |
| `Builtins.RoundHalfEvenUnique` | Modules/AdaptionManager/resource_adaptor.py:108-109 | those two properties single out the rounded value |
| `Builtins.RoundHalfEvenWithin` | Modules/AdaptionManager/resource_adaptor.py:108-109 | rounding a value between two integers stays between them |
| `Builtins.Trunc` | Modules/Forecasters/workload_forecaster.py:118-123 | `int()` on a float drops the fraction toward zero: same sign, at most the magnitude, less than one below it |
| `Builtins.NatToString` | Modules/AdaptionManager/resource_adaptor.py:91 | `str` of a natural number is a non-empty digit string without leading zeros |
| `Builtins.DigitsValueOfNatToString` | Modules/AdaptionManager/resource_adaptor.py:91 | the digits `str` writes denote the number written |
| `Builtins.IntToString` | Modules/AdaptionManager/resource_adaptor.py:91 | `str` of an int is never empty |
| `Builtins.IntToStringRoundTrip` | main.py:54-55 | every integer put into a log line by `str` parses back to itself |
| `Builtins.IntToStringInjective` | main.py:54-55 | different counts give different log text |
| `ResourceAdaptor.Decide` | Modules/AdaptionManager/resource_adaptor.py:81-139 | scale up exactly when the needed count exceeds the current one, and then to exactly that count; a scale-down happens only below the current count and changes it; at the current count, hold and report it |
| `ResourceAdaptor.DampedExcess` | Modules/AdaptionManager/resource_adaptor.py:107-108 | with a share in [0, 1] and a floor not above the current count, the damped excess lies between 0 and the excess itself |
| `ResourceAdaptor.Surplus` | Modules/AdaptionManager/resource_adaptor.py:107-108 | the surplus is the integer nearest the damped excess, the even one on a tie |
| `ResourceAdaptor.SurplusBounds` | Modules/AdaptionManager/resource_adaptor.py:105-109 | with a share in [0, 1] and a floor not above the current count, 0 <= surplus <= current - floor |
| `ResourceAdaptor.SurplusZeroIff` | Modules/AdaptionManager/resource_adaptor.py:108-111 | with a floor not above the current count and a non-negative share, no pod is removed exactly when the damped excess is at most one half |
| `ResourceAdaptor.SurplusMonotone` | Modules/AdaptionManager/resource_adaptor.py:105-109 | with a non-negative share, a higher floor never removes more pods, whether or not the floor lies above the current count |
| `ResourceAdaptor.RoundHalfEvenMonotone` | Modules/AdaptionManager/resource_adaptor.py:108-109 | rounding is monotone |
| `ResourceAdaptor.ScaleDownDamped` | Modules/AdaptionManager/resource_adaptor.py:103-117 | with a share in [0, 1] and a current count at or above the minimum: below the current count, the needed count is lifted to the minimum first, the surplus is round((current - lifted) * share) within [0, current - lifted], and the result is a hold at the lifted count when the surplus is 0, else a scale-down to current - surplus |
| `ResourceAdaptor.ScaleDownWithinBounds` | Modules/AdaptionManager/resource_adaptor.py:105-117 | with a share in [0, 1] and a current count at or above the minimum, a scale-down target is at least the needed count and the minimum and below the current count |
| `ResourceAdaptor.ScaleUpIgnoresMaximum` | Modules/AdaptionManager/resource_adaptor.py:84-86 | for any configured maximum, some prediction scales up past it: scale-up is clamped by neither bound |
| `ResourceAdaptor.HoldReported` | Modules/AdaptionManager/resource_adaptor.py:103-139 | without a patch the reported count is the current count when it equals the needed count, and otherwise the needed count lifted to the minimum |
| `ResourceAdaptor.PatchRespectsMinimum` | Modules/AdaptionManager/resource_adaptor.py:84-117 | with a share in [0, 1] and a current count at or above the minimum, no patch goes below the minimum |
| `ResourceAdaptor.DesiredAfterValue` | Modules/AdaptionManager/resource_adaptor.py:84-117 | for every current count, the requested count after a decision is the needed count when not below the current one, else current minus the damped surplus |
| `ResourceAdaptor.DesiredMonotoneInPrediction` | Modules/AdaptionManager/resource_adaptor.py:81-117 | with a share in [0, 1] and a current count at or above the minimum, a larger prediction never leads to a smaller requested replica count (below the minimum it can, see `ScaleDownBelowMinimumAddsPods`) |
| `ResourceAdaptor.DampedHoldReportsLiftedCount` | Modules/AdaptionManager/resource_adaptor.py:103-115 | threshold 100, 80 requests, 5 replicas, minimum 1, share 0.1: hold, reporting 1 |
| `ResourceAdaptor.DampedScaleDown` | Modules/AdaptionManager/resource_adaptor.py:103-118 | same with share 0.5: scale down to 3 |
| `ResourceAdaptor.ScaleDownBelowMinimumAddsPods` | Modules/AdaptionManager/resource_adaptor.py:103-118 | threshold 1, minimum 5, share 0.5, 2 replicas: one request takes the scale-down branch and patches up to 4; two requests hold at 2 |
| `ResourceAdaptor.ScaleDownBelowMinimumLoggedAsDecrease` | Modules/AdaptionManager/resource_adaptor.py:121-126 | that patch from 2 to 4 is logged as "Pod count is decreased from 2 to 4" |
| `ScalingLines.ChangeMessageRoundTrip` | Modules/AdaptionManager/resource_adaptor.py:88-132 | every patch line, in each of its four wordings, reads back as its wording, starting count and named count |
| `ScalingLines.MaintainedMessageReadsBack` | Modules/AdaptionManager/resource_adaptor.py:112-113 | the hold line reads back as the count it reports |
| `ScalingLines.ParseChangeRoundTrip` | Modules/AdaptionManager/resource_adaptor.py:89-92 | the "<from> to <to>" part of a patch line reads back as both counts |
| `ScalingLines.HeadlineSelects` | Modules/AdaptionManager/resource_adaptor.py:88-132 | the four headlines exclude each other, so only a line's own headline matches |
| `ResourceAdaptor.PatchMessageReadsBack` | Modules/AdaptionManager/resource_adaptor.py:86-132 | a patch line always reads back as the starting count and the target, says "increased" exactly for a scale-up, and says "will be" exactly when the ready count differs from the target |
| `ResourceAdaptor.Cluster.ReadReplicas` | Modules/AdaptionManager/resource_adaptor.py:7-23 | reading the deployment gives `spec.replicas`, or an API error when the server does not answer |
| `ResourceAdaptor.Cluster.ScalingCommand` | Modules/AdaptionManager/resource_adaptor.py:26-60 | `spec.replicas` becomes exactly the requested count, one patch is recorded and nothing else changes; the returned value is the ready count read back, which the cluster decides |
| `ResourceAdaptor.ScalingDecisions` | Modules/AdaptionManager/resource_adaptor.py:63-139 | a hold issues no patch, returns the reported count and logs "to be maintained"; a scale-up or scale-down issues exactly one patch to the decided target and returns the ready count read back; a target/ready mismatch only changes the log line; API errors propagate with nothing changed |
| `WorkloadForecaster.PostProcess` | Modules/Forecasters/workload_forecaster.py:118-133 | the two branch conditions are exhaustive, so a count is always returned |
| `WorkloadForecaster.DropNotInflated` | Modules/Forecasters/workload_forecaster.py:127-133 | after a drop the forecast is the prediction rounded half to even, with no inflation |
| `WorkloadForecaster.RiseInflated` | Modules/Forecasters/workload_forecaster.py:118-125 | without a drop, for a non-negative prediction and share, the forecast is at least the rounded prediction and is the integer part of rounded * (1 + share) |
| `WorkloadForecaster.OnlyLastTwoSamplesDecide` | Modules/Forecasters/workload_forecaster.py:118-127 | only the integer parts of samples 8 and 9 choose the branch |
| `WorkloadForecaster.ForecastFutureWorkload` | Modules/Forecasters/workload_forecaster.py:88-133 | the forecast is the post-processed model prediction and is logged; a failing model raises and logs nothing |
| `ControlLoop.ShortSeriesMessageCarriesCount` | main.py:52-55 | the error line for a short series contains the received step count, recoverable from the text |
| `ControlLoop.ProceedingStagesInOrder` | main.py:40-47 | a proceeding iteration calls fetch, forecast, scaling and publishing once each in that order, passing each stage's result on |
| `ControlLoop.ProceedingCalls` | main.py:42-47 | after the fetch, a proceeding iteration calls forecast, scaling and publishing in that order, whether or not publishing fails |
| `ControlLoop.StoppedIterationCallsOnlyFetch` | main.py:52-58 | an iteration that does not proceed makes no call after the fetch |
| `ControlLoop.Controller.ScaleAndPublish` | main.py:44-50 | the scaling decision is applied as `scaling_decisions` does; its count, the forecast and the last minute's requests are handed to publishing; a publishing failure adds only the error line and still completes; a scaling failure escapes with the cluster unchanged |
| `ControlLoop.Controller.Proceed` | main.py:40-50 | forecast, then decide and apply, then publish; a forecaster or scaling failure escapes with the earlier state; a publishing failure adds only an error line and leaves the applied replica count and the outcome as they were |
| `ControlLoop.Controller.MainMethod` | main.py:32-60 | a `None` fetch raises before any branch; exactly 10 steps proceed; fewer than 10 log the count and stop; anything else (including more than 10) logs a generic error; publishing does not depend on the enable flag; every iteration that does not raise ends with the waiting line, and only those do |

## Left out

- Metrics retrieval from Prometheus (range query, gap filling, time-zone formatting, its own log lines) is left out. Each iteration gets its result as a `FetchResult` value.
- Metric publishing to the cloud monitoring service is left out, with its own log lines (Modules/MetricsManagers/cloud_metric_publisher.py:74 and :114). Each iteration gets only "succeeded" or "failed", and the exact trace of `Controller.MainMethod` leaves out the lines the publisher writes.
- Configuration loading, the file, model and service-account checks, and `stop_program` are left out. The configuration record keeps the namespace, deployment name and cloud-logging flag, and `Cluster` keeps the namespace and name, but the model reads none of them.
- The forecasting network, its scalers and covariates are left out. They are the opaque function `Controller.model`, which sees only the sample values. The real prediction also depends on the series' timestamps, through the minute covariates (Modules/Forecasters/workload_forecaster.py:80-82).
- Logging I/O and cloud logging are left out. A log call is one appended line.
- The start-up log line, the minute scheduler, the `while True` loop and the `KeyboardInterrupt` shutdown are left out. They are timing and process control.
- Floating point is not modelled. Division, multiplication and `round` work on exact values, so misroundings of IEEE doubles and NaN samples are not captured.
- `threshold_value` is modelled as an integer. A fractional threshold in the YAML file is not covered.
- `ResourceAdaptor.Decide`, `ResourceAdaptor.ScalingDecisions`, `ControlLoop.Controller.ScaleAndPublish`, `ControlLoop.Controller.Proceed` and `ControlLoop.Controller.MainMethod` require a positive threshold. The configuration loader does not check it, so a zero threshold, which raises `ZeroDivisionError` out of the iteration, and a negative one, which gives a negative needed count, are not modelled.
- `ResourceAdaptor.Cluster.ScalingCommand`: one reachability flag covers the whole call. A server that stops answering between the patch and the re-read is not modelled.
- `ResourceAdaptor.Cluster.ScalingCommand`: the ready count is a natural number. The Kubernetes client's `None` for "no ready replicas", and what publishing does with it, are not modelled.
- `ResourceAdaptor.ScalingDecisions`: which deployment is read is fixed by the `Cluster` object. The namespace and name lookup is not modelled.
