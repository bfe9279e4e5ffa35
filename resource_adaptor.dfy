/** The adaptation manager: from a predicted request count and the
    deployment's current replica count it decides how many pods to run next
    minute, patches the deployment when a change is needed and reports the
    ready-replica count the cluster shows afterwards.

    Scaling up goes straight to the needed count, with no upper bound.
    Scaling down first lifts the needed count to `min_pod_replicas` and then
    moves by only `round(excess * resource_removal_strategy)` pods. When the
    deployment runs below the minimum that excess is negative, and the
    branch adds pods. */
module ResourceAdaptor {
  import opened Builtins
  import opened Configuration
  import opened Logs
  import opened ScalingLines

  function Max(a: int, b: int): (m: int)
    ensures m >= a && m >= b && (m == a || m == b)
  {
    if a >= b then a else b
  }

  /** What one decision amounts to: a patch to a new replica count, or no
      patch and the count the function reports instead. */
  datatype Plan = ScaleUp(target: int) | ScaleDown(target: int) | Hold(reported: int) {
    predicate Patches() {
      ScaleUp? || ScaleDown?
    }
  }

  /** The excess over `floor` scaled by the removal share; a share in [0, 1]
      keeps it between zero and the excess. */
  function DampedExcess(current: int, floor: int, fraction: real): (x: real)
    ensures floor <= current && 0.0 <= fraction <= 1.0 ==> 0.0 <= x <= (current - floor) as real
  {
    var e := (current - floor) as real;
    assert e - e * fraction == e * (1.0 - fraction);
    e * fraction
  }

  /** The pods a scale-down removes when the count may fall to `floor`: the
      integer nearest the damped excess, the even one on a tie. */
  function Surplus(current: int, floor: int, fraction: real): (r: int)
    ensures var x := DampedExcess(current, floor, fraction);
            && x - 0.5 <= r as real <= x + 0.5
            && (r as real - x == 0.5 || x - r as real == 0.5 ==> r % 2 == 0)
  {
    RoundHalfEven(DampedExcess(current, floor, fraction))
  }

  /** A removal share in [0, 1] removes no pods below the floor and adds none. */
  lemma SurplusBounds(current: int, floor: int, fraction: real)
    requires floor <= current
    requires 0.0 <= fraction <= 1.0
    ensures 0 <= Surplus(current, floor, fraction) <= current - floor
  {
    RoundHalfEvenWithin(DampedExcess(current, floor, fraction), 0, current - floor);
  }

  /** The damping dead zone: no pod is removed exactly when the damped excess
      is at most one half (a half rounds to the even 0). */
  lemma SurplusZeroIff(current: int, floor: int, fraction: real)
    requires floor <= current
    requires 0.0 <= fraction
    ensures Surplus(current, floor, fraction) == 0 <==> (current - floor) as real * fraction <= 0.5
  {
    var x := (current - floor) as real * fraction;
    assert 0.0 <= x;
    if x <= 0.5 {
      RoundHalfEvenUnique(x, 0);
    }
  }

  /** A higher floor never removes more pods, also when the floor lies above
      the current count. */
  lemma SurplusMonotone(current: int, floor1: int, floor2: int, fraction: real)
    requires floor1 <= floor2
    requires 0.0 <= fraction
    ensures Surplus(current, floor2, fraction) <= Surplus(current, floor1, fraction)
  {
    var x1, x2 := (current - floor1) as real * fraction, (current - floor2) as real * fraction;
    assert x2 <= x1 by {
      assert x1 - x2 == (floor2 - floor1) as real * fraction;
    }
    RoundHalfEvenMonotone(x2, x1);
  }

  lemma RoundHalfEvenMonotone(x: real, y: real)
    requires x <= y
    ensures RoundHalfEven(x) <= RoundHalfEven(y)
  {
    if x < y {
      var rx, ry := RoundHalfEven(x), RoundHalfEven(y);
      assert rx as real <= x + 0.5 && y - 0.5 <= ry as real;
    }
  }

  /** The decision `scaling_decisions` takes for `predicted` requests while the
      deployment runs `current` replicas. */
  function Decide(predicted: int, current: int, cfg: Config): (p: Plan)
    requires cfg.threshold > 0
    ensures p.ScaleUp? <==> CeilDiv(predicted, cfg.threshold) > current
    ensures p.ScaleUp? ==> p.target == CeilDiv(predicted, cfg.threshold)
    ensures p.ScaleDown? ==> CeilDiv(predicted, cfg.threshold) < current && p.target != current
    ensures CeilDiv(predicted, cfg.threshold) == current ==> p == Hold(current)
  {
    var needed := CeilDiv(predicted, cfg.threshold);
    if needed > current then ScaleUp(needed)
    else if needed < current then
      var floor := Max(needed, cfg.minPodReplicas);
      var surplus := Surplus(current, floor, cfg.removalStrategy);
      if surplus == 0 then Hold(floor) else ScaleDown(current - surplus)
    else Hold(needed)
  }

  /** The replica count the deployment is asked for after the decision. */
  function DesiredAfter(p: Plan, current: int): int {
    if p.Patches() then p.target else current
  }

  /** Below the needed count the count is lifted to the minimum and the
      damped surplus is removed: the reported count on a hold is that lifted
      count, and a scale-down lands between it and the current count. */
  lemma ScaleDownDamped(predicted: int, current: int, cfg: Config)
    requires cfg.threshold > 0
    requires 0.0 <= cfg.removalStrategy <= 1.0
    requires cfg.minPodReplicas <= current
    requires CeilDiv(predicted, cfg.threshold) < current
    ensures var floor := Max(CeilDiv(predicted, cfg.threshold), cfg.minPodReplicas);
            var surplus := Surplus(current, floor, cfg.removalStrategy);
            && 0 <= surplus <= current - floor
            && Decide(predicted, current, cfg) == (if surplus == 0 then Hold(floor) else ScaleDown(current - surplus))
  {
    var floor := Max(CeilDiv(predicted, cfg.threshold), cfg.minPodReplicas);
    SurplusBounds(current, floor, cfg.removalStrategy);
  }

  /** Every scale-down stays at or above both the needed count and the
      minimum, and strictly below the current count. */
  lemma ScaleDownWithinBounds(predicted: int, current: int, cfg: Config)
    requires cfg.threshold > 0
    requires 0.0 <= cfg.removalStrategy <= 1.0
    requires cfg.minPodReplicas <= current
    requires Decide(predicted, current, cfg).ScaleDown?
    ensures var t := Decide(predicted, current, cfg).target;
            && CeilDiv(predicted, cfg.threshold) <= t
            && cfg.minPodReplicas <= t
            && t < current
  {
    ScaleDownDamped(predicted, current, cfg);
  }

  /** Scale-up is never clamped: for every configured maximum some
      prediction asks for more pods than it. */
  lemma ScaleUpIgnoresMaximum(current: int, cfg: Config)
    requires cfg.threshold > 0
    ensures var predicted := (Max(current, cfg.maxPodReplicas) + 1) * cfg.threshold;
            var p := Decide(predicted, current, cfg);
            p.ScaleUp? && p.target > cfg.maxPodReplicas && p.target > current
  {
    var k := Max(current, cfg.maxPodReplicas) + 1;
    var predicted := k * cfg.threshold;
    assert (k - 1) * cfg.threshold < predicted;
    CeilDivUnique(predicted, cfg.threshold, k);
  }

  /** When no patch is issued the function reports the needed count lifted
      to the minimum, which on a damped hold need not be the current count. */
  lemma HoldReported(predicted: int, current: int, cfg: Config)
    requires cfg.threshold > 0
    requires Decide(predicted, current, cfg).Hold?
    ensures var n := CeilDiv(predicted, cfg.threshold);
            Decide(predicted, current, cfg).reported == (if n == current then current else Max(n, cfg.minPodReplicas))
  {
  }

  /** With a share in [0, 1] and a current count at or above the minimum,
      no patch ever goes below the minimum. */
  lemma PatchRespectsMinimum(predicted: int, current: int, cfg: Config)
    requires cfg.threshold > 0
    requires 0.0 <= cfg.removalStrategy <= 1.0
    requires cfg.minPodReplicas <= current
    requires Decide(predicted, current, cfg).Patches()
    ensures Decide(predicted, current, cfg).target >= cfg.minPodReplicas
  {
    if Decide(predicted, current, cfg).ScaleDown? {
      ScaleDownWithinBounds(predicted, current, cfg);
    }
  }

  /** The requested count after a decision: the needed count when that is
      not below the current one, else the current count less the damped
      surplus. */
  lemma DesiredAfterValue(predicted: int, current: int, cfg: Config)
    requires cfg.threshold > 0
    ensures var n := CeilDiv(predicted, cfg.threshold);
            DesiredAfter(Decide(predicted, current, cfg), current)
            == if n >= current then n else current - Surplus(current, Max(n, cfg.minPodReplicas), cfg.removalStrategy)
  {
  }

  /** More predicted requests never lead to fewer requested replicas. */
  lemma DesiredMonotoneInPrediction(p1: int, p2: int, current: int, cfg: Config)
    requires cfg.threshold > 0
    requires 0.0 <= cfg.removalStrategy <= 1.0
    requires cfg.minPodReplicas <= current
    requires p1 <= p2
    ensures DesiredAfter(Decide(p1, current, cfg), current) <= DesiredAfter(Decide(p2, current, cfg), current)
  {
    var n1, n2 := CeilDiv(p1, cfg.threshold), CeilDiv(p2, cfg.threshold);
    CeilDivMonotone(p1, p2, cfg.threshold);
    DesiredAfterValue(p1, current, cfg);
    DesiredAfterValue(p2, current, cfg);
    var f1, f2 := Max(n1, cfg.minPodReplicas), Max(n2, cfg.minPodReplicas);
    if n1 < current {
      SurplusBounds(current, f1, cfg.removalStrategy);
      if n2 < current {
        SurplusMonotone(current, f1, f2, cfg.removalStrategy);
      }
    }
  }

  /** Scenario: threshold 1, minimum 5, share 0.5, with 2 replicas running,
      below the minimum. One request needs one pod, so the scale-down branch
      runs: the excess over the lifted count 5 is -3, the surplus rounds
      -1.5 to -2, and the "scale-down" patches the deployment up to 4.
      Two requests need two pods and hold at 2. So the smaller prediction
      asks for more replicas (4 against 2): monotonicity in the prediction
      needs the current count to be at least the minimum. */
  lemma ScaleDownBelowMinimumAddsPods(cfg: Config)
    requires cfg.threshold == 1 && cfg.minPodReplicas == 5 && cfg.removalStrategy == 0.5
    ensures Decide(1, 2, cfg) == ScaleDown(4)
    ensures Decide(2, 2, cfg) == Hold(2)
  {
    OneRequestBelowMinimum(cfg);
    HoldAtNeededCount(cfg);
  }

  lemma OneRequestBelowMinimum(cfg: Config)
    requires cfg.threshold == 1 && cfg.minPodReplicas == 5 && cfg.removalStrategy == 0.5
    ensures Decide(1, 2, cfg) == ScaleDown(4)
  {
    CeilDivUnique(1, cfg.threshold, 1);
    NegativeSurplus();
  }

  lemma HoldAtNeededCount(cfg: Config)
    requires cfg.threshold == 1
    ensures Decide(2, 2, cfg) == Hold(2)
  {
    CeilDivUnique(2, cfg.threshold, 2);
  }

  lemma NegativeSurplus()
    ensures Surplus(2, 5, 0.5) == -2
  {
    assert DampedExcess(2, 5, 0.5) == -1.5;
    RoundHalfEvenUnique(-1.5, -2);
  }

  /** The patch of that scenario is logged as a decrease although it adds pods. */
  lemma ScaleDownBelowMinimumLoggedAsDecrease()
    ensures PatchMessage(ScaleDown(4), 2, 4) == "Pod count is decreased from 2 to 4"
    ensures ParseScalingLine(PatchMessage(ScaleDown(4), 2, 4)) == Some(Changed(Decreased, 2, 4))
  {
    ChangeMessageRoundTrip(Decreased, 2, 4);
  }

  /** Scenario: threshold 100, 80 requests, 5 replicas, minimum 1, share 0.1.
      The damped surplus rounds to 0, nothing is patched, and the reported
      count is 1 while the deployment stays at 5. */
  lemma DampedHoldReportsLiftedCount(cfg: Config)
    requires cfg.threshold == 100 && cfg.minPodReplicas == 1 && cfg.removalStrategy == 0.1
    ensures Decide(80, 5, cfg) == Hold(1)
  {
    CeilDivUnique(80, 100, 1);
    RoundHalfEvenUnique(0.4, 0);
  }

  /** Scenario: threshold 100, 80 requests, 5 replicas, minimum 1, share 0.5:
      two of the four surplus pods go. */
  lemma DampedScaleDown(cfg: Config)
    requires cfg.threshold == 100 && cfg.minPodReplicas == 1 && cfg.removalStrategy == 0.5
    ensures Decide(80, 5, cfg) == ScaleDown(3)
  {
    CeilDivUnique(80, 100, 1);
    RoundHalfEvenUnique(2.0, 2);
  }

  /** The log line after a patch: it names the ready count when the cluster
      already shows the target, and the target otherwise. */
  function PatchMessage(p: Plan, current: int, ready: int): string
    requires p.Patches()
  {
    if p.ScaleUp? then
      (if ready == p.target then ChangeMessage(Increased, current, ready)
       else ChangeMessage(PendingIncrease, current, p.target))
    else
      (if ready == p.target then ChangeMessage(Decreased, current, ready)
       else ChangeMessage(PendingDecrease, current, p.target))
  }

  /** A patch line always reads back as the starting count and the target,
      says "increased" exactly for a scale-up, and says "will be" exactly
      when the cluster does not show the target yet. */
  lemma PatchMessageReadsBack(p: Plan, current: int, ready: int)
    requires p.Patches()
    ensures var parsed := ParseScalingLine(PatchMessage(p, current, ready));
            && parsed.Some? && parsed.value.Changed?
            && parsed.value.from == current && parsed.value.to == p.target
            && parsed.value.wording.Up() == p.ScaleUp?
            && parsed.value.wording.Pending() == (ready != p.target)
  {
    var w := if p.ScaleUp? then (if ready == p.target then Increased else PendingIncrease)
             else (if ready == p.target then Decreased else PendingDecrease);
    assert PatchMessage(p, current, ready) == ChangeMessage(w, current, p.target);
    ChangeMessageRoundTrip(w, current, p.target);
  }

  datatype ApiReply<T> = Ok(value: T) | ApiError

  /** The deployment named in the configuration, as the Kubernetes API shows
      it: `spec.replicas`, `status.ready_replicas`, the patches applied to it
      and whether the API server answers. How many replicas are ready right
      after a patch is up to the cluster: `reconcile` gives it from the ready
      count before the patch and the newly requested count. */
  class Cluster {
    const namespace: string
    const name: string
    var desiredReplicas: nat
    var readyReplicas: nat
    var patches: seq<nat>
    var reachable: bool
    const reconcile: (nat, nat) -> nat

    constructor (namespace: string, name: string, desired: nat, ready: nat, reachable: bool,
                 reconcile: (nat, nat) -> nat)
      ensures this.namespace == namespace && this.name == name
      ensures desiredReplicas == desired && readyReplicas == ready && patches == []
      ensures this.reachable == reachable && this.reconcile == reconcile
    {
      this.namespace, this.name := namespace, name;
      desiredReplicas, readyReplicas, patches := desired, ready, [];
      this.reachable, this.reconcile := reachable, reconcile;
    }

    /** The state right after a patch to `n` replicas. */
    twostate predicate PatchedTo(n: nat)
      reads this
    {
      && desiredReplicas == n
      && patches == old(patches) + [n]
      && readyReplicas == reconcile(old(readyReplicas), n)
      && reachable == old(reachable)
    }

    /** `_get_deployment`: `spec.replicas`, or an API error. */
    method ReadReplicas() returns (r: ApiReply<nat>)
      ensures r == if reachable then Ok(desiredReplicas) else ApiError
    {
      if reachable {
        r := Ok(desiredReplicas);
      } else {
        r := ApiError;
      }
    }

    /** `_scaling_command`: set `spec.replicas` to exactly `n`, patch the
        deployment, read it again and return its ready count. The API server
        refuses a negative count. */
    method ScalingCommand(n: int) returns (r: ApiReply<nat>)
      modifies this
      ensures if old(reachable) && n >= 0
              then PatchedTo(n) && r == Ok(readyReplicas)
              else r == ApiError && unchanged(this)
    {
      if !reachable || n < 0 {
        return ApiError;
      }
      desiredReplicas := n;
      patches := patches + [n];
      readyReplicas := reconcile(readyReplicas, n);
      r := Ok(readyReplicas);
    }
  }

  /** `scaling_decisions`: read the deployment, decide, patch if the plan
      says so, log, and return the ready count after a patch or the reported
      count otherwise. An API error propagates as `ApiError`. */
  method ScalingDecisions(cluster: Cluster, log: Recorder, predicted: int, cfg: Config)
    returns (r: ApiReply<int>)
    requires cfg.threshold > 0
    modifies cluster, log
    ensures !old(cluster.reachable) ==> r == ApiError && unchanged(cluster) && log.events == old(log.events)
    ensures old(cluster.reachable) ==>
      var current := old(cluster.desiredReplicas);
      var p := Decide(predicted, current, cfg);
      if !p.Patches() then
        && r == Ok(p.reported)
        && unchanged(cluster)
        && log.events == old(log.events) + [Log(Info, MaintainedMessage(p.reported))]
      else if p.target < 0 then
        r == ApiError && unchanged(cluster) && log.events == old(log.events)
      else
        && cluster.PatchedTo(p.target)
        && r == Ok(cluster.readyReplicas)
        && log.events == old(log.events) + [Log(Info, PatchMessage(p, current, cluster.readyReplicas))]
  {
    var read := cluster.ReadReplicas();
    if read.ApiError? {
      return ApiError;
    }
    var current := read.value;
    var p := Decide(predicted, current, cfg);
    if !p.Patches() {
      log.LogAction(Info, MaintainedMessage(p.reported));
      return Ok(p.reported);
    }
    var after := cluster.ScalingCommand(p.target);
    if after.ApiError? {
      return ApiError;
    }
    log.LogAction(Info, PatchMessage(p, current, after.value));
    r := Ok(after.value);
  }
}
