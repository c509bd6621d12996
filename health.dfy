/** Cluster health classification of src/health.js: per-node status from the
    node conditions, pod phase counts, and the overall verdict combining both. */
module Health {
  import opened Js
  import opened Cluster

  datatype Status = Healthy | Degraded | Unhealthy

  /** A listed node: its name and `status.conditions`, which may be missing. */
  datatype HealthNode = HealthNode(name: string, conditions: Option<seq<NodeCondition>>)

  /** The `conditions` object of a node report: each condition's status, or `Unknown`. */
  datatype ConditionReport = ConditionReport(
    ready: string, memoryPressure: string, diskPressure: string, pidPressure: string, networkUnavailable: string)

  datatype NodeReport = NodeReport(name: string, status: Status, conditions: ConditionReport)

  /** A listed pod: the fields `checkPodsHealth` reads. */
  datatype HealthPod = HealthPod(name: string, namespace: string, phase: Option<string>, nodeName: Option<string>)

  datatype PodDetail = PodDetail(name: string, namespace: string, status: Option<string>, node: Option<string>)

  datatype PodSummary = PodSummary(total: nat, healthy: nat, unhealthy: int, details: seq<PodDetail>)

  datatype HealthStatus = HealthStatus(nodes: seq<NodeReport>, pods: PodSummary, overall: Status)

  // ------------------------------------------------------------------------
  // Nodes
  // ------------------------------------------------------------------------

  /** The status of the first condition of `kind`, `Unknown` when there is none. */
  function ConditionText(cs: seq<NodeCondition>, kind: string): string {
    match FindCondition(cs, kind)
    case Some(c) => c.status
    case None => "Unknown"
  }

  /** Unhealthy when a Ready condition exists and is not `True`; otherwise Degraded when
      one of the four pressure conditions is `True`; otherwise Healthy. */
  function NodeStatus(cs: seq<NodeCondition>): Status {
    var ready := FindCondition(cs, "Ready");
    if ready.Some? && ready.value.status != "True" then Unhealthy
    else if ConditionTrue(Some(cs), "MemoryPressure") || ConditionTrue(Some(cs), "DiskPressure") ||
            ConditionTrue(Some(cs), "PIDPressure") || ConditionTrue(Some(cs), "NetworkUnavailable") then Degraded
    else Healthy
  }

  /** `kind` is under pressure: its first condition says `True`. */
  predicate FirstSays(cs: seq<NodeCondition>, kind: string, holds: bool) {
    exists i :: 0 <= i < |cs| && cs[i].kind == kind && (cs[i].status == "True") == holds &&
      forall j :: 0 <= j < i ==> cs[j].kind != kind
  }

  lemma {:induction false} FirstSaysLaws(cs: seq<NodeCondition>, kind: string)
    ensures FindCondition(cs, kind).Some? && FindCondition(cs, kind).value.status != "True" <==> FirstSays(cs, kind, false)
    ensures ConditionTrue(Some(cs), kind) <==> FirstSays(cs, kind, true)
  {
    ConditionTrueMeaning(Some(cs), kind);
    var r := FindCondition(cs, kind);
    if r.Some? {
      var i :| 0 <= i < |cs| && cs[i] == r.value && forall j :: 0 <= j < i ==> cs[j].kind != kind;
      if FirstSays(cs, kind, false) {
        var k :| 0 <= k < |cs| && cs[k].kind == kind && cs[k].status != "True" &&
          forall j :: 0 <= j < k ==> cs[j].kind != kind;
        assert k == i;
      }
    }
  }

  /** The node status in terms of the condition list itself: Unhealthy exactly when the
      first Ready condition is not `True` (so a node with no Ready condition is never
      Unhealthy), Degraded exactly when otherwise some first pressure condition is `True`. */
  lemma NodeStatusLaws(cs: seq<NodeCondition>)
    ensures NodeStatus(cs) == Unhealthy <==> FirstSays(cs, "Ready", false)
    ensures NodeStatus(cs) == Degraded <==>
      !FirstSays(cs, "Ready", false) &&
      (FirstSays(cs, "MemoryPressure", true) || FirstSays(cs, "DiskPressure", true) ||
       FirstSays(cs, "PIDPressure", true) || FirstSays(cs, "NetworkUnavailable", true))
    ensures (forall i :: 0 <= i < |cs| ==> cs[i].kind != "Ready") ==> NodeStatus(cs) != Unhealthy
  {
    FirstSaysLaws(cs, "Ready");
    FirstSaysLaws(cs, "MemoryPressure");
    FirstSaysLaws(cs, "DiskPressure");
    FirstSaysLaws(cs, "PIDPressure");
    FirstSaysLaws(cs, "NetworkUnavailable");
  }

  /** An absent condition is reported as `Unknown`; a present one by its first status. */
  lemma ConditionTextLaws(cs: seq<NodeCondition>, kind: string)
    ensures (forall i :: 0 <= i < |cs| ==> cs[i].kind != kind) ==> ConditionText(cs, kind) == "Unknown"
    ensures forall i :: 0 <= i < |cs| && cs[i].kind == kind && (forall j :: 0 <= j < i ==> cs[j].kind != kind) ==>
      ConditionText(cs, kind) == cs[i].status
  {
    var r := FindCondition(cs, kind);
    if r.Some? {
      var k :| 0 <= k < |cs| && cs[k] == r.value && forall j :: 0 <= j < k ==> cs[j].kind != kind;
      forall i | 0 <= i < |cs| && cs[i].kind == kind && (forall j :: 0 <= j < i ==> cs[j].kind != kind)
        ensures ConditionText(cs, kind) == cs[i].status
      {
        assert i == k;
      }
    }
  }

  /** One element of the `checkNodesHealth` map. */
  function NodeHealth(name: string, cs: seq<NodeCondition>): NodeReport {
    NodeReport(name, NodeStatus(cs),
      ConditionReport(ConditionText(cs, "Ready"), ConditionText(cs, "MemoryPressure"), ConditionText(cs, "DiskPressure"),
                      ConditionText(cs, "PIDPressure"), ConditionText(cs, "NetworkUnavailable")))
  }

  predicate AllHaveConditions(nodes: seq<HealthNode>) {
    forall i :: 0 <= i < |nodes| ==> nodes[i].conditions.Some?
  }

  /** The message `checkNodesHealth` throws when a node has no condition list (the
      TypeError of `.find` on undefined, wrapped). */
  const NodesFailure := "Failed to check nodes health: Cannot read properties of undefined (reading 'find')"

  /** `checkNodesHealth` over the listed nodes. */
  function NodesHealth(nodes: seq<HealthNode>): Result<seq<NodeReport>> {
    if !AllHaveConditions(nodes) then Fail(Invalid(NodesFailure))
    else Ok(seq(|nodes|, i requires 0 <= i < |nodes| && AllHaveConditions(nodes) =>
                NodeHealth(nodes[i].name, nodes[i].conditions.value)))
  }

  /** A node without a condition list makes the check fail; otherwise there is one report
      per node, in input order, with the node's name, its status and the text of each of
      the five conditions (`ConditionTextLaws`). */
  lemma NodesHealthLaws(nodes: seq<HealthNode>)
    ensures NodesHealth(nodes).Fail? <==> exists i :: 0 <= i < |nodes| && nodes[i].conditions.None?
    ensures NodesHealth(nodes).Ok? ==>
      |NodesHealth(nodes).value| == |nodes| &&
      forall i :: 0 <= i < |nodes| ==>
        var r := NodesHealth(nodes).value[i];
        var cs := nodes[i].conditions.value;
        r.name == nodes[i].name && r.status == NodeStatus(cs) &&
        r.conditions.ready == ConditionText(cs, "Ready") &&
        r.conditions.memoryPressure == ConditionText(cs, "MemoryPressure") &&
        r.conditions.diskPressure == ConditionText(cs, "DiskPressure") &&
        r.conditions.pidPressure == ConditionText(cs, "PIDPressure") &&
        r.conditions.networkUnavailable == ConditionText(cs, "NetworkUnavailable")
  {
  }

  // ------------------------------------------------------------------------
  // Pods
  // ------------------------------------------------------------------------

  predicate HealthyPod(p: HealthPod) {
    p.phase == Some("Running") || p.phase == Some("Succeeded")
  }

  /** `checkPodsHealth` over the listed pods. */
  function PodsHealth(pods: seq<HealthPod>): PodSummary {
    var healthy := Filter(pods, HealthyPod);
    PodSummary(|pods|, |healthy|, |pods| - |healthy|,
               Map(pods, (p: HealthPod) => PodDetail(p.name, p.namespace, p.phase, p.nodeName)))
  }

  /** `healthy` counts the Running or Succeeded pods, `unhealthy` the rest, and there is
      one detail per pod in input order, carrying its name, namespace, phase and node. */
  lemma PodsHealthLaws(pods: seq<HealthPod>)
    ensures PodsHealth(pods).total == |pods|
    ensures PodsHealth(pods).healthy == Count(pods, HealthyPod)
    ensures PodsHealth(pods).unhealthy == Count(pods, (p: HealthPod) => !HealthyPod(p))
    ensures 0 <= PodsHealth(pods).unhealthy <= PodsHealth(pods).total
    ensures |PodsHealth(pods).details| == |pods| &&
      forall i :: 0 <= i < |pods| ==>
        PodsHealth(pods).details[i] == PodDetail(pods[i].name, pods[i].namespace, pods[i].phase, pods[i].nodeName)
  {
    CountIsFilterLength(pods, HealthyPod);
    CountSplit(pods, HealthyPod, (p: HealthPod) => !HealthyPod(p));
  }

  // ------------------------------------------------------------------------
  // Overall
  // ------------------------------------------------------------------------

  predicate AllNodesHealthy(reports: seq<NodeReport>) {
    forall i :: 0 <= i < |reports| ==> reports[i].status == Healthy
  }

  /** `healthy / (total || 1)` as an exact ratio. */
  function HealthyRatio(pods: PodSummary): real {
    pods.healthy as real / (if pods.total == 0 then 1 else pods.total) as real
  }

  /** The `overall` rule of `checkClusterHealth`. */
  function Overall(reports: seq<NodeReport>, pods: PodSummary): Status {
    if AllNodesHealthy(reports) && HealthyRatio(pods) > 0.9 then Healthy
    else if HealthyRatio(pods) > 0.7 then Degraded
    else Unhealthy
  }

  /** `h / d > a / b` is the integer comparison `b * h > a * d`. */
  lemma RatioAbove(h: int, d: int, a: int, b: int)
    requires d > 0 && b > 0
    ensures (h as real / d as real > a as real / b as real) <==> b * h > a * d
  {
    var x := h as real / d as real;
    var y := a as real / b as real;
    assert x * d as real == h as real;
    assert y * b as real == a as real;
    assert (b * h) as real == x * (d as real) * (b as real);
    assert (a * d) as real == y * (b as real) * (d as real);
    assert (d as real) * (b as real) > 0.0;
    ScaleOrder(x, y, (d as real) * (b as real));
  }

  /** The overall verdict as integer thresholds on the pod counts: Healthy needs every
      node Healthy and more than 90% healthy pods, Degraded more than 70%; with no pods
      at all the ratio is 0, so the cluster is Unhealthy. */
  lemma OverallLaws(reports: seq<NodeReport>, pods: PodSummary)
    ensures var d := if pods.total == 0 then 1 else pods.total;
      (Overall(reports, pods) == Healthy <==> AllNodesHealthy(reports) && 10 * pods.healthy > 9 * d) &&
      (Overall(reports, pods) == Degraded <==>
        !(AllNodesHealthy(reports) && 10 * pods.healthy > 9 * d) && 10 * pods.healthy > 7 * d)
    ensures pods.total == 0 && pods.healthy == 0 ==> Overall(reports, pods) == Unhealthy
  {
    var d := if pods.total == 0 then 1 else pods.total;
    RatioAbove(pods.healthy, d, 9, 10);
    RatioAbove(pods.healthy, d, 7, 10);
    assert 0.9 == 9 as real / 10 as real;
    assert 0.7 == 7 as real / 10 as real;
  }

  /** `checkClusterHealth(k8sClient)` over the listed nodes and pods: the verdict is
      assigned step by step, after an `every` over the node reports. */
  method CheckClusterHealth(nodes: seq<HealthNode>, pods: seq<HealthPod>) returns (r: Result<HealthStatus>)
    ensures NodesHealth(nodes).Fail? ==> r == Fail(Invalid("Failed to check cluster health: " + NodesFailure))
    ensures NodesHealth(nodes).Ok? ==>
      r == Ok(HealthStatus(NodesHealth(nodes).value, PodsHealth(pods),
                           Overall(NodesHealth(nodes).value, PodsHealth(pods))))
  {
    var nh := NodesHealth(nodes);
    if nh.Fail? {
      return Fail(Invalid("Failed to check cluster health: " + NodesFailure));
    }
    var reports := nh.value;
    var summary := PodsHealth(pods);
    var allHealthy := true;
    var i := 0;
    while i < |reports| && allHealthy
      invariant 0 <= i <= |reports|
      invariant allHealthy <==> forall j :: 0 <= j < i ==> reports[j].status == Healthy
    {
      allHealthy := reports[i].status == Healthy;
      i := i + 1;
    }
    assert allHealthy <==> AllNodesHealthy(reports);
    var ratio := HealthyRatio(summary);
    var overall := Unhealthy;
    if allHealthy && ratio > 0.9 {
      overall := Healthy;
    } else if ratio > 0.7 {
      overall := Degraded;
    }
    r := Ok(HealthStatus(reports, summary, overall));
  }
}
