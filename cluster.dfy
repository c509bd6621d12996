/** Fragments of Kubernetes objects that several core files read the same way:
    container restart counts and node conditions. */
module Cluster {
  import opened Js

  /** One entry of `pod.status.containerStatuses`; `restartCount` may be missing. */
  datatype ContainerStatus = ContainerStatus(restartCount: Option<int>)

  /** One entry of `node.status.conditions`. */
  datatype NodeCondition = NodeCondition(kind: string, status: string)

  /** `statuses.reduce((sum, c) => sum + (c.restartCount || 0), 0)` */
  function SumRestarts(statuses: seq<ContainerStatus>): int
    decreases |statuses|
  {
    if |statuses| == 0 then 0
    else SumRestarts(statuses[..|statuses| - 1]) + statuses[|statuses| - 1].restartCount.GetOr(0)
  }

  /** `containerStatuses?.reduce(...) || 0`: a pod without statuses has no restarts. */
  function TotalRestarts(statuses: Option<seq<ContainerStatus>>): int {
    if statuses.None? then 0 else SumRestarts(statuses.value)
  }

  /** With non-negative counts the total is non-negative, and it is at least every
      single container's count. */
  lemma {:induction false} RestartsBound(statuses: seq<ContainerStatus>, k: int)
    requires forall i :: 0 <= i < |statuses| ==> statuses[i].restartCount.GetOr(0) >= 0
    requires 0 <= k < |statuses|
    ensures SumRestarts(statuses) >= statuses[k].restartCount.GetOr(0) >= 0
    decreases |statuses|
  {
    var n := |statuses|;
    NonNegativeRestarts(statuses[..n - 1]);
    if k < n - 1 {
      RestartsBound(statuses[..n - 1], k);
    }
  }

  lemma {:induction false} NonNegativeRestarts(statuses: seq<ContainerStatus>)
    requires forall i :: 0 <= i < |statuses| ==> statuses[i].restartCount.GetOr(0) >= 0
    ensures SumRestarts(statuses) >= 0
    decreases |statuses|
  {
    if |statuses| > 0 {
      NonNegativeRestarts(statuses[..|statuses| - 1]);
    }
  }

  /** `conditions.find(c => c.type === kind)` */
  function FindCondition(conditions: seq<NodeCondition>, kind: string): (r: Option<NodeCondition>)
    ensures r.Some? ==> r.value in conditions && r.value.kind == kind
    ensures r.None? <==> forall i :: 0 <= i < |conditions| ==> conditions[i].kind != kind
    ensures r.Some? ==> exists i :: 0 <= i < |conditions| && conditions[i] == r.value &&
                         forall j :: 0 <= j < i ==> conditions[j].kind != kind
    decreases |conditions|
  {
    if |conditions| == 0 then None
    else if conditions[0].kind == kind then Some(conditions[0])
    else
      var r := FindCondition(conditions[1..], kind);
      assert r.Some? ==> (exists i :: 1 <= i < |conditions| && conditions[i] == r.value &&
                           (forall j :: 0 <= j < i ==> conditions[j].kind != kind)) by {
        if r.Some? {
          var i :| 0 <= i < |conditions[1..]| && conditions[1..][i] == r.value &&
                   forall j :: 0 <= j < i ==> conditions[1..][j].kind != kind;
          assert conditions[i + 1] == r.value;
          forall j | 0 <= j < i + 1 ensures conditions[j].kind != kind {
            if j > 0 { assert conditions[j] == conditions[1..][j - 1]; }
          }
        }
      }
      r
  }

  /** `conditions?.find(c => c.type === kind)?.status === 'True'` */
  predicate ConditionTrue(conditions: Option<seq<NodeCondition>>, kind: string) {
    conditions.Some? && FindCondition(conditions.value, kind).Some? &&
    FindCondition(conditions.value, kind).value.status == "True"
  }

  /** A condition reads as true exactly when the first condition of that kind says `True`;
      a missing condition list or a missing condition reads as false. */
  lemma ConditionTrueMeaning(conditions: Option<seq<NodeCondition>>, kind: string)
    ensures ConditionTrue(conditions, kind) <==>
      conditions.Some? &&
      exists i :: 0 <= i < |conditions.value| && conditions.value[i].kind == kind &&
        conditions.value[i].status == "True" &&
        forall j :: 0 <= j < i ==> conditions.value[j].kind != kind
  {
    if conditions.Some? {
      var cs := conditions.value;
      if exists i :: 0 <= i < |cs| && cs[i].kind == kind && cs[i].status == "True" &&
                     forall j :: 0 <= j < i ==> cs[j].kind != kind {
        var i :| 0 <= i < |cs| && cs[i].kind == kind && cs[i].status == "True" &&
                 forall j :: 0 <= j < i ==> cs[j].kind != kind;
        var r := FindCondition(cs, kind);
        var i' :| 0 <= i' < |cs| && cs[i'] == r.value && forall j :: 0 <= j < i' ==> cs[j].kind != kind;
        assert i == i';
      }
    }
  }
}
