/** `analyzeResourceUsage` of src/resource.js: pods counted per node, and the CPU and
    memory requests and limits of their containers summed with `parseResourceValue`. */
module Resource {
  import opened Js
  import opened Quantity

  /** `resources.requests` or `resources.limits`: the two entries read, `Undefined` when
      absent. */
  datatype ResourceList = ResourceList(cpu: JsVal, memory: JsVal)

  datatype Resources = Resources(requests: Option<ResourceList>, limits: Option<ResourceList>)

  datatype Container = Container(resources: Option<Resources>)

  /** The fields of `pod.spec` the analysis reads. */
  datatype Pod = Pod(nodeName: Option<string>, containers: Option<seq<Container>>)

  datatype Totals = Totals(cpu: Number, memory: Number)

  datatype ResourceAnalysis = ResourceAnalysis(
    totalPods: nat, podsByNode: Dict<nat>, resourceRequests: Totals, resourceLimits: Totals)

  /** The four sums the analysis keeps. */
  datatype Field = RequestsCpu | RequestsMemory | LimitsCpu | LimitsMemory

  /** `pod.spec.nodeName || 'Unknown'` */
  function NodeKey(p: Pod): string { OrDefault(p.nodeName, "Unknown") }

  function Containers(p: Pod): seq<Container> { p.containers.GetOr([]) }

  /** Every container of every pod, pods in order and each pod's containers in order. */
  function AllContainers(pods: seq<Pod>): seq<Container> { FlatMap(pods, Containers) }

  /** What a container declares for `f`: `Undefined` when `resources`, or its `requests`
      or `limits`, is missing. */
  function Declared(c: Container, f: Field): JsVal {
    if c.resources.None? then Undefined
    else
      var list := if f.RequestsCpu? || f.RequestsMemory? then c.resources.value.requests else c.resources.value.limits;
      if list.None? then Undefined
      else if f.RequestsCpu? || f.LimitsCpu? then list.value.cpu
      else list.value.memory
  }

  /** A container declares `f` when the value it holds there is truthy. */
  predicate Declares(c: Container, f: Field) { Truthy(Declared(c, f)) }

  function Declaring(f: Field): Container -> bool {
    (c: Container) => Declares(c, f)
  }

  /** `sum += parseResourceValue(value)` when the value is truthy. */
  function Accumulate(acc: Number, c: Container, f: Field): Number {
    if Declares(c, f) then Add(acc, ParseResourceValue(Declared(c, f))) else acc
  }

  /** The sum for `f` over `cs`, from 0. */
  function Total(cs: seq<Container>, f: Field): Number
    decreases |cs|
  {
    if |cs| == 0 then Finite(0.0) else Accumulate(Total(cs[..|cs| - 1], f), cs[|cs| - 1], f)
  }

  function RequestTotals(cs: seq<Container>): Totals {
    Totals(Total(cs, RequestsCpu), Total(cs, RequestsMemory))
  }

  function LimitTotals(cs: seq<Container>): Totals {
    Totals(Total(cs, LimitsCpu), Total(cs, LimitsMemory))
  }

  function AnalysisOf(pods: seq<Pod>): ResourceAnalysis {
    ResourceAnalysis(|pods|, CountBy([], pods, NodeKey), RequestTotals(AllContainers(pods)), LimitTotals(AllContainers(pods)))
  }

  /** The sum after one more container. */
  lemma TotalSnoc(cs: seq<Container>, c: Container, f: Field)
    ensures Total(cs + [c], f) == Accumulate(Total(cs, f), c, f)
  {
    assert (cs + [c])[..|cs|] == cs;
  }

  /** The sum over one container is what it adds to 0. */
  lemma TotalSingle(c: Container, f: Field)
    ensures Total([c], f) == Accumulate(Finite(0.0), c, f)
  {
    TotalSnoc([], c, f);
    assert [] + [c] == [c];
  }

  /** Summing two runs of containers one after the other adds their sums. */
  lemma {:induction false} TotalAppend(a: seq<Container>, b: seq<Container>, f: Field)
    ensures Total(a + b, f) == Add(Total(a, f), Total(b, f))
    decreases |b|
  {
    if |b| == 0 {
      assert a + b == a;
    } else {
      var front := b[..|b| - 1];
      var c := b[|b| - 1];
      assert a + b == (a + front) + [c];
      TotalSnoc(a + front, c, f);
      TotalAppend(a, front, f);
    }
  }

  /** Only the containers that declare `f` contribute to its sum; when none does the sum
      is 0. */
  lemma {:induction false} OnlyDeclaredCount(cs: seq<Container>, f: Field)
    ensures Total(cs, f) == Total(Filter(cs, Declaring(f)), f)
    ensures (forall i :: 0 <= i < |cs| ==> !Declares(cs[i], f)) ==> Total(cs, f) == Finite(0.0)
    decreases |cs|
  {
    if |cs| > 0 {
      var front := cs[..|cs| - 1];
      var c := cs[|cs| - 1];
      OnlyDeclaredCount(front, f);
      assert Filter(cs, Declaring(f)) == Filter(front, Declaring(f)) + (if Declares(c, f) then [c] else []);
      if Declares(c, f) {
        TotalSnoc(Filter(front, Declaring(f)), c, f);
      }
      if forall i :: 0 <= i < |cs| ==> !Declares(cs[i], f) {
        assert forall i :: 0 <= i < |front| ==> front[i] == cs[i];
      }
    }
  }

  /** Container `c` declares a value for `f` that reads as NaN. */
  predicate ReadsNaN(c: Container, f: Field) {
    Declares(c, f) && ParseResourceValue(Declared(c, f)).NotANumber?
  }

  /** The value `c` gives for `f` is a string ending in `m`. */
  predicate MilliString(c: Container, f: Field) {
    Declared(c, f).Str? && EndsWith(Declared(c, f).s, "m")
  }

  /** Adding one container's value gives NaN when the sum so far was NaN or the value
      reads as NaN. */
  lemma AccumulateNaN(acc: Number, c: Container, f: Field)
    ensures Accumulate(acc, c, f).NotANumber? <==> acc.NotANumber? || ReadsNaN(c, f)
  {
  }

  /** A sum is NaN exactly when some container declares a value that reads as NaN. */
  lemma {:induction false} TotalNaNWhen(cs: seq<Container>, f: Field)
    ensures Total(cs, f).NotANumber? <==> exists i :: 0 <= i < |cs| && ReadsNaN(cs[i], f)
    decreases |cs|
  {
    if |cs| > 0 {
      var front := cs[..|cs| - 1];
      TotalNaNWhen(front, f);
      AccumulateNaN(Total(front, f), cs[|cs| - 1], f);
      if exists i :: 0 <= i < |front| && ReadsNaN(front[i], f) {
        var i :| 0 <= i < |front| && ReadsNaN(front[i], f);
        assert cs[i] == front[i];
      }
      if exists i :: 0 <= i < |cs| && ReadsNaN(cs[i], f) {
        var i :| 0 <= i < |cs| && ReadsNaN(cs[i], f);
        if i < |front| { assert front[i] == cs[i]; }
      }
    }
  }

  /** A value that reads as NaN is always a string ending in `m`. */
  lemma NaNIsMilli(c: Container, f: Field)
    requires ReadsNaN(c, f)
    ensures MilliString(c, f)
  {
    ParseResourceValueLaws(Declared(c, f));
  }

  /** A sum is NaN exactly when some container declares a value that reads as NaN, and
      such a value is always a string ending in `m`. */
  lemma TotalNaN(cs: seq<Container>, f: Field)
    ensures Total(cs, f).NotANumber? <==> exists i :: 0 <= i < |cs| && ReadsNaN(cs[i], f)
    ensures Total(cs, f).NotANumber? ==> exists i :: 0 <= i < |cs| && MilliString(cs[i], f)
  {
    TotalNaNWhen(cs, f);
    if Total(cs, f).NotANumber? {
      var i :| 0 <= i < |cs| && ReadsNaN(cs[i], f);
      NaNIsMilli(cs[i], f);
    }
  }

  /** A CPU request of `<digits>m` counts a thousandth of the digits, and a memory
      request of `<digits><K…Pi>` the digits times 1024^k. */
  lemma RequestUnits(d: string, e: string, u: string)
    requires |d| > 0 && AllDigits(d) && IsQuantity(e + u, e, u, 5)
    ensures Total([Container(Some(Resources(Some(ResourceList(Str(d + "m"), Str(e + u))), None)))], RequestsCpu) ==
      Finite(DigitsValue(d) as real / 1000.0)
    ensures Total([Container(Some(Resources(Some(ResourceList(Str(d + "m"), Str(e + u))), None)))], RequestsMemory) ==
      Finite((DigitsValue(e) * Pow1024(UnitPower(u).value)) as real)
  {
    var c := Container(Some(Resources(Some(ResourceList(Str(d + "m"), Str(e + u))), None)));
    CpuRequestUnits(d, c);
    MemoryRequestUnits(e, u, c);
  }

  lemma CpuRequestUnits(d: string, c: Container)
    requires |d| > 0 && AllDigits(d)
    requires c.resources.Some? && c.resources.value.requests.Some? && c.resources.value.requests.value.cpu == Str(d + "m")
    ensures Total([c], RequestsCpu) == Finite(DigitsValue(d) as real / 1000.0)
  {
    ParseMilli(d);
    TotalSingle(c, RequestsCpu);
  }

  lemma MemoryRequestUnits(e: string, u: string, c: Container)
    requires IsQuantity(e + u, e, u, 5)
    requires c.resources.Some? && c.resources.value.requests.Some? && c.resources.value.requests.value.memory == Str(e + u)
    ensures Total([c], RequestsMemory) == Finite((DigitsValue(e) * Pow1024(UnitPower(u).value)) as real)
  {
    ParseWithUnit(e, u);
    TotalSingle(c, RequestsMemory);
  }

  /** `totalPods` is the number of pods; each pod is counted once under its node (or
      `Unknown`), so the counts sum to `totalPods`; no node appears twice; and the sums
      run over every container of every pod. */
  lemma AnalysisLaws(pods: seq<Pod>, k: string)
    ensures AnalysisOf(pods).totalPods == |pods|
    ensures SumCounts(AnalysisOf(pods).podsByNode) == |pods|
    ensures CountAt(AnalysisOf(pods).podsByNode, k) == CountKey(pods, NodeKey, k)
    ensures DistinctKeys(AnalysisOf(pods).podsByNode)
    ensures forall i :: 0 <= i < |pods| && pods[i].nodeName.None? ==> NodeKey(pods[i]) == "Unknown"
    ensures AnalysisOf(pods).resourceRequests.cpu == Total(AllContainers(pods), RequestsCpu)
    ensures AnalysisOf(pods).resourceRequests.memory == Total(AllContainers(pods), RequestsMemory)
    ensures AnalysisOf(pods).resourceLimits.cpu == Total(AllContainers(pods), LimitsCpu)
    ensures AnalysisOf(pods).resourceLimits.memory == Total(AllContainers(pods), LimitsMemory)
  {
    CountByLaws([], pods, NodeKey, k);
  }

  /** The sums over a run of pods are those over its first part added to those over the
      rest. */
  lemma PodsAppend(a: seq<Pod>, b: seq<Pod>, f: Field)
    ensures Total(AllContainers(a + b), f) == Add(Total(AllContainers(a), f), Total(AllContainers(b), f))
  {
    FlatMapAppend(a, b, Containers);
    TotalAppend(AllContainers(a), AllContainers(b), f);
  }

  /** The four `if (…) sum += parseResourceValue(…)` steps for one container. */
  method ReadContainer(requests: Totals, limits: Totals, c: Container) returns (requests': Totals, limits': Totals)
    ensures requests' == Totals(Accumulate(requests.cpu, c, RequestsCpu), Accumulate(requests.memory, c, RequestsMemory))
    ensures limits' == Totals(Accumulate(limits.cpu, c, LimitsCpu), Accumulate(limits.memory, c, LimitsMemory))
  {
    requests', limits' := requests, limits;
    if c.resources.Some? {
      var res := c.resources.value;
      if res.requests.Some? {
        var rq := res.requests.value;
        if Truthy(rq.cpu) {
          requests' := requests'.(cpu := Add(requests'.cpu, ParseResourceValue(rq.cpu)));
        }
        if Truthy(rq.memory) {
          requests' := requests'.(memory := Add(requests'.memory, ParseResourceValue(rq.memory)));
        }
      }
      if res.limits.Some? {
        var lm := res.limits.value;
        if Truthy(lm.cpu) {
          limits' := limits'.(cpu := Add(limits'.cpu, ParseResourceValue(lm.cpu)));
        }
        if Truthy(lm.memory) {
          limits' := limits'.(memory := Add(limits'.memory, ParseResourceValue(lm.memory)));
        }
      }
    }
  }

  /** `pod.spec.containers.forEach(...)`: the sums after one pod's containers. */
  method ReadPodContainers(requests: Totals, limits: Totals, ghost done: seq<Container>, cs: seq<Container>)
    returns (requests': Totals, limits': Totals)
    requires requests == RequestTotals(done) && limits == LimitTotals(done)
    ensures requests' == RequestTotals(done + cs) && limits' == LimitTotals(done + cs)
  {
    requests', limits' := requests, limits;
    assert done + cs[..0] == done;
    var j := 0;
    while j < |cs|
      invariant 0 <= j <= |cs|
      invariant requests' == RequestTotals(done + cs[..j])
      invariant limits' == LimitTotals(done + cs[..j])
    {
      assert done + cs[..j + 1] == (done + cs[..j]) + [cs[j]];
      TotalSnoc(done + cs[..j], cs[j], RequestsCpu);
      TotalSnoc(done + cs[..j], cs[j], RequestsMemory);
      TotalSnoc(done + cs[..j], cs[j], LimitsCpu);
      TotalSnoc(done + cs[..j], cs[j], LimitsMemory);
      requests', limits' := ReadContainer(requests', limits', cs[j]);
      j := j + 1;
    }
    assert cs[..j] == cs;
  }

  /** `analyzeResourceUsage(pods)`: one pass over the pods and, inside, over their
      containers. */
  method AnalyzeResourceUsage(pods: seq<Pod>) returns (a: ResourceAnalysis)
    ensures a == AnalysisOf(pods)
  {
    var byNode: Dict<nat> := [];
    var requests := Totals(Finite(0.0), Finite(0.0));
    var limits := Totals(Finite(0.0), Finite(0.0));
    var i := 0;
    while i < |pods|
      invariant 0 <= i <= |pods|
      invariant byNode == CountBy([], pods[..i], NodeKey)
      invariant requests == RequestTotals(AllContainers(pods[..i]))
      invariant limits == LimitTotals(AllContainers(pods[..i]))
    {
      var prefix := pods[..i + 1];
      assert prefix[..i] == pods[..i];
      var pod := pods[i];
      ghost var done := AllContainers(pods[..i]);
      assert AllContainers(pods[..i + 1]) == done + Containers(pod);
      byNode := Bump(byNode, OrDefault(pod.nodeName, "Unknown"));
      if pod.containers.Some? {
        requests, limits := ReadPodContainers(requests, limits, done, pod.containers.value);
      } else {
        assert done + Containers(pod) == done;
      }
      i := i + 1;
    }
    assert pods[..i] == pods;
    a := ResourceAnalysis(|pods|, byNode, requests, limits);
  }
}
