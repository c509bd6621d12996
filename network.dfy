/** `analyzeNetworkConfig` of src/network.js: NetworkPolicies grouped by namespace,
    Services by type with the externally reachable ones listed, and Ingress rules
    grouped by host. */
module Network {
  import opened Js

  datatype NetworkPolicy = NetworkPolicy(name: string, namespace: Option<string>)

  /** One entry of a Service's `spec.ports`, carried through unchanged. */
  datatype ServicePort = ServicePort(name: Option<string>, port: int, targetPort: Option<int>, nodePort: Option<int>, protocol: Option<string>)

  /** `kind` is `spec.type`. */
  datatype Service = Service(name: string, namespace: Option<string>, kind: Option<string>, ports: Option<seq<ServicePort>>)

  datatype IngressRule = IngressRule(host: Option<string>)

  datatype Ingress = Ingress(name: string, rules: Option<seq<IngressRule>>)

  /** An entry of `exposedServices`; `kind` is the service's type. */
  datatype ExposedService = ExposedService(name: string, namespace: Option<string>, kind: string, ports: seq<ServicePort>)

  /** One Ingress rule: the host it is filed under and the Ingress it belongs to. */
  datatype Route = Route(host: string, ingress: string)

  datatype NetworkAnalysis = NetworkAnalysis(
    totalNetworkPolicies: nat,
    totalServices: nat,
    totalIngresses: nat,
    networkPoliciesByNamespace: Dict<seq<string>>,
    servicesByType: Dict<seq<string>>,
    ingressesByHost: Dict<seq<string>>,
    exposedServices: seq<ExposedService>)

  function PolicyName(p: NetworkPolicy): string { p.name }
  function PolicyNamespace(p: NetworkPolicy): string { OrDefault(p.namespace, "default") }
  function ServiceName(s: Service): string { s.name }
  function ServiceType(s: Service): string { OrDefault(s.kind, "ClusterIP") }
  function RouteHost(r: Route): string { r.host }
  function RouteIngress(r: Route): string { r.ingress }

  /** `spec.type === 'LoadBalancer' || spec.type === 'NodePort'` */
  predicate IsExposed(s: Service) {
    s.kind == Some("LoadBalancer") || s.kind == Some("NodePort")
  }

  /** The entry listed for an exposed service, ports defaulting to none. */
  function Exposure(s: Service): ExposedService
    requires IsExposed(s)
  {
    ExposedService(s.name, s.namespace, s.kind.value, s.ports.GetOr([]))
  }

  function Rules(i: Ingress): seq<IngressRule> { i.rules.GetOr([]) }

  function RuleCount(i: Ingress): nat { |Rules(i)| }

  /** The routes an Ingress files: one per rule, under its host or `*`. */
  function Routes(i: Ingress): seq<Route> {
    Map(Rules(i), (r: IngressRule) => Route(OrDefault(r.host, "*"), i.name))
  }

  /** The exposed services, in input order. */
  function ExposedOf(services: seq<Service>): seq<ExposedService>
    decreases |services|
  {
    if |services| == 0 then []
    else
      var s := services[|services| - 1];
      ExposedOf(services[..|services| - 1]) + (if IsExposed(s) then [Exposure(s)] else [])
  }

  function AnalysisOf(policies: seq<NetworkPolicy>, services: seq<Service>, ingresses: seq<Ingress>): NetworkAnalysis {
    NetworkAnalysis(
      |policies|, |services|, |ingresses|,
      GroupBy([], policies, PolicyNamespace, PolicyName),
      GroupBy([], services, ServiceType, ServiceName),
      GroupBy([], FlatMap(ingresses, Routes), RouteHost, RouteIngress),
      ExposedOf(services))
  }

  /** The exposed list is exactly the LoadBalancer and NodePort services, in order, each
      with its name, namespace, type and ports (none when absent). */
  lemma ExposedLaws(services: seq<Service>)
    ensures |ExposedOf(services)| == Count(services, IsExposed)
    ensures forall e :: e in ExposedOf(services) <==> exists s :: s in services && IsExposed(s) && e == Exposure(s)
    ensures forall k :: 0 <= k < |ExposedOf(services)| ==>
      ExposedOf(services)[k].kind in {"LoadBalancer", "NodePort"}
    ensures |ExposedOf(services)| == |Filter(services, IsExposed)|
    ensures forall k :: 0 <= k < |ExposedOf(services)| ==> ExposedOf(services)[k] == Exposure(Filter(services, IsExposed)[k])
  {
    ExposedInOrder(services);
    ExposedMembers(services);
    FilterLaws(services, IsExposed);
    forall k | 0 <= k < |ExposedOf(services)| ensures ExposedOf(services)[k].kind in {"LoadBalancer", "NodePort"} {
      assert IsExposed(Filter(services, IsExposed)[k]);
    }
  }

  /** An entry is listed exactly when some LoadBalancer or NodePort service produces it. */
  lemma {:induction false} ExposedMembers(services: seq<Service>)
    ensures forall e :: e in ExposedOf(services) <==> exists s :: s in services && IsExposed(s) && e == Exposure(s)
    decreases |services|
  {
    if |services| > 0 {
      var init := services[..|services| - 1];
      var s := services[|services| - 1];
      ExposedMembers(init);
      assert services == init + [s];
      forall e ensures e in ExposedOf(services) <==> exists t :: t in services && IsExposed(t) && e == Exposure(t) {
        if e in ExposedOf(services) && e !in ExposedOf(init) {
          assert s in services;
        }
        if t :| t in services && IsExposed(t) && e == Exposure(t) {
          if t != s {
            assert t in init;
          }
        }
      }
    }
  }

  /** The k-th exposed entry is the entry of the k-th LoadBalancer or NodePort service. */
  lemma {:induction false} ExposedInOrder(services: seq<Service>)
    ensures |ExposedOf(services)| == |Filter(services, IsExposed)|
    ensures forall k :: 0 <= k < |ExposedOf(services)| ==> ExposedOf(services)[k] == Exposure(Filter(services, IsExposed)[k])
    decreases |services|
  {
    if |services| > 0 {
      var init := services[..|services| - 1];
      ExposedInOrder(init);
      assert services == init + [services[|services| - 1]];
    }
  }

  /** A service without type is a ClusterIP one and is never exposed. */
  lemma ClusterIpNotExposed(s: Service)
    ensures s.kind.None? ==> ServiceType(s) == "ClusterIP" && !IsExposed(s)
    ensures IsExposed(s) ==> ServiceType(s) == s.kind.value
  {
  }

  /** One route per rule: Ingresses without rules add nothing, and the routes of an
      Ingress all name it. */
  lemma {:induction false} RoutesLaws(ingresses: seq<Ingress>)
    ensures |FlatMap(ingresses, Routes)| == SumNat(ingresses, RuleCount)
    ensures forall i :: 0 <= i < |ingresses| && ingresses[i].rules.None? ==> Routes(ingresses[i]) == []
    ensures forall i, j :: 0 <= i < |ingresses| && 0 <= j < RuleCount(ingresses[i]) ==>
      Routes(ingresses[i])[j] == Route(OrDefault(Rules(ingresses[i])[j].host, "*"), ingresses[i].name)
  {
    FlatMapLength(ingresses, Routes, RuleCount);
  }

  /** The totals are the input lengths; every policy is listed once under its namespace
      (or `default`), every service once under its type (or `ClusterIP`), and the
      ingress index holds one Ingress name per rule, under the rule's host (or `*`). */
  lemma {:induction false} AnalysisLaws(policies: seq<NetworkPolicy>, services: seq<Service>, ingresses: seq<Ingress>, k: string)
    ensures AnalysisOf(policies, services, ingresses).totalNetworkPolicies == |policies|
    ensures AnalysisOf(policies, services, ingresses).totalServices == |services|
    ensures AnalysisOf(policies, services, ingresses).totalIngresses == |ingresses|
    ensures TotalListed(AnalysisOf(policies, services, ingresses).networkPoliciesByNamespace) == |policies|
    ensures ListAt(AnalysisOf(policies, services, ingresses).networkPoliciesByNamespace, k) ==
      Select(policies, PolicyNamespace, PolicyName, k)
    ensures TotalListed(AnalysisOf(policies, services, ingresses).servicesByType) == |services|
    ensures ListAt(AnalysisOf(policies, services, ingresses).servicesByType, k) == Select(services, ServiceType, ServiceName, k)
    ensures TotalListed(AnalysisOf(policies, services, ingresses).ingressesByHost) == SumNat(ingresses, RuleCount)
    ensures ListAt(AnalysisOf(policies, services, ingresses).ingressesByHost, k) ==
      Select(FlatMap(ingresses, Routes), RouteHost, RouteIngress, k)
    ensures DistinctKeys(AnalysisOf(policies, services, ingresses).ingressesByHost)
  {
    GroupByLaws([], policies, PolicyNamespace, PolicyName, k);
    GroupByLaws([], services, ServiceType, ServiceName, k);
    GroupByLaws([], FlatMap(ingresses, Routes), RouteHost, RouteIngress, k);
    RoutesLaws(ingresses);
  }

  /** `ingress.spec.rules.forEach(...)` for one Ingress, into the host index. */
  method FileRoutes(index: Dict<seq<string>>, ingress: Ingress) returns (d: Dict<seq<string>>)
    ensures d == GroupBy(index, Routes(ingress), RouteHost, RouteIngress)
  {
    d := index;
    if ingress.rules.None? {
      assert Routes(ingress) == [];
      return;
    }
    var rules := ingress.rules.value;
    var routes := Routes(ingress);
    var j := 0;
    while j < |rules|
      invariant 0 <= j <= |rules|
      invariant d == GroupBy(index, routes[..j], RouteHost, RouteIngress)
    {
      var prefix := routes[..j + 1];
      assert prefix[..j] == routes[..j];
      var host := OrDefault(rules[j].host, "*");
      assert routes[j] == Route(host, ingress.name);
      d := Push(d, host, ingress.name);
      j := j + 1;
    }
    assert routes[..j] == routes;
  }

  /** `analyzeNetworkConfig(networkPolicies, services, ingresses)`: three `forEach`
      passes. */
  method AnalyzeNetworkConfig(policies: seq<NetworkPolicy>, services: seq<Service>, ingresses: seq<Ingress>)
    returns (a: NetworkAnalysis)
    ensures a == AnalysisOf(policies, services, ingresses)
  {
    var byNamespace: Dict<seq<string>> := [];
    var i := 0;
    while i < |policies|
      invariant 0 <= i <= |policies|
      invariant byNamespace == GroupBy([], policies[..i], PolicyNamespace, PolicyName)
    {
      var prefix := policies[..i + 1];
      assert prefix[..i] == policies[..i];
      byNamespace := Push(byNamespace, OrDefault(policies[i].namespace, "default"), policies[i].name);
      i := i + 1;
    }
    assert policies[..i] == policies;

    var byType: Dict<seq<string>> := [];
    var exposed: seq<ExposedService> := [];
    var j := 0;
    while j < |services|
      invariant 0 <= j <= |services|
      invariant byType == GroupBy([], services[..j], ServiceType, ServiceName)
      invariant exposed == ExposedOf(services[..j])
    {
      var prefix := services[..j + 1];
      assert prefix[..j] == services[..j];
      var service := services[j];
      byType := Push(byType, OrDefault(service.kind, "ClusterIP"), service.name);
      if service.kind == Some("LoadBalancer") || service.kind == Some("NodePort") {
        exposed := exposed + [ExposedService(service.name, service.namespace, service.kind.value, service.ports.GetOr([]))];
      }
      j := j + 1;
    }
    assert services[..j] == services;

    var byHost: Dict<seq<string>> := [];
    var k := 0;
    while k < |ingresses|
      invariant 0 <= k <= |ingresses|
      invariant byHost == GroupBy([], FlatMap(ingresses[..k], Routes), RouteHost, RouteIngress)
    {
      var prefix := ingresses[..k + 1];
      assert prefix[..k] == ingresses[..k];
      GroupByAppend([], FlatMap(ingresses[..k], Routes), Routes(ingresses[k]), RouteHost, RouteIngress);
      byHost := FileRoutes(byHost, ingresses[k]);
      k := k + 1;
    }
    assert ingresses[..k] == ingresses;

    a := NetworkAnalysis(|policies|, |services|, |ingresses|, byNamespace, byType, byHost, exposed);
  }
}
