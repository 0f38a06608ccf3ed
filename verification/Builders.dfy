/** From a Kubernetes service to the desired listeners. */
module Builders {
  import opened Base
  import opened Cloud
  import opened Strings
  import opened HealthTarget
  import opened Annotations
  import opened Rules
  import L4Plan

  datatype ServicePort = ServicePort(protocol: string, port: int, nodePort: int)

  /** `sourceRanges` are the parsed source ranges, or `None` where they do not parse. */
  datatype Service = Service(
    uid: string,
    annotations: AnnotationMap,
    ports: seq<ServicePort>,
    loadBalancerIP: string,
    sourceRanges: Option<set<string>>)

  const DEFAULT_INTERVAL := 10
  const DEFAULT_THRESHOLD := 1

  // ---------------------------------------------------------------- single fields

  function Text(a: AnnotationMap, k: Annotation): string {
    if k in a then a[k] else ""
  }

  /** A numeric annotation as an int32, or `None` where it does not parse. */
  function Number(a: AnnotationMap, k: Annotation, default: int): Option<int> {
    if k !in a then Some(default)
    else match Atoi(a[k]) { case None => None case Some(v) => Some(ToInt32(v)) }
  }

  /** How %d prints a port. */
  function Printed(n: int): string {
    if n < 0 then "-" + Decimal(-n) else Decimal(n)
  }

  function TargetFor(a: AnnotationMap, nodePort: int): Option<string> {
    if HC_PROTOCOL !in a then Some("TCP:" + Printed(nodePort))
    else
      var protocol := ToUpper(a[HC_PROTOCOL]);
      if protocol == "TCP" then Some("TCP:" + Printed(nodePort))
      else if protocol == "ICMP" then Some("ICMP")
      else None
  }

  predicate AllTCP(s: Service) {
    forall p :: p in s.ports ==> p.protocol == "TCP"
  }

  // ---------------------------------------------------------------- elastic balancers

  function SystemAddresses(a: AnnotationMap, k: Annotation): seq<string> {
    if k in a then SplitOn(a[k], ',') else []
  }

  /** One annotated interface. */
  function InterfaceOf(a: AnnotationMap, id: Annotation, ip: Annotation, system: Annotation, arm: string)
    : NetworkInterface
    requires id in a
  {
    NetworkInterface(a[id], Text(a, ip), if PrivateLan(a[id]) then SystemAddresses(a, system) else [],
                     VIP_NETWORK in a && a[VIP_NETWORK] == arm)
  }

  /** None or one, or a failure where a private LAN lacks its two system addresses. */
  function Interface(a: AnnotationMap, id: Annotation, ip: Annotation, system: Annotation, arm: string)
    : Option<seq<NetworkInterface>>
  {
    if id !in a then Some([])
    else if PrivateLan(a[id]) && |SystemAddresses(a, system)| != 2 then None
    else Some([InterfaceOf(a, id, ip, system, arm)])
  }

  function Interfaces(a: AnnotationMap): Option<seq<NetworkInterface>> {
    var first := Interface(a, INTERFACE_1, INTERFACE_1_IP_ADDRESS, INTERFACE_1_SYSTEM_IP_ADDRESSES, "1");
    var second := Interface(a, INTERFACE_2, INTERFACE_2_IP_ADDRESS, INTERFACE_2_SYSTEM_IP_ADDRESSES, "2");
    if first.None? || second.None? then None
    else
      var both := first.value + second.value;
      if |both| == 1 || |both| == 2 then Some(both) else Some([NetworkInterface(COMMON_GLOBAL, "", [], true)])
  }

  predicate ElasticNumbersParse(a: AnnotationMap) {
    && Number(a, BALANCING_TYPE, 0).Some? && Number(a, NETWORK_VOLUME, 0).Some?
    && Number(a, HC_INTERVAL, DEFAULT_INTERVAL).Some? && Number(a, HC_UNHEALTHY_THRESHOLD, DEFAULT_THRESHOLD).Some?
  }

  predicate ElasticBuilds(s: Service) {
    && ElasticNumbersParse(s.annotations) && AllTCP(s)
    && (forall p :: p in s.ports ==> TargetFor(s.annotations, p.nodePort).Some?)
    && (HC_PROTOCOL in s.annotations ==> ToUpper(s.annotations[HC_PROTOCOL]) in ["TCP", "ICMP"])
    && Interfaces(s.annotations).Some?
  }

  function ElasticListener(name: string, instances: seq<Instance>, s: Service, p: ServicePort): ElasticLoadBalancer
    requires instances != [] && ElasticBuilds(s) && p in s.ports
  {
    var a := s.annotations;
    ElasticLoadBalancer(
      instances[0].zone, name, "", Text(a, ACCOUNTING_TYPE), "TCP", Number(a, NETWORK_VOLUME, 0).value,
      Number(a, BALANCING_TYPE, 0).value, instances, p.port, p.nodePort, TargetFor(a, p.nodePort).value,
      Number(a, HC_INTERVAL, DEFAULT_INTERVAL).value, Number(a, HC_UNHEALTHY_THRESHOLD, DEFAULT_THRESHOLD).value,
      Interfaces(a).value)
  }

  function BuildElastic(name: string, instances: seq<Instance>, s: Service): Result<seq<ElasticLoadBalancer>, Error>
    requires instances != []
  {
    if ElasticBuilds(s) then
      Ok(seq(|s.ports|, i requires 0 <= i < |s.ports| => ElasticListener(name, instances, s, s.ports[i])))
    else Err(InvalidService)
  }

  const EMPTY_ELASTIC := ElasticLoadBalancer("", "", "", "", "", 0, 0, [], 0, 0, "", 0, 0, [])

  /** One loop over the desired listeners, updating each in place. */
  method UpdateEach(desire: array<ElasticLoadBalancer>, update: (int, ElasticLoadBalancer) -> ElasticLoadBalancer)
    modifies desire
    ensures forall i :: 0 <= i < desire.Length ==> desire[i] == update(i, old(desire[i]))
  {
    for i := 0 to desire.Length
      invariant forall j :: 0 <= j < i ==> desire[j] == update(j, old(desire[j]))
      invariant forall j :: i <= j < desire.Length ==> desire[j] == old(desire[j])
    {
      desire[i] := update(i, desire[i]);
    }
  }

  method NetworkInterfaceFrom(a: AnnotationMap, id: Annotation, ip: Annotation, system: Annotation, arm: string)
    returns (networkInterface: NetworkInterface)
    requires id in a
    ensures networkInterface == InterfaceOf(a, id, ip, system, arm)
  {
    networkInterface := NetworkInterface(a[id], "", [], false);
    if ip in a {
      networkInterface := networkInterface.(ipAddress := a[ip]);
    }
    if PrivateLan(networkInterface.networkId) {
      networkInterface := networkInterface.(systemIpAddresses := SystemAddresses(a, system));
    }
    if VIP_NETWORK in a && a[VIP_NETWORK] == arm {
      networkInterface := networkInterface.(isVipNetwork := true);
    }
  }

  /** The interface of one arm, if it is annotated. */
  method InterfaceOfArm(a: AnnotationMap, id: Annotation, ip: Annotation, system: Annotation, arm: string)
    returns (r: Option<seq<NetworkInterface>>)
    ensures r == Interface(a, id, ip, system, arm)
  {
    if id !in a {
      return Some([]);
    }
    if PrivateLan(a[id]) && |SystemAddresses(a, system)| != 2 {
      return None;
    }
    var networkInterface := NetworkInterfaceFrom(a, id, ip, system, arm);
    return Some([networkInterface]);
  }

  /** An annotated private LAN without its two system addresses. */
  predicate LacksSystemAddresses(a: AnnotationMap, id: Annotation, system: Annotation) {
    id in a && PrivateLan(a[id]) && |SystemAddresses(a, system)| != 2
  }

  /** The networks that are annotated, in order. */
  function AnnotatedNetworks(a: AnnotationMap): seq<string> {
    (if INTERFACE_1 in a then [a[INTERFACE_1]] else []) + (if INTERFACE_2 in a then [a[INTERFACE_2]] else [])
  }

  function NetworkIds(nics: seq<NetworkInterface>): (r: seq<string>)
    ensures |r| == |nics|
  {
    seq(|nics|, i requires 0 <= i < |nics| => nics[i].networkId)
  }

  /**
   * It fails exactly where an annotated private LAN lacks its two system addresses. Otherwise
   * there is an interface for each annotated network, in order, or one for the common global
   * network, the VIP's, if none is annotated; exactly those on private LANs have two system
   * addresses, the others have none; and of two interfaces the annotation names the VIP's.
   */
  method NetworkInterfacesFrom(a: AnnotationMap) returns (r: Option<seq<NetworkInterface>>)
    ensures r == Interfaces(a)
    ensures r.None? <==> LacksSystemAddresses(a, INTERFACE_1, INTERFACE_1_SYSTEM_IP_ADDRESSES)
                         || LacksSystemAddresses(a, INTERFACE_2, INTERFACE_2_SYSTEM_IP_ADDRESSES)
    ensures r.Some? ==>
              && NetworkIds(r.value) == (if AnnotatedNetworks(a) == [] then [COMMON_GLOBAL] else AnnotatedNetworks(a))
              && (AnnotatedNetworks(a) == [] ==> r.value[0].isVipNetwork)
              && (forall nic :: nic in r.value ==>
                    |nic.systemIpAddresses| == if PrivateLan(nic.networkId) then 2 else 0)
              && (|r.value| == 2 ==>
                    && (r.value[0].isVipNetwork <==> VIP_NETWORK in a && a[VIP_NETWORK] == "1")
                    && (r.value[1].isVipNetwork <==> VIP_NETWORK in a && a[VIP_NETWORK] == "2"))
  {
    var first := InterfaceOfArm(a, INTERFACE_1, INTERFACE_1_IP_ADDRESS, INTERFACE_1_SYSTEM_IP_ADDRESSES, "1");
    if first.None? {
      return None;
    }
    var second := InterfaceOfArm(a, INTERFACE_2, INTERFACE_2_IP_ADDRESS, INTERFACE_2_SYSTEM_IP_ADDRESSES, "2");
    if second.None? {
      return None;
    }
    var networkInterfaces := first.value + second.value;
    if |networkInterfaces| == 1 || |networkInterfaces| == 2 {
      return Some(networkInterfaces);
    }
    return Some([NetworkInterface(COMMON_GLOBAL, "", [], true)]);
  }

  /** What is known of the first `n` ports once they have been looked at. */
  predicate PortsAreTCP(ports: seq<ServicePort>, n: nat)
    requires n <= |ports|
  {
    forall j :: 0 <= j < n ==> ports[j].protocol == "TCP"
  }

  method OnlyTCP(s: Service) returns (ok: bool)
    ensures ok <==> AllTCP(s)
  {
    for i := 0 to |s.ports|
      invariant PortsAreTCP(s.ports, i)
    {
      if s.ports[i].protocol != "TCP" {
        assert s.ports[i] in s.ports;
        return false;
      }
    }
    return true;
  }

  /** The names, zones, types and volumes: the options of the balancer. */
  method SetOptions(desire: array<ElasticLoadBalancer>, name: string, zone: string, a: AnnotationMap) returns (ok: bool)
    modifies desire
    ensures ok <==> Number(a, BALANCING_TYPE, 0).Some? && Number(a, NETWORK_VOLUME, 0).Some?
    ensures ok ==> forall i :: 0 <= i < desire.Length ==>
              desire[i] == old(desire[i]).(name := name, availabilityZone := zone,
                                           balancingType := Number(a, BALANCING_TYPE, 0).value,
                                           accountingType := Text(a, ACCOUNTING_TYPE),
                                           networkVolume := Number(a, NETWORK_VOLUME, 0).value)
  {
    UpdateEach(desire, (i, lb: ElasticLoadBalancer) => lb.(name := name));
    UpdateEach(desire, (i, lb: ElasticLoadBalancer) => lb.(availabilityZone := zone));
    var balancingType := Number(a, BALANCING_TYPE, 0);
    if balancingType.None? {
      return false;
    }
    UpdateEach(desire, (i, lb: ElasticLoadBalancer) => lb.(balancingType := balancingType.value));
    UpdateEach(desire, (i, lb: ElasticLoadBalancer) => lb.(accountingType := Text(a, ACCOUNTING_TYPE)));
    var networkVolume := Number(a, NETWORK_VOLUME, 0);
    if networkVolume.None? {
      return false;
    }
    UpdateEach(desire, (i, lb: ElasticLoadBalancer) => lb.(networkVolume := networkVolume.value));
    return true;
  }

  /** Intervals, thresholds and targets: the health checks. */
  method SetHealthChecks(desire: array<ElasticLoadBalancer>, ports: seq<ServicePort>, a: AnnotationMap)
    returns (ok: bool)
    requires desire.Length == |ports|
    modifies desire
    ensures ok <==> && Number(a, HC_INTERVAL, DEFAULT_INTERVAL).Some?
                    && Number(a, HC_UNHEALTHY_THRESHOLD, DEFAULT_THRESHOLD).Some?
                    && (HC_PROTOCOL in a ==> ToUpper(a[HC_PROTOCOL]) in ["TCP", "ICMP"])
    ensures ok ==> forall i :: 0 <= i < desire.Length ==>
              && TargetFor(a, ports[i].nodePort).Some?
              && desire[i] == old(desire[i]).(
                   healthCheckInterval := Number(a, HC_INTERVAL, DEFAULT_INTERVAL).value,
                   healthCheckUnhealthyThreshold := Number(a, HC_UNHEALTHY_THRESHOLD, DEFAULT_THRESHOLD).value,
                   healthCheckTarget := TargetFor(a, ports[i].nodePort).value)
  {
    var interval := Number(a, HC_INTERVAL, DEFAULT_INTERVAL);
    if interval.None? {
      return false;
    }
    UpdateEach(desire, (i, lb: ElasticLoadBalancer) => lb.(healthCheckInterval := interval.value));
    var threshold := Number(a, HC_UNHEALTHY_THRESHOLD, DEFAULT_THRESHOLD);
    if threshold.None? {
      return false;
    }
    UpdateEach(desire, (i, lb: ElasticLoadBalancer) => lb.(healthCheckUnhealthyThreshold := threshold.value));
    if HC_PROTOCOL in a && ToUpper(a[HC_PROTOCOL]) != "TCP" && ToUpper(a[HC_PROTOCOL]) != "ICMP" {
      return false;
    }
    UpdateEach(desire, (i, lb: ElasticLoadBalancer) =>
      if 0 <= i < |ports| && TargetFor(a, ports[i].nodePort).Some?
      then lb.(healthCheckTarget := TargetFor(a, ports[i].nodePort).value)
      else lb);
    return true;
  }

  method NewElasticLoadBalancerFromService(name: string, instances: seq<Instance>, s: Service)
    returns (r: Result<seq<ElasticLoadBalancer>, Error>)
    requires instances != []
    ensures r == BuildElastic(name, instances, s)
  {
    var a, ports := s.annotations, s.ports;
    var desire := new ElasticLoadBalancer[|ports|](_ => EMPTY_ELASTIC);
    var ok := SetOptions(desire, name, instances[0].zone, a);
    if !ok {
      return Err(InvalidService);
    }
    ok := OnlyTCP(s);
    if !ok {
      return Err(InvalidService);
    }
    UpdateEach(desire, (i, lb: ElasticLoadBalancer) =>
      if 0 <= i < |ports| then
        lb.(protocol := "TCP", loadBalancerPort := ports[i].port, instancePort := ports[i].nodePort)
      else lb);
    ok := SetHealthChecks(desire, ports, a);
    if !ok {
      return Err(InvalidService);
    }
    UpdateEach(desire, (i, lb: ElasticLoadBalancer) => lb.(balancingTargets := instances));
    var networkInterfaces := NetworkInterfacesFrom(a);
    if networkInterfaces.None? {
      return Err(InvalidService);
    }
    UpdateEach(desire, (i, lb: ElasticLoadBalancer) => lb.(networkInterfaces := networkInterfaces.value));
    assert ElasticBuilds(s);
    assert desire[..] == BuildElastic(name, instances, s).value;
    return Ok(desire[..]);
  }

  // ---------------------------------------------------------------- L4 balancers

  const ALL_ADDRESSES := "0.0.0.0/0"

  /** How a source range appears in a filter: a single address without its prefix length. */
  function FilterOf(cidr: string): string {
    if HasSuffix(cidr, "/32") then cidr[..|cidr| - 3] else RemoveFirst(cidr, "/32")
  }

  function FilterSeq(cidrs: seq<string>): (r: seq<string>)
    ensures |r| == |cidrs|
  {
    seq(|cidrs|, i requires 0 <= i < |cidrs| => FilterOf(cidrs[i]))
  }

  /** No filter when everything is allowed. `list` is the order in which a set is enumerated. */
  function FiltersOf(ranges: set<string>, list: set<string> -> seq<string>): seq<string> {
    if ALL_ADDRESSES in ranges then [] else FilterSeq(list(ranges))
  }

  /** The options that an entry gets even if its port is then skipped. */
  function L4Basics(name: string, a: AnnotationMap): L4Plan.LoadBalancer
    requires Number(a, BALANCING_TYPE, 0).Some? && Number(a, NETWORK_VOLUME, 0).Some?
  {
    EMPTY_L4.(name := name,
              balancingType := Number(a, BALANCING_TYPE, 0).value, accountingType := Text(a, ACCOUNTING_TYPE),
              networkVolume := Number(a, NETWORK_VOLUME, 0).value, policyType := Text(a, POLICY_TYPE))
  }

  /** The entry of one port: a failure, or the listener; a port without a node port leaves it half empty. */
  function L4ListenerFor(name: string, instances: seq<Instance>, s: Service, p: ServicePort,
                         list: set<string> -> seq<string>): Option<L4Plan.LoadBalancer>
  {
    var a := s.annotations;
    if Number(a, BALANCING_TYPE, 0).None? || Number(a, NETWORK_VOLUME, 0).None? || p.protocol != "TCP" then None
    else if p.nodePort == 0 then Some(L4Basics(name, a))
    else if Number(a, HC_INTERVAL, DEFAULT_INTERVAL).None? || Number(a, HC_UNHEALTHY_THRESHOLD, DEFAULT_THRESHOLD).None?
            || TargetFor(a, p.nodePort).None? || s.sourceRanges.None? then None
    else
      Some(L4Basics(name, a).(
           loadBalancerPort := p.port, instancePort := p.nodePort,
           healthCheckInterval := Number(a, HC_INTERVAL, DEFAULT_INTERVAL).value,
           healthCheckUnhealthyThreshold := Number(a, HC_UNHEALTHY_THRESHOLD, DEFAULT_THRESHOLD).value,
           healthCheckTarget := TargetFor(a, p.nodePort).value,
           balancingTargets := instances,
           filters := FiltersOf(s.sourceRanges.value, list)))
  }

  predicate L4Builds(name: string, instances: seq<Instance>, s: Service, list: set<string> -> seq<string>) {
    forall p :: p in s.ports ==> L4ListenerFor(name, instances, s, p, list).Some?
  }

  function BuildL4(name: string, instances: seq<Instance>, s: Service, list: set<string> -> seq<string>)
    : Result<seq<L4Plan.LoadBalancer>, Error>
  {
    if L4Builds(name, instances, s, list) then
      Ok(seq(|s.ports|, i requires 0 <= i < |s.ports| => L4ListenerFor(name, instances, s, s.ports[i], list).value))
    else Err(InvalidService)
  }

  const EMPTY_L4 := L4Plan.LoadBalancer("", "", "", 0, "", 0, [], 0, 0, "", 0, 0, [])

  method FiltersFrom(ranges: set<string>, list: set<string> -> seq<string>) returns (filters: seq<string>)
    ensures filters == FiltersOf(ranges, list)
  {
    filters := [];
    if ALL_ADDRESSES !in ranges {
      var cidrs := list(ranges);
      for i := 0 to |cidrs|
        invariant filters == FilterSeq(cidrs)[..i]
      {
        if HasSuffix(cidrs[i], "/32") {
          filters := filters + [cidrs[i][..|cidrs[i]| - 3]];
        } else {
          filters := filters + [RemoveFirst(cidrs[i], "/32")];
        }
      }
    }
  }

  /** Fills in one entry in place; false where the port cannot be built. */
  method FillL4Listener(desire: array<L4Plan.LoadBalancer>, i: nat, name: string, instances: seq<Instance>, s: Service,
                        list: set<string> -> seq<string>) returns (ok: bool)
    requires i < desire.Length == |s.ports| && desire[i] == EMPTY_L4
    modifies desire
    ensures forall j :: 0 <= j < desire.Length && j != i ==> desire[j] == old(desire[j])
    ensures ok <==> L4ListenerFor(name, instances, s, s.ports[i], list).Some?
    ensures ok ==> desire[i] == L4ListenerFor(name, instances, s, s.ports[i], list).value
  {
    var a, port := s.annotations, s.ports[i];
    desire[i] := desire[i].(name := name);
    var balancingType := Number(a, BALANCING_TYPE, 0);
    var networkVolume := Number(a, NETWORK_VOLUME, 0);
    if balancingType.None? || networkVolume.None? {
      return false;
    }
    desire[i] := desire[i].(balancingType := balancingType.value, accountingType := Text(a, ACCOUNTING_TYPE),
                            networkVolume := networkVolume.value, policyType := Text(a, POLICY_TYPE));
    if port.protocol != "TCP" {
      return false;
    }
    if port.nodePort == 0 {
      return true;
    }
    desire[i] := desire[i].(loadBalancerPort := port.port, instancePort := port.nodePort);
    var interval, threshold := Number(a, HC_INTERVAL, DEFAULT_INTERVAL),
                               Number(a, HC_UNHEALTHY_THRESHOLD, DEFAULT_THRESHOLD);
    if interval.None? || threshold.None? {
      return false;
    }
    desire[i] := desire[i].(healthCheckInterval := interval.value, healthCheckUnhealthyThreshold := threshold.value);
    var target := TargetFor(a, port.nodePort);
    if target.None? {
      return false;
    }
    desire[i] := desire[i].(healthCheckTarget := target.value, balancingTargets := instances);
    if s.sourceRanges.None? {
      return false;
    }
    var filters := FiltersFrom(s.sourceRanges.value, list);
    desire[i] := desire[i].(filters := filters);
    return true;
  }

  method NewL4LoadBalancerFromService(name: string, instances: seq<Instance>, s: Service,
                                      list: set<string> -> seq<string>)
    returns (r: Result<seq<L4Plan.LoadBalancer>, Error>)
    ensures r == BuildL4(name, instances, s, list)
  {
    var desire := new L4Plan.LoadBalancer[|s.ports|](_ => EMPTY_L4);
    for i := 0 to |s.ports|
      invariant forall j :: 0 <= j < i ==> Some(desire[j]) == L4ListenerFor(name, instances, s, s.ports[j], list)
      invariant forall j :: i <= j < |s.ports| ==> desire[j] == EMPTY_L4
    {
      var ok := FillL4Listener(desire, i, name, instances, s, list);
      if !ok {
        assert s.ports[i] in s.ports;
        return Err(InvalidService);
      }
    }
    assert L4Builds(name, instances, s, list);
    assert desire[..] == BuildL4(name, instances, s, list).value;
    return Ok(desire[..]);
  }

  /** Whatever is built bears the name. */
  lemma BuiltNames(name: string, instances: seq<Instance>, s: Service, list: set<string> -> seq<string>)
    ensures BuildL4(name, instances, s, list).Ok? ==>
              forall d :: d in BuildL4(name, instances, s, list).value ==> d.name == name
    ensures instances != [] && BuildElastic(name, instances, s).Ok? ==>
              forall d :: d in BuildElastic(name, instances, s).value ==> d.name == name
  {
  }
}
