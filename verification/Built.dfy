/** What the builders make of a valid service, field by field. */
module Built {
  import opened Base
  import opened Cloud
  import opened Strings
  import opened HealthTarget
  import opened Annotations
  import opened Builders
  import opened Soundness

  // ---------------------------------------------------------------- health checks

  /** A number as annotated, or the default. */
  predicate NumberIs(a: AnnotationMap, k: Annotation, default: int, n: int) {
    if k in a then Atoi(a[k]) == Some(n) else n == default
  }

  /**
   * The health check of a port: by ICMP where that is annotated, otherwise by TCP on the node port;
   * every ten seconds, and one failure is enough, unless annotated.
   */
  predicate CheckIs(a: AnnotationMap, nodePort: int, target: string, interval: int, threshold: int) {
    && nodePort >= 0
    && target == (if HC_PROTOCOL in a && a[HC_PROTOCOL] == "ICMP" then "ICMP" else "TCP:" + Decimal(nodePort))
    && NumberIs(a, HC_INTERVAL, 10, interval)
    && NumberIs(a, HC_UNHEALTHY_THRESHOLD, 1, threshold)
  }

  lemma TargetIs(a: AnnotationMap, nodePort: nat)
    requires OneOf(a, HC_PROTOCOL, ["TCP", "ICMP"])
    ensures TargetFor(a, nodePort) ==
            Some(if HC_PROTOCOL in a && a[HC_PROTOCOL] == "ICMP" then "ICMP" else "TCP:" + Decimal(nodePort))
  {
    if HC_PROTOCOL in a {
      UpperCaseStays(a);
      assert a[HC_PROTOCOL] == "TCP" || a[HC_PROTOCOL] == "ICMP";
    }
  }

  lemma ChecksAre(a: AnnotationMap, isIP: string -> bool, nodePort: nat)
    requires Valid(a, isIP)
    ensures TargetFor(a, nodePort).Some?
    ensures Number(a, HC_INTERVAL, DEFAULT_INTERVAL).Some?
    ensures Number(a, HC_UNHEALTHY_THRESHOLD, DEFAULT_THRESHOLD).Some?
    ensures CheckIs(a, nodePort, TargetFor(a, nodePort).value, Number(a, HC_INTERVAL, DEFAULT_INTERVAL).value,
                    Number(a, HC_UNHEALTHY_THRESHOLD, DEFAULT_THRESHOLD).value)
  {
    TargetIs(a, nodePort);
    ValidNumbersAreExact(a, isIP);
  }

  // ---------------------------------------------------------------- L4 balancers

  /** What an annotation says, or nothing. */
  predicate TextIs(a: AnnotationMap, k: Annotation, text: string) {
    text == if k in a then a[k] else ""
  }

  /** The entry of a port with a node port: every field. */
  lemma L4EntryInFull(name: string, instances: seq<Instance>, s: Service, isIP: string -> bool,
                      list: set<string> -> seq<string>, i: nat)
    requires Valid(s.annotations, isIP) && TypeOf(s.annotations) == "lb" && AllTCP(s) && s.sourceRanges.Some?
    requires (forall p :: p in s.ports ==> p.nodePort >= 0) && i < |s.ports| && s.ports[i].nodePort > 0
    ensures var r, a, p := BuildL4(name, instances, s, list), s.annotations, s.ports[i];
            && r.Ok? && |r.value| == |s.ports|
            && var lb := r.value[i];
               && lb.name == name && lb.vip == "" && lb.loadBalancerPort == p.port && lb.instancePort == p.nodePort
               && lb.balancingTargets == instances
               && TextIs(a, ACCOUNTING_TYPE, lb.accountingType) && TextIs(a, POLICY_TYPE, lb.policyType)
               && NumberIs(a, BALANCING_TYPE, 0, lb.balancingType)
               && NumberIs(a, NETWORK_VOLUME, 0, lb.networkVolume)
               && CheckIs(a, p.nodePort, lb.healthCheckTarget, lb.healthCheckInterval, lb.healthCheckUnhealthyThreshold)
               && lb.filters ==
                  if "0.0.0.0/0" in s.sourceRanges.value then [] else FilterSeq(list(s.sourceRanges.value))
  {
    L4ValidationIsSound(name, instances, s, isIP, list, i);
    ChecksAre(s.annotations, isIP, s.ports[i].nodePort);
    ValidNumbersAreExact(s.annotations, isIP);
    assert s.ports[i] in s.ports;
  }

  // ---------------------------------------------------------------- elastic balancers

  /** An annotated interface. */
  predicate InterfaceIs(a: AnnotationMap, id: Annotation, ip: Annotation, system: Annotation, arm: string,
                        nic: NetworkInterface)
  {
    && id in a && nic.networkId == a[id] && TextIs(a, ip, nic.ipAddress)
    && nic.systemIpAddresses ==
       (if a[id] in {"net-COMMON_GLOBAL", "net-COMMON_PRIVATE"} || system !in a then [] else SplitOn(a[system], ','))
    && (nic.isVipNetwork <==> VIP_NETWORK in a && a[VIP_NETWORK] == arm)
  }

  /** The interfaces: those that are annotated, in order, or one on the common global network for the VIP. */
  predicate InterfacesAre(a: AnnotationMap, nics: seq<NetworkInterface>) {
    if INTERFACE_1 !in a && INTERFACE_2 !in a then nics == [NetworkInterface("net-COMMON_GLOBAL", "", [], true)]
    else
      && |nics| == (if INTERFACE_1 in a && INTERFACE_2 in a then 2 else 1)
      && (INTERFACE_1 in a ==>
            InterfaceIs(a, INTERFACE_1, INTERFACE_1_IP_ADDRESS, INTERFACE_1_SYSTEM_IP_ADDRESSES, "1", nics[0]))
      && (INTERFACE_2 in a ==>
            InterfaceIs(a, INTERFACE_2, INTERFACE_2_IP_ADDRESS, INTERFACE_2_SYSTEM_IP_ADDRESSES, "2", nics[|nics| - 1]))
  }

  lemma InterfacesInFull(a: AnnotationMap)
    ensures Interfaces(a).Some? ==> InterfacesAre(a, Interfaces(a).value)
  {
  }

  /** The listener of a port: every field. */
  lemma ElasticEntryInFull(name: string, instances: seq<Instance>, s: Service, isIP: string -> bool, i: nat)
    requires Valid(s.annotations, isIP) && TypeOf(s.annotations) == "elb" && AllTCP(s) && instances != []
    requires i < |s.ports| && s.ports[i].nodePort >= 0
    ensures var r, a, p := BuildElastic(name, instances, s), s.annotations, s.ports[i];
            && r.Ok? && |r.value| == |s.ports|
            && var lb := r.value[i];
               && lb.name == name && lb.vip == "" && lb.loadBalancerPort == p.port && lb.instancePort == p.nodePort
               && lb.protocol == "TCP" && lb.balancingTargets == instances && lb.availabilityZone == instances[0].zone
               && TextIs(a, ACCOUNTING_TYPE, lb.accountingType)
               && NumberIs(a, BALANCING_TYPE, 0, lb.balancingType)
               && NumberIs(a, NETWORK_VOLUME, 0, lb.networkVolume)
               && CheckIs(a, p.nodePort, lb.healthCheckTarget, lb.healthCheckInterval, lb.healthCheckUnhealthyThreshold)
               && InterfacesAre(a, lb.networkInterfaces)
  {
    ElasticValidationIsSound(name, instances, s, isIP, i);
    ChecksAre(s.annotations, isIP, s.ports[i].nodePort);
    ValidNumbersAreExact(s.annotations, isIP);
    InterfacesInFull(s.annotations);
    assert s.ports[i] in s.ports;
  }

  // ---------------------------------------------------------------- refusals

  /** Neither builder takes a port of another protocol than TCP, whatever the rest of the service is like. */
  lemma OnlyTCPIsBuilt(name: string, instances: seq<Instance>, s: Service, list: set<string> -> seq<string>,
                       p: ServicePort)
    requires p in s.ports && p.protocol != "TCP"
    ensures BuildL4(name, instances, s, list) == Err(InvalidService)
    ensures instances != [] ==> BuildElastic(name, instances, s) == Err(InvalidService)
  {
    assert L4ListenerFor(name, instances, s, p, list).None?;
  }
}
