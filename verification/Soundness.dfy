/** What passes validation can be built, and what is built is what the reconcilers need. */
module Soundness {
  import opened Base
  import opened Cloud
  import opened Strings
  import opened HealthTarget
  import opened Annotations
  import opened Differences
  import opened Rules
  import opened Builders
  import L4Plan
  import L4Steps
  import ElbPlan
  import ElbIdeal
  import ElbRuns

  // ---------------------------------------------------------------- numbers

  /** A numeric annotation parses and survives the conversion to 32 bits. */
  predicate Exact(a: AnnotationMap, k: Annotation) {
    k in a ==> Atoi(a[k]).Some? && ToInt32(Atoi(a[k]).value) == Atoi(a[k]).value
  }

  /** A printed 64-bit number is read back as it was, whatever its sign. */
  lemma AtoiReadsBack(n: int)
    requires -TWO_63 <= n < TWO_63
    ensures Atoi(Printed(n)) == Some(n)
  {
    var digits := Decimal(if n < 0 then -n else n);
    DecimalReadsBack(if n < 0 then -n else n);
    assert ("-" + digits)[1..] == digits;
    assert IsDigit(digits[0]);
  }

  /** A sign may stand before the digits, a plus sign too. */
  lemma SignsAreRead(digits: string)
    requires AllDigits(digits) && FromDecimal(digits) < TWO_63
    ensures Atoi(digits) == Atoi("+" + digits) == Some(FromDecimal(digits))
    ensures Atoi("-" + digits) == Some(-FromDecimal(digits))
  {
    DigitsBelow(digits, |digits|);
    assert ("+" + digits)[1..] == digits && ("-" + digits)[1..] == digits;
    assert IsDigit(digits[0]);
  }

  lemma ShortDigitsAreExact(a: AnnotationMap, k: Annotation)
    requires k in a ==> AllDigits(a[k]) && |a[k]| <= 4
    ensures Exact(a, k)
  {
    if k in a {
      DigitsBelow(a[k], 4);
      assert PowerOfTen(4) == 10000;
    }
  }

  lemma ValidNumbersAreExact(a: AnnotationMap, isIP: string -> bool)
    requires Valid(a, isIP)
    ensures Exact(a, BALANCING_TYPE) && Exact(a, NETWORK_VOLUME)
    ensures Exact(a, HC_INTERVAL) && Exact(a, HC_UNHEALTHY_THRESHOLD)
  {
    ShortDigitsAreExact(a, BALANCING_TYPE);
    if NETWORK_VOLUME in a {
      VolumesAreNumbers(a[NETWORK_VOLUME]);
    }
  }

  lemma UpperCaseStays(a: AnnotationMap)
    requires OneOf(a, HC_PROTOCOL, ["TCP", "ICMP"]) && HC_PROTOCOL in a
    ensures ToUpper(a[HC_PROTOCOL]) == a[HC_PROTOCOL]
  {
  }

  // ---------------------------------------------------------------- elastic balancers

  /** One or two interfaces, with an address and two system addresses exactly on private LANs. */
  ghost predicate InterfacesOK(nics: seq<NetworkInterface>, isIP: string -> bool) {
    && (|nics| == 1 || |nics| == 2)
    && forall nic :: nic in nics ==>
         if PrivateLan(nic.networkId) then
           && isIP(nic.ipAddress) && |nic.systemIpAddresses| == 2
           && isIP(nic.systemIpAddresses[0]) && isIP(nic.systemIpAddresses[1])
         else nic.systemIpAddresses == []
  }

  lemma ValidInterfacesBuild(a: AnnotationMap, isIP: string -> bool)
    requires ValidElastic(a, isIP)
    ensures Interfaces(a).Some? && InterfacesOK(Interfaces(a).value, isIP)
  {
  }

  lemma {:induction false} TargetSeparates(a: AnnotationMap, nodePort: nat)
    requires OneOf(a, HC_PROTOCOL, ["TCP", "ICMP"])
    ensures TargetFor(a, nodePort).Some?
    ensures Separate(TargetFor(a, nodePort).value) ==
            Some(if HC_PROTOCOL in a && a[HC_PROTOCOL] == "ICMP" then ("ICMP", "") else ("TCP", Decimal(nodePort)))
  {
    BuiltTargetReadsBack(nodePort);
    assert "TCP:" + Printed(nodePort) == TcpTarget(nodePort);
    if HC_PROTOCOL in a {
      UpperCaseStays(a);
    }
  }

  lemma ValidElasticBuilds(s: Service, isIP: string -> bool)
    requires Valid(s.annotations, isIP) && TypeOf(s.annotations) == "elb" && AllTCP(s)
    ensures ElasticBuilds(s)
  {
    ValidNumbersAreExact(s.annotations, isIP);
    ValidInterfacesBuild(s.annotations, isIP);
    if HC_PROTOCOL in s.annotations {
      UpperCaseStays(s.annotations);
    }
  }

  /**
   * For annotations that pass validation and TCP ports the elastic builder cannot fail: one
   * listener for each port, every number as annotated, one or two interfaces in order, and a
   * health check from which the rules can be generated.
   */
  lemma ElasticValidationIsSound(name: string, instances: seq<Instance>, s: Service, isIP: string -> bool, i: nat)
    requires Valid(s.annotations, isIP) && TypeOf(s.annotations) == "elb" && AllTCP(s) && instances != []
    requires i < |s.ports| && s.ports[i].nodePort >= 0
    ensures var r, a := BuildElastic(name, instances, s), s.annotations;
            && r.Ok? && |r.value| == |s.ports|
            && var lb := r.value[i];
               && lb.loadBalancerPort == s.ports[i].port && lb.instancePort == s.ports[i].nodePort
               && lb.name == name && lb.protocol == "TCP" && lb.balancingTargets == instances
               && (BALANCING_TYPE in a ==> Atoi(a[BALANCING_TYPE]) == Some(lb.balancingType))
               && (NETWORK_VOLUME in a ==> Atoi(a[NETWORK_VOLUME]) == Some(lb.networkVolume))
               && (HC_INTERVAL in a ==> Atoi(a[HC_INTERVAL]) == Some(lb.healthCheckInterval))
               && (HC_UNHEALTHY_THRESHOLD in a ==>
                     Atoi(a[HC_UNHEALTHY_THRESHOLD]) == Some(lb.healthCheckUnhealthyThreshold))
               && InterfacesOK(lb.networkInterfaces, isIP)
               && RulesOf(lb).Ok?
  {
    ValidElasticBuilds(s, isIP);
    ValidNumbersAreExact(s.annotations, isIP);
    ValidInterfacesBuild(s.annotations, isIP);
    TargetSeparates(s.annotations, s.ports[i].nodePort);
    assert s.ports[i] in s.ports;
  }

  /** Ports as Kubernetes guarantees them: numbers that are distinct, and node ports. */
  ghost predicate PortsOK(ports: seq<ServicePort>) {
    && ports != []
    && (forall i, j :: 0 <= i < j < |ports| ==> ports[i].port != ports[j].port)
    && forall p :: p in ports ==> p.protocol == "TCP" && p.nodePort > 0
  }

  ghost predicate NodesOK(env: Env, instances: seq<Instance>) {
    instances != [] && Distinct(Ids(instances)) && forall x :: x in instances ==> Known(env, x)
  }

  /** The keys that the ports of a service stand for. */
  function PortKeys(ports: seq<ServicePort>): (r: seq<Key>)
    ensures |r| == |ports|
  {
    seq(|ports|, i requires 0 <= i < |ports| => Key(ports[i].port, ports[i].nodePort))
  }

  lemma ElasticListenerIsOK(env: Env, name: string, instances: seq<Instance>, s: Service, isIP: string -> bool, i: nat)
    requires Valid(s.annotations, isIP) && TypeOf(s.annotations) == "elb" && NodesOK(env, instances)
    requires AllTCP(s) && i < |s.ports| && s.ports[i].nodePort >= 0
    ensures var r := BuildElastic(name, instances, s);
            && r.Ok? && |r.value| == |s.ports|
            && ElbIdeal.ListenerOK(env, name, r.value[i]) && r.value[i].protocol == "TCP"
            && ElbPlan.IdSet(r.value[i]) == Elems(Ids(instances))
            && ElbPlan.KeyOf(r.value[i]) == PortKeys(s.ports)[i]
            && ElbRuns.ArmsOK(r.value[i].networkInterfaces)
  {
    ElasticValidationIsSound(name, instances, s, isIP, i);
  }

  /** What the elastic builder makes of a valid service is what the reconciler takes for granted. */
  lemma ElasticDesireIsOK(env: Env, name: string, instances: seq<Instance>, s: Service, isIP: string -> bool)
    requires Valid(s.annotations, isIP) && TypeOf(s.annotations) == "elb"
    requires PortsOK(s.ports) && NodesOK(env, instances)
    ensures var r := BuildElastic(name, instances, s);
            && r.Ok? && ElbRuns.DesireOK(env, name, Elems(Ids(instances)), r.value)
            && ElbRuns.ArmsOK(r.value[0].networkInterfaces)
            && ElbPlan.KeySeq(r.value) == PortKeys(s.ports)
  {
    ValidElasticBuilds(s, isIP);
    var desire, keys := BuildElastic(name, instances, s).value, PortKeys(s.ports);
    forall i | 0 <= i < |desire|
      ensures ElbIdeal.ListenerOK(env, name, desire[i]) && desire[i].protocol == "TCP"
      ensures ElbPlan.IdSet(desire[i]) == Elems(Ids(instances)) && ElbPlan.KeyOf(desire[i]) == keys[i]
      ensures ElbRuns.ArmsOK(desire[i].networkInterfaces)
    {
      assert s.ports[i] in s.ports;
      ElasticListenerIsOK(env, name, instances, s, isIP, i);
    }
    forall i, j | 0 <= i < j < |desire| ensures desire[i].loadBalancerPort != desire[j].loadBalancerPort {
      assert ElbPlan.KeyOf(desire[i]) == keys[i] && ElbPlan.KeyOf(desire[j]) == keys[j];
    }
    assert ElbPlan.KeySeq(desire) == keys;
  }

  // ---------------------------------------------------------------- source ranges

  /** A parsed source range as it is printed: an address, a slash and a prefix length. */
  ghost predicate IsCidr(c: string) {
    exists address, n: nat :: n <= 128 && '/' !in address && c == address + "/" + Decimal(n)
  }

  lemma {:induction false} NothingToRemove(s: string)
    requires '/' !in s
    ensures RemoveFirst(s, "/32") == s
  {
    if s != "" {
      NothingToRemove(s[1..]);
    }
  }

  lemma Hundreds(n: nat)
    ensures 100 <= n <= 128 ==> Decimal(n)[0] == '1'
  {
  }

  lemma PrefixCharacters(s: string)
    ensures HasPrefix(s, "/32") ==> s[0] == '/' && s[1] == '3' && s[2] == '2'
  {
  }

  lemma PrefixLength32(n: nat)
    requires n <= 128 && HasPrefix("/" + Decimal(n), "/32")
    ensures n == 32
  {
    Hundreds(n);
    PrefixCharacters("/" + Decimal(n));
    assert Decimal(n)[0] == ("/" + Decimal(n))[1] && Decimal(n)[1] == ("/" + Decimal(n))[2];
  }

  lemma {:induction false} RemoveFromCidr(address: string, n: nat)
    requires n <= 128 && n != 32 && '/' !in address
    ensures RemoveFirst(address + "/" + Decimal(n), "/32") == address + "/" + Decimal(n)
  {
    var c := address + "/" + Decimal(n);
    DecimalReadsBack(n);
    if address == "" {
      assert c == "/" + Decimal(n);
      if HasPrefix(c, "/32") { PrefixLength32(n); }
      assert c[1..] == Decimal(n);
      NothingToRemove(Decimal(n));
    } else {
      PrefixCharacters(c);
      assert c[0] == address[0] && address[0] in address;
      assert c[1..] == address[1..] + "/" + Decimal(n);
      RemoveFromCidr(address[1..], n);
    }
  }

  /** The slash of a source range is where the address ends. */
  lemma OneSlash(address: string, bits: string)
    requires '/' !in address && '/' !in bits
    ensures var c := address + "/" + bits; forall i :: 0 <= i < |c| && c[i] == '/' ==> i == |address|
  {
  }

  lemma NoSuffix32(address: string, n: nat)
    requires n <= 128 && '/' !in address && HasSuffix(address + "/" + Decimal(n), "/32")
    ensures n == 32
  {
    var c := address + "/" + Decimal(n);
    DecimalReadsBack(n);
    PrefixCharacters(c[|c| - 3..]);
    assert c[|c| - 3] == c[|c| - 3..][0];
    OneSlash(address, Decimal(n));
    assert "/" + Decimal(n) == c[|c| - 3..];
    PrefixLength32(n);
  }

  lemma SingleAddress(address: string)
    ensures FilterOf(address + "/32") == address
  {
  }

  lemma Decimal32()
    ensures Decimal(32) == "32"
    ensures "/" + Decimal(32) == "/32"
  {
  }

  lemma OtherLength(address: string, n: nat)
    requires n <= 128 && '/' !in address && n != 32
    ensures FilterOf(address + "/" + Decimal(n)) == address + "/" + Decimal(n)
  {
    if HasSuffix(address + "/" + Decimal(n), "/32") {
      NoSuffix32(address, n);
    }
    RemoveFromCidr(address, n);
  }

  /** Only the prefix length 32 is cut off. */
  lemma FilterOfCidr(address: string, n: nat)
    requires n <= 128 && '/' !in address
    ensures FilterOf(address + "/" + Decimal(n)) == if n == 32 then address else address + "/" + Decimal(n)
  {
    if n == 32 {
      Decimal32();
      assert address + "/" + Decimal(32) == address + ("/" + Decimal(32));
      SingleAddress(address);
    } else {
      OtherLength(address, n);
    }
  }

  /** Different source ranges give different filters. */
  lemma FiltersAreDistinct(c: string, c': string)
    requires IsCidr(c) && IsCidr(c') && FilterOf(c) == FilterOf(c')
    ensures c == c'
  {
    var address, n: nat :| n <= 128 && '/' !in address && c == address + "/" + Decimal(n);
    var address', n': nat :| n' <= 128 && '/' !in address' && c' == address' + "/" + Decimal(n');
    FilterOfCidr(address, n);
    FilterOfCidr(address', n');
    HasSlash(address, Decimal(n));
    HasSlash(address', Decimal(n'));
  }

  lemma HasSlash(address: string, bits: string)
    ensures '/' in address + "/" + bits
  {
  }

  lemma FilterSeqIsDistinct(cidrs: seq<string>)
    requires Distinct(cidrs) && forall c :: c in cidrs ==> IsCidr(c)
    ensures Distinct(FilterSeq(cidrs))
  {
    var filters := FilterSeq(cidrs);
    forall i, j | 0 <= i < j < |filters| ensures filters[i] != filters[j] {
      assert cidrs[i] in cidrs && cidrs[j] in cidrs;
      if filters[i] == filters[j] {
        FiltersAreDistinct(cidrs[i], cidrs[j]);
      }
    }
  }

  // ---------------------------------------------------------------- L4 balancers

  ghost predicate RangesOK(s: Service) {
    s.sourceRanges.Some? && forall c :: c in s.sourceRanges.value ==> IsCidr(c)
  }

  /** What the source ranges allow, as a set of filters; empty where everything is allowed. */
  function AllowedFilters(ranges: set<string>): set<string> {
    if "0.0.0.0/0" in ranges then {} else set c | c in ranges :: FilterOf(c)
  }

  lemma FiltersAreAllowed(env: Env, ranges: set<string>)
    requires EnvOK(env) && forall c :: c in ranges ==> IsCidr(c)
    ensures Elems(FiltersOf(ranges, env.list)) == AllowedFilters(ranges) && Distinct(FiltersOf(ranges, env.list))
  {
    var cidrs := env.list(ranges);
    assert Elems(cidrs) == ranges;
    assert forall c :: c in cidrs <==> c in ranges by {
      forall c ensures c in cidrs <==> c in ranges {
        assert c in cidrs <==> c in Elems(cidrs);
      }
    }
    FilterSeqIsDistinct(cidrs);
    if ALL_ADDRESSES !in ranges {
      var filters := FilterSeq(cidrs);
      forall f | f in filters ensures f in AllowedFilters(ranges) {
        var i :| 0 <= i < |filters| && filters[i] == f;
        assert cidrs[i] in cidrs;
      }
      forall c | c in ranges ensures FilterOf(c) in filters {
        var i :| 0 <= i < |cidrs| && cidrs[i] == c;
        assert filters[i] == FilterOf(c);
      }
    }
  }

  /** The entry of one port with a node port: every number as annotated, and a health check that reads back. */
  lemma L4EntryIsSound(name: string, instances: seq<Instance>, s: Service, isIP: string -> bool,
                            list: set<string> -> seq<string>, p: ServicePort)
    requires Valid(s.annotations, isIP) && TypeOf(s.annotations) == "lb" && AllTCP(s) && s.sourceRanges.Some?
    requires p in s.ports && p.nodePort > 0
    ensures var r, a := L4ListenerFor(name, instances, s, p, list), s.annotations;
            && r.Some?
            && var lb := r.value;
               && lb.name == name && lb.loadBalancerPort == p.port && lb.instancePort == p.nodePort
               && lb.balancingTargets == instances && lb.filters == FiltersOf(s.sourceRanges.value, list)
               && (BALANCING_TYPE in a ==> Atoi(a[BALANCING_TYPE]) == Some(lb.balancingType))
               && (NETWORK_VOLUME in a ==> Atoi(a[NETWORK_VOLUME]) == Some(lb.networkVolume))
               && (HC_INTERVAL in a ==> Atoi(a[HC_INTERVAL]) == Some(lb.healthCheckInterval))
               && (HC_UNHEALTHY_THRESHOLD in a ==>
                     Atoi(a[HC_UNHEALTHY_THRESHOLD]) == Some(lb.healthCheckUnhealthyThreshold))
               && Separate(lb.healthCheckTarget).Some?
  {
    ValidNumbersAreExact(s.annotations, isIP);
    TargetSeparates(s.annotations, p.nodePort);
  }

  /** The entry of a port without a node port: made all the same, with its name and from port 0 to port 0. */
  lemma L4EntryWithoutNodePort(name: string, instances: seq<Instance>, s: Service, isIP: string -> bool,
                               list: set<string> -> seq<string>, p: ServicePort)
    requires Valid(s.annotations, isIP) && TypeOf(s.annotations) == "lb" && AllTCP(s)
    requires p in s.ports && p.nodePort == 0
    ensures var r, a := L4ListenerFor(name, instances, s, p, list), s.annotations;
            && r.Some?
            && var lb := r.value;
               && lb.name == name && L4Plan.KeyOf(lb) == Key(0, 0) && lb.balancingTargets == [] && lb.filters == []
               && (BALANCING_TYPE in a ==> Atoi(a[BALANCING_TYPE]) == Some(lb.balancingType))
               && (NETWORK_VOLUME in a ==> Atoi(a[NETWORK_VOLUME]) == Some(lb.networkVolume))
  {
    ValidNumbersAreExact(s.annotations, isIP);
  }

  /**
   * For annotations that pass validation, TCP ports and source ranges that parse, the L4 builder
   * cannot fail: one listener for each port, the ports without a node port included, with the
   * balancing type and the network volume as annotated, and where there is a node port the ports,
   * nodes, filters and health check numbers too, and a health check that reads back.
   */
  lemma L4ValidationIsSound(name: string, instances: seq<Instance>, s: Service, isIP: string -> bool,
                            list: set<string> -> seq<string>, i: nat)
    requires Valid(s.annotations, isIP) && TypeOf(s.annotations) == "lb" && AllTCP(s) && s.sourceRanges.Some?
    requires (forall p :: p in s.ports ==> p.nodePort >= 0) && i < |s.ports|
    ensures var r, a, p := BuildL4(name, instances, s, list), s.annotations, s.ports[i];
            && r.Ok? && |r.value| == |s.ports|
            && var lb := r.value[i];
               && lb.name == name
               && (BALANCING_TYPE in a ==> Atoi(a[BALANCING_TYPE]) == Some(lb.balancingType))
               && (NETWORK_VOLUME in a ==> Atoi(a[NETWORK_VOLUME]) == Some(lb.networkVolume))
               && if p.nodePort == 0 then
                    L4Plan.KeyOf(lb) == Key(0, 0) && lb.balancingTargets == [] && lb.filters == []
                  else
                    && L4Plan.KeyOf(lb) == Key(p.port, p.nodePort)
                    && lb.balancingTargets == instances && lb.filters == FiltersOf(s.sourceRanges.value, list)
                    && (HC_INTERVAL in a ==> Atoi(a[HC_INTERVAL]) == Some(lb.healthCheckInterval))
                    && (HC_UNHEALTHY_THRESHOLD in a ==>
                          Atoi(a[HC_UNHEALTHY_THRESHOLD]) == Some(lb.healthCheckUnhealthyThreshold))
                    && Separate(lb.healthCheckTarget).Some?
  {
    forall p | p in s.ports ensures L4ListenerFor(name, instances, s, p, list).Some? {
      if p.nodePort == 0 {
        L4EntryWithoutNodePort(name, instances, s, isIP, list, p);
      } else {
        L4EntryIsSound(name, instances, s, isIP, list, p);
      }
    }
    assert s.ports[i] in s.ports;
    if s.ports[i].nodePort == 0 {
      L4EntryWithoutNodePort(name, instances, s, isIP, list, s.ports[i]);
    } else {
      L4EntryIsSound(name, instances, s, isIP, list, s.ports[i]);
    }
  }

  /** What the L4 builder makes of a valid service is what the reconciler takes for granted. */
  lemma L4DesireIsOK(env: Env, name: string, instances: seq<Instance>, s: Service, isIP: string -> bool)
    requires EnvOK(env) && Valid(s.annotations, isIP) && TypeOf(s.annotations) == "lb"
    requires PortsOK(s.ports) && NodesOK(env, instances) && RangesOK(s)
    ensures var r := BuildL4(name, instances, s, env.list);
            && r.Ok? && L4Steps.DesireOK(env, name, r.value)
            && L4Plan.KeySeq(r.value) == PortKeys(s.ports)
            && forall d :: d in r.value ==>
                 d.balancingTargets == instances && Elems(d.filters) == AllowedFilters(s.sourceRanges.value)
  {
    FiltersAreAllowed(env, s.sourceRanges.value);
    forall p | p in s.ports ensures L4ListenerFor(name, instances, s, p, env.list).Some? {
      L4EntryIsSound(name, instances, s, isIP, env.list, p);
    }
    var desire := BuildL4(name, instances, s, env.list).value;
    forall i | 0 <= i < |desire|
      ensures L4Steps.ListenerOK(env, name, desire[i]) && L4Plan.KeyOf(desire[i]) == PortKeys(s.ports)[i]
      ensures desire[i].balancingTargets == instances
      ensures Elems(desire[i].filters) == AllowedFilters(s.sourceRanges.value)
    {
      assert s.ports[i] in s.ports;
      L4EntryIsSound(name, instances, s, isIP, env.list, s.ports[i]);
    }
    forall i, j | 0 <= i < j < |desire| ensures desire[i].loadBalancerPort != desire[j].loadBalancerPort {
      assert L4Plan.KeyOf(desire[i]) == PortKeys(s.ports)[i] && L4Plan.KeyOf(desire[j]) == PortKeys(s.ports)[j];
    }
    assert L4Plan.KeySeq(desire) == PortKeys(s.ports);
  }

  /**
   * A port without a node port is not left out: it becomes a listener from port 0 to port 0
   * without targets. So the listeners of distinct ports have distinct ports exactly if at most one
   * port of the service lacks its node port.
   */
  lemma PortsWithoutNodePortStay(name: string, instances: seq<Instance>, s: Service, list: set<string> -> seq<string>)
    requires BuildL4(name, instances, s, list).Ok? && forall p :: p in s.ports ==> p.port != 0
    requires forall i, j :: 0 <= i < j < |s.ports| ==> s.ports[i].port != s.ports[j].port
    ensures var desire := BuildL4(name, instances, s, list).value;
            && |desire| == |s.ports|
            && (forall i :: 0 <= i < |desire| ==>
                  (s.ports[i].nodePort == 0 <==> L4Plan.KeyOf(desire[i]) == Key(0, 0))
                  && (s.ports[i].nodePort == 0 ==> desire[i].balancingTargets == []))
            && (L4Steps.DistinctPorts(desire) <==>
                  forall i, j :: 0 <= i < j < |s.ports| ==> s.ports[i].nodePort != 0 || s.ports[j].nodePort != 0)
  {
    var desire := BuildL4(name, instances, s, list).value;
    forall i | 0 <= i < |desire|
      ensures desire[i].loadBalancerPort == if s.ports[i].nodePort == 0 then 0 else s.ports[i].port
      ensures s.ports[i].nodePort == 0 <==> L4Plan.KeyOf(desire[i]) == Key(0, 0)
    {
      assert s.ports[i] in s.ports;
    }
  }
}
