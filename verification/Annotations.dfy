/** The annotations of a service and their validation. */
module Annotations {
  import opened Base
  import opened Cloud
  import opened Strings
  import opened HealthTarget

  // The annotation keys that the controller knows.
  type Annotation = string

  const LB_TYPE: Annotation := "service.beta.kubernetes.io/nifcloud-load-balancer-type"
  const NETWORK_VOLUME: Annotation := "service.beta.kubernetes.io/nifcloud-load-balancer-network-volume"
  const ACCOUNTING_TYPE: Annotation := "service.beta.kubernetes.io/nifcloud-load-balancer-accounting-type"
  const POLICY_TYPE: Annotation := "service.beta.kubernetes.io/nifcloud-load-balancer-policy-type"
  const BALANCING_TYPE: Annotation := "service.beta.kubernetes.io/nifcloud-load-balancer-balancing-type"
  const HC_PROTOCOL: Annotation := "service.beta.kubernetes.io/nifcloud-load-balancer-healthcheck-protocol"
  const HC_UNHEALTHY_THRESHOLD: Annotation :=
    "service.beta.kubernetes.io/nifcloud-load-balancer-healthcheck-unhealthy-threshold"
  const HC_INTERVAL: Annotation := "service.beta.kubernetes.io/nifcloud-load-balancer-healthcheck-interval"
  const INTERFACE_1: Annotation := "service.beta.kubernetes.io/nifcloud-load-balancer-network-interface-1-network-id"
  const INTERFACE_2: Annotation := "service.beta.kubernetes.io/nifcloud-load-balancer-network-interface-2-network-id"
  const INTERFACE_1_IP_ADDRESS: Annotation :=
    "service.beta.kubernetes.io/nifcloud-load-balancer-network-interface-1-ip-address"
  const INTERFACE_2_IP_ADDRESS: Annotation :=
    "service.beta.kubernetes.io/nifcloud-load-balancer-network-interface-2-ip-address"
  const INTERFACE_1_SYSTEM_IP_ADDRESSES: Annotation :=
    "service.beta.kubernetes.io/nifcloud-load-balancer-network-interface-1-system-ip-addresses"
  const INTERFACE_2_SYSTEM_IP_ADDRESSES: Annotation :=
    "service.beta.kubernetes.io/nifcloud-load-balancer-network-interface-2-system-ip-addresses"
  const VIP_NETWORK: Annotation := "service.beta.kubernetes.io/nifcloud-load-balancer-vip-network"

  type AnnotationMap = map<Annotation, string>

  const COMMON_GLOBAL := "net-COMMON_GLOBAL"
  const COMMON_PRIVATE := "net-COMMON_PRIVATE"

  const ELASTIC_NETWORK_VOLUMES: seq<string> := ["10", "20", "30", "40", "100", "200", "300", "400", "500"]
  const L4_NETWORK_VOLUMES: seq<string> := [
    "10", "20", "30", "40", "100", "200", "300", "400", "500", "600", "700", "800", "900", "1000",
    "1100", "1200", "1300", "1400", "1500", "1600", "1700", "1800", "1900", "2000"]

  // ---------------------------------------------------------------- numbers

  const TWO_31 := 0x8000_0000
  const TWO_63 := 0x8000_0000_0000_0000

  /** strconv.Atoi: an optional sign, then digits, within 64 bits. */
  function Atoi(s: string): Option<int> {
    var signed := s != "" && (s[0] == '+' || s[0] == '-');
    var digits := if signed then s[1..] else s;
    if !AllDigits(digits) then None
    else
      var v := if signed && s[0] == '-' then -FromDecimal(digits) else FromDecimal(digits);
      if -TWO_63 <= v < TWO_63 then Some(v) else None
  }

  /** The conversion of an int to an int32: it keeps the low 32 bits. */
  function ToInt32(v: int): (r: int)
    ensures -TWO_31 <= r < TWO_31
    ensures -TWO_31 <= v < TWO_31 ==> r == v
  {
    (v + TWO_31) % (2 * TWO_31) - TWO_31
  }

  lemma {:induction false} DigitsBelow(s: string, n: nat)
    requires (forall i :: 0 <= i < |s| ==> IsDigit(s[i])) && |s| <= n
    ensures 0 <= FromDecimal(s) < PowerOfTen(n)
    decreases n
  {
    if s != "" {
      DigitsBelow(s[..|s| - 1], n - 1);
    } else if n > 0 {
      DigitsBelow(s, n - 1);
    }
  }

  function PowerOfTen(n: nat): nat {
    if n == 0 then 1 else 10 * PowerOfTen(n - 1)
  }

  /** Every allowed volume is a number of at most four digits. */
  lemma VolumesAreNumbers(v: string)
    requires v in ELASTIC_NETWORK_VOLUMES || v in L4_NETWORK_VOLUMES
    ensures Atoi(v).Some? && 0 <= Atoi(v).value < 10000
  {
    assert AllDigits(v) && |v| <= 4;
    DigitsBelow(v, 4);
    assert PowerOfTen(4) == 10000;
  }

  // ---------------------------------------------------------------- validation

  predicate PrivateLan(networkId: string) {
    networkId != COMMON_GLOBAL && networkId != COMMON_PRIVATE
  }

  predicate OneOf(a: AnnotationMap, k: Annotation, values: seq<string>) {
    k in a ==> a[k] in values
  }

  predicate Blank(a: AnnotationMap, k: Annotation) {
    k in a ==> a[k] == ""
  }

  predicate NumberIn(a: AnnotationMap, k: Annotation, lo: int, hi: int) {
    k in a ==> Atoi(a[k]).Some? && lo <= Atoi(a[k]).value <= hi
  }

  function TypeOf(a: AnnotationMap): string {
    if LB_TYPE in a then a[LB_TYPE] else "lb"
  }

  predicate ValidInBoth(a: AnnotationMap) {
    && OneOf(a, LB_TYPE, ["lb", "elb"])
    && OneOf(a, BALANCING_TYPE, ["1", "2"])
    && OneOf(a, ACCOUNTING_TYPE, ["1", "2"])
    && OneOf(a, HC_PROTOCOL, ["TCP", "ICMP"])
    && NumberIn(a, HC_UNHEALTHY_THRESHOLD, 1, 10)
    && NumberIn(a, HC_INTERVAL, 5, 300)
  }

  predicate ValidL4(a: AnnotationMap) {
    && OneOf(a, NETWORK_VOLUME, L4_NETWORK_VOLUMES)
    && OneOf(a, POLICY_TYPE, ["standard", "ats"])
    && Blank(a, INTERFACE_1) && Blank(a, INTERFACE_2)
    && Blank(a, INTERFACE_1_IP_ADDRESS) && Blank(a, INTERFACE_2_IP_ADDRESS)
    && Blank(a, INTERFACE_1_SYSTEM_IP_ADDRESSES) && Blank(a, INTERFACE_2_SYSTEM_IP_ADDRESSES)
    && Blank(a, VIP_NETWORK)
  }

  /** An interface on a private LAN needs an address and two system addresses; others must have none. */
  predicate ValidInterface(a: AnnotationMap, id: Annotation, ip: Annotation, system: Annotation, isIP: string -> bool) {
    id in a ==>
      if PrivateLan(a[id]) then
        && ip in a && isIP(a[ip])
        && system in a && |SplitOn(a[system], ',')| == 2
        && forall s :: s in SplitOn(a[system], ',') ==> isIP(s)
      else Blank(a, ip) && Blank(a, system)
  }

  predicate ValidElastic(a: AnnotationMap, isIP: string -> bool) {
    && OneOf(a, NETWORK_VOLUME, ELASTIC_NETWORK_VOLUMES)
    && Blank(a, POLICY_TYPE)
    && ValidInterface(a, INTERFACE_1, INTERFACE_1_IP_ADDRESS, INTERFACE_1_SYSTEM_IP_ADDRESSES, isIP)
    && ValidInterface(a, INTERFACE_2, INTERFACE_2_IP_ADDRESS, INTERFACE_2_SYSTEM_IP_ADDRESSES, isIP)
    && OneOf(a, VIP_NETWORK, ["1", "2"])
  }

  predicate Valid(a: AnnotationMap, isIP: string -> bool) {
    && ValidInBoth(a)
    && (TypeOf(a) == "lb" ==> ValidL4(a))
    && (TypeOf(a) == "elb" ==> ValidElastic(a, isIP))
  }

  // ---------------------------------------------------------------- the validator

  method ValidateLoadBalancerAnnotations(a: AnnotationMap, isIP: string -> bool) returns (r: Outcome<Error>)
    ensures r == if Valid(a, isIP) then Done else Failed(InvalidService)
  {
    var loadBalancerType := "lb";
    if LB_TYPE in a {
      loadBalancerType := a[LB_TYPE];
      if loadBalancerType != "lb" && loadBalancerType != "elb" {
        return Failed(InvalidService);
      }
    }
    if BALANCING_TYPE in a && a[BALANCING_TYPE] != "1" && a[BALANCING_TYPE] != "2" {
      return Failed(InvalidService);
    }
    if ACCOUNTING_TYPE in a && a[ACCOUNTING_TYPE] != "1" && a[ACCOUNTING_TYPE] != "2" {
      return Failed(InvalidService);
    }
    if HC_PROTOCOL in a && a[HC_PROTOCOL] != "TCP" && a[HC_PROTOCOL] != "ICMP" {
      return Failed(InvalidService);
    }
    if HC_UNHEALTHY_THRESHOLD in a {
      var t := Atoi(a[HC_UNHEALTHY_THRESHOLD]);
      if t.None? || t.value < 1 || 10 < t.value {
        return Failed(InvalidService);
      }
    }
    if HC_INTERVAL in a {
      var interval := Atoi(a[HC_INTERVAL]);
      if interval.None? || interval.value < 5 || 300 < interval.value {
        return Failed(InvalidService);
      }
    }
    assert ValidInBoth(a);
    if loadBalancerType == "lb" {
      r := ValidateL4(a);
      if r.Failed? {
        return;
      }
    }
    if loadBalancerType == "elb" {
      r := ValidateElastic(a, isIP);
      if r.Failed? {
        return;
      }
    }
    r := Done;
  }

  method ValidateL4(a: AnnotationMap) returns (r: Outcome<Error>)
    ensures r == if ValidL4(a) then Done else Failed(InvalidService)
  {
    if NETWORK_VOLUME in a && a[NETWORK_VOLUME] !in L4_NETWORK_VOLUMES {
      return Failed(InvalidService);
    }
    if POLICY_TYPE in a && a[POLICY_TYPE] != "standard" && a[POLICY_TYPE] != "ats" {
      return Failed(InvalidService);
    }
    if INTERFACE_1 in a && a[INTERFACE_1] != "" {
      return Failed(InvalidService);
    }
    if INTERFACE_2 in a && a[INTERFACE_2] != "" {
      return Failed(InvalidService);
    }
    if INTERFACE_1_IP_ADDRESS in a && a[INTERFACE_1_IP_ADDRESS] != "" {
      return Failed(InvalidService);
    }
    if INTERFACE_2_IP_ADDRESS in a && a[INTERFACE_2_IP_ADDRESS] != "" {
      return Failed(InvalidService);
    }
    if INTERFACE_1_SYSTEM_IP_ADDRESSES in a && a[INTERFACE_1_SYSTEM_IP_ADDRESSES] != "" {
      return Failed(InvalidService);
    }
    if INTERFACE_2_SYSTEM_IP_ADDRESSES in a && a[INTERFACE_2_SYSTEM_IP_ADDRESSES] != "" {
      return Failed(InvalidService);
    }
    if VIP_NETWORK in a && a[VIP_NETWORK] != "" {
      return Failed(InvalidService);
    }
    return Done;
  }

  method ValidateElastic(a: AnnotationMap, isIP: string -> bool) returns (r: Outcome<Error>)
    ensures r == if ValidElastic(a, isIP) then Done else Failed(InvalidService)
  {
    if NETWORK_VOLUME in a && a[NETWORK_VOLUME] !in ELASTIC_NETWORK_VOLUMES {
      return Failed(InvalidService);
    }
    if POLICY_TYPE in a && a[POLICY_TYPE] != "" {
      return Failed(InvalidService);
    }
    r := ValidateInterface(a, INTERFACE_1, INTERFACE_1_IP_ADDRESS, INTERFACE_1_SYSTEM_IP_ADDRESSES, isIP);
    if r.Failed? {
      return;
    }
    r := ValidateInterface(a, INTERFACE_2, INTERFACE_2_IP_ADDRESS, INTERFACE_2_SYSTEM_IP_ADDRESSES, isIP);
    if r.Failed? {
      return;
    }
    if VIP_NETWORK in a && a[VIP_NETWORK] != "1" && a[VIP_NETWORK] != "2" {
      return Failed(InvalidService);
    }
    return Done;
  }

  method AllIPAddresses(addresses: seq<string>, isIP: string -> bool) returns (ok: bool)
    ensures ok <==> forall s :: s in addresses ==> isIP(s)
  {
    for i := 0 to |addresses|
      invariant forall j :: 0 <= j < i ==> isIP(addresses[j])
    {
      if !isIP(addresses[i]) {
        return false;
      }
    }
    return true;
  }

  method ValidateInterface(a: AnnotationMap, id: Annotation, ip: Annotation, system: Annotation, isIP: string -> bool)
    returns (r: Outcome<Error>)
    ensures r == if ValidInterface(a, id, ip, system, isIP) then Done else Failed(InvalidService)
  {
    if id !in a {
      return Done;
    }
    if PrivateLan(a[id]) {
      if ip !in a || !isIP(a[ip]) || system !in a {
        return Failed(InvalidService);
      }
      var separated := SplitOn(a[system], ',');
      if |separated| != 2 {
        return Failed(InvalidService);
      }
      var ok := AllIPAddresses(separated, isIP);
      if !ok {
        return Failed(InvalidService);
      }
    } else {
      if ip in a && a[ip] != "" {
        return Failed(InvalidService);
      }
      if system in a && a[system] != "" {
        return Failed(InvalidService);
      }
    }
    return Done;
  }
}
