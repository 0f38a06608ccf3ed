/** Which annotations are valid: what each single annotation decides. */
module Validity {
  import opened Strings
  import opened HealthTarget
  import opened Annotations
  import opened Builders
  import opened Soundness

  // ---------------------------------------------------------------- the keys are different

  lemma KeyLengths()
    ensures |LB_TYPE| == 54 && |NETWORK_VOLUME| == |BALANCING_TYPE| == 64 && |ACCOUNTING_TYPE| == 65
    ensures |POLICY_TYPE| == |VIP_NETWORK| == 61 && |HC_PROTOCOL| == |HC_INTERVAL| == 70
    ensures |HC_UNHEALTHY_THRESHOLD| == 81 && |INTERFACE_1| == |INTERFACE_2| == 80
    ensures |INTERFACE_1_IP_ADDRESS| == |INTERFACE_2_IP_ADDRESS| == 80
    ensures |INTERFACE_1_SYSTEM_IP_ADDRESSES| == |INTERFACE_2_SYSTEM_IP_ADDRESSES| == 89
  {
  }

  lemma KeysOfOneLength()
    ensures NETWORK_VOLUME != BALANCING_TYPE && POLICY_TYPE != VIP_NETWORK && HC_PROTOCOL != HC_INTERVAL
    ensures INTERFACE_1_SYSTEM_IP_ADDRESSES != INTERFACE_2_SYSTEM_IP_ADDRESSES
  {
    assert NETWORK_VOLUME[50] == 'n' && BALANCING_TYPE[50] == 'b' && POLICY_TYPE[50] == 'p' && VIP_NETWORK[50] == 'v';
    assert HC_PROTOCOL[62] == 'p' && HC_INTERVAL[62] == 'i';
    assert INTERFACE_1_SYSTEM_IP_ADDRESSES[68] == '1' && INTERFACE_2_SYSTEM_IP_ADDRESSES[68] == '2';
  }

  lemma InterfaceKeys()
    ensures INTERFACE_1 != INTERFACE_2 && INTERFACE_1_IP_ADDRESS != INTERFACE_2_IP_ADDRESS
    ensures INTERFACE_1 != INTERFACE_1_IP_ADDRESS && INTERFACE_1 != INTERFACE_2_IP_ADDRESS
    ensures INTERFACE_2 != INTERFACE_1_IP_ADDRESS && INTERFACE_2 != INTERFACE_2_IP_ADDRESS
  {
    assert INTERFACE_1[68] == '1' && INTERFACE_2[68] == '2' && INTERFACE_1[70] == INTERFACE_2[70] == 'n';
    assert INTERFACE_1_IP_ADDRESS[68] == '1' && INTERFACE_2_IP_ADDRESS[68] == '2';
    assert INTERFACE_1_IP_ADDRESS[70] == INTERFACE_2_IP_ADDRESS[70] == 'i';
  }

  /** Two maps that agree on every key but one. */
  ghost predicate Elsewhere(a: AnnotationMap, a': AnnotationMap, k: Annotation) {
    forall k' :: k' != k ==> (k' in a <==> k' in a') && (k' in a ==> a[k'] == a'[k'])
  }

  lemma WithAndWithout(a: AnnotationMap, k: Annotation, v: string)
    ensures Elsewhere(a[k := v], a - {k}, k)
  {
  }

  /** What both kinds of balancer check does not depend on other keys. */
  lemma CommonStays(a: AnnotationMap, a': AnnotationMap, k: Annotation)
    requires Elsewhere(a, a', k) && k != LB_TYPE && k != BALANCING_TYPE && k != ACCOUNTING_TYPE && k != HC_PROTOCOL
    requires k != HC_UNHEALTHY_THRESHOLD && k != HC_INTERVAL
    ensures (ValidInBoth(a) <==> ValidInBoth(a')) && TypeOf(a) == TypeOf(a')
  {
  }

  /** What one kind checks does not depend on other keys. */
  lemma OwnStays(a: AnnotationMap, a': AnnotationMap, k: Annotation, isIP: string -> bool)
    requires Elsewhere(a, a', k) && k != NETWORK_VOLUME && k != POLICY_TYPE && k != VIP_NETWORK
    requires k != INTERFACE_1 && k != INTERFACE_1_IP_ADDRESS && k != INTERFACE_1_SYSTEM_IP_ADDRESSES
    requires k != INTERFACE_2 && k != INTERFACE_2_IP_ADDRESS && k != INTERFACE_2_SYSTEM_IP_ADDRESSES
    ensures (ValidL4(a) <==> ValidL4(a')) && (ValidElastic(a, isIP) <==> ValidElastic(a', isIP))
  {
  }

  // ---------------------------------------------------------------- annotations of both kinds

  /** An annotation that both kinds check, and no kind more than the other. */
  lemma CommonKeys(k: Annotation)
    requires k in {BALANCING_TYPE, ACCOUNTING_TYPE, HC_PROTOCOL, HC_UNHEALTHY_THRESHOLD, HC_INTERVAL}
    ensures k != LB_TYPE && k != NETWORK_VOLUME && k != POLICY_TYPE && k != VIP_NETWORK
    ensures k != INTERFACE_1 && k != INTERFACE_1_IP_ADDRESS && k != INTERFACE_1_SYSTEM_IP_ADDRESSES
    ensures k != INTERFACE_2 && k != INTERFACE_2_IP_ADDRESS && k != INTERFACE_2_SYSTEM_IP_ADDRESSES
  {
    KeyLengths();
    KeysOfOneLength();
  }

  lemma CommonKeysApart()
    ensures BALANCING_TYPE != ACCOUNTING_TYPE && BALANCING_TYPE != HC_PROTOCOL && BALANCING_TYPE != HC_INTERVAL
    ensures BALANCING_TYPE != HC_UNHEALTHY_THRESHOLD && ACCOUNTING_TYPE != HC_PROTOCOL
    ensures ACCOUNTING_TYPE != HC_INTERVAL && ACCOUNTING_TYPE != HC_UNHEALTHY_THRESHOLD
    ensures HC_PROTOCOL != HC_INTERVAL && HC_PROTOCOL != HC_UNHEALTHY_THRESHOLD && HC_INTERVAL != HC_UNHEALTHY_THRESHOLD
  {
    KeyLengths();
    KeysOfOneLength();
  }

  /** A common annotation with a value that is fine by itself. */
  lemma CommonDecides(a: AnnotationMap, k: Annotation, v: string, isIP: string -> bool, fine: bool)
    requires k in {BALANCING_TYPE, ACCOUNTING_TYPE, HC_PROTOCOL, HC_UNHEALTHY_THRESHOLD, HC_INTERVAL}
    requires ValidInBoth(a[k := v]) <==> ValidInBoth(a - {k}) && fine
    ensures Valid(a[k := v], isIP) <==> Valid(a - {k}, isIP) && fine
  {
    CommonKeys(k);
    WithAndWithout(a, k, v);
    OwnStays(a[k := v], a - {k}, k, isIP);
  }

  /**
   * The health check interval: whatever else is annotated, exactly the numbers from 5 to 300 are
   * valid. A printed number reads back, so "60" is valid and "301" is not.
   */
  lemma IntervalDecides(a: AnnotationMap, v: string, isIP: string -> bool)
    ensures Valid(a[HC_INTERVAL := v], isIP) <==>
            Valid(a - {HC_INTERVAL}, isIP) && Atoi(v).Some? && 5 <= Atoi(v).value <= 300
  {
    CommonKeys(HC_INTERVAL);
    CommonKeysApart();
    CommonDecides(a, HC_INTERVAL, v, isIP, Atoi(v).Some? && 5 <= Atoi(v).value <= 300);
  }

  lemma PrintedIntervalDecides(a: AnnotationMap, n: int, isIP: string -> bool)
    requires -TWO_63 <= n < TWO_63
    ensures Valid(a[HC_INTERVAL := Printed(n)], isIP) <==> Valid(a - {HC_INTERVAL}, isIP) && 5 <= n <= 300
  {
    AtoiReadsBack(n);
    IntervalDecides(a, Printed(n), isIP);
  }

  /** The unhealthy threshold: exactly the numbers from 1 to 10. */
  lemma ThresholdDecides(a: AnnotationMap, v: string, isIP: string -> bool)
    ensures Valid(a[HC_UNHEALTHY_THRESHOLD := v], isIP) <==>
            Valid(a - {HC_UNHEALTHY_THRESHOLD}, isIP) && Atoi(v).Some? && 1 <= Atoi(v).value <= 10
  {
    CommonKeys(HC_UNHEALTHY_THRESHOLD);
    CommonKeysApart();
    CommonDecides(a, HC_UNHEALTHY_THRESHOLD, v, isIP, Atoi(v).Some? && 1 <= Atoi(v).value <= 10);
  }

  lemma PrintedThresholdDecides(a: AnnotationMap, n: int, isIP: string -> bool)
    requires -TWO_63 <= n < TWO_63
    ensures Valid(a[HC_UNHEALTHY_THRESHOLD := Printed(n)], isIP) <==>
            Valid(a - {HC_UNHEALTHY_THRESHOLD}, isIP) && 1 <= n <= 10
  {
    AtoiReadsBack(n);
    ThresholdDecides(a, Printed(n), isIP);
  }

  /** The health check protocol: "TCP" or "ICMP", in upper case. */
  lemma ProtocolDecides(a: AnnotationMap, v: string, isIP: string -> bool)
    ensures Valid(a[HC_PROTOCOL := v], isIP) <==> Valid(a - {HC_PROTOCOL}, isIP) && (v == "TCP" || v == "ICMP")
  {
    CommonKeys(HC_PROTOCOL);
    CommonKeysApart();
    CommonDecides(a, HC_PROTOCOL, v, isIP, v == "TCP" || v == "ICMP");
  }

  /** The balancing type: "1" or "2". */
  lemma BalancingDecides(a: AnnotationMap, v: string, isIP: string -> bool)
    ensures Valid(a[BALANCING_TYPE := v], isIP) <==> Valid(a - {BALANCING_TYPE}, isIP) && (v == "1" || v == "2")
  {
    CommonKeys(BALANCING_TYPE);
    CommonKeysApart();
    CommonDecides(a, BALANCING_TYPE, v, isIP, v == "1" || v == "2");
  }

  /** The accounting type: "1" or "2". */
  lemma AccountingDecides(a: AnnotationMap, v: string, isIP: string -> bool)
    ensures Valid(a[ACCOUNTING_TYPE := v], isIP) <==> Valid(a - {ACCOUNTING_TYPE}, isIP) && (v == "1" || v == "2")
  {
    CommonKeys(ACCOUNTING_TYPE);
    CommonKeysApart();
    CommonDecides(a, ACCOUNTING_TYPE, v, isIP, v == "1" || v == "2");
  }

  // ---------------------------------------------------------------- annotations of one kind

  lemma OwnKeys(k: Annotation)
    requires k in {NETWORK_VOLUME, POLICY_TYPE, VIP_NETWORK, INTERFACE_1, INTERFACE_1_IP_ADDRESS,
                   INTERFACE_1_SYSTEM_IP_ADDRESSES, INTERFACE_2, INTERFACE_2_IP_ADDRESS,
                   INTERFACE_2_SYSTEM_IP_ADDRESSES}
    ensures k != LB_TYPE && k != BALANCING_TYPE && k != ACCOUNTING_TYPE && k != HC_PROTOCOL
    ensures k != HC_UNHEALTHY_THRESHOLD && k != HC_INTERVAL
  {
    KeyLengths();
    KeysOfOneLength();
  }

  lemma OwnKeysApart()
    ensures NETWORK_VOLUME != POLICY_TYPE && NETWORK_VOLUME != VIP_NETWORK && POLICY_TYPE != VIP_NETWORK
  {
    KeyLengths();
    KeysOfOneLength();
  }

  lemma InterfaceKeysApart(k: Annotation)
    requires k in {NETWORK_VOLUME, POLICY_TYPE, VIP_NETWORK}
    ensures k != INTERFACE_1 && k != INTERFACE_1_IP_ADDRESS && k != INTERFACE_1_SYSTEM_IP_ADDRESSES
    ensures k != INTERFACE_2 && k != INTERFACE_2_IP_ADDRESS && k != INTERFACE_2_SYSTEM_IP_ADDRESSES
  {
    KeyLengths();
  }

  /** An annotation of one kind with a value that is fine for an L4 balancer or for an elastic one. */
  lemma OwnDecides(a: AnnotationMap, k: Annotation, v: string, isIP: string -> bool, fineL4: bool, fineElastic: bool)
    requires k in {NETWORK_VOLUME, POLICY_TYPE, VIP_NETWORK, INTERFACE_1, INTERFACE_1_IP_ADDRESS,
                   INTERFACE_1_SYSTEM_IP_ADDRESSES, INTERFACE_2, INTERFACE_2_IP_ADDRESS,
                   INTERFACE_2_SYSTEM_IP_ADDRESSES}
    requires ValidL4(a[k := v]) <==> ValidL4(a - {k}) && fineL4
    requires ValidElastic(a[k := v], isIP) <==> ValidElastic(a - {k}, isIP) && fineElastic
    ensures Valid(a[k := v], isIP) <==>
            Valid(a - {k}, isIP) && if TypeOf(a - {k}) == "elb" then fineElastic else fineL4
  {
    OwnKeys(k);
    WithAndWithout(a, k, v);
    CommonStays(a[k := v], a - {k}, k);
  }

  predicate ValidInterfaces(a: AnnotationMap, isIP: string -> bool) {
    && ValidInterface(a, INTERFACE_1, INTERFACE_1_IP_ADDRESS, INTERFACE_1_SYSTEM_IP_ADDRESSES, isIP)
    && ValidInterface(a, INTERFACE_2, INTERFACE_2_IP_ADDRESS, INTERFACE_2_SYSTEM_IP_ADDRESSES, isIP)
  }

  predicate NoInterfaces(a: AnnotationMap) {
    && Blank(a, INTERFACE_1) && Blank(a, INTERFACE_2)
    && Blank(a, INTERFACE_1_IP_ADDRESS) && Blank(a, INTERFACE_2_IP_ADDRESS)
    && Blank(a, INTERFACE_1_SYSTEM_IP_ADDRESSES) && Blank(a, INTERFACE_2_SYSTEM_IP_ADDRESSES)
  }

  /** What an elastic balancer checks of its interfaces does not depend on other keys. */
  lemma InterfacesStay(a: AnnotationMap, a': AnnotationMap, k: Annotation, isIP: string -> bool)
    requires Elsewhere(a, a', k)
    requires k != INTERFACE_1 && k != INTERFACE_1_IP_ADDRESS && k != INTERFACE_1_SYSTEM_IP_ADDRESSES
    requires k != INTERFACE_2 && k != INTERFACE_2_IP_ADDRESS && k != INTERFACE_2_SYSTEM_IP_ADDRESSES
    ensures ValidInterfaces(a, isIP) <==> ValidInterfaces(a', isIP)
    ensures NoInterfaces(a) <==> NoInterfaces(a')
  {
  }

  lemma Parts(a: AnnotationMap, isIP: string -> bool)
    ensures ValidL4(a) <==>
            && OneOf(a, NETWORK_VOLUME, L4_NETWORK_VOLUMES) && OneOf(a, POLICY_TYPE, ["standard", "ats"])
            && NoInterfaces(a) && Blank(a, VIP_NETWORK)
    ensures ValidElastic(a, isIP) <==>
            && OneOf(a, NETWORK_VOLUME, ELASTIC_NETWORK_VOLUMES) && Blank(a, POLICY_TYPE)
            && ValidInterfaces(a, isIP) && OneOf(a, VIP_NETWORK, ["1", "2"])
  {
  }

  /** An annotation that is none of the interfaces'. */
  lemma PlainDecides(a: AnnotationMap, k: Annotation, v: string, isIP: string -> bool)
    requires k in {NETWORK_VOLUME, POLICY_TYPE, VIP_NETWORK}
    ensures NoInterfaces(a[k := v]) <==> NoInterfaces(a - {k})
    ensures ValidInterfaces(a[k := v], isIP) <==> ValidInterfaces(a - {k}, isIP)
  {
    InterfaceKeysApart(k);
    WithAndWithout(a, k, v);
    InterfacesStay(a[k := v], a - {k}, k, isIP);
  }

  /** The service asks for an elastic balancer. */
  predicate AsksForElastic(a: AnnotationMap) {
    LB_TYPE in a && a[LB_TYPE] == "elb"
  }

  /** The policy type: "standard" or "ats" for an L4 balancer, nothing for an elastic one. */
  lemma PolicyDecides(a: AnnotationMap, v: string, isIP: string -> bool)
    ensures Valid(a[POLICY_TYPE := v], isIP) <==>
            && Valid(a - {POLICY_TYPE}, isIP)
            && if AsksForElastic(a) then v == "" else v == "standard" || v == "ats"
  {
    OwnKeysApart();
    OwnKeys(POLICY_TYPE);
    PlainDecides(a, POLICY_TYPE, v, isIP);
    Parts(a[POLICY_TYPE := v], isIP);
    Parts(a - {POLICY_TYPE}, isIP);
    OwnDecides(a, POLICY_TYPE, v, isIP, v == "standard" || v == "ats", v == "");
  }

  /** The arm of the VIP: "1" or "2" for an elastic balancer, nothing for an L4 one. */
  lemma VipNetworkDecides(a: AnnotationMap, v: string, isIP: string -> bool)
    ensures Valid(a[VIP_NETWORK := v], isIP) <==>
            && Valid(a - {VIP_NETWORK}, isIP)
            && if AsksForElastic(a) then v == "1" || v == "2" else v == ""
  {
    OwnKeysApart();
    OwnKeys(VIP_NETWORK);
    PlainDecides(a, VIP_NETWORK, v, isIP);
    Parts(a[VIP_NETWORK := v], isIP);
    Parts(a - {VIP_NETWORK}, isIP);
    OwnDecides(a, VIP_NETWORK, v, isIP, v == "", v == "1" || v == "2");
  }

  // ---------------------------------------------------------------- network volumes

  /** Tens up to forty, then hundreds. */
  predicate Volume(n: int, most: int) {
    (n % 10 == 0 && 10 <= n <= 40) || (n % 100 == 0 && 100 <= n <= most)
  }

  lemma HundredsPrinted(m: nat)
    requires m > 0
    ensures Decimal(100 * m) == Decimal(m) + "00" && Decimal(10 * m) == Decimal(m) + "0"
  {
    assert Decimal(10 * m) == Decimal(m) + [Digit(0)];
    assert Decimal(100 * m) == Decimal(10 * m) + [Digit(0)];
    assert Digit(0) == '0';
  }

  lemma SmallPrinted(m: nat)
    requires 1 <= m <= 20
    ensures m < 10 ==> Decimal(m) == [Digit(m)]
    ensures 10 <= m < 20 ==> Decimal(m) == ['1', Digit(m - 10)]
    ensures m == 20 ==> Decimal(m) == "20"
  {
  }

  lemma SomeDigits()
    ensures Digit(1) == '1' && Digit(2) == '2' && Digit(3) == '3' && Digit(4) == '4' && Digit(5) == '5'
    ensures Digit(6) == '6' && Digit(7) == '7' && Digit(8) == '8' && Digit(9) == '9' && Digit(0) == '0'
  {
  }

  lemma TensListed(m: nat)
    requires 1 <= m <= 4
    ensures L4_NETWORK_VOLUMES[m - 1] == ELASTIC_NETWORK_VOLUMES[m - 1] == Decimal(10 * m)
  {
    SomeDigits();
    HundredsPrinted(m);
    SmallPrinted(m);
  }

  lemma LowHundredsListed(m: nat)
    requires 1 <= m <= 9
    ensures L4_NETWORK_VOLUMES[m + 3] == Decimal(100 * m)
    ensures m <= 5 ==> ELASTIC_NETWORK_VOLUMES[m + 3] == Decimal(100 * m)
  {
    SomeDigits();
    HundredsPrinted(m);
    SmallPrinted(m);
  }

  lemma HighHundredsListed(m: nat)
    requires 10 <= m <= 20
    ensures L4_NETWORK_VOLUMES[m + 3] == Decimal(100 * m)
  {
    SomeDigits();
    HundredsPrinted(m);
    SmallPrinted(m);
  }

  /** The number at a place of the two lists. */
  function VolumeAt(i: nat): nat {
    if i < 4 then 10 * (i + 1) else 100 * (i - 3)
  }

  lemma PlacesHoldVolumes(i: nat)
    requires i < 24
    ensures Volume(VolumeAt(i), 2000) && (i < 9 ==> Volume(VolumeAt(i), 500))
  {
  }

  lemma VolumeHasPlace(n: int, most: int)
    requires Volume(n, most) && most <= 2000
    ensures var i := if n <= 40 then n / 10 - 1 else n / 100 + 3;
            0 <= i < 24 && VolumeAt(i) == n && (most <= 500 ==> i < 9)
  {
  }

  lemma VolumesListed(i: nat)
    requires i < 24
    ensures |L4_NETWORK_VOLUMES| == 24 && |ELASTIC_NETWORK_VOLUMES| == 9
    ensures L4_NETWORK_VOLUMES[i] == Printed(VolumeAt(i))
    ensures i < 9 ==> ELASTIC_NETWORK_VOLUMES[i] == Printed(VolumeAt(i))
  {
    if i < 4 {
      TensListed(i + 1);
    } else if i < 13 {
      LowHundredsListed(i - 3);
    } else {
      HighHundredsListed(i - 3);
    }
  }

  /** A text is the decimal form of a volume. */
  ghost predicate IsVolume(v: string, most: int) {
    exists n: int :: Volume(n, most) && v == Printed(n)
  }

  lemma L4Volumes(v: string)
    ensures v in L4_NETWORK_VOLUMES <==> IsVolume(v, 2000)
  {
    if v in L4_NETWORK_VOLUMES {
      var i :| 0 <= i < |L4_NETWORK_VOLUMES| && v == L4_NETWORK_VOLUMES[i];
      VolumesListed(i);
      PlacesHoldVolumes(i);
    }
    if IsVolume(v, 2000) {
      var n: int :| Volume(n, 2000) && v == Printed(n);
      VolumeHasPlace(n, 2000);
      VolumesListed(if n <= 40 then n / 10 - 1 else n / 100 + 3);
    }
  }

  lemma ElasticVolumes(v: string)
    ensures v in ELASTIC_NETWORK_VOLUMES <==> IsVolume(v, 500)
  {
    if v in ELASTIC_NETWORK_VOLUMES {
      var i :| 0 <= i < |ELASTIC_NETWORK_VOLUMES| && v == ELASTIC_NETWORK_VOLUMES[i];
      VolumesListed(i);
      PlacesHoldVolumes(i);
    }
    if IsVolume(v, 500) {
      var n: int :| Volume(n, 500) && v == Printed(n);
      VolumeHasPlace(n, 500);
      VolumesListed(if n <= 40 then n / 10 - 1 else n / 100 + 3);
    }
  }

  /**
   * The network volume: the decimal form of 10, 20, 30, 40 or of whole hundreds, up to 2000 for an
   * L4 balancer and up to 500 for an elastic one, and no other text.
   */
  lemma VolumeDecides(a: AnnotationMap, v: string, isIP: string -> bool)
    ensures Valid(a[NETWORK_VOLUME := v], isIP) <==>
            Valid(a - {NETWORK_VOLUME}, isIP) && IsVolume(v, if AsksForElastic(a) then 500 else 2000)
  {
    L4Volumes(v);
    ElasticVolumes(v);
    VolumeListDecides(a, v, isIP);
  }

  lemma VolumeListDecides(a: AnnotationMap, v: string, isIP: string -> bool)
    ensures Valid(a[NETWORK_VOLUME := v], isIP) <==>
            && Valid(a - {NETWORK_VOLUME}, isIP)
            && v in if AsksForElastic(a) then ELASTIC_NETWORK_VOLUMES else L4_NETWORK_VOLUMES
  {
    OwnKeysApart();
    OwnKeys(NETWORK_VOLUME);
    PlainDecides(a, NETWORK_VOLUME, v, isIP);
    Parts(a[NETWORK_VOLUME := v], isIP);
    Parts(a - {NETWORK_VOLUME}, isIP);
    OwnDecides(a, NETWORK_VOLUME, v, isIP, v in L4_NETWORK_VOLUMES, v in ELASTIC_NETWORK_VOLUMES);
  }

  lemma PrintedVolumeDecides(a: AnnotationMap, n: int, isIP: string -> bool)
    requires -TWO_63 <= n < TWO_63
    ensures Valid(a[NETWORK_VOLUME := Printed(n)], isIP) <==>
            Valid(a - {NETWORK_VOLUME}, isIP) && Volume(n, if AsksForElastic(a) then 500 else 2000)
  {
    VolumeDecides(a, Printed(n), isIP);
    var most := if AsksForElastic(a) then 500 else 2000;
    if IsVolume(Printed(n), most) {
      var m: int :| Volume(m, most) && Printed(n) == Printed(m);
      AtoiReadsBack(n);
      AtoiReadsBack(m);
    }
  }

  // ---------------------------------------------------------------- network interfaces

  /** The three keys of one arm. */
  predicate Arm(id: Annotation, ip: Annotation, system: Annotation) {
    || (id == INTERFACE_1 && ip == INTERFACE_1_IP_ADDRESS && system == INTERFACE_1_SYSTEM_IP_ADDRESSES)
    || (id == INTERFACE_2 && ip == INTERFACE_2_IP_ADDRESS && system == INTERFACE_2_SYSTEM_IP_ADDRESSES)
  }

  lemma ArmKeys(id: Annotation, ip: Annotation, system: Annotation)
    requires Arm(id, ip, system)
    ensures id != ip && id != system && ip != system
    ensures id in ARM_KEYS && ip in ARM_KEYS && system in ARM_KEYS
  {
    KeyLengths();
    InterfaceKeys();
  }

  const ARM_KEYS: set<Annotation> := {
    INTERFACE_1, INTERFACE_1_IP_ADDRESS, INTERFACE_1_SYSTEM_IP_ADDRESSES,
    INTERFACE_2, INTERFACE_2_IP_ADDRESS, INTERFACE_2_SYSTEM_IP_ADDRESSES}

  lemma ArmsApart()
    ensures |INTERFACE_1| != |INTERFACE_2_SYSTEM_IP_ADDRESSES| && |INTERFACE_2| != |INTERFACE_1_SYSTEM_IP_ADDRESSES|
    ensures INTERFACE_1 != INTERFACE_2 && INTERFACE_1 != INTERFACE_2_IP_ADDRESS
    ensures INTERFACE_1_IP_ADDRESS != INTERFACE_2 && INTERFACE_1_IP_ADDRESS != INTERFACE_2_IP_ADDRESS
    ensures INTERFACE_1_IP_ADDRESS != INTERFACE_2_SYSTEM_IP_ADDRESSES
    ensures INTERFACE_1_SYSTEM_IP_ADDRESSES != INTERFACE_2_IP_ADDRESS
    ensures INTERFACE_1_SYSTEM_IP_ADDRESSES != INTERFACE_2_SYSTEM_IP_ADDRESSES
  {
    KeyLengths();
    KeysOfOneLength();
    InterfaceKeys();
  }

  /** Exactly two IP addresses with a comma between them. */
  ghost predicate TwoAddresses(s: string, isIP: string -> bool) {
    exists x: string, y: string :: ',' !in x && ',' !in y && s == x + [','] + y && isIP(x) && isIP(y)
  }

  lemma TwoPieces(s: string, isIP: string -> bool)
    ensures TwoAddresses(s, isIP) <==>
            |SplitOn(s, ',')| == 2 && forall p :: p in SplitOn(s, ',') ==> isIP(p)
  {
    var pieces := SplitOn(s, ',');
    if |pieces| == 2 && forall p :: p in pieces ==> isIP(p) {
      SplitThenJoin(s, ',');
      assert pieces[0] in pieces && pieces[1] in pieces;
      assert pieces[..1] == [pieces[0]];
      assert s == pieces[0] + [','] + pieces[1];
    }
    if TwoAddresses(s, isIP) {
      var x: string, y: string :| ',' !in x && ',' !in y && s == x + [','] + y && isIP(x) && isIP(y);
      SplitLast(x, y, ',');
      SplitPlain(x, ',');
      assert pieces == [x, y];
    }
  }

  /** What an elastic balancer needs for an arm on this network. */
  ghost predicate Addressed(a: AnnotationMap, network: string, ip: Annotation, system: Annotation,
                            isIP: string -> bool)
  {
    if network == "net-COMMON_GLOBAL" || network == "net-COMMON_PRIVATE" then
      (ip in a ==> a[ip] == "") && (system in a ==> a[system] == "")
    else
      ip in a && isIP(a[ip]) && system in a && TwoAddresses(a[system], isIP)
  }

  lemma ArmIs(a: AnnotationMap, id: Annotation, ip: Annotation, system: Annotation, isIP: string -> bool)
    ensures ValidInterface(a, id, ip, system, isIP) <==> id in a ==> Addressed(a, a[id], ip, system, isIP)
  {
    if system in a {
      TwoPieces(a[system], isIP);
    }
  }

  /** The keys of one arm are nothing to the other arm. */
  lemma OtherArmStays(a: AnnotationMap, a': AnnotationMap, k: Annotation, isIP: string -> bool)
    requires Elsewhere(a, a', k)
    ensures k in {INTERFACE_1, INTERFACE_1_IP_ADDRESS, INTERFACE_1_SYSTEM_IP_ADDRESSES} ==>
              (ValidInterface(a, INTERFACE_2, INTERFACE_2_IP_ADDRESS, INTERFACE_2_SYSTEM_IP_ADDRESSES, isIP) <==>
               ValidInterface(a', INTERFACE_2, INTERFACE_2_IP_ADDRESS, INTERFACE_2_SYSTEM_IP_ADDRESSES, isIP))
    ensures k in {INTERFACE_2, INTERFACE_2_IP_ADDRESS, INTERFACE_2_SYSTEM_IP_ADDRESSES} ==>
              (ValidInterface(a, INTERFACE_1, INTERFACE_1_IP_ADDRESS, INTERFACE_1_SYSTEM_IP_ADDRESSES, isIP) <==>
               ValidInterface(a', INTERFACE_1, INTERFACE_1_IP_ADDRESS, INTERFACE_1_SYSTEM_IP_ADDRESSES, isIP))
  {
    ArmsApart();
  }

  lemma OneArmDecides(a: AnnotationMap, id: Annotation, ip: Annotation, system: Annotation, k: Annotation, v: string,
      isIP: string -> bool)
    requires Arm(id, ip, system) && k in {id, ip, system}
    requires ValidInterface(a - {k}, id, ip, system, isIP)
    ensures ValidInterfaces(a[k := v], isIP) <==>
            ValidInterfaces(a - {k}, isIP) && ValidInterface(a[k := v], id, ip, system, isIP)
  {
    WithAndWithout(a, k, v);
    OtherArmStays(a[k := v], a - {k}, k, isIP);
  }

  /** Volume, policy and the arm of the VIP do not depend on the interfaces. */
  lemma OthersStay(a: AnnotationMap, k: Annotation, v: string)
    requires k in ARM_KEYS
    ensures OneOf(a[k := v], NETWORK_VOLUME, ELASTIC_NETWORK_VOLUMES) <==>
            OneOf(a - {k}, NETWORK_VOLUME, ELASTIC_NETWORK_VOLUMES)
    ensures OneOf(a[k := v], NETWORK_VOLUME, L4_NETWORK_VOLUMES) <==> OneOf(a - {k}, NETWORK_VOLUME, L4_NETWORK_VOLUMES)
    ensures OneOf(a[k := v], POLICY_TYPE, ["standard", "ats"]) <==> OneOf(a - {k}, POLICY_TYPE, ["standard", "ats"])
    ensures OneOf(a[k := v], VIP_NETWORK, ["1", "2"]) <==> OneOf(a - {k}, VIP_NETWORK, ["1", "2"])
    ensures Blank(a[k := v], POLICY_TYPE) <==> Blank(a - {k}, POLICY_TYPE)
    ensures Blank(a[k := v], VIP_NETWORK) <==> Blank(a - {k}, VIP_NETWORK)
  {
    InterfaceKeysApart(NETWORK_VOLUME);
    InterfaceKeysApart(POLICY_TYPE);
    InterfaceKeysApart(VIP_NETWORK);
  }

  lemma ArmKeysOfL4(a: AnnotationMap, k: Annotation, v: string, isIP: string -> bool)
    requires k in ARM_KEYS
    ensures ValidL4(a[k := v]) <==> ValidL4(a - {k}) && v == ""
  {
    OthersStay(a, k, v);
    BlankArms(a, k, v);
    Parts(a[k := v], isIP);
    Parts(a - {k}, isIP);
  }

  lemma ArmKeysOfElastic(a: AnnotationMap, k: Annotation, v: string, isIP: string -> bool, fine: bool)
    requires k in ARM_KEYS
    requires ValidInterfaces(a[k := v], isIP) <==> ValidInterfaces(a - {k}, isIP) && fine
    ensures ValidElastic(a[k := v], isIP) <==> ValidElastic(a - {k}, isIP) && fine
  {
    OthersStay(a, k, v);
    Parts(a[k := v], isIP);
    Parts(a - {k}, isIP);
  }

  lemma ArmKeysDecide(a: AnnotationMap, k: Annotation, v: string, isIP: string -> bool, fine: bool)
    requires k in ARM_KEYS
    requires ValidInterfaces(a[k := v], isIP) <==> ValidInterfaces(a - {k}, isIP) && fine
    ensures Valid(a[k := v], isIP) <==>
            Valid(a - {k}, isIP) && if AsksForElastic(a) then fine else v == ""
  {
    OwnKeys(k);
    ArmKeysOfL4(a, k, v, isIP);
    ArmKeysOfElastic(a, k, v, isIP, fine);
    OwnDecides(a, k, v, isIP, v == "", fine);
  }

  lemma BlankArms(a: AnnotationMap, k: Annotation, v: string)
    requires k in ARM_KEYS
    ensures NoInterfaces(a[k := v]) <==> NoInterfaces(a - {k}) && v == ""
  {
    KeyLengths();
    KeysOfOneLength();
    InterfaceKeys();
  }

  /**
   * The network of an arm: on a common network the arm has no addresses of its own, and any other
   * network is a private LAN, where it needs an address and two system addresses. An L4 balancer
   * has no arms.
   */
  lemma NetworkDecides(a: AnnotationMap, id: Annotation, ip: Annotation, system: Annotation, v: string,
      isIP: string -> bool)
    requires Arm(id, ip, system)
    ensures Valid(a[id := v], isIP) <==>
            && Valid(a - {id}, isIP)
            && if AsksForElastic(a) then Addressed(a, v, ip, system, isIP) else v == ""
  {
    ArmKeys(id, ip, system);
    ArmIs(a[id := v], id, ip, system, isIP);
    OneArmDecides(a, id, ip, system, id, v, isIP);
    ArmKeysDecide(a, id, v, isIP, Addressed(a, v, ip, system, isIP));
  }

  /** The addresses of an arm without a network are not looked at, unless the balancer is an L4 one. */
  lemma AddressesWithoutNetwork(a: AnnotationMap, id: Annotation, ip: Annotation, system: Annotation, k: Annotation,
      v: string, isIP: string -> bool)
    requires Arm(id, ip, system) && id !in a && k in {ip, system}
    ensures Valid(a[k := v], isIP) <==> Valid(a - {k}, isIP) && (!AsksForElastic(a) ==> v == "")
  {
    ArmKeys(id, ip, system);
    OneArmDecides(a, id, ip, system, k, v, isIP);
    ArmKeysDecide(a, k, v, isIP, true);
  }

  // ---------------------------------------------------------------- the type

  /** No type is "lb", and only "lb" and "elb" are types. */
  lemma TypeDecides(a: AnnotationMap, v: string, isIP: string -> bool)
    ensures Valid(a[LB_TYPE := "lb"], isIP) <==> Valid(a - {LB_TYPE}, isIP)
    ensures v != "lb" && v != "elb" ==> !Valid(a[LB_TYPE := v], isIP)
  {
    TypeKeyApart();
    WithAndWithout(a, LB_TYPE, "lb");
    OwnStays(a[LB_TYPE := "lb"], a - {LB_TYPE}, LB_TYPE, isIP);
  }

  lemma TypeKeyApart()
    ensures LB_TYPE != BALANCING_TYPE && LB_TYPE != ACCOUNTING_TYPE && LB_TYPE != HC_PROTOCOL && LB_TYPE != HC_INTERVAL
    ensures LB_TYPE != HC_UNHEALTHY_THRESHOLD && LB_TYPE != NETWORK_VOLUME && LB_TYPE != POLICY_TYPE
    ensures LB_TYPE != VIP_NETWORK && LB_TYPE !in ARM_KEYS
  {
    KeyLengths();
  }

  /** Annotations of others are not looked at. */
  lemma UnannotatedIsValid(a: AnnotationMap, isIP: string -> bool)
    requires a.Keys !! {LB_TYPE, BALANCING_TYPE, ACCOUNTING_TYPE, HC_PROTOCOL, HC_UNHEALTHY_THRESHOLD, HC_INTERVAL}
    requires a.Keys !! {NETWORK_VOLUME, POLICY_TYPE, VIP_NETWORK} && a.Keys !! ARM_KEYS
    ensures Valid(a, isIP) && Valid(a[LB_TYPE := "lb"], isIP) && Valid(a[LB_TYPE := "elb"], isIP)
  {
    TypeKeyApart();
  }
}
