/** The security group rules that an elastic load balancer needs, and how they are sent. */
module Rules {
  import opened Base
  import opened Cloud
  import opened HealthTarget

  datatype ElasticLoadBalancer = ElasticLoadBalancer(
    availabilityZone: string,
    name: string,
    vip: string,
    accountingType: string,
    protocol: string,
    networkVolume: int,
    balancingType: int,
    balancingTargets: seq<Instance>,
    loadBalancerPort: int,
    instancePort: int,
    healthCheckTarget: string,
    healthCheckInterval: int,
    healthCheckUnhealthyThreshold: int,
    networkInterfaces: seq<NetworkInterface>)

  datatype SecurityGroupRule = SecurityGroupRule(
    ipProtocol: string,
    fromPort: int,
    toPort: int,
    inOut: string,
    groups: seq<string>,
    ipRanges: seq<string>)

  function Inbound(protocol: string, port: int, address: string): SecurityGroupRule {
    SecurityGroupRule(protocol, port, port, "IN", [], [address])
  }

  // ---------------------------------------------------------------- which rules

  /** A health check rule: ICMP has no port. */
  function HealthRule(health: string, instancePort: int, address: string): SecurityGroupRule {
    Inbound(health, if health == "ICMP" then 0 else instancePort, address)
  }

  function HealthRules(health: string, instancePort: int, addresses: seq<string>): (r: seq<SecurityGroupRule>)
    ensures |r| == |addresses|
  {
    seq(|addresses|, i requires 0 <= i < |addresses| => HealthRule(health, instancePort, addresses[i]))
  }

  /** In the two-arm layout health checks come from the interface that does not carry the VIP. */
  function HealthArm(nics: seq<NetworkInterface>): NetworkInterface
    requires |nics| == 2
  {
    if nics[0].isVipNetwork then nics[1] else nics[0]
  }

  function RulesFor(protocol: string, vip: string, nics: seq<NetworkInterface>, instancePort: int, health: string)
    : seq<SecurityGroupRule>
    requires |nics| == 1 || |nics| == 2
  {
    if |nics| == 1 then
      [Inbound(protocol, instancePort, vip)] +
      (if health == "ICMP" || health != protocol then [HealthRule(health, instancePort, vip)] else []) +
      HealthRules(health, instancePort, nics[0].systemIpAddresses)
    else
      var arm := HealthArm(nics);
      HealthRules(health, instancePort, [arm.ipAddress] + arm.systemIpAddresses)
  }

  /** The rules of one listener; a target that does not parse is where the original stops hard. */
  function RulesOf(lb: ElasticLoadBalancer): Result<seq<SecurityGroupRule>, Error> {
    match Separate(lb.healthCheckTarget)
    case None => Err(BadHealthTarget)
    case Some((health, _)) =>
      if |lb.networkInterfaces| == 1 || |lb.networkInterfaces| == 2 then
        Ok(RulesFor(lb.protocol, lb.vip, lb.networkInterfaces, lb.instancePort, health))
      else Err(InvalidInterfaces)
  }

  method SecurityGroupRulesOfElasticLoadBalancer(lb: ElasticLoadBalancer)
    returns (r: Result<seq<SecurityGroupRule>, Error>)
    ensures r == RulesOf(lb)
  {
    var rules := [];
    var separated := Separate(lb.healthCheckTarget);
    if separated.None? {
      return Err(BadHealthTarget);
    }
    var health, port := separated.value.0, lb.instancePort;
    if |lb.networkInterfaces| == 1 {
      rules := rules + [SecurityGroupRule(lb.protocol, port, port, "IN", [], [lb.vip])];
      var addresses := lb.networkInterfaces[0].systemIpAddresses;
      if health == "ICMP" {
        rules := rules + [SecurityGroupRule(health, 0, 0, "IN", [], [lb.vip])];
        var more := SystemAddressRules(health, 0, addresses);
        assert more == HealthRules(health, port, addresses);
        rules := rules + more;
        assert rules == RulesFor(lb.protocol, lb.vip, lb.networkInterfaces, port, health);
      } else {
        if lb.protocol != health {
          rules := rules + [SecurityGroupRule(health, port, port, "IN", [], [lb.vip])];
        }
        var more := SystemAddressRules(health, port, addresses);
        assert more == HealthRules(health, port, addresses);
        rules := rules + more;
        assert rules == RulesFor(lb.protocol, lb.vip, lb.networkInterfaces, port, health);
      }
    } else if |lb.networkInterfaces| == 2 {
      var notVip := if lb.networkInterfaces[0].isVipNetwork then lb.networkInterfaces[1] else lb.networkInterfaces[0];
      var healthPort := if health == "ICMP" then 0 else port;
      rules := rules + [SecurityGroupRule(health, healthPort, healthPort, "IN", [], [notVip.ipAddress])];
      var more := SystemAddressRules(health, healthPort, notVip.systemIpAddresses);
      rules := rules + more;
      assert rules == HealthRules(health, port, [notVip.ipAddress] + notVip.systemIpAddresses);
    } else {
      return Err(InvalidInterfaces);
    }
    return Ok(rules);
  }

  method SystemAddressRules(protocol: string, port: int, addresses: seq<string>) returns (rules: seq<SecurityGroupRule>)
    ensures |rules| == |addresses|
    ensures forall i :: 0 <= i < |rules| ==> rules[i] == Inbound(protocol, port, addresses[i])
  {
    rules := [];
    for i := 0 to |addresses|
      invariant |rules| == i
      invariant forall j :: 0 <= j < i ==> rules[j] == Inbound(protocol, port, addresses[j])
    {
      rules := rules + [SecurityGroupRule(protocol, port, port, "IN", [], [addresses[i]])];
    }
  }

  // ---------------------------------------------------------------- which rules, exactly

  /**
   * With one interface a listener gets exactly these inbound rules, each for one address: its own
   * protocol on the node port from the VIP, and the protocol of its health check, on the node port
   * or without a port for ICMP, from the VIP and the system addresses of the interface.
   */
  lemma OneArmRules(lb: ElasticLoadBalancer, h: string, port: string, rule: SecurityGroupRule)
    requires |lb.networkInterfaces| == 1 && Separate(lb.healthCheckTarget) == Some((h, port))
    ensures RulesOf(lb).Ok?
    ensures rule in RulesOf(lb).value <==>
            && rule.inOut == "IN" && rule.groups == [] && rule.fromPort == rule.toPort && |rule.ipRanges| == 1
            && var address := rule.ipRanges[0];
               || (rule.ipProtocol == lb.protocol && rule.fromPort == lb.instancePort && address == lb.vip)
               || (&& rule.ipProtocol == h && rule.fromPort == (if h == "ICMP" then 0 else lb.instancePort)
                   && (address == lb.vip || address in lb.networkInterfaces[0].systemIpAddresses))
  {
    var rules, addresses := RulesOf(lb).value, lb.networkInterfaces[0].systemIpAddresses;
    var checks := HealthRules(h, lb.instancePort, addresses);
    HealthRulesAre(h, lb.instancePort, addresses, rule);
    assert rule in rules <==>
           || rule == Inbound(lb.protocol, lb.instancePort, lb.vip)
           || ((h == "ICMP" || h != lb.protocol) && rule == HealthRule(h, lb.instancePort, lb.vip))
           || rule in checks;
    if |rule.ipRanges| == 1 {
      assert rule.ipRanges == [rule.ipRanges[0]];
    }
  }

  lemma HealthRulesAre(h: string, instancePort: int, addresses: seq<string>, rule: SecurityGroupRule)
    ensures rule in HealthRules(h, instancePort, addresses) <==>
            && rule.inOut == "IN" && rule.groups == [] && rule.fromPort == rule.toPort && |rule.ipRanges| == 1
            && rule.ipProtocol == h && rule.fromPort == (if h == "ICMP" then 0 else instancePort)
            && rule.ipRanges[0] in addresses
  {
    var rules := HealthRules(h, instancePort, addresses);
    if |rule.ipRanges| == 1 && rule.ipRanges[0] in addresses {
      var i :| 0 <= i < |addresses| && addresses[i] == rule.ipRanges[0];
      assert rule.ipRanges == [addresses[i]];
      assert rules[i] == HealthRule(h, instancePort, addresses[i]);
    }
  }

  /**
   * With two interfaces, of which `i` carries the VIP and the other does not, it gets exactly the
   * inbound rules for its health check, from the address and the system addresses of the other.
   * Where both carry it the other is the second, where none does the first.
   */
  lemma TwoArmRules(lb: ElasticLoadBalancer, i: nat, h: string, port: string, rule: SecurityGroupRule)
    requires |lb.networkInterfaces| == 2 && i < 2 && Separate(lb.healthCheckTarget) == Some((h, port))
    requires lb.networkInterfaces[0].isVipNetwork <==> i == 0
    ensures RulesOf(lb).Ok?
    ensures rule in RulesOf(lb).value <==>
            && rule.inOut == "IN" && rule.groups == [] && rule.fromPort == rule.toPort && |rule.ipRanges| == 1
            && rule.ipProtocol == h && rule.fromPort == (if h == "ICMP" then 0 else lb.instancePort)
            && var address, other := rule.ipRanges[0], lb.networkInterfaces[1 - i];
               address == other.ipAddress || address in other.systemIpAddresses
  {
    var other := lb.networkInterfaces[1 - i];
    HealthRulesAre(h, lb.instancePort, [other.ipAddress] + other.systemIpAddresses, rule);
  }

  /** Anything but one or two interfaces is an error, and so is a health check that cannot be read. */
  lemma WithoutRules(lb: ElasticLoadBalancer)
    ensures RulesOf(lb).Err? <==>
            Separate(lb.healthCheckTarget).None? || (|lb.networkInterfaces| != 1 && |lb.networkInterfaces| != 2)
  {
  }

  // ---------------------------------------------------------------- when two listeners share rules

  ghost predicate ShareRules(nics: seq<NetworkInterface>, vip: string, p: int, h: string, p': int, h': string)
    requires |nics| == 1 || |nics| == 2
  {
    exists rule :: rule in RulesFor("TCP", vip, nics, p, h) && rule in RulesFor("TCP", vip, nics, p', h')
  }

  /**
   * Two TCP listeners of a one-arm balancer share a rule exactly when they use the same node port
   * or both are checked by ICMP.
   */
  lemma OneArmSharing(nics: seq<NetworkInterface>, vip: string, p: int, h: string, p': int, h': string)
    requires |nics| == 1 && h in {"TCP", "ICMP"} && h' in {"TCP", "ICMP"}
    ensures ShareRules(nics, vip, p, h, p', h') <==> p == p' || (h == "ICMP" && h' == "ICMP")
  {
    var rules, rules' := RulesFor("TCP", vip, nics, p, h), RulesFor("TCP", vip, nics, p', h');
    assert rules[0] == Inbound("TCP", p, vip) && rules'[0] == Inbound("TCP", p', vip);
    if h == "ICMP" && h' == "ICMP" {
      assert rules[1] == HealthRule("ICMP", p, vip) && rules'[1] == HealthRule("ICMP", p', vip);
      assert rules[1] in rules && rules'[1] in rules';
    } else if p == p' {
      assert rules[0] in rules && rules'[0] in rules';
    }
    forall rule | rule in rules { OneArmRule(nics, vip, p, h, rule); }
    forall rule | rule in rules' { OneArmRule(nics, vip, p', h', rule); }
  }

  lemma OneArmRule(nics: seq<NetworkInterface>, vip: string, p: int, h: string, rule: SecurityGroupRule)
    requires |nics| == 1 && h in {"TCP", "ICMP"} && rule in RulesFor("TCP", vip, nics, p, h)
    ensures rule.ipProtocol in {"TCP", h} && (rule.ipProtocol == "TCP" ==> rule.fromPort == p)
  {
  }

  /**
   * Two listeners of a two-arm balancer share a rule exactly when they are checked by the same
   * protocol and, for TCP checks, use the same node port.
   */
  lemma TwoArmSharing(nics: seq<NetworkInterface>, vip: string, p: int, h: string, p': int, h': string)
    requires |nics| == 2 && h in {"TCP", "ICMP"} && h' in {"TCP", "ICMP"}
    ensures ShareRules(nics, vip, p, h, p', h') <==> h == h' && (h == "TCP" ==> p == p')
  {
    var rules, rules' := RulesFor("TCP", vip, nics, p, h), RulesFor("TCP", vip, nics, p', h');
    var address := HealthArm(nics).ipAddress;
    assert rules[0] == HealthRule(h, p, address) && rules'[0] == HealthRule(h', p', address);
    assert rules[0] in rules && rules'[0] in rules';
    forall rule | rule in rules
      ensures rule.ipProtocol == h && rule.fromPort == if h == "ICMP" then 0 else p
    {
    }
    forall rule | rule in rules'
      ensures rule.ipProtocol == h' && rule.fromPort == if h' == "ICMP" then 0 else p'
    {
    }
  }

  // ---------------------------------------------------------------- on the wire

  /** The ranges that are sent: every entry points to the one loop variable, which ends as the last range. */
  function SentRanges(ipRanges: seq<string>): (r: seq<string>)
    ensures |r| == |ipRanges|
  {
    seq(|ipRanges|, i requires 0 <= i < |ipRanges| => ipRanges[|ipRanges| - 1])
  }

  function Encode(rule: SecurityGroupRule): Permission {
    Permission(rule.ipProtocol, rule.fromPort,
               if rule.fromPort == rule.toPort then None else Some(rule.toPort),
               rule.inOut, SentRanges(rule.ipRanges))
  }

  /** A variable whose address is taken. */
  class Cell {
    var value: string

    constructor ()
    {
      value := "";
    }
  }

  /** The request builder of both authorize and revoke: pointers to one loop variable, read when it is sent. */
  method EncodeRule(rule: SecurityGroupRule) returns (p: Permission)
    ensures p == Encode(rule)
  {
    var ipRange := new Cell();
    var pointers: seq<Cell> := [];
    for i := 0 to |rule.ipRanges|
      invariant |pointers| == i && forall j :: 0 <= j < i ==> pointers[j] == ipRange
      invariant i > 0 ==> ipRange.value == rule.ipRanges[i - 1]
    {
      ipRange.value := rule.ipRanges[i];
      pointers := pointers + [ipRange];
    }
    var sent := [];
    for i := 0 to |pointers|
      invariant sent == SentRanges(rule.ipRanges)[..i]
    {
      sent := sent + [pointers[i].value];
    }
    assert sent == SentRanges(rule.ipRanges);
    p := Permission(rule.ipProtocol, rule.fromPort,
                    if rule.fromPort == rule.toPort then None else Some(rule.toPort), rule.inOut, sent);
  }

  /** A request names the ranges of its rule exactly when they are all the same as the last one. */
  lemma RangesSentFaithfully(ipRanges: seq<string>)
    ensures SentRanges(ipRanges) == ipRanges <==> forall r :: r in ipRanges ==> r == ipRanges[|ipRanges| - 1]
  {
    forall i | 0 <= i < |ipRanges|
      ensures ipRanges[i] in ipRanges && SentRanges(ipRanges)[i] == ipRanges[|ipRanges| - 1]
    {
    }
    assert SentRanges(ipRanges) == ipRanges <==>
           forall i :: 0 <= i < |ipRanges| ==> SentRanges(ipRanges)[i] == ipRanges[i];
  }

  /** Rules with one range and no groups, as all generated rules are, are told apart by their requests. */
  lemma EncodeIsFaithful(r: SecurityGroupRule, r': SecurityGroupRule)
    requires |r.ipRanges| == 1 && |r'.ipRanges| == 1 && r.groups == [] && r'.groups == []
    ensures Encode(r) == Encode(r') <==> r == r'
  {
    assert SentRanges(r.ipRanges) == r.ipRanges && SentRanges(r'.ipRanges) == r'.ipRanges;
  }
}
