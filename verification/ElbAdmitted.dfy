/** What the security groups let in, field by field: what a listener needs, and what operations make of it. */
module ElbAdmitted {
  import opened Base
  import opened Cloud
  import opened Runs
  import opened HealthTarget
  import opened Rules
  import opened ElbPlan
  import opened ElbIdeal
  import opened ElbUpdate
  import opened ElbRuns
  import opened ElbTheorems
  import opened ElbGuard
  import opened ElbGaps
  import opened ElbGuarded

  // ---------------------------------------------------------------- permissions

  /**
   * What a TCP listener needs to be let in, as the wire carries it: one inbound permission for each
   * address. With one interface these are TCP on the node port from the VIP, and the health check
   * from the VIP and the interface's system addresses; with two, the health check alone, from the
   * address and the system addresses of the interface that does not carry the VIP.
   */
  predicate Admits(vip: string, nics: seq<NetworkInterface>, nodePort: int, h: string, p: Permission) {
    && p.inOut == "IN" && p.toPort == None && |p.ipRanges| == 1
    && var address, checkPort := p.ipRanges[0], if h == "ICMP" then 0 else nodePort;
       if |nics| == 1 then
         || (p.ipProtocol == "TCP" && p.fromPort == nodePort && address == vip)
         || (p.ipProtocol == h && p.fromPort == checkPort
             && (address == vip || address in nics[0].systemIpAddresses))
       else
         && |nics| == 2
         && var other := if nics[0].isVipNetwork then nics[1] else nics[0];
            p.ipProtocol == h && p.fromPort == checkPort
            && (address == other.ipAddress || address in other.systemIpAddresses)
  }

  /** The rule that a permission with one address and no second port stands for. */
  function RuleFor(p: Permission): SecurityGroupRule {
    SecurityGroupRule(p.ipProtocol, p.fromPort, p.fromPort, p.inOut, [], p.ipRanges)
  }

  lemma EncodedOne(rules: seq<SecurityGroupRule>, p: Permission)
    requires forall rule :: rule in rules ==> |rule.ipRanges| == 1 && rule.fromPort == rule.toPort && rule.groups == []
    ensures p in Encoded(rules) <==> p.toPort == None && |p.ipRanges| == 1 && RuleFor(p) in rules
  {
    if p in Encoded(rules) {
      var rule :| rule in rules && Encode(rule) == p;
      assert SentRanges(rule.ipRanges) == rule.ipRanges;
      assert RuleFor(p) == rule;
    }
    if p.toPort == None && |p.ipRanges| == 1 && RuleFor(p) in rules {
      assert SentRanges(p.ipRanges) == p.ipRanges;
      assert Encode(RuleFor(p)) == p;
    }
  }

  /** Exactly these are the permissions of a TCP listener. */
  lemma PermissionsAre(lb: ElasticLoadBalancer, h: string, port: string, p: Permission)
    requires lb.protocol == "TCP" && ArmsOK(lb.networkInterfaces)
    requires Separate(lb.healthCheckTarget) == Some((h, port))
    ensures p in Permissions(lb) <==> Admits(lb.vip, lb.networkInterfaces, lb.instancePort, h, p)
  {
    var rules, i := RulesOf(lb).value, if lb.networkInterfaces[0].isVipNetwork then 0 else 1;
    forall rule | rule in rules
      ensures |rule.ipRanges| == 1 && rule.fromPort == rule.toPort && rule.groups == []
    {
      if |lb.networkInterfaces| == 1 {
        OneArmRules(lb, h, port, rule);
      } else {
        TwoArmRules(lb, i, h, port, rule);
      }
    }
    EncodedOne(rules, p);
    if |lb.networkInterfaces| == 1 {
      OneArmRules(lb, h, port, RuleFor(p));
    } else {
      TwoArmRules(lb, i, h, port, RuleFor(p));
    }
  }

  /** The protocol of a listener's health check. */
  function CheckAt(b: ElbBalancer, k: Key): string {
    match Separate(HealthAt(b, k)) { case Some((h, _)) => h case None => "" }
  }

  /** What a listener of a balancer needs. */
  lemma NeedIsAdmitted(b: ElbBalancer, k: Key, p: Permission)
    requires Usable(b) && k in b.at
    ensures p in Need(b, k) <==> Admits(b.vip, b.nics, k.instancePort, CheckAt(b, k), p)
  {
    var lb := ElasticLoadBalancer("", "", b.vip, "", "TCP", 0, 0, [], k.port, k.instancePort, b.at[k].health, 0, 0,
                                  b.nics);
    PermissionsAre(lb, CheckAt(b, k), Separate(b.at[k].health).value.1, p);
  }

  /** What some listener of the balancer needs. */
  predicate AdmitsSome(b: ElbBalancer, p: Permission) {
    exists k :: k in b.at && Admits(b.vip, b.nics, k.instancePort, CheckAt(b, k), p)
  }

  lemma NeedsAreAdmitted(b: ElbBalancer, p: Permission)
    requires Usable(b)
    ensures p in Needs(b, b.at.Keys) <==> AdmitsSome(b, p)
  {
    forall k | k in b.at ensures p in Need(b, k) <==> Admits(b.vip, b.nics, k.instancePort, CheckAt(b, k), p) {
      NeedIsAdmitted(b, k, p);
    }
    if p in Needs(b, b.at.Keys) {
      var k :| k in b.at.Keys && p in Need(b, k);
      assert Admits(b.vip, b.nics, k.instancePort, CheckAt(b, k), p);
    }
    if AdmitsSome(b, p) {
      var k :| k in b.at && Admits(b.vip, b.nics, k.instancePort, CheckAt(b, k), p);
      assert p in Need(b, k);
    }
  }

  // ---------------------------------------------------------------- what operations make of the groups

  /** Some instance of `ids` is in the group. */
  predicate Holds(env: Env, g: string, ids: set<string>) {
    g in env.members && exists id :: id in ids && id in env.members[g]
  }

  lemma HoldsIsTouched(env: Env, g: string, ids: set<string>)
    ensures Holds(env, g, ids) <==> Touched(env, g, ids)
  {
    if Touched(env, g, ids) {
      var id :| id in env.members[g] * ids;
    }
    if Holds(env, g, ids) {
      var id :| id in ids && id in env.members[g];
      assert id in env.members[g] * ids;
    }
  }

  /**
   * After a creation that reports success every group that holds a node admits exactly what it
   * admitted before and what the listeners of the new balancer need; the other groups admit what
   * they did.
   */
  lemma CreationAdmits(c: Ctx, r: Run, name: string, ids: set<string>, desire: seq<ElasticLoadBalancer>, g: string,
                       p: Permission)
    requires Ready(c, r, name, ids, desire) && name !in r.world.elb && g in r.world.rules
    ensures var f := EnsureElb(c, r, name, desire);
            f.status.Ok? ==>
              && name in f.run.world.elb && g in f.run.world.rules
              && (p in f.run.world.rules[g] <==>
                    p in r.world.rules[g] || (Holds(c.env, g, ids) && AdmitsSome(f.run.world.elb[name], p)))
  {
    EnsureRun(c, r, name, ids, desire);
    HoldsIsTouched(c.env, g, ids);
    CreatedHas(c.env, name, ids, desire);
    CreatedNeeds(c.env, name, ids, desire);
    NeedsAreAdmitted(Created(c.env, name, desire), p);
  }

  /**
   * After a deletion that reports success every group that holds a node of the listener listed
   * first admits what it did except what the listeners of the balancer needed; the other groups
   * admit what they did.
   */
  lemma DeletionRevokes(c: Ctx, r: Run, name: string, g: string, p: Permission)
    requires WorldOK(c.env, r.world) && EnvOK(c.env) && r.out.Done? && g in r.world.rules
    requires name in r.world.elb && Usable(r.world.elb[name])
    ensures var f, b := DeleteElb(c, r, name), r.world.elb[name];
            f.status.Ok? ==>
              && g in f.run.world.rules
              && (p in f.run.world.rules[g] <==>
                    p in r.world.rules[g] && !(Holds(c.env, g, FirstTargets(b)) && AdmitsSome(b, p)))
  {
    DeleteRun(c, r, name);
    DeletedRules(c.env, r.world, name, g);
    HoldsIsTouched(c.env, g, FirstTargets(r.world.elb[name]));
    NeedsAreAdmitted(r.world.elb[name], p);
  }

  /** Every group that holds a node of a listener admits all that this listener needs. */
  ghost predicate LetIn(env: Env, w: World, name: string) {
    name in w.elb ==>
      forall k, g, p :: k in w.elb[name].at && g in w.rules && Holds(env, g, w.elb[name].at[k].targets)
                        && Admits(w.elb[name].vip, w.elb[name].nics, k.instancePort, CheckAt(w.elb[name], k), p) ==>
        p in w.rules[g]
  }

  /** That is the invariant of the results about guarded balancers. */
  lemma GuardedIsLetIn(env: Env, w: World, name: string)
    requires name in w.elb ==> Usable(w.elb[name])
    ensures Guarded(env, w, name) <==> LetIn(env, w, name)
  {
    if name in w.elb {
      var b := w.elb[name];
      forall k, g | k in b.at && g in w.rules
        ensures Holds(env, g, b.at[k].targets) <==> Touched(env, g, b.at[k].targets)
      {
        HoldsIsTouched(env, g, b.at[k].targets);
      }
      forall k, p | k in b.at
        ensures p in Need(b, k) <==> Admits(b.vip, b.nics, k.instancePort, CheckAt(b, k), p)
      {
        NeedIsAdmitted(b, k, p);
      }
    }
  }

  /**
   * From any start, a run that reports success leaves every group of a node letting in all that
   * its listeners need, exactly under the condition of `SuccessGuardsExactly`.
   */
  lemma SuccessLetsIn(c: Ctx, r: Run, name: string, ids: set<string>, desire: seq<ElasticLoadBalancer>)
    requires Ready(c, r, name, ids, desire) && UsableIfThere(r.world, name)
    ensures var f := EnsureElb(c, r, name, desire);
            f.status.Ok? ==>
              (LetIn(c.env, f.run.world, name) <==>
                 (name in r.world.elb ==> WillBeGuarded(c.env, r.world, name, ids, desire)))
  {
    SuccessGuardsExactly(c, r, name, ids, desire);
    if EnsureElb(c, r, name, desire).status.Ok? {
      SuccessMeansConverged(c, r, name, ids, desire);
      GuardedIsLetIn(c.env, EnsureElb(c, r, name, desire).run.world, name);
    }
  }

  // ---------------------------------------------------------------- health checks

  /** A port that was there has its old health check, a new one the desired one. */
  predicate ChecksLeft(desire: seq<ElasticLoadBalancer>, start: Option<ElbBalancer>, b: ElbBalancer) {
    forall d :: d in desire ==>
      && KeyOf(d) in b.at
      && b.at[KeyOf(d)].health ==
         if start.Some? && KeyOf(d) in start.value.at then start.value.at[KeyOf(d)].health else d.healthCheckTarget
  }

  lemma CreatedChecks(env: Env, name: string, ids: set<string>, desire: seq<ElasticLoadBalancer>)
    requires DesireOK(env, name, ids, desire)
    ensures ChecksLeft(desire, None, Created(env, name, desire))
  {
    forall d | d in desire
      ensures KeyOf(d) in Created(env, name, desire).at
      ensures Created(env, name, desire).at[KeyOf(d)].health == d.healthCheckTarget
    {
      var i :| 0 <= i < |desire| && desire[i] == d;
      CreatedAt(env, name, ids, desire, i);
    }
  }

  lemma UpdatedChecks(c: Ctx, r: Run, name: string, ids: set<string>, desire: seq<ElasticLoadBalancer>)
    requires Ready(c, r, name, ids, desire) && name in r.world.elb && Usable(r.world.elb[name])
    requires Reachable(c.env, r.world, name, ids, desire)
    ensures var w' := Settled(c.env, r.world, name, ids, desire);
            name in w'.elb && ChecksLeft(desire, Some(r.world.elb[name]), w'.elb[name])
  {
    var b, placed := r.world.elb[name], PlacedOn(r.world, name, desire);
    StartOfUpdate(c, r, name, ids, desire);
    UpdatedHas(c.env, r.world, name, ids, placed, b);
    forall d | d in desire ensures var b' := Settled(c.env, r.world, name, ids, desire).elb[name];
      && KeyOf(d) in b'.at
      && b'.at[KeyOf(d)].health == if KeyOf(d) in b.at then b.at[KeyOf(d)].health else d.healthCheckTarget
    {
      var i :| 0 <= i < |desire| && desire[i] == d;
      assert placed[i] in placed && KeyOf(placed[i]) == KeyOf(d);
      CheckInTheEnd(c.env, r.world, name, ids, placed, b, placed[i]);
    }
  }

  /** Whenever a run reports success, every port that it made has the desired health check, the others theirs. */
  lemma SuccessSetsChecks(c: Ctx, r: Run, name: string, ids: set<string>, desire: seq<ElasticLoadBalancer>)
    requires Ready(c, r, name, ids, desire) && UsableIfThere(r.world, name)
    ensures var f := EnsureElb(c, r, name, desire);
            f.status.Ok? ==>
              name in f.run.world.elb && ChecksLeft(desire, Lookup(r.world.elb, name), f.run.world.elb[name])
  {
    EnsureRun(c, r, name, ids, desire);
    if EnsureElb(c, r, name, desire).status.Ok? {
      if name in r.world.elb {
        UpdatedChecks(c, r, name, ids, desire);
      } else {
        CreatedChecks(c.env, name, ids, desire);
      }
    }
  }
}
