/** Elastic services from end to end: what they leave in the security groups, and what deleting them takes back. */
module Outcomes {
  import opened Base
  import opened Cloud
  import opened Runs
  import opened HealthTarget
  import opened Annotations
  import opened Differences
  import opened Rules
  import opened Builders
  import opened Soundness
  import opened Built
  import opened Services
  import ElbPlan
  import ElbIdeal
  import ElbUpdate
  import ElbRuns
  import ElbTheorems
  import ElbGuard
  import ElbApart
  import ElbUndo
  import ElbAdmitted

  /** The health check protocol that is annotated, or TCP. */
  function CheckProtocol(a: AnnotationMap): string {
    if HC_PROTOCOL in a && a[HC_PROTOCOL] == "ICMP" then "ICMP" else "TCP"
  }

  lemma CheckReads(a: AnnotationMap, nodePort: int, target: string, interval: int, threshold: int)
    requires CheckIs(a, nodePort, target, interval, threshold)
    ensures Separate(target).Some? && Separate(target).value.0 == CheckProtocol(a)
  {
    BuiltTargetReadsBack(nodePort);
  }

  /** What is ensured when an elastic service is ensured. */
  lemma DesireInFull(c: Ctx, s: Service, nodes: seq<string>, isIP: string -> bool, p: ServicePort)
    returns (d: ElasticLoadBalancer)
    requires ElasticService(c, s, nodes) && Valid(s.annotations, isIP) && NodesThere(c.env, nodes)
    requires p in s.ports && Described(c.env, nodes) != []
    ensures var r := BuildElastic(LoadBalancerName(s), Described(c.env, nodes), s);
            && r.Ok? && d in r.value && ElbPlan.KeyOf(d) == Key(p.port, p.nodePort)
            && CheckIs(s.annotations, p.nodePort, d.healthCheckTarget, d.healthCheckInterval,
                       d.healthCheckUnhealthyThreshold)
            && InterfacesAre(s.annotations, d.networkInterfaces)
  {
    var i :| 0 <= i < |s.ports| && s.ports[i] == p;
    ElasticEntryInFull(LoadBalancerName(s), Described(c.env, nodes), s, isIP, i);
    d := BuildElastic(LoadBalancerName(s), Described(c.env, nodes), s).value[i];
  }

  /** Every port that was not there is checked as annotated, or by TCP. */
  ghost predicate NewPortsAreChecked(s: Service, start: Option<ElbBalancer>, b: ElbBalancer) {
    forall p :: p in s.ports && !(start.Some? && Key(p.port, p.nodePort) in start.value.at) ==>
      var k := Key(p.port, p.nodePort);
      && k in b.at && p.nodePort >= 0
      && b.at[k].health == if CheckProtocol(s.annotations) == "ICMP" then "ICMP" else "TCP:" + Decimal(p.nodePort)
  }

  lemma CheckedPorts(c: Ctx, s: Service, nodes: seq<string>, isIP: string -> bool, start: Option<ElbBalancer>,
                     b: ElbBalancer)
    requires ElasticService(c, s, nodes) && Valid(s.annotations, isIP) && NodesThere(c.env, nodes)
    requires Described(c.env, nodes) != []
    requires var r := BuildElastic(LoadBalancerName(s), Described(c.env, nodes), s);
             r.Ok? && ElbAdmitted.ChecksLeft(r.value, start, b)
    ensures NewPortsAreChecked(s, start, b)
  {
    forall p | p in s.ports && !(start.Some? && Key(p.port, p.nodePort) in start.value.at)
      ensures Key(p.port, p.nodePort) in b.at && p.nodePort >= 0
      ensures b.at[Key(p.port, p.nodePort)].health ==
              if CheckProtocol(s.annotations) == "ICMP" then "ICMP" else "TCP:" + Decimal(p.nodePort)
    {
      var d := DesireInFull(c, s, nodes, isIP, p);
    }
  }

  /** Whenever ensuring an elastic service reports success, its new ports are checked as annotated. */
  lemma EnsuredElasticIsChecked(c: Ctx, r: Run, s: Service, nodes: seq<string>, isIP: string -> bool)
    requires WorldOK(c.env, r.world) && r.out.Done? && ElasticService(c, s, nodes)
    requires ElbTheorems.UsableIfThere(r.world, LoadBalancerName(s))
    ensures var f, name := EnsureService(c, r, s, nodes, isIP), LoadBalancerName(s);
            f.status.Ok? ==>
              name in f.run.world.elb && NewPortsAreChecked(s, Lookup(r.world.elb, name), f.run.world.elb[name])
  {
    var f, name := EnsureService(c, r, s, nodes, isIP), LoadBalancerName(s);
    if f.status.Ok? {
      var r1 := Exec(c, r, LookAt(nodes));
      LookFindsNodes(c, r, nodes);
      ElasticIsReady(c, r1, s, nodes, isIP);
      var desire := BuildElastic(name, Described(c.env, nodes), s).value;
      ElbAdmitted.SuccessSetsChecks(c, r1, name, Meant(c.env, nodes), desire);
      CheckedPorts(c, s, nodes, isIP, Lookup(r.world.elb, name), f.run.world.elb[name]);
    }
  }

  /** The interfaces that the cloud assigns to those of a service. */
  ghost predicate Carries(env: Env, a: AnnotationMap, nics: seq<NetworkInterface>) {
    exists asked :: InterfacesAre(a, asked) && nics == Assigned(env, asked)
  }

  /**
   * Whenever ensuring an elastic service without a balancer reports success: the balancer has the
   * interfaces of the annotations, and every group admits what it admitted before and, if it holds
   * a node, exactly what the ports of the service need: TCP on the node ports and health checks of
   * the annotated protocol, from the addresses that the balancer sends from.
   */
  lemma EnsuredElasticIsAdmitted(c: Ctx, r: Run, s: Service, nodes: seq<string>, isIP: string -> bool, g: string,
                                 p: Permission)
    requires WorldOK(c.env, r.world) && r.out.Done? && ElasticService(c, s, nodes)
    requires LoadBalancerName(s) !in r.world.elb && g in r.world.rules
    ensures var f, name := EnsureService(c, r, s, nodes, isIP), LoadBalancerName(s);
            f.status.Ok? ==>
              && name in f.run.world.elb && g in f.run.world.rules
              && var b := f.run.world.elb[name];
                 && Carries(c.env, s.annotations, b.nics)
                 && (p in f.run.world.rules[g] <==>
                       || p in r.world.rules[g]
                       || (&& ElbAdmitted.Holds(c.env, g, Meant(c.env, nodes))
                           && exists port :: port in s.ports &&
                                ElbAdmitted.Admits(b.vip, b.nics, port.nodePort, CheckProtocol(s.annotations), p)))
  {
    var f, name := EnsureService(c, r, s, nodes, isIP), LoadBalancerName(s);
    if f.status.Ok? {
      var r1 := Exec(c, r, LookAt(nodes));
      LookFindsNodes(c, r, nodes);
      ElasticIsReady(c, r1, s, nodes, isIP);
      var desire := BuildElastic(name, Described(c.env, nodes), s).value;
      ElbAdmitted.CreationAdmits(c, r1, name, Meant(c.env, nodes), desire, g, p);
      EnsuredElasticServes(c, r, s, nodes, isIP);
      EnsuredElasticIsChecked(c, r, s, nodes, isIP);
      AdmittedByPort(s, f.run.world.elb[name], p);
      CarriesThem(c, r1, s, nodes, isIP);
    }
  }

  lemma AdmittedByPort(s: Service, b: ElbBalancer, p: Permission)
    requires b.at.Keys == Elems(PortKeys(s.ports)) && NewPortsAreChecked(s, None, b)
    ensures ElbAdmitted.AdmitsSome(b, p) <==>
            exists port :: port in s.ports &&
              ElbAdmitted.Admits(b.vip, b.nics, port.nodePort, CheckProtocol(s.annotations), p)
  {
    forall port | port in s.ports
      ensures var k := Key(port.port, port.nodePort);
              k in b.at && ElbAdmitted.CheckAt(b, k) == CheckProtocol(s.annotations)
    {
      BuiltTargetReadsBack(port.nodePort);
    }
    forall k | k in b.at ensures exists port :: port in s.ports && Key(port.port, port.nodePort) == k {
      var i :| 0 <= i < |s.ports| && PortKeys(s.ports)[i] == k;
      assert s.ports[i] in s.ports;
    }
    if ElbAdmitted.AdmitsSome(b, p) {
      var k :| k in b.at && ElbAdmitted.Admits(b.vip, b.nics, k.instancePort, ElbAdmitted.CheckAt(b, k), p);
      var port :| port in s.ports && Key(port.port, port.nodePort) == k;
      assert ElbAdmitted.Admits(b.vip, b.nics, port.nodePort, CheckProtocol(s.annotations), p);
    }
    if port :| port in s.ports
               && ElbAdmitted.Admits(b.vip, b.nics, port.nodePort, CheckProtocol(s.annotations), p) {
      var k := Key(port.port, port.nodePort);
      assert k in b.at && ElbAdmitted.Admits(b.vip, b.nics, k.instancePort, ElbAdmitted.CheckAt(b, k), p);
    }
  }

  lemma CarriesThem(c: Ctx, r: Run, s: Service, nodes: seq<string>, isIP: string -> bool)
    requires WorldOK(c.env, r.world) && r.out.Done? && ElasticService(c, s, nodes)
    requires Valid(s.annotations, isIP) && NodesThere(c.env, nodes) && LoadBalancerName(s) !in r.world.elb
    ensures Described(c.env, nodes) != [] && BuildElastic(LoadBalancerName(s), Described(c.env, nodes), s).Ok?
    ensures var name := LoadBalancerName(s);
            var desire := BuildElastic(name, Described(c.env, nodes), s).value;
            var f := ElbPlan.EnsureElb(c, r, name, desire);
            f.status.Ok? ==> name in f.run.world.elb && Carries(c.env, s.annotations, f.run.world.elb[name].nics)
  {
    var name := LoadBalancerName(s);
    ElasticIsReady(c, r, s, nodes, isIP);
    var desire := BuildElastic(name, Described(c.env, nodes), s).value;
    ElbTheorems.EnsureRun(c, r, name, Meant(c.env, nodes), desire);
    ElbRuns.CreatedIs(c.env, name, Meant(c.env, nodes), desire);
    ElasticEntryInFull(name, Described(c.env, nodes), s, isIP, 0);
  }

  // ---------------------------------------------------------------- deleting again

  /** Ensuring a service without a balancer and deleting it, by their reconcilers. */
  lemma EnsuredThenDeleted(c: Ctx, r: Run, s: Service, nodes: seq<string>, isIP: string -> bool)
    requires WorldOK(c.env, r.world) && r.out.Done? && ElasticService(c, s, nodes)
    requires EnsureService(c, r, s, nodes, isIP).status.Ok?
    ensures var name, r1 := LoadBalancerName(s), Exec(c, r, LookAt(nodes));
            && Valid(s.annotations, isIP) && NodesThere(c.env, nodes) && Described(c.env, nodes) != []
            && r1.world == r.world && r1.out.Done? && BuildElastic(name, Described(c.env, nodes), s).Ok?
            && var desire := BuildElastic(name, Described(c.env, nodes), s).value;
               && ElbTheorems.Ready(c, r1, name, Meant(c.env, nodes), desire)
               && EnsureService(c, r, s, nodes, isIP) == ElbPlan.EnsureElb(c, r1, name, desire)
  {
    LookFindsNodes(c, r, nodes);
    ElasticIsReady(c, Exec(c, r, LookAt(nodes)), s, nodes, isIP);
  }

  /**
   * Ensuring an elastic service without a balancer and deleting it again, both with success, gives
   * back the cloud as it was, exactly if no group of a node admitted before anything that the new
   * balancer needed.
   */
  lemma ElasticServiceIsUndone(c: Ctx, r: Run, s: Service, nodes: seq<string>, isIP: string -> bool)
    requires WorldOK(c.env, r.world) && r.out.Done? && ElasticService(c, s, nodes)
    requires LoadBalancerName(s) !in r.world.elb
    ensures var f, name := EnsureService(c, r, s, nodes, isIP), LoadBalancerName(s);
            var f' := DeleteService(c, f.run, s);
            && (f.status.Ok? && FaultFree(c, f.run.clock, f'.run.clock) ==> f'.status.Ok?)
            && (f.status.Ok? && f'.status.Ok? ==>
                  && name in f.run.world.elb && name !in f'.run.world.elb
                  && (f'.run.world == r.world <==>
                        forall g, p :: g in r.world.rules && ElbAdmitted.Holds(c.env, g, Meant(c.env, nodes))
                                       && ElbAdmitted.AdmitsSome(f.run.world.elb[name], p) ==>
                          p !in r.world.rules[g]))
  {
    var f, name := EnsureService(c, r, s, nodes, isIP), LoadBalancerName(s);
    if f.status.Ok? {
      EnsuredThenDeleted(c, r, s, nodes, isIP);
      var r1, desire := Exec(c, r, LookAt(nodes)), BuildElastic(name, Described(c.env, nodes), s).value;
      ElbGuard.CreateThenDelete(c, r1, name, Meant(c.env, nodes), desire);
      ElbTheorems.EnsureRun(c, r1, name, Meant(c.env, nodes), desire);
      var b := ElbRuns.Created(c.env, name, desire);
      var needs := ElbIdeal.AllPermissions(ElbRuns.Located(c.env, name, desire));
      NothingOfItsOwn(c.env, r.world.rules, Meant(c.env, nodes), b, needs) by {
        ElbTheorems.CreatedHas(c.env, name, Meant(c.env, nodes), desire);
        ElbGuard.CreatedNeeds(c.env, name, Meant(c.env, nodes), desire);
      }
    }
  }

  /** No group of a node admits a need of the balancer: permission by permission. */
  lemma NothingOfItsOwn(env: Env, rules: map<string, set<Permission>>, ids: set<string>, b: ElbBalancer,
                        needs: set<Permission>)
    requires ElbUpdate.Usable(b) && needs == ElbGuard.Needs(b, b.at.Keys)
    ensures (forall g :: g in rules && ElbIdeal.Touched(env, g, ids) ==> rules[g] !! needs) <==>
            forall g, p :: g in rules && ElbAdmitted.Holds(env, g, ids) && ElbAdmitted.AdmitsSome(b, p) ==>
              p !in rules[g]
  {
    forall g ensures ElbAdmitted.Holds(env, g, ids) <==> ElbIdeal.Touched(env, g, ids) {
      ElbAdmitted.HoldsIsTouched(env, g, ids);
    }
    forall p ensures p in needs <==> ElbAdmitted.AdmitsSome(b, p) {
      ElbAdmitted.NeedsAreAdmitted(b, p);
    }
  }

  /**
   * Whatever failed in ensuring an elastic service without a balancer, deleting it without faults
   * gives back the cloud, rules included, if no group let in what the balancer sends and the cloud
   * keeps listing the first port first.
   */
  lemma FailedElasticServiceIsUndone(c: Ctx, r: Run, s: Service, nodes: seq<string>, isIP: string -> bool)
    requires WorldOK(c.env, r.world) && r.out.Done? && ElasticService(c, s, nodes)
    requires LoadBalancerName(s) !in r.world.elb && Valid(s.annotations, isIP)
    requires Separate(c.env.defaultHealth).Some? && ElbUndo.FirstStays(c.env)
    requires forall nics :: Carries(c.env, s.annotations, nics) ==>
               ElbUndo.OwnFree(r.world.rules, ElbApart.Site(c.env.vipOf(LoadBalancerName(s)), nics))
    ensures var f := EnsureService(c, r, s, nodes, isIP);
            var f' := DeleteService(c, f.run, s);
            && (f'.status.Ok? ==> f'.run.world == r.world)
            && (FaultFree(c, f.run.clock, f'.run.clock) ==> f'.status.Ok?)
  {
    var name, f, r1 := LoadBalancerName(s), EnsureService(c, r, s, nodes, isIP), Exec(c, r, LookAt(nodes));
    LookFindsNodes(c, r, nodes);
    if Acceptable(s) && r1.out.Done? && Described(c.env, nodes) != [] {
      ElasticIsReady(c, r1, s, nodes, isIP);
      var desire := BuildElastic(name, Described(c.env, nodes), s).value;
      ElasticEntryInFull(name, Described(c.env, nodes), s, isIP, 0);
      assert Carries(c.env, s.annotations, Assigned(c.env, desire[0].networkInterfaces));
      ElbUndo.FailedCreationIsUndone(c, r1, name, Meant(c.env, nodes), desire);
    } else {
      ElbRuns.DeleteRun(c, f.run, name);
    }
  }
}
