/** The API client: `Invoke` is the network and the cloud behind it, the other methods string requests together. */
module Client {
  import opened Base
  import opened Cloud
  import opened Runs
  import opened Differences
  import opened L4Plan
  import opened Rules
  import Elastic = ElbPlan

  class CloudAPIClient {
    const env: Env
    const faults: nat -> FaultKind
    var world: World
    var clock: nat
    ghost var log: seq<Event>

    constructor (env: Env, faults: nat -> FaultKind, world: World)
      ensures this.env == env && this.faults == faults
      ensures this.world == world && clock == 0 && log == []
    {
      this.env, this.faults, this.world, this.clock, this.log := env, faults, world, 0, [];
    }

    ghost function Context(): Ctx {
      Ctx(env, faults)
    }

    /** Where the run stands after an operation with outcome `r`. */
    ghost function After(r: Outcome<Error>): Run
      reads this
    {
      Run(world, clock, log, r)
    }

    ghost function State(): Run
      reads this
    {
      After(Done)
    }

    /** One request: it may get lost, the cloud may refuse it, or its answer may get lost. */
    method Invoke(call: Call) returns (r: Outcome<Error>)
      modifies this
      ensures After(r) == Do(Context(), old(State()), Ask(call, None))
    {
      var before := world;
      var answer := Apply(env, world, call);
      var fault := faults(clock);
      if answer.Ok? && !fault.RequestLost? {
        world := answer.value;
      }
      clock := clock + 1;
      log := log + [Event(call, before, world)];
      r := if !fault.NoFault? then Failed(Fault) else if answer.Ok? then Done else Failed(answer.error);
    }

    // -------------------------------------------------------------- instances

    method InstanceIds(instances: seq<Instance>) returns (ids: seq<string>)
      ensures ids == Ids(instances)
    {
      ids := [];
      for i := 0 to |instances|
        invariant ids == Ids(instances[..i])
      {
        ids := ids + [instances[i].instanceID];
        assert Ids(instances[..i + 1]) == Ids(instances[..i]) + [instances[i].instanceID];
      }
      assert instances[..|instances|] == instances;
    }

    method DescribedInstances(ids: seq<string>) returns (instances: seq<Instance>)
      ensures instances == ViewInstances(env, ids)
    {
      instances := [];
      for i := 0 to |ids|
        invariant instances == ViewInstances(env, ids[..i])
      {
        instances := instances + [ViewInstance(env, ids[i])];
        assert ids[..i + 1] == ids[..i] + [ids[i]];
      }
      assert ids[..|ids|] == ids;
    }

    /** The named instances, or all of them if none is named; finding none is an error. */
    method DescribeInstancesByInstanceID(instanceIDs: seq<string>) returns (r: Result<seq<Instance>, Error>)
      modifies this
      ensures var asked := Do(Context(), old(State()), Ask(LookInstances(instanceIDs), None));
              if asked.out.Failed? then After(OutcomeOf(r)) == asked
              else State() == asked && r == if Described(env, instanceIDs) == [] then Err(InstanceNotFound)
                                            else Ok(Described(env, instanceIDs))
    {
      var e := Invoke(LookInstances(instanceIDs));
      if e.Failed? {
        return Err(e.error);
      }
      var answered, instances := Answered(env, instanceIDs), [];
      for i := 0 to |answered|
        invariant instances == Described(env, instanceIDs)[..i]
        invariant State() == Do(Context(), old(State()), Ask(LookInstances(instanceIDs), None))
      {
        var id := answered[i];
        var instance := if id in env.inventory then env.inventory[id] else Instance(id, "", "");
        assert instance == Described(env, instanceIDs)[i];
        instances := instances + [instance];
      }
      assert Described(env, instanceIDs)[..|answered|] == Described(env, instanceIDs);
      if |instances| == 0 {
        return Err(InstanceNotFound);
      }
      return Ok(instances);
    }

    // -------------------------------------------------------------- L4 load balancers

    /** The listed addresses of a filter, without the wildcard. */
    method DescribedFilters(addresses: seq<string>) returns (filters: seq<string>)
      ensures filters == WithoutAny(addresses)
    {
      filters := [];
      for i := 0 to |addresses|
        invariant filters == WithoutAny(addresses[..i])
      {
        assert addresses[..i + 1][..i] == addresses[..i];
        if addresses[i] == ANY_IP_ADDRESSES {
          continue;
        }
        filters := filters + [addresses[i]];
      }
      assert addresses[..|addresses|] == addresses;
    }

    method DescribeLoadBalancers(name: string) returns (r: Result<seq<LoadBalancer>, Error>)
      modifies this
      ensures After(if r.Ok? then Done else Failed(r.error)) == Exec(Context(), old(State()), On(name, L4Look))
      ensures r.Ok? ==> name in world.l4 && world == old(world) && r.value == ViewOf(env, world, name)
    {
      var e := Invoke(L4(name, L4Look));
      if e.Failed? {
        return Err(e.error);
      }
      var b := world.l4[name];
      var result := [];
      for i := 0 to |b.order|
        invariant result == View(env, name, b)[..i]
        invariant After(Done) == Exec(Context(), old(State()), On(name, L4Look))
      {
        var k := b.order[i];
        var l := if k in b.at then b.at[k] else L4Listener({}, {});
        var balancingTargets := DescribedInstances(env.list(l.targets));
        var filters := DescribedFilters(ListedFilters(env, l.filters));
        var lb := LoadBalancer(name, b.vip, "", 0, "", 0, balancingTargets, k.port, k.instancePort, "", 0, 0, filters);
        assert lb == View(env, name, b)[i];
        result := result + [lb];
      }
      assert View(env, name, b)[..|b.order|] == View(env, name, b);
      return Ok(result);
    }

    method ConfigureHealthCheck(lb: LoadBalancer) returns (r: Outcome<Error>)
      modifies this
      ensures After(r) == Exec(Context(), old(State()), On(lb.name, L4Health(KeyOf(lb), CheckOf(lb))))
    {
      var check := HealthCheck(lb.healthCheckTarget, lb.healthCheckInterval, lb.healthCheckUnhealthyThreshold);
      r := Invoke(L4(lb.name, L4Health(KeyOf(lb), check)));
    }

    /** Without an explicit list the targets of the load balancer are registered. */
    method RegisterInstancesWithLoadBalancer(lb: LoadBalancer, instances: Option<seq<Instance>>)
      returns (r: Outcome<Error>)
      modifies this
      ensures After(r) == Exec(Context(), old(State()),
                               On(lb.name, L4Attach(KeyOf(lb), Ids(if instances.Some? then instances.value
                                                                   else lb.balancingTargets))))
    {
      var ids := InstanceIds(if instances.Some? then instances.value else lb.balancingTargets);
      r := Invoke(L4(lb.name, L4Attach(KeyOf(lb), ids)));
    }

    method DeregisterInstancesFromLoadBalancer(lb: LoadBalancer, instances: seq<Instance>) returns (r: Outcome<Error>)
      modifies this
      ensures After(r) == Exec(Context(), old(State()), On(lb.name, L4Detach(KeyOf(lb), Ids(instances))))
    {
      var ids := InstanceIds(instances);
      r := Invoke(L4(lb.name, L4Detach(KeyOf(lb), ids)));
    }

    /** Without an explicit list all filters of the load balancer are added; wildcards are skipped. */
    method SetFilterForLoadBalancer(lb: LoadBalancer, filters: Option<seq<Filter>>) returns (r: Outcome<Error>)
      modifies this
      ensures After(r) == Exec(Context(), old(State()),
                               On(lb.name, L4SetFilter(KeyOf(lb), Sent(if filters.Some? then filters.value
                                                                       else Changes(lb.filters, true)))))
    {
      var changes := [];
      if filters.Some? {
        changes := filters.value;
      } else {
        for i := 0 to |lb.filters|
          invariant changes == Changes(lb.filters[..i], true)
          invariant After(Done) == old(State())
        {
          changes := changes + [Filter(true, lb.filters[i])];
          assert lb.filters[..i + 1] == lb.filters[..i] + [lb.filters[i]];
        }
        assert lb.filters[..|lb.filters|] == lb.filters;
      }
      var ipAddresses := [];
      for i := 0 to |changes|
        invariant ipAddresses == Sent(changes[..i])
        invariant After(Done) == old(State())
      {
        assert changes[..i + 1][..i] == changes[..i];
        if changes[i].ipAddress == ANY_IP_ADDRESSES {
          continue;
        }
        ipAddresses := ipAddresses + [changes[i]];
      }
      assert changes[..|changes|] == changes;
      r := Invoke(L4(lb.name, L4SetFilter(KeyOf(lb), ipAddresses)));
    }

    /** Health check, instances and filter of a listener that was just made. */
    method FillLoadBalancer(lb: LoadBalancer) returns (r: Outcome<Error>)
      modifies this
      ensures After(r) == Exec(Context(), old(State()), FillSteps(lb))
    {
      var steps := FillSteps(lb);
      r := ConfigureHealthCheck(lb);
      if r.Failed? {
        ExecAfterFailure(Context(), After(r), steps.next);
        return;
      }
      r := RegisterInstancesWithLoadBalancer(lb, None);
      if r.Failed? {
        ExecAfterFailure(Context(), After(r), steps.next.next);
        return;
      }
      r := SetFilterForLoadBalancer(lb, None);
    }

    method CreateLoadBalancer(lb: LoadBalancer) returns (r: Result<string, Error>)
      modifies this
      ensures After(if r.Ok? then Done else Failed(r.error)) == Exec(Context(), old(State()), CreateSteps(lb))
      ensures r.Ok? ==> r.value == VipIn(world, lb.name)
    {
      var e := Invoke(L4(lb.name, L4Create(KeyOf(lb))));
      if e.Failed? {
        ExecAfterFailure(Context(), After(e), FillSteps(lb));
        return Err(e.error);
      }
      var vip := world.l4[lb.name].vip;
      var made := State();
      e := FillLoadBalancer(lb);
      if e.Failed? {
        return Err(e.error);
      }
      FillKeepsVip(Context(), made, lb, vip);
      return Ok(vip);
    }

    method RegisterPortWithLoadBalancer(lb: LoadBalancer) returns (r: Outcome<Error>)
      modifies this
      ensures After(r) == Exec(Context(), old(State()), RegisterSteps(lb))
    {
      r := Invoke(L4(lb.name, L4AddPort(KeyOf(lb))));
      if r.Failed? {
        ExecAfterFailure(Context(), After(r), FillSteps(lb));
        return;
      }
      r := FillLoadBalancer(lb);
    }

    method DeleteLoadBalancer(lb: LoadBalancer) returns (r: Outcome<Error>)
      modifies this
      ensures After(r) == Exec(Context(), old(State()), On(lb.name, L4RemovePort(KeyOf(lb))))
    {
      r := Invoke(L4(lb.name, L4RemovePort(KeyOf(lb))));
    }

    // -------------------------------------------------------------- elastic load balancers

    method DescribedInterfaces(nics: seq<NetworkInterface>) returns (r: seq<NetworkInterface>)
      ensures r == nics
    {
      r := [];
      for i := 0 to |nics|
        invariant r == nics[..i]
      {
        var systemIpAddresses := [];
        for j := 0 to |nics[i].systemIpAddresses|
          invariant systemIpAddresses == nics[i].systemIpAddresses[..j]
        {
          systemIpAddresses := systemIpAddresses + [nics[i].systemIpAddresses[j]];
        }
        assert systemIpAddresses == nics[i].systemIpAddresses;
        r := r + [NetworkInterface(nics[i].networkId, nics[i].ipAddress, systemIpAddresses, nics[i].isVipNetwork)];
      }
    }

    /** One entry for every listener, each with the instances of the first one. */
    method DescribeElasticLoadBalancers(name: string) returns (r: Result<seq<ElasticLoadBalancer>, Error>)
      modifies this
      ensures After(OutcomeOf(r)) == Exec(Context(), old(State()), Elastic.On(name, ElbLook))
      ensures r.Ok? ==> name in world.elb && world == old(world) && r.value == Elastic.ViewOf(env, world, name)
    {
      var e := Invoke(Elb(name, ElbLook));
      if e.Failed? {
        return Err(e.error);
      }
      var b := world.elb[name];
      var result := [];
      for i := 0 to |b.order|
        invariant result == Elastic.View(env, name, b)[..i]
        invariant After(Done) == Exec(Context(), old(State()), Elastic.On(name, ElbLook))
      {
        var k := b.order[i];
        var first := if b.order[0] in b.at then b.at[b.order[0]].targets else {};
        var balancingTargets := DescribedInstances(env.list(first));
        var networkInterfaces := DescribedInterfaces(b.nics);
        var lb := ElasticLoadBalancer("", name, b.vip, "", "TCP", 0, 0, balancingTargets, k.port, k.instancePort,
                                      if k in b.at then b.at[k].health else "", 0, 0, networkInterfaces);
        assert lb == Elastic.View(env, name, b)[i];
        result := result + [lb];
      }
      assert Elastic.View(env, name, b)[..|b.order|] == Elastic.View(env, name, b);
      return Ok(result);
    }

    method WaitElasticLoadBalancerApplied(name: string) returns (r: Outcome<Error>)
      modifies this
      ensures After(r) == Exec(Context(), old(State()), Elastic.WaitApplied(name))
    {
      r := Invoke(Elb(name, ElbWait));
    }

    method ConfigureElasticLoadBalancerHealthCheck(lb: ElasticLoadBalancer) returns (r: Outcome<Error>)
      modifies this
      ensures After(r) == Exec(Context(), old(State()),
                               Elastic.On(lb.name, ElbHealth(Elastic.KeyOf(lb), lb.healthCheckTarget)))
    {
      r := Invoke(Elb(lb.name, ElbHealth(Elastic.KeyOf(lb), lb.healthCheckTarget)));
    }

    /** Without an explicit list the targets of the load balancer are registered. */
    method RegisterInstancesWithElasticLoadBalancer(lb: ElasticLoadBalancer, instances: Option<seq<Instance>>)
      returns (r: Outcome<Error>)
      modifies this
      ensures After(r) == Exec(Context(), old(State()),
                               Elastic.On(lb.name, ElbAttach(Elastic.KeyOf(lb),
                                                             Ids(if instances.Some? then instances.value
                                                                 else lb.balancingTargets))))
    {
      var ids := InstanceIds(if instances.Some? then instances.value else lb.balancingTargets);
      r := Invoke(Elb(lb.name, ElbAttach(Elastic.KeyOf(lb), ids)));
    }

    method DeregisterInstancesFromElasticLoadBalancer(lb: ElasticLoadBalancer, instances: seq<Instance>)
      returns (r: Outcome<Error>)
      modifies this
      ensures After(r) == Exec(Context(), old(State()),
                               Elastic.On(lb.name, ElbDetach(Elastic.KeyOf(lb), Ids(instances))))
    {
      var ids := InstanceIds(instances);
      r := Invoke(Elb(lb.name, ElbDetach(Elastic.KeyOf(lb), ids)));
    }

    /** Health check and instances of a listener that was just made, each awaited. */
    method FillElasticLoadBalancer(lb: ElasticLoadBalancer) returns (r: Outcome<Error>)
      modifies this
      ensures After(r) == Exec(Context(), old(State()), Elastic.FillSteps(lb))
    {
      ghost var steps := Elastic.FillSteps(lb);
      r := WaitElasticLoadBalancerApplied(lb.name);
      if r.Failed? {
        ExecAfterFailure(Context(), After(r), steps.next);
        return;
      }
      ghost var r1 := State();
      r := ConfigureElasticLoadBalancerHealthCheck(lb);
      if r.Failed? {
        ExecAfterFailure(Context(), After(r), steps.next.first.next);
        assert After(r) == Exec(Context(), r1, steps.next.first);
        ExecAfterFailure(Context(), After(r), steps.next.next);
        return;
      }
      r := WaitElasticLoadBalancerApplied(lb.name);
      assert After(r) == Exec(Context(), r1, steps.next.first);
      if r.Failed? {
        ExecAfterFailure(Context(), After(r), steps.next.next);
        return;
      }
      ghost var r2 := State();
      r := RegisterInstancesWithElasticLoadBalancer(lb, None);
      if r.Failed? {
        ExecAfterFailure(Context(), After(r), steps.next.next.next);
        assert After(r) == Exec(Context(), r2, steps.next.next);
        return;
      }
      r := WaitElasticLoadBalancerApplied(lb.name);
      assert After(r) == Exec(Context(), r2, steps.next.next);
    }

    method CreateElasticLoadBalancer(lb: ElasticLoadBalancer) returns (r: Result<string, Error>)
      modifies this
      ensures After(OutcomeOf(r)) == Exec(Context(), old(State()), Elastic.CreateSteps(lb))
      ensures r.Ok? ==> lb.name in world.elb && r.value == world.elb[lb.name].vip
    {
      var e := Invoke(Elb(lb.name, ElbCreate(Elastic.KeyOf(lb), lb.networkInterfaces)));
      if e.Failed? {
        ExecAfterFailure(Context(), After(e), Elastic.FillSteps(lb));
        return Err(e.error);
      }
      var vip := world.elb[lb.name].vip;
      ghost var made := State();
      e := FillElasticLoadBalancer(lb);
      if e.Failed? {
        return Err(e.error);
      }
      FillKeepsElasticVip(Context(), made, lb, vip);
      return Ok(vip);
    }

    method RegisterPortWithElasticLoadBalancer(lb: ElasticLoadBalancer) returns (r: Outcome<Error>)
      modifies this
      ensures After(r) == Exec(Context(), old(State()), Elastic.RegisterSteps(lb))
    {
      r := Invoke(Elb(lb.name, ElbAddPort(Elastic.KeyOf(lb))));
      if r.Failed? {
        ExecAfterFailure(Context(), After(r), Elastic.FillSteps(lb));
        return;
      }
      r := FillElasticLoadBalancer(lb);
    }

    method DeleteElasticLoadBalancer(lb: ElasticLoadBalancer) returns (r: Outcome<Error>)
      modifies this
      ensures After(r) == Exec(Context(), old(State()), Elastic.On(lb.name, ElbRemovePort(Elastic.KeyOf(lb))))
    {
      r := Invoke(Elb(lb.name, ElbRemovePort(Elastic.KeyOf(lb))));
    }

    // -------------------------------------------------------------- security groups

    /** The groups, in the order the cloud lists them, that hold one of the instances. */
    method DescribeSecurityGroupsByInstanceIDs(instanceIDs: seq<string>) returns (r: Result<seq<string>, Error>)
      requires EnvOK(env)
      modifies this
      ensures After(OutcomeOf(r)) == Do(Context(), old(State()), Ask(ListGroups, None))
      ensures r.Ok? ==> r.value == Elastic.GroupsOf(env, instanceIDs)
    {
      var e := Invoke(ListGroups);
      if e.Failed? {
        return Err(e.error);
      }
      var listed := env.list(env.members.Keys);
      var securityGroups := [];
      for i := 0 to |listed|
        invariant securityGroups == Elastic.Touching(listed[..i], env.members, instanceIDs)
        invariant State() == Do(Context(), old(State()), Ask(ListGroups, None))
      {
        assert listed[..i + 1][..i] == listed[..i];
        assert listed[i] in Elems(listed);
        var holds := HoldsOneOf(listed[i], instanceIDs);
        if !holds {
          continue;
        }
        securityGroups := securityGroups + [listed[i]];
      }
      assert listed[..|listed|] == listed;
      return Ok(securityGroups);
    }

    method HoldsOneOf(group: string, instanceIDs: seq<string>) returns (found: bool)
      requires EnvOK(env) && group in env.members
      ensures found <==> exists id :: id in instanceIDs && id in env.members[group]
    {
      var instances := env.list(env.members[group]);
      assert forall id :: id in env.members[group] <==> id in instances by {
        assert Elems(instances) == env.members[group];
      }
      found := false;
      for i := 0 to |instances|
        invariant found <==> exists id :: id in instances[..i] && id in instanceIDs
      {
        assert instances[..i + 1] == instances[..i] + [instances[i]];
        if instances[i] in instanceIDs {
          found := true;
        }
      }
      assert instances[..|instances|] == instances;
    }

    method AuthorizeSecurityGroupIngress(group: string, rule: SecurityGroupRule) returns (r: Outcome<Error>)
      modifies this
      ensures After(r) == Do(Context(), old(State()), Ask(Authorize(group, Encode(rule)), None))
    {
      var permission := EncodeRule(rule);
      r := Invoke(Authorize(group, permission));
    }

    method RevokeSecurityGroupIngress(group: string, rule: SecurityGroupRule) returns (r: Outcome<Error>)
      modifies this
      ensures After(r) == Do(Context(), old(State()), Ask(Revoke(group, Encode(rule)), None))
    {
      var permission := EncodeRule(rule);
      r := Invoke(Revoke(group, permission));
    }

    method WaitSecurityGroupApplied(group: string) returns (r: Outcome<Error>)
      modifies this
      ensures After(r) == Do(Context(), old(State()), Ask(WaitGroup(group), None))
    {
      r := Invoke(WaitGroup(group));
    }
  }

  /** Filling a listener leaves the address of its balancer alone. */
  lemma FillKeepsVip(c: Ctx, r: Run, lb: LoadBalancer, vip: string)
    requires Exec(c, r, FillSteps(lb)).out.Done?
    requires lb.name in r.world.l4 && r.world.l4[lb.name].vip == vip
    ensures VipIn(Exec(c, r, FillSteps(lb)).world, lb.name) == vip
  {
    var steps := FillSteps(lb);
    var r1 := Exec(c, r, steps.first);
    var r2 := Exec(c, r1, steps.next.first);
    var r3 := Exec(c, r2, steps.next.next);
    assert r3 == Exec(c, r, steps);
    assert r1.out.Done? && r2.out.Done?;
    assert lb.name in r1.world.l4 && r1.world.l4[lb.name].vip == vip;
    assert lb.name in r2.world.l4 && r2.world.l4[lb.name].vip == vip;
  }

  /** The balancer `name` exists and has the address `vip`. */
  predicate ElasticVipIs(w: World, name: string, vip: string) {
    name in w.elb && w.elb[name].vip == vip
  }

  /** A request that neither makes nor removes a balancer leaves its address alone. */
  lemma RequestKeepsElasticVip(c: Ctx, r: Run, name: string, op: ElbOp, vip: string)
    requires Exec(c, r, Elastic.On(name, op)).out.Done? && ElasticVipIs(r.world, name, vip)
    requires !op.ElbCreate? && !op.ElbRemovePort?
    ensures r.out.Done? && ElasticVipIs(Exec(c, r, Elastic.On(name, op)).world, name, vip)
  {
  }

  lemma FillKeepsElasticVip(c: Ctx, r: Run, lb: ElasticLoadBalancer, vip: string)
    requires Exec(c, r, Elastic.FillSteps(lb)).out.Done? && ElasticVipIs(r.world, lb.name, vip)
    ensures ElasticVipIs(Exec(c, r, Elastic.FillSteps(lb)).world, lb.name, vip)
  {
    var steps, k := Elastic.FillSteps(lb), Elastic.KeyOf(lb);
    var r1 := Exec(c, r, steps.first);
    var r2 := Exec(c, r1, steps.next.first.first);
    var r3 := Exec(c, r2, steps.next.first.next);
    var r4 := Exec(c, r3, steps.next.next.first);
    assert Exec(c, r1, steps.next.first) == r3;
    assert Exec(c, r, steps) == Exec(c, r3, steps.next.next) == Exec(c, r4, steps.next.next.next);
    assert r1.out.Done? && r2.out.Done? && r3.out.Done? && r4.out.Done?;
    RequestKeepsElasticVip(c, r, lb.name, ElbWait, vip);
    RequestKeepsElasticVip(c, r1, lb.name, ElbHealth(k, lb.healthCheckTarget), vip);
    RequestKeepsElasticVip(c, r2, lb.name, ElbWait, vip);
    RequestKeepsElasticVip(c, r3, lb.name, ElbAttach(k, Ids(lb.balancingTargets)), vip);
    RequestKeepsElasticVip(c, r4, lb.name, ElbWait, vip);
  }
}
