/** The reconciler of elastic load balancers: the loops that drive the client. */
module ElbController {
  import opened Base
  import opened Cloud
  import opened Runs
  import opened Differences
  import opened Rules
  import opened ElbPlan
  import opened Client

  // ---------------------------------------------------------------- a plan that failed stays where it is

  lemma {:induction false} RegisterAllStops(c: Ctx, r: Run, lbs: seq<ElasticLoadBalancer>, n: nat)
    requires n <= |lbs| && Exec(c, r, RegisterAll(c.env, lbs[..n])).out.Failed?
    ensures Exec(c, r, RegisterAll(c.env, lbs)) == Exec(c, r, RegisterAll(c.env, lbs[..n]))
  {
    if n == |lbs| {
      assert lbs[..n] == lbs;
    } else {
      var init, lb := lbs[..|lbs| - 1], lbs[|lbs| - 1];
      assert init[..n] == lbs[..n];
      RegisterAllStops(c, r, init, n);
      ExecAfterFailure(c, Exec(c, r, RegisterAll(c.env, init)),
                       Then(RegisterSteps(lb), RulePlan(c.env, true, lb, lb.balancingTargets)));
    }
  }

  /** The listener `i` after those before it. */
  lemma OneListenerMore(c: Ctx, r: Run, lbs: seq<ElasticLoadBalancer>, i: nat)
    requires i < |lbs|
    ensures Exec(c, r, RegisterAll(c.env, lbs[..i + 1])) ==
            Exec(c, Exec(c, r, RegisterAll(c.env, lbs[..i])),
                 Then(RegisterSteps(lbs[i]), RulePlan(c.env, true, lbs[i], lbs[i].balancingTargets)))
  {
    assert lbs[..i + 1][..i] == lbs[..i];
  }

  /** The rules of the first listener, and the next ones up to `i` with theirs. */
  function AllowedSoFar(env: Env, placed: seq<ElasticLoadBalancer>, i: nat): Plan
    requires i <= |placed|
  {
    if i == 0 then Skip
    else Then(RulePlan(env, true, placed[0], placed[0].balancingTargets), RegisterAll(env, placed[1..][..i - 1]))
  }

  lemma AllowedNext(c: Ctx, r: Run, placed: seq<ElasticLoadBalancer>, i: nat)
    requires i < |placed|
    ensures var r1, rules := Exec(c, r, AllowedSoFar(c.env, placed, i)),
                             RulePlan(c.env, true, placed[i], placed[i].balancingTargets);
            Exec(c, r, AllowedSoFar(c.env, placed, i + 1)) ==
            if i == 0 then Exec(c, r1, rules) else Exec(c, r1, Then(RegisterSteps(placed[i]), rules))
  {
    if i == 0 {
      assert placed[1..][..0] == [];
    } else {
      OneListenerMore(c, Exec(c, r, RulePlan(c.env, true, placed[0], placed[0].balancingTargets)), placed[1..], i - 1);
    }
  }

  lemma AllowedAll(env: Env, placed: seq<ElasticLoadBalancer>)
    requires placed != []
    ensures AllowedSoFar(env, placed, |placed|) ==
            Then(RulePlan(env, true, placed[0], placed[0].balancingTargets), RegisterAll(env, placed[1..]))
  {
    assert placed[1..][..|placed| - 1] == placed[1..];
  }

  lemma AllowedStops(c: Ctx, r: Run, placed: seq<ElasticLoadBalancer>, i: nat)
    requires 0 < i <= |placed| && Exec(c, r, AllowedSoFar(c.env, placed, i)).out.Failed?
    ensures Exec(c, r, AllowedSoFar(c.env, placed, |placed|)) == Exec(c, r, AllowedSoFar(c.env, placed, i))
    ensures AllowedSoFar(c.env, placed, |placed|) ==
            Then(RulePlan(c.env, true, placed[0], placed[0].balancingTargets), RegisterAll(c.env, placed[1..]))
  {
    AllowedAll(c.env, placed);
    RegisterAllStops(c, Exec(c, r, RulePlan(c.env, true, placed[0], placed[0].balancingTargets)), placed[1..], i - 1);
  }

  lemma {:induction false} DeleteAllStops(c: Ctx, r: Run, lbs: seq<ElasticLoadBalancer>, n: nat)
    requires n <= |lbs| && Exec(c, r, DeleteAll(c.env, lbs[..n])).out.Failed?
    ensures Exec(c, r, DeleteAll(c.env, lbs)) == Exec(c, r, DeleteAll(c.env, lbs[..n]))
  {
    if n == |lbs| {
      assert lbs[..n] == lbs;
    } else {
      var init, lb := lbs[..|lbs| - 1], lbs[|lbs| - 1];
      assert init[..n] == lbs[..n];
      DeleteAllStops(c, r, init, n);
      ExecAfterFailure(c, Exec(c, r, DeleteAll(c.env, init)),
                       Then(On(lb.name, ElbRemovePort(KeyOf(lb))), RulePlan(c.env, false, lb, lb.balancingTargets)));
    }
  }

  lemma {:induction false} ReconcileAllStops(c: Ctx, r: Run, desire: seq<ElasticLoadBalancer>,
                                             lbs: seq<ElasticLoadBalancer>, n: nat)
    requires n <= |lbs| && Exec(c, r, ReconcileAll(c.env, desire, lbs[..n])).out.Failed?
    ensures Exec(c, r, ReconcileAll(c.env, desire, lbs)) == Exec(c, r, ReconcileAll(c.env, desire, lbs[..n]))
  {
    if n == |lbs| {
      assert lbs[..n] == lbs;
    } else {
      var init, last := lbs[..|lbs| - 1], lbs[|lbs| - 1];
      assert init[..n] == lbs[..n];
      ReconcileAllStops(c, r, desire, init, n);
      ExecAfterFailure(c, Exec(c, r, ReconcileAll(c.env, desire, init)), PlanFor(c.env, desire, last));
    }
  }

  lemma {:induction false} ChangeInGroupStops(c: Ctx, r: Run, add: bool, g: string, rules: seq<SecurityGroupRule>,
                                              n: nat)
    requires n <= |rules| && Exec(c, r, ChangeInGroup(add, g, rules[..n])).out.Failed?
    ensures Exec(c, r, ChangeInGroup(add, g, rules)) == Exec(c, r, ChangeInGroup(add, g, rules[..n]))
  {
    if n == |rules| {
      assert rules[..n] == rules;
    } else {
      var init, last := rules[..|rules| - 1], rules[|rules| - 1];
      assert init[..n] == rules[..n];
      ChangeInGroupStops(c, r, add, g, init, n);
      ExecAfterFailure(c, Exec(c, r, ChangeInGroup(add, g, init)),
                       Then(ChangeRule(add, g, Encode(last)), Act(Ask(WaitGroup(g), None))));
    }
  }

  lemma {:induction false} ChangeInGroupsStops(c: Ctx, r: Run, add: bool, groups: seq<string>,
                                               rules: seq<SecurityGroupRule>, n: nat)
    requires n <= |groups| && Exec(c, r, ChangeInGroups(add, groups[..n], rules)).out.Failed?
    ensures Exec(c, r, ChangeInGroups(add, groups, rules)) == Exec(c, r, ChangeInGroups(add, groups[..n], rules))
  {
    if n == |groups| {
      assert groups[..n] == groups;
    } else {
      var init, last := groups[..|groups| - 1], groups[|groups| - 1];
      assert init[..n] == groups[..n];
      ChangeInGroupsStops(c, r, add, init, rules, n);
      ExecAfterFailure(c, Exec(c, r, ChangeInGroups(add, init, rules)), ChangeInGroup(add, last, rules));
    }
  }

  class ElbReconciler {
    const client: CloudAPIClient

    constructor (client: CloudAPIClient)
      ensures this.client == client
    {
      this.client := client;
    }

    // -------------------------------------------------------------- security group rules

    /** One request for one rule; a rule that is there already, or gone already, is no error. */
    method ChangeOne(add: bool, group: string, rule: SecurityGroupRule) returns (r: Outcome<Error>)
      modifies client
      ensures client.After(r) == Exec(client.Context(), old(client.State()), ChangeRule(add, group, Encode(rule)))
    {
      if add {
        r := client.AuthorizeSecurityGroupIngress(group, rule);
        if r == Failed(RuleDuplicate) {
          r := Done;
        }
      } else {
        r := client.RevokeSecurityGroupIngress(group, rule);
        if r == Failed(RuleNotFound) {
          r := Done;
        }
      }
    }

    method ChangeRulesOfGroup(add: bool, group: string, rules: seq<SecurityGroupRule>) returns (r: Outcome<Error>)
      modifies client
      ensures client.After(r) == Exec(client.Context(), old(client.State()), ChangeInGroup(add, group, rules))
    {
      ghost var c, start := client.Context(), client.State();
      for i := 0 to |rules|
        invariant client.Context() == c
        invariant client.State() == Exec(c, start, ChangeInGroup(add, group, rules[..i]))
      {
        ghost var before, wait := client.State(), Act(Ask(WaitGroup(group), None));
        assert rules[..i + 1][..i] == rules[..i];
        r := ChangeOne(add, group, rules[i]);
        if r.Failed? {
          ExecAfterFailure(c, client.After(r), wait);
          ChangeInGroupStops(c, start, add, group, rules, i + 1);
          return;
        }
        r := client.WaitSecurityGroupApplied(group);
        assert client.After(r) == Exec(c, before, Then(ChangeRule(add, group, Encode(rules[i])), wait));
        if r.Failed? {
          ChangeInGroupStops(c, start, add, group, rules, i + 1);
          return;
        }
      }
      assert rules[..|rules|] == rules;
      r := Done;
    }

    /** Allows (`add`) or denies the rules of a load balancer for the given instances. */
    method ChangeSecurityGroupRules(add: bool, lb: ElasticLoadBalancer, instances: seq<Instance>)
      returns (r: Outcome<Error>)
      requires EnvOK(client.env)
      modifies client
      ensures client.After(r) == Exec(client.Context(), old(client.State()),
                                      RulePlan(client.env, add, lb, instances))
    {
      ghost var c := client.Context();
      var instanceIDs := client.InstanceIds(instances);
      var securityGroups := client.DescribeSecurityGroupsByInstanceIDs(instanceIDs);
      if securityGroups.Err? {
        ExecAfterFailure(c, client.After(Failed(securityGroups.error)), RulePlan(client.env, add, lb, instances).next);
        return Failed(securityGroups.error);
      }
      var rules := SecurityGroupRulesOfElasticLoadBalancer(lb);
      if rules.Err? {
        return Failed(rules.error);
      }
      ghost var start, groups := client.State(), securityGroups.value;
      for i := 0 to |securityGroups.value|
        invariant client.Context() == c
        invariant client.State() == Exec(c, start, ChangeInGroups(add, groups[..i], rules.value))
      {
        assert groups[..i + 1][..i] == groups[..i];
        r := ChangeRulesOfGroup(add, securityGroups.value[i], rules.value);
        if r.Failed? {
          ChangeInGroupsStops(c, start, add, groups, rules.value, i + 1);
          return;
        }
      }
      assert groups[..|groups|] == groups;
      r := Done;
    }

    // -------------------------------------------------------------- creating

    /** One more listener of a balancer that is being created, with its rules. */
    method AddListener(lb: ElasticLoadBalancer) returns (r: Outcome<Error>)
      requires EnvOK(client.env)
      modifies client
      ensures client.After(r) == Exec(client.Context(), old(client.State()),
                                      Then(RegisterSteps(lb), RulePlan(client.env, true, lb, lb.balancingTargets)))
    {
      r := client.RegisterPortWithElasticLoadBalancer(lb);
      if r.Failed? {
        ExecAfterFailure(client.Context(), client.After(r), RulePlan(client.env, true, lb, lb.balancingTargets));
        return;
      }
      r := ChangeSecurityGroupRules(true, lb, lb.balancingTargets);
    }

    /** The first listener: it makes the balancer, whose address and interfaces are then looked up. */
    method CreateFirst(name: string, lb: ElasticLoadBalancer) returns (r: Result<seq<ElasticLoadBalancer>, Error>)
      requires lb.name == name
      modifies client
      ensures client.After(OutcomeOf(r)) == Exec(client.Context(), old(client.State()),
                                                 Then(CreateSteps(lb), On(name, ElbLook)))
      ensures r.Ok? ==> name in client.world.elb && r.value == ViewOf(client.env, client.world, name)
    {
      var vip := client.CreateElasticLoadBalancer(lb);
      if vip.Err? {
        ExecAfterFailure(client.Context(), client.After(Failed(vip.error)), On(name, ElbLook));
        return Err(vip.error);
      }
      r := client.DescribeElasticLoadBalancers(name);
    }

    /** The rules of the first listener, then the other listeners with theirs. */
    method AllowAndAdd(desire: seq<ElasticLoadBalancer>, vip: string, networkInterfaces: seq<NetworkInterface>)
      returns (r: Outcome<Error>)
      requires EnvOK(client.env) && desire != []
      modifies client
      ensures var placed := PlacedAll(desire, vip, networkInterfaces);
              client.After(r) ==
              Exec(client.Context(),
                   Exec(client.Context(), old(client.State()),
                        RulePlan(client.env, true, placed[0], placed[0].balancingTargets)),
                   RegisterAll(client.env, placed[1..]))
    {
      ghost var c, start := client.Context(), client.State();
      ghost var placed := PlacedAll(desire, vip, networkInterfaces);
      for i := 0 to |desire|
        invariant client.Context() == c
        invariant client.State() == Exec(c, start, AllowedSoFar(c.env, placed, i))
      {
        var lb := desire[i].(vip := vip, networkInterfaces := networkInterfaces);
        if i == 0 {
          r := ChangeSecurityGroupRules(true, lb, lb.balancingTargets);
        } else {
          r := AddListener(lb);
        }
        AllowedNext(c, start, placed, i);
        if r.Failed? {
          AllowedStops(c, start, placed, i + 1);
          return;
        }
      }
      AllowedAll(c.env, placed);
      r := Done;
    }

    method CreateAll(name: string, desire: seq<ElasticLoadBalancer>) returns (r: Result<string, Error>)
      requires EnvOK(client.env) && WorldOK(client.env, client.world)
      requires desire != [] && forall d :: d in desire ==> d.name == name
      modifies client
      ensures Finished(client.State(), r) == EnsureCreated(client.Context(), old(client.State()), name, desire)
    {
      ghost var c, start := client.Context(), client.State();
      var made := CreateFirst(name, desire[0]);
      if made.Err? {
        ghost var r1 := client.After(Failed(made.error));
        ghost var view := ViewOf(c.env, r1.world, name);
        ghost var placed := PlacedAll(desire, FirstVip(view), FirstNics(view));
        ExecAfterFailure(c, r1, RulePlan(c.env, true, placed[0], placed[0].balancingTargets));
        ExecAfterFailure(c, r1, RegisterAll(c.env, placed[1..]));
        return Err(made.error);
      }
      ExecKeepsWorldOK(c, start, Then(CreateSteps(desire[0]), On(name, ElbLook)));
      var vip := made.value[0].vip;
      var e := AllowAndAdd(desire, vip, made.value[0].networkInterfaces);
      if e.Failed? {
        return Err(e.error);
      }
      return Ok(vip);
    }

    // -------------------------------------------------------------- updating

    method RegisterMissing(toCreate: seq<ElasticLoadBalancer>) returns (r: Outcome<Error>)
      requires EnvOK(client.env)
      modifies client
      ensures client.After(r) == Exec(client.Context(), old(client.State()), RegisterAll(client.env, toCreate))
    {
      ghost var c, start := client.Context(), client.State();
      for i := 0 to |toCreate|
        invariant client.Context() == c
        invariant client.State() == Exec(c, start, RegisterAll(c.env, toCreate[..i]))
      {
        assert toCreate[..i + 1][..i] == toCreate[..i];
        r := AddListener(toCreate[i]);
        if r.Failed? {
          RegisterAllStops(c, start, toCreate, i + 1);
          return;
        }
      }
      assert toCreate[..|toCreate|] == toCreate;
      r := Done;
    }

    method DropListener(lb: ElasticLoadBalancer) returns (r: Outcome<Error>)
      requires EnvOK(client.env)
      modifies client
      ensures client.After(r) == Exec(client.Context(), old(client.State()),
                                      Then(On(lb.name, ElbRemovePort(KeyOf(lb))),
                                           RulePlan(client.env, false, lb, lb.balancingTargets)))
    {
      r := client.DeleteElasticLoadBalancer(lb);
      if r.Failed? {
        ExecAfterFailure(client.Context(), client.After(r), RulePlan(client.env, false, lb, lb.balancingTargets));
        return;
      }
      r := ChangeSecurityGroupRules(false, lb, lb.balancingTargets);
    }

    method DeleteListed(toDelete: seq<ElasticLoadBalancer>) returns (r: Outcome<Error>)
      requires EnvOK(client.env)
      modifies client
      ensures client.After(r) == Exec(client.Context(), old(client.State()), DeleteAll(client.env, toDelete))
    {
      ghost var c, start := client.Context(), client.State();
      for i := 0 to |toDelete|
        invariant client.Context() == c
        invariant client.State() == Exec(c, start, DeleteAll(c.env, toDelete[..i]))
      {
        assert toDelete[..i + 1][..i] == toDelete[..i];
        r := DropListener(toDelete[i]);
        if r.Failed? {
          DeleteAllStops(c, start, toDelete, i + 1);
          return;
        }
      }
      assert toDelete[..|toDelete|] == toDelete;
      r := Done;
    }

    /** Registers the missing instances and allows their rules. */
    method AttachMissing(desireLB: ElasticLoadBalancer, currentLB: ElasticLoadBalancer) returns (r: Outcome<Error>)
      requires EnvOK(client.env)
      modifies client
      ensures client.After(r) == Exec(client.Context(), old(client.State()),
                                      AttachPlan(client.env, desireLB, currentLB))
    {
      r := Done;
      var toRegister := Difference(desireLB.balancingTargets, currentLB.balancingTargets, InstanceEquals);
      if |toRegister| > 0 {
        r := client.RegisterInstancesWithElasticLoadBalancer(currentLB, Some(toRegister));
        if r.Failed? {
          ExecAfterFailure(client.Context(), client.After(r), RulePlan(client.env, true, currentLB, toRegister));
          return;
        }
        r := ChangeSecurityGroupRules(true, currentLB, toRegister);
      }
    }

    /** Deregisters the surplus instances and denies their rules. */
    method DetachSurplus(desireLB: ElasticLoadBalancer, currentLB: ElasticLoadBalancer) returns (r: Outcome<Error>)
      requires EnvOK(client.env)
      modifies client
      ensures client.After(r) == Exec(client.Context(), old(client.State()),
                                      DetachPlan(client.env, desireLB, currentLB))
    {
      r := Done;
      var toDeregister := Difference(currentLB.balancingTargets, desireLB.balancingTargets, InstanceEquals);
      if |toDeregister| > 0 {
        r := client.DeregisterInstancesFromElasticLoadBalancer(currentLB, toDeregister);
        if r.Failed? {
          ExecAfterFailure(client.Context(), client.After(r), RulePlan(client.env, false, currentLB, toDeregister));
          return;
        }
        r := ChangeSecurityGroupRules(false, currentLB, toDeregister);
      }
    }

    method ReconcileListener(desire: seq<ElasticLoadBalancer>, currentLB: ElasticLoadBalancer)
      returns (r: Outcome<Error>)
      requires EnvOK(client.env)
      modifies client
      ensures client.After(r) == Exec(client.Context(), old(client.State()), PlanFor(client.env, desire, currentLB))
    {
      var desireLB := FindEqual(desire, currentLB, ElbEquals);
      if desireLB.None? {
        return Failed(TargetNotFound);
      }
      r := AttachMissing(desireLB.value, currentLB);
      if r.Failed? {
        ExecAfterFailure(client.Context(), client.After(r), DetachPlan(client.env, desireLB.value, currentLB));
        return;
      }
      r := DetachSurplus(desireLB.value, currentLB);
    }

    method ReconcileListeners(desire: seq<ElasticLoadBalancer>, current: seq<ElasticLoadBalancer>)
      returns (r: Outcome<Error>)
      requires EnvOK(client.env)
      modifies client
      ensures client.After(r) == Exec(client.Context(), old(client.State()), ReconcileAll(client.env, desire, current))
    {
      ghost var c, start := client.Context(), client.State();
      for i := 0 to |current|
        invariant client.Context() == c
        invariant client.State() == Exec(c, start, ReconcileAll(c.env, desire, current[..i]))
      {
        assert current[..i + 1][..i] == current[..i];
        r := ReconcileListener(desire, current[i]);
        if r.Failed? {
          ReconcileAllStops(c, start, desire, current, i + 1);
          return;
        }
      }
      assert current[..|current|] == current;
      r := Done;
    }

    /** All registrations, then all deletions, then a fresh look if anything was done. */
    method ChangePorts(name: string, desire: seq<ElasticLoadBalancer>, view: seq<ElasticLoadBalancer>)
      returns (r: Result<seq<ElasticLoadBalancer>, Error>)
      requires EnvOK(client.env) && name in client.world.elb && view == ViewOf(client.env, client.world, name)
      modifies client
      ensures client.After(OutcomeOf(r)) == Exec(client.Context(), old(client.State()),
                                                 PortPlan(client.env, name, desire, view))
      ensures r.Ok? ==> name in client.world.elb && r.value == ViewOf(client.env, client.world, name)
    {
      ghost var c, plan := client.Context(), PortPlan(client.env, name, desire, view);
      var toCreate := Difference(desire, view, ElbEquals);
      var e := RegisterMissing(toCreate);
      if e.Failed? {
        ExecAfterFailure(c, client.After(e), plan.first.next);
        ExecAfterFailure(c, client.After(e), plan.next);
        return Err(e.error);
      }
      var toDelete := Difference(view, desire, ElbEquals);
      e := DeleteListed(toDelete);
      if e.Failed? {
        ExecAfterFailure(c, client.After(e), plan.next);
        return Err(e.error);
      }
      if |toCreate| > 0 || |toDelete| > 0 {
        r := client.DescribeElasticLoadBalancers(name);
        return;
      }
      return Ok(view);
    }

    method UpdateAll(name: string, desire: seq<ElasticLoadBalancer>, view: seq<ElasticLoadBalancer>)
      returns (r: Result<string, Error>)
      requires EnvOK(client.env) && WorldOK(client.env, client.world) && name in client.world.elb
      requires view == ViewOf(client.env, client.world, name)
      modifies client
      ensures Finished(client.State(), r) ==
              UpdateFrom(client.Context(), old(client.State()), name, desire, view)
    {
      ghost var c, start := client.Context(), client.State();
      ghost var plan := PortPlan(c.env, name, desire, view);
      var current := ChangePorts(name, desire, view);
      ghost var r1 := client.After(OutcomeOf(current));
      if current.Err? {
        ExecAfterFailure(c, r1, ReconcileAll(c.env, desire, ViewOf(c.env, r1.world, name)));
        return Err(current.error);
      }
      ExecKeepsWorldOK(c, start, plan);
      var e := ReconcileListeners(desire, current.value);
      if e.Failed? {
        return Err(e.error);
      }
      return Ok(current.value[0].vip);
    }

    // -------------------------------------------------------------- whole operations

    /** Every desired listener gets the address and the interfaces of its balancer, in place. */
    method Place(desire: array<ElasticLoadBalancer>, vip: string, networkInterfaces: seq<NetworkInterface>)
      modifies desire
      ensures desire[..] == PlacedAll(old(desire[..]), vip, networkInterfaces)
    {
      ghost var was := desire[..];
      for i := 0 to desire.Length
        invariant forall j :: 0 <= j < i ==> desire[j] == Placed(was[j], vip, networkInterfaces)
        invariant forall j :: i <= j < desire.Length ==> desire[j] == was[j]
      {
        desire[i] := desire[i].(vip := vip, networkInterfaces := networkInterfaces);
      }
    }

    method EnsureElasticLoadBalancer(name: string, desire: array<ElasticLoadBalancer>)
      returns (r: Result<string, Error>)
      requires EnvOK(client.env) && WorldOK(client.env, client.world)
      requires forall d :: d in desire[..] ==> d.name == name
      modifies client, desire
      ensures Finished(client.State(), r) == EnsureElb(client.Context(), old(client.State()), name, old(desire[..]))
    {
      if desire.Length == 0 {
        return Err(NothingDesired);
      }
      var answer := client.DescribeElasticLoadBalancers(name);
      if answer.Err? {
        if answer.error == BalancerNotFound {
          r := CreateAll(name, desire[..]);
          return;
        }
        return Err(answer.error);
      }
      var current := answer.value;
      Place(desire, current[0].vip, current[0].networkInterfaces);
      r := UpdateAll(name, desire[..], current);
    }

    method EnsureElasticLoadBalancerDeleted(name: string) returns (r: Result<(), Error>)
      requires EnvOK(client.env)
      modifies client
      ensures Finished(client.State(), r) == DeleteElb(client.Context(), old(client.State()), name)
    {
      ghost var c := client.Context();
      var answer := client.DescribeElasticLoadBalancers(name);
      if answer.Err? {
        if answer.error == BalancerNotFound {
          return Ok(());
        }
        ExecAfterFailure(c, client.After(Failed(answer.error)),
                         DeleteAll(c.env, ViewOf(client.env, client.world, name)));
        return Err(answer.error);
      }
      if |answer.value| == 0 {
        return Ok(());
      }
      var e := DeleteListed(answer.value);
      if e.Failed? {
        return Err(e.error);
      }
      return Ok(());
    }
  }
}
