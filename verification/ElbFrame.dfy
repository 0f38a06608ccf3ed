/** Elastic operations see nothing but their balancer: without faults, whatever comes of them depends on it alone. */
module ElbFrame {
  import opened Base
  import opened Cloud
  import opened Runs
  import opened Differences
  import opened Rules
  import opened ElbPlan
  import opened ElbTheorems

  // ---------------------------------------------------------------- plans are about one balancer and rules

  /** Requests about one balancer and about rules, as the plans make them, and local failures. */
  ghost function OwnActions(name: string): Action -> bool {
    (a: Action) =>
      match a
      case Stop(_) => true
      case Ask(call, tolerates) =>
        match call
        case Elb(n, _) => n == name && tolerates == None
        case ListGroups => tolerates == None
        case WaitGroup(_) => tolerates == None
        case Authorize(_, _) => tolerates == Some(RuleDuplicate)
        case Revoke(_, _) => tolerates == Some(RuleNotFound)
        case _ => false
  }

  /** Related states show the same balancer. */
  ghost predicate Sees(name: string, rel: (World, World) -> bool) {
    forall w, w' :: rel(w, w') ==> Lookup(w.elb, name) == Lookup(w'.elb, name)
  }

  ghost predicate Named(name: string, lbs: seq<ElasticLoadBalancer>) {
    forall lb :: lb in lbs ==> lb.name == name
  }

  lemma {:induction false} ChangeInGroupOwn(name: string, add: bool, g: string, rules: seq<SecurityGroupRule>)
    ensures AllActions(ChangeInGroup(add, g, rules), OwnActions(name))
  {
    if rules != [] {
      ChangeInGroupOwn(name, add, g, rules[..|rules| - 1]);
      assert AllActions(ChangeRule(add, g, Encode(rules[|rules| - 1])), OwnActions(name));
    }
  }

  lemma {:induction false} ChangeInGroupsOwn(name: string, add: bool, groups: seq<string>,
                                             rules: seq<SecurityGroupRule>)
    ensures AllActions(ChangeInGroups(add, groups, rules), OwnActions(name))
  {
    if groups != [] {
      ChangeInGroupsOwn(name, add, groups[..|groups| - 1], rules);
      ChangeInGroupOwn(name, add, groups[|groups| - 1], rules);
    }
  }

  lemma RulePlanOwn(env: Env, name: string, add: bool, lb: ElasticLoadBalancer, instances: seq<Instance>)
    ensures AllActions(RulePlan(env, add, lb, instances), OwnActions(name))
  {
    if RulesOf(lb).Ok? {
      ChangeInGroupsOwn(name, add, GroupsOf(env, Ids(instances)), RulesOf(lb).value);
    }
  }

  lemma StepsOwn(name: string, lb: ElasticLoadBalancer)
    requires lb.name == name
    ensures AllActions(CreateSteps(lb), OwnActions(name)) && AllActions(RegisterSteps(lb), OwnActions(name))
  {
    assert AllActions(WaitApplied(name), OwnActions(name));
    assert AllActions(FillSteps(lb).next.first, OwnActions(name))
      && AllActions(FillSteps(lb).next.next, OwnActions(name));
    assert AllActions(FillSteps(lb), OwnActions(name));
  }

  lemma {:induction false} RegisterAllOwn(env: Env, name: string, lbs: seq<ElasticLoadBalancer>)
    requires Named(name, lbs)
    ensures AllActions(RegisterAll(env, lbs), OwnActions(name))
  {
    if lbs != [] {
      var lb := lbs[|lbs| - 1];
      RegisterAllOwn(env, name, lbs[..|lbs| - 1]);
      StepsOwn(name, lb);
      RulePlanOwn(env, name, true, lb, lb.balancingTargets);
    }
  }

  lemma {:induction false} DeleteAllOwn(env: Env, name: string, lbs: seq<ElasticLoadBalancer>)
    requires Named(name, lbs)
    ensures AllActions(DeleteAll(env, lbs), OwnActions(name))
  {
    if lbs != [] {
      var lb := lbs[|lbs| - 1];
      DeleteAllOwn(env, name, lbs[..|lbs| - 1]);
      RulePlanOwn(env, name, false, lb, lb.balancingTargets);
    }
  }

  lemma PortPlanOwn(env: Env, name: string, desire: seq<ElasticLoadBalancer>, current: seq<ElasticLoadBalancer>)
    requires Named(name, desire) && Named(name, current)
    ensures AllActions(PortPlan(env, name, desire, current), OwnActions(name))
  {
    forall lb | lb in ToCreate(desire, current) ensures lb in desire {
      MissingMembers(desire, current, ElbEquals, lb);
    }
    forall lb | lb in ToDelete(desire, current) ensures lb in current {
      MissingMembers(current, desire, ElbEquals, lb);
    }
    RegisterAllOwn(env, name, ToCreate(desire, current));
    DeleteAllOwn(env, name, ToDelete(desire, current));
  }

  lemma PlanForOwn(env: Env, name: string, desire: seq<ElasticLoadBalancer>, lb: ElasticLoadBalancer)
    requires lb.name == name
    ensures AllActions(PlanFor(env, desire, lb), OwnActions(name))
  {
    if Find(desire, lb, ElbEquals).Some? {
      var d := Find(desire, lb, ElbEquals).value;
      RulePlanOwn(env, name, true, lb, Missing(d.balancingTargets, lb.balancingTargets, InstanceEquals));
      RulePlanOwn(env, name, false, lb, Missing(lb.balancingTargets, d.balancingTargets, InstanceEquals));
      assert AllActions(AttachPlan(env, d, lb), OwnActions(name));
      assert AllActions(DetachPlan(env, d, lb), OwnActions(name));
    }
  }

  lemma {:induction false} ReconcileAllOwn(env: Env, name: string, desire: seq<ElasticLoadBalancer>,
                                           current: seq<ElasticLoadBalancer>)
    requires Named(name, current)
    ensures AllActions(ReconcileAll(env, desire, current), OwnActions(name))
  {
    if current != [] {
      ReconcileAllOwn(env, name, desire, current[..|current| - 1]);
      PlanForOwn(env, name, desire, current[|current| - 1]);
    }
  }

  lemma ViewNamed(env: Env, w: World, name: string)
    ensures Named(name, ViewOf(env, w, name))
  {
  }

  // ---------------------------------------------------------------- runs stay alike

  lemma WaysNotBefore(c: Ctx, r: Run, name: string, desire: seq<ElasticLoadBalancer>)
    requires desire != []
    ensures r.clock <= EnsureCreated(c, r.(out := Done), name, desire).run.clock
    ensures r.clock <= EnsureUpdated(c, r, name, desire).run.clock
  {
    CreateContinues(c, r.(out := Done), name, desire);
    UpdateContinues(c, r, name, desire);
  }

  lemma EnsureNotBefore(c: Ctx, r: Run, name: string, desire: seq<ElasticLoadBalancer>)
    ensures r.clock <= EnsureElb(c, r, name, desire).run.clock
  {
    if desire != [] {
      ExecContinues(c, r, On(name, ElbLook));
      WaysNotBefore(c, Exec(c, r, On(name, ElbLook)), name, desire);
    }
  }

  /** What follows the creation of the first listener. */
  function RulesAndPorts(c: Ctx, r: Run, name: string, desire: seq<ElasticLoadBalancer>): Plan
    requires desire != []
  {
    var view := ViewOf(c.env, r.world, name);
    var placed := PlacedAll(desire, FirstVip(view), FirstNics(view));
    Then(RulePlan(c.env, true, placed[0], placed[0].balancingTargets), RegisterAll(c.env, placed[1..]))
  }

  lemma RulesAndPortsOwn(c: Ctx, r: Run, name: string, desire: seq<ElasticLoadBalancer>)
    requires Named(name, desire) && desire != []
    ensures AllActions(RulesAndPorts(c, r, name, desire), OwnActions(name))
  {
    var view := ViewOf(c.env, r.world, name);
    var placed := PlacedAll(desire, FirstVip(view), FirstNics(view));
    RulePlanOwn(c.env, name, true, placed[0], placed[0].balancingTargets);
    RegisterAllOwn(c.env, name, placed[1..]);
  }

  /** A relation that no request of the plans can tell apart, and that shows the balancer `name`. */
  ghost predicate Frame(env: Env, name: string, rel: (World, World) -> bool) {
    Simulates(env, OwnActions(name), rel) && Sees(name, rel)
  }

  lemma SameView(env: Env, w: World, w': World, name: string, rel: (World, World) -> bool)
    requires Sees(name, rel) && rel(w, w')
    ensures ViewOf(env, w, name) == ViewOf(env, w', name)
  {
    assert Lookup(w.elb, name) == Lookup(w'.elb, name);
  }

  lemma CreatedAlike(c: Ctx, r: Run, r': Run, name: string, desire: seq<ElasticLoadBalancer>,
                     rel: (World, World) -> bool)
    requires Alike(r, r', rel) && Frame(c.env, name, rel) && Named(name, desire) && desire != []
    requires Quiet(c, r, EnsureCreated(c, r, name, desire)) && Quiet(c, r', EnsureCreated(c, r', name, desire))
    ensures AlikeEnd(EnsureCreated(c, r, name, desire), EnsureCreated(c, r', name, desire), rel)
  {
    var plan1 := Then(CreateSteps(desire[0]), On(name, ElbLook));
    var r1, r1' := Exec(c, r, plan1), Exec(c, r', plan1);
    var end, end' := EnsureCreated(c, r, name, desire).run.clock, EnsureCreated(c, r', name, desire).run.clock;
    var plan2, plan2' := RulesAndPorts(c, r1, name, desire), RulesAndPorts(c, r1', name, desire);
    StepsOwn(name, desire[0]);
    assert AllActions(On(name, ElbLook), OwnActions(name));
    ExecContinues(c, r1, plan2);
    ExecContinues(c, r1', plan2');
    ExecSimulates(c, r, end, r', end', plan1, OwnActions(name), rel);
    SameView(c.env, r1.world, r1'.world, name, rel);
    RulesAndPortsOwn(c, r1, name, desire);
    ExecSimulates(c, r1, end, r1', end', plan2, OwnActions(name), rel);
  }

  lemma UpdatedAlike(c: Ctx, r: Run, r': Run, name: string, desire: seq<ElasticLoadBalancer>,
                     rel: (World, World) -> bool)
    requires Alike(r, r', rel) && Frame(c.env, name, rel) && Named(name, desire)
    requires Quiet(c, r, EnsureUpdated(c, r, name, desire)) && Quiet(c, r', EnsureUpdated(c, r', name, desire))
    ensures AlikeEnd(EnsureUpdated(c, r, name, desire), EnsureUpdated(c, r', name, desire), rel)
  {
    var view := ViewOf(c.env, r.world, name);
    var placed := PlacedAll(desire, FirstVip(view), FirstNics(view));
    var plan1 := PortPlan(c.env, name, placed, view);
    var r1, r1' := Exec(c, r, plan1), Exec(c, r', plan1);
    var plan2, plan2' := ReconcileAll(c.env, placed, ViewOf(c.env, r1.world, name)),
                         ReconcileAll(c.env, placed, ViewOf(c.env, r1'.world, name));
    var end, end' := Exec(c, r1, plan2).clock, Exec(c, r1', plan2').clock;
    SameView(c.env, r.world, r'.world, name, rel);
    ViewNamed(c.env, r.world, name);
    PortPlanOwn(c.env, name, placed, view);
    ExecContinues(c, r1, plan2);
    ExecContinues(c, r1', plan2');
    ExecSimulates(c, r, end, r', end', plan1, OwnActions(name), rel);
    SameView(c.env, r1.world, r1'.world, name, rel);
    ViewNamed(c.env, r1.world, name);
    ReconcileAllOwn(c.env, name, placed, ViewOf(c.env, r1.world, name));
    ExecSimulates(c, r1, end, r1', end', plan2, OwnActions(name), rel);
  }

  /** Two runs of the same operation from states that look alike to it end alike, with the same answer. */
  lemma EnsureAlike(c: Ctx, r: Run, r': Run, name: string, desire: seq<ElasticLoadBalancer>,
                    rel: (World, World) -> bool)
    requires Alike(r, r', rel) && Frame(c.env, name, rel) && Named(name, desire)
    requires Quiet(c, r, EnsureElb(c, r, name, desire)) && Quiet(c, r', EnsureElb(c, r', name, desire))
    ensures AlikeEnd(EnsureElb(c, r, name, desire), EnsureElb(c, r', name, desire), rel)
  {
    if desire != [] {
      var look := On(name, ElbLook);
      var r1, r1' := Exec(c, r, look), Exec(c, r', look);
      WaysNotBefore(c, r1, name, desire);
      WaysNotBefore(c, r1', name, desire);
      ExecSimulates(c, r, EnsureElb(c, r, name, desire).run.clock, r', EnsureElb(c, r', name, desire).run.clock, look,
                    OwnActions(name), rel);
      if r1.out == Failed(BalancerNotFound) {
        CreatedAlike(c, r1.(out := Done), r1'.(out := Done), name, desire, rel);
      } else if r1.out.Done? {
        UpdatedAlike(c, r1, r1', name, desire, rel);
      }
    }
  }

  lemma DeleteAlike(c: Ctx, r: Run, r': Run, name: string, rel: (World, World) -> bool)
    requires Alike(r, r', rel) && Frame(c.env, name, rel)
    requires Quiet(c, r, DeleteElb(c, r, name)) && Quiet(c, r', DeleteElb(c, r', name))
    ensures AlikeEnd(DeleteElb(c, r, name), DeleteElb(c, r', name), rel)
  {
    var look := On(name, ElbLook);
    var r1, r1' := Exec(c, r, look), Exec(c, r', look);
    var plan, plan' := DeleteAll(c.env, ViewOf(c.env, r1.world, name)),
                       DeleteAll(c.env, ViewOf(c.env, r1'.world, name));
    ExecContinues(c, r1, plan);
    ExecContinues(c, r1', plan');
    ExecSimulates(c, r, DeleteElb(c, r, name).run.clock, r', DeleteElb(c, r', name).run.clock, look,
                  OwnActions(name), rel);
    SameView(c.env, r1.world, r1'.world, name, rel);
    ViewNamed(c.env, r1.world, name);
    DeleteAllOwn(c.env, name, ViewOf(c.env, r1.world, name));
    if r1.out != Failed(BalancerNotFound) {
      ExecSimulates(c, r1, Exec(c, r1, plan).clock, r1', Exec(c, r1', plan').clock, plan, OwnActions(name), rel);
    }
  }
}
