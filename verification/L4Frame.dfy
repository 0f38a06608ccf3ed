/** L4 operations see nothing but their balancer: without faults, whatever comes of them depends on it alone. */
module L4Frame {
  import opened Base
  import opened Cloud
  import opened Runs
  import opened Differences
  import opened L4Plan

  // ---------------------------------------------------------------- plans are about one balancer

  /** Requests about one balancer that ignore no error, and local failures. */
  ghost function OwnActions(name: string): Action -> bool {
    (a: Action) =>
      match a
      case Stop(_) => true
      case Ask(call, tolerates) =>
        match call
        case L4(n, _) => n == name && tolerates == None
        case _ => false
  }

  /** Related states show the same balancer. */
  ghost predicate Sees(name: string, rel: (World, World) -> bool) {
    forall w, w' :: rel(w, w') ==> Lookup(w.l4, name) == Lookup(w'.l4, name)
  }

  ghost predicate Named(name: string, lbs: seq<LoadBalancer>) {
    forall lb :: lb in lbs ==> lb.name == name
  }

  lemma OnOwn(name: string, op: L4Op)
    ensures AllActions(On(name, op), OwnActions(name))
  {
  }

  lemma StepsOwn(name: string, lb: LoadBalancer)
    requires lb.name == name
    ensures AllActions(CreateSteps(lb), OwnActions(name)) && AllActions(RegisterSteps(lb), OwnActions(name))
  {
    OnOwn(name, L4Create(KeyOf(lb)));
    OnOwn(name, L4AddPort(KeyOf(lb)));
    OnOwn(name, L4Health(KeyOf(lb), CheckOf(lb)));
    OnOwn(name, L4Attach(KeyOf(lb), Ids(lb.balancingTargets)));
    OnOwn(name, L4SetFilter(KeyOf(lb), Sent(Changes(lb.filters, true))));
    assert AllActions(FillSteps(lb).next, OwnActions(name));
    assert AllActions(FillSteps(lb), OwnActions(name));
  }

  lemma {:induction false} RegisterAllOwn(name: string, lbs: seq<LoadBalancer>)
    requires Named(name, lbs)
    ensures AllActions(RegisterAll(lbs), OwnActions(name))
  {
    if lbs != [] {
      RegisterAllOwn(name, lbs[..|lbs| - 1]);
      StepsOwn(name, lbs[|lbs| - 1]);
    }
  }

  lemma {:induction false} DeleteAllOwn(name: string, lbs: seq<LoadBalancer>)
    requires Named(name, lbs)
    ensures AllActions(DeleteAll(lbs), OwnActions(name))
  {
    if lbs != [] {
      DeleteAllOwn(name, lbs[..|lbs| - 1]);
    }
  }

  lemma PortPlanOwn(name: string, desire: seq<LoadBalancer>, current: seq<LoadBalancer>)
    requires Named(name, desire) && Named(name, current)
    ensures AllActions(PortPlan(name, desire, current), OwnActions(name))
  {
    forall lb | lb in ToCreate(desire, current) ensures lb in desire {
      MissingMembers(desire, current, LoadBalancerEquals, lb);
    }
    forall lb | lb in ToDelete(desire, current) ensures lb in current {
      MissingMembers(current, desire, LoadBalancerEquals, lb);
    }
    RegisterAllOwn(name, ToCreate(desire, current));
    DeleteAllOwn(name, ToDelete(desire, current));
  }

  lemma {:induction false} ReconcileAllOwn(name: string, desire: seq<LoadBalancer>, current: seq<LoadBalancer>)
    requires Named(name, current)
    ensures AllActions(ReconcileAll(desire, current), OwnActions(name))
  {
    if current != [] {
      ReconcileAllOwn(name, desire, current[..|current| - 1]);
      PlanForOwn(name, desire, current[|current| - 1]);
    }
  }

  lemma PlanForOwn(name: string, desire: seq<LoadBalancer>, lb: LoadBalancer)
    requires lb.name == name
    ensures AllActions(PlanFor(desire, lb), OwnActions(name))
  {
    if Find(desire, lb, LoadBalancerEquals).Some? {
      var d := Find(desire, lb, LoadBalancerEquals).value;
      assert AllActions(AttachPlan(d, lb), OwnActions(name)) && AllActions(DetachPlan(d, lb), OwnActions(name));
      assert AllActions(FilterPlan(d, lb), OwnActions(name));
    }
  }

  lemma ViewNamed(env: Env, w: World, name: string)
    ensures Named(name, ViewOf(env, w, name))
  {
  }

  // ---------------------------------------------------------------- runs stay alike

  /** Neither way of ensuring sets the clock back. */
  lemma WaysNotBefore(c: Ctx, r: Run, name: string, desire: seq<LoadBalancer>)
    requires desire != []
    ensures r.clock <= EnsureCreated(c, r.(out := Done), name, desire).run.clock
    ensures r.clock <= EnsureUpdated(c, r, name, desire).run.clock
  {
    ExecContinues(c, r.(out := Done), Then(CreateSteps(desire[0]), RegisterAll(desire[1..])));
    var plan := PortPlan(name, desire, ViewOf(c.env, r.world, name));
    ExecContinues(c, r, Then(plan, ReconcileAll(desire, ViewOf(c.env, Exec(c, r, plan).world, name))));
  }

  lemma EnsureNotBefore(c: Ctx, r: Run, name: string, desire: seq<LoadBalancer>)
    ensures r.clock <= EnsureL4(c, r, name, desire).run.clock
  {
    if desire != [] {
      ExecContinues(c, r, On(name, L4Look));
      WaysNotBefore(c, Exec(c, r, On(name, L4Look)), name, desire);
    }
  }

  /** A relation that no request about the balancer `name` can tell apart, and that shows that balancer. */
  ghost predicate Frame(env: Env, name: string, rel: (World, World) -> bool) {
    Simulates(env, OwnActions(name), rel) && Sees(name, rel)
  }

  lemma CreatedAlike(c: Ctx, r: Run, r': Run, name: string, desire: seq<LoadBalancer>, rel: (World, World) -> bool)
    requires Alike(r, r', rel) && Frame(c.env, name, rel) && Named(name, desire) && desire != []
    requires Quiet(c, r, EnsureCreated(c, r, name, desire)) && Quiet(c, r', EnsureCreated(c, r', name, desire))
    ensures AlikeEnd(EnsureCreated(c, r, name, desire), EnsureCreated(c, r', name, desire), rel)
  {
    var plan1, plan2 := CreateSteps(desire[0]), RegisterAll(desire[1..]);
    var r1, r1' := Exec(c, r, plan1), Exec(c, r', plan1);
    var end, end' := Exec(c, r1, plan2).clock, Exec(c, r1', plan2).clock;
    StepsOwn(name, desire[0]);
    RegisterAllOwn(name, desire[1..]);
    ExecContinues(c, r1, plan2);
    ExecContinues(c, r1', plan2);
    ExecSimulates(c, r, end, r', end', plan1, OwnActions(name), rel);
    ExecSimulates(c, r1, end, r1', end', plan2, OwnActions(name), rel);
    assert VipIn(r1.world, name) == VipIn(r1'.world, name) by {
      assert Lookup(r1.world.l4, name) == Lookup(r1'.world.l4, name);
    }
  }

  lemma SameView(env: Env, w: World, w': World, name: string, rel: (World, World) -> bool)
    requires Sees(name, rel) && rel(w, w')
    ensures ViewOf(env, w, name) == ViewOf(env, w', name)
  {
    assert Lookup(w.l4, name) == Lookup(w'.l4, name);
  }

  lemma UpdatedAlike(c: Ctx, r: Run, r': Run, name: string, desire: seq<LoadBalancer>, rel: (World, World) -> bool)
    requires Alike(r, r', rel) && Frame(c.env, name, rel) && Named(name, desire)
    requires Quiet(c, r, EnsureUpdated(c, r, name, desire)) && Quiet(c, r', EnsureUpdated(c, r', name, desire))
    ensures AlikeEnd(EnsureUpdated(c, r, name, desire), EnsureUpdated(c, r', name, desire), rel)
  {
    var view := ViewOf(c.env, r.world, name);
    var plan1 := PortPlan(name, desire, view);
    var r1, r1' := Exec(c, r, plan1), Exec(c, r', plan1);
    var current, current' := ViewOf(c.env, r1.world, name), ViewOf(c.env, r1'.world, name);
    var end, end' := Exec(c, r1, ReconcileAll(desire, current)).clock,
                     Exec(c, r1', ReconcileAll(desire, current')).clock;
    SameView(c.env, r.world, r'.world, name, rel);
    ViewNamed(c.env, r.world, name);
    PortPlanOwn(name, desire, view);
    ExecContinues(c, r1, ReconcileAll(desire, current));
    ExecContinues(c, r1', ReconcileAll(desire, current'));
    ExecSimulates(c, r, end, r', end', plan1, OwnActions(name), rel);
    SameView(c.env, r1.world, r1'.world, name, rel);
    ViewNamed(c.env, r1.world, name);
    ReconcileAllOwn(name, desire, current);
    ExecSimulates(c, r1, end, r1', end', ReconcileAll(desire, current), OwnActions(name), rel);
  }

  /** Two runs of the same operation from states that look alike to it end alike, with the same answer. */
  lemma EnsureAlike(c: Ctx, r: Run, r': Run, name: string, desire: seq<LoadBalancer>, rel: (World, World) -> bool)
    requires Alike(r, r', rel) && Frame(c.env, name, rel) && Named(name, desire)
    requires Quiet(c, r, EnsureL4(c, r, name, desire)) && Quiet(c, r', EnsureL4(c, r', name, desire))
    ensures AlikeEnd(EnsureL4(c, r, name, desire), EnsureL4(c, r', name, desire), rel)
  {
    if desire != [] {
      var look := On(name, L4Look);
      var r1, r1' := Exec(c, r, look), Exec(c, r', look);
      WaysNotBefore(c, r1, name, desire);
      WaysNotBefore(c, r1', name, desire);
      ExecSimulates(c, r, EnsureL4(c, r, name, desire).run.clock, r', EnsureL4(c, r', name, desire).run.clock, look,
                    OwnActions(name), rel);
      if r1.out == Failed(BalancerNotFound) {
        CreatedAlike(c, r1.(out := Done), r1'.(out := Done), name, desire, rel);
      } else if r1.out.Done? {
        UpdatedAlike(c, r1, r1', name, desire, rel);
      }
    }
  }

  lemma DeleteAlike(c: Ctx, r: Run, r': Run, name: string, rel: (World, World) -> bool)
    requires Alike(r, r', rel) && Frame(c.env, name, rel)
    requires Quiet(c, r, DeleteL4(c, r, name)) && Quiet(c, r', DeleteL4(c, r', name))
    ensures AlikeEnd(DeleteL4(c, r, name), DeleteL4(c, r', name), rel)
  {
    var look := On(name, L4Look);
    var r1, r1' := Exec(c, r, look), Exec(c, r', look);
    var plan, plan' := DeleteAll(ViewOf(c.env, r1.world, name)), DeleteAll(ViewOf(c.env, r1'.world, name));
    ExecContinues(c, r1, plan);
    ExecContinues(c, r1', plan');
    ExecSimulates(c, r, DeleteL4(c, r, name).run.clock, r', DeleteL4(c, r', name).run.clock, look, OwnActions(name),
                  rel);
    SameView(c.env, r1.world, r1'.world, name, rel);
    ViewNamed(c.env, r1.world, name);
    DeleteAllOwn(name, ViewOf(c.env, r1.world, name));
    if r1.out != Failed(BalancerNotFound) {
      ExecSimulates(c, r1, Exec(c, r1, plan).clock, r1', Exec(c, r1', plan').clock, plan, OwnActions(name), rel);
    }
  }
}
