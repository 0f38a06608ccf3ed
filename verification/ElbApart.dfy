/** Elastic balancers do not interfere: neither with each other's listeners nor with their rules. */
module ElbApart {
  import opened Base
  import opened Cloud
  import opened Runs
  import opened Differences
  import opened Rules
  import opened ElbPlan
  import opened ElbIdeal
  import opened ElbRuns
  import opened ElbSafety

  // ---------------------------------------------------------------- a balancer's own permissions

  /** The addresses from which a balancer reaches its targets: its VIP or, with two arms, the other arm. */
  function Addresses(vip: string, nics: seq<NetworkInterface>): set<string> {
    if |nics| == 1 then {vip} + Elems(nics[0].systemIpAddresses)
    else if |nics| == 2 then
      var other := if nics[0].isVipNetwork then nics[1] else nics[0];
      {other.ipAddress} + Elems(other.systemIpAddresses)
    else {}
  }

  predicate FromOnly(p: Permission, addresses: set<string>) {
    p.ipRanges != [] && forall a :: a in p.ipRanges ==> a in addresses
  }

  /** All permissions of a listener let in nothing but its balancer. */
  lemma PermissionsFromOwn(lb: ElasticLoadBalancer, p: Permission)
    requires p in Permissions(lb)
    ensures FromOnly(p, Addresses(lb.vip, lb.networkInterfaces))
  {
  }

  // ---------------------------------------------------------------- the requests of a run

  /** The address and the interfaces of a balancer. */
  datatype Site = Site(vip: string, nics: seq<NetworkInterface>)

  function SiteOf(env: Env, w: World, name: string, desire: seq<ElasticLoadBalancer>): Site
    requires desire != []
  {
    if name in w.elb then Site(w.elb[name].vip, w.elb[name].nics)
    else Site(env.vipOf(name), Assigned(env, desire[0].networkInterfaces))
  }

  /** Requests about one balancer, and about rules that let in only what it sends. */
  function OwnCalls(env: Env, name: string, site: Site): Call -> bool {
    (call: Call) =>
      match call
      case Elb(n, op) =>
        n == name && (op.ElbCreate? ==> env.vipOf(name) == site.vip && Assigned(env, op.nics) == site.nics)
      case ListGroups => true
      case WaitGroup(_) => true
      case Authorize(_, p) => FromOnly(p, Addresses(site.vip, site.nics))
      case Revoke(_, p) => FromOnly(p, Addresses(site.vip, site.nics))
      case _ => false
  }

  /** Since `from` only the balancer `name` changed, and only permissions for what it sends. */
  ghost predicate Apart(w: World, from: World, name: string, site: Site) {
    && w.l4 == from.l4
    && (forall n :: n != name ==> Lookup(w.elb, n) == Lookup(from.elb, n))
    && (name in w.elb ==> w.elb[name].vip == site.vip && w.elb[name].nics == site.nics)
    && w.rules.Keys == from.rules.Keys
    && (forall g, p :: g in w.rules && !FromOnly(p, Addresses(site.vip, site.nics)) ==>
          (p in w.rules[g] <==> p in from.rules[g]))
  }

  ghost function ApartFrom(from: World, name: string, site: Site): World -> bool {
    (w: World) => Apart(w, from, name, site)
  }

  lemma OwnElbStaysApart(env: Env, w: World, from: World, name: string, site: Site, op: ElbOp)
    requires Apart(w, from, name, site) && Apply(env, w, Elb(name, op)).Ok?
    requires op.ElbCreate? ==> env.vipOf(name) == site.vip && Assigned(env, op.nics) == site.nics
    ensures Apart(Apply(env, w, Elb(name, op)).value, from, name, site)
  {
  }

  lemma OwnCallsStayApart(env: Env, from: World, name: string, site: Site)
    ensures Preserved(env, OwnCalls(env, name, site), ApartFrom(from, name, site))
  {
    forall w, call | OwnCalls(env, name, site)(call) && Apart(w, from, name, site) && Apply(env, w, call).Ok?
      ensures Apart(Apply(env, w, call).value, from, name, site)
    {
      if call.Elb? {
        OwnElbStaysApart(env, w, from, name, site, call.elbop);
      }
    }
  }

  // ---------------------------------------------------------------- plans make only such requests

  /** Listeners of the balancer `name` at its place. */
  ghost predicate At(name: string, site: Site, lbs: seq<ElasticLoadBalancer>) {
    forall lb :: lb in lbs ==> lb.name == name && lb.vip == site.vip && lb.networkInterfaces == site.nics
  }

  lemma RulePlanOwn(env: Env, name: string, site: Site, add: bool, lb: ElasticLoadBalancer, instances: seq<Instance>)
    requires RulesOf(lb).Ok? ==> lb.vip == site.vip && lb.networkInterfaces == site.nics
    ensures AllCalls(RulePlan(env, add, lb, instances), OwnCalls(env, name, site))
  {
    var ids := Elems(Ids(instances));
    RulePlanCalls(env, add, lb, instances);
    forall p | p in Permissions(lb) ensures FromOnly(p, Addresses(site.vip, site.nics)) {
      PermissionsFromOwn(lb, p);
    }
    AllCallsWeaken(RulePlan(env, add, lb, instances), RuleCalls(env, add, ids, Permissions(lb)),
                   OwnCalls(env, name, site));
  }

  lemma StepsOwn(env: Env, name: string, site: Site, lb: ElasticLoadBalancer)
    requires lb.name == name
    ensures AllCalls(RegisterSteps(lb), OwnCalls(env, name, site))
    ensures env.vipOf(name) == site.vip && Assigned(env, lb.networkInterfaces) == site.nics ==>
              AllCalls(CreateSteps(lb), OwnCalls(env, name, site))
  {
    var ok := OwnCalls(env, name, site);
    assert AllCalls(FillSteps(lb), ok) by {
      assert AllCalls(WaitApplied(name), ok);
      assert AllCalls(FillSteps(lb).next.first, ok) && AllCalls(FillSteps(lb).next.next, ok);
    }
  }

  lemma {:induction false} RegisterAllOwn(env: Env, name: string, site: Site, lbs: seq<ElasticLoadBalancer>)
    requires forall lb :: lb in lbs ==>
               lb.name == name && (RulesOf(lb).Ok? ==> lb.vip == site.vip && lb.networkInterfaces == site.nics)
    ensures AllCalls(RegisterAll(env, lbs), OwnCalls(env, name, site))
  {
    if lbs != [] {
      var lb := lbs[|lbs| - 1];
      RegisterAllOwn(env, name, site, lbs[..|lbs| - 1]);
      StepsOwn(env, name, site, lb);
      RulePlanOwn(env, name, site, true, lb, lb.balancingTargets);
    }
  }

  lemma {:induction false} DeleteAllOwn(env: Env, name: string, site: Site, lbs: seq<ElasticLoadBalancer>)
    requires At(name, site, lbs)
    ensures AllCalls(DeleteAll(env, lbs), OwnCalls(env, name, site))
  {
    if lbs != [] {
      var lb := lbs[|lbs| - 1];
      DeleteAllOwn(env, name, site, lbs[..|lbs| - 1]);
      RulePlanOwn(env, name, site, false, lb, lb.balancingTargets);
    }
  }

  lemma PlanForOwn(env: Env, name: string, site: Site, desire: seq<ElasticLoadBalancer>, lb: ElasticLoadBalancer)
    requires At(name, site, [lb])
    ensures AllCalls(PlanFor(env, desire, lb), OwnCalls(env, name, site))
  {
    assert lb in [lb];
    if Find(desire, lb, ElbEquals).Some? {
      var d := Find(desire, lb, ElbEquals).value;
      RulePlanOwn(env, name, site, true, lb, Missing(d.balancingTargets, lb.balancingTargets, InstanceEquals));
      RulePlanOwn(env, name, site, false, lb, Missing(lb.balancingTargets, d.balancingTargets, InstanceEquals));
      assert AllCalls(AttachPlan(env, d, lb), OwnCalls(env, name, site));
      assert AllCalls(DetachPlan(env, d, lb), OwnCalls(env, name, site));
    }
  }

  lemma {:induction false} ReconcileAllOwn(env: Env, name: string, site: Site, desire: seq<ElasticLoadBalancer>,
                                           lbs: seq<ElasticLoadBalancer>)
    requires At(name, site, lbs)
    ensures AllCalls(ReconcileAll(env, desire, lbs), OwnCalls(env, name, site))
  {
    if lbs != [] {
      ReconcileAllOwn(env, name, site, desire, lbs[..|lbs| - 1]);
      PlanForOwn(env, name, site, desire, lbs[|lbs| - 1]);
    }
  }

  lemma ViewAt(env: Env, w: World, from: World, name: string, site: Site)
    requires Apart(w, from, name, site)
    ensures At(name, site, ViewOf(env, w, name))
  {
  }

  lemma PortPlanOwn(env: Env, name: string, site: Site, desire: seq<ElasticLoadBalancer>,
                    view: seq<ElasticLoadBalancer>)
    requires At(name, site, desire) && At(name, site, view)
    ensures AllCalls(PortPlan(env, name, desire, view), OwnCalls(env, name, site))
  {
    forall lb | lb in ToCreate(desire, view) ensures lb in desire {
      MissingMembers(desire, view, ElbEquals, lb);
    }
    forall lb | lb in ToDelete(desire, view) ensures lb in view {
      MissingMembers(view, desire, ElbEquals, lb);
    }
    RegisterAllOwn(env, name, site, ToCreate(desire, view));
    DeleteAllOwn(env, name, site, ToDelete(desire, view));
    assert AllCalls(On(name, ElbLook), OwnCalls(env, name, site));
  }

  // ---------------------------------------------------------------- whole operations

  /** Everything a run did between `r` and `r'` stayed apart from the rest of `from`. */
  ghost predicate StaysApart(r: Run, r': Run, from: World, name: string, site: Site) {
    && Continues(r, r') && Apart(r'.world, from, name, site)
    && AllStates(NewEvents(r, r'), ApartFrom(from, name, site))
  }

  lemma ExecApart(c: Ctx, r: Run, plan: Plan, from: World, name: string, site: Site)
    requires AllCalls(plan, OwnCalls(c.env, name, site)) && Apart(r.world, from, name, site)
    ensures StaysApart(r, Exec(c, r, plan), from, name, site)
  {
    OwnCallsStayApart(c.env, from, name, site);
    ExecInvariant(c, r, plan, OwnCalls(c.env, name, site), ApartFrom(from, name, site));
    ExecContinues(c, r, plan);
  }

  lemma ApartThen(r0: Run, r1: Run, r2: Run, from: World, name: string, site: Site)
    requires StaysApart(r0, r1, from, name, site) && StaysApart(r1, r2, from, name, site)
    ensures StaysApart(r0, r2, from, name, site)
  {
    ContinuesTransitive(r0, r1, r2);
  }

  lemma UpdateStaysApart(c: Ctx, r: Run, from: World, name: string, desire: seq<ElasticLoadBalancer>, site: Site)
    requires Apart(r.world, from, name, site) && name in r.world.elb && forall d :: d in desire ==> d.name == name
    requires r.world.elb[name].order != []
    ensures StaysApart(r, EnsureUpdated(c, r, name, desire).run, from, name, site)
  {
    var view := ViewOf(c.env, r.world, name);
    var placed := PlacedAll(desire, FirstVip(view), FirstNics(view));
    var plan := PortPlan(c.env, name, placed, view);
    var r1 := Exec(c, r, plan);
    ViewAt(c.env, r.world, from, name, site);
    PortPlanOwn(c.env, name, site, placed, view);
    ExecApart(c, r, plan, from, name, site);
    ViewAt(c.env, r1.world, from, name, site);
    ReconcileAllOwn(c.env, name, site, placed, ViewOf(c.env, r1.world, name));
    ExecApart(c, r1, ReconcileAll(c.env, placed, ViewOf(c.env, r1.world, name)), from, name, site);
    ApartThen(r, r1, EnsureUpdated(c, r, name, desire).run, from, name, site);
  }

  /** What the creation learns about the place of the new balancer is right, or it has no rules to send. */
  lemma LearnedPlace(env: Env, w: World, from: World, name: string, desire: seq<ElasticLoadBalancer>, site: Site)
    requires Apart(w, from, name, site)
    ensures var view := ViewOf(env, w, name);
            forall lb :: lb in PlacedAll(desire, FirstVip(view), FirstNics(view)) && RulesOf(lb).Ok? ==>
              lb.vip == site.vip && lb.networkInterfaces == site.nics
  {
  }

  lemma CreateStaysApart(c: Ctx, r: Run, from: World, name: string, desire: seq<ElasticLoadBalancer>, site: Site)
    requires Apart(r.world, from, name, site) && desire != [] && forall d :: d in desire ==> d.name == name
    requires site == Site(c.env.vipOf(name), Assigned(c.env, desire[0].networkInterfaces))
    ensures StaysApart(r, EnsureCreated(c, r, name, desire).run, from, name, site)
  {
    var plan1 := Then(CreateSteps(desire[0]), On(name, ElbLook));
    var r1 := Exec(c, r, plan1);
    var view := ViewOf(c.env, r1.world, name);
    var placed := PlacedAll(desire, FirstVip(view), FirstNics(view));
    StepsOwn(c.env, name, site, desire[0]);
    assert AllCalls(On(name, ElbLook), OwnCalls(c.env, name, site));
    ExecApart(c, r, plan1, from, name, site);
    LearnedPlace(c.env, r1.world, from, name, desire, site);
    assert placed[0] in placed;
    RulePlanOwn(c.env, name, site, true, placed[0], placed[0].balancingTargets);
    var r2 := Exec(c, r1, RulePlan(c.env, true, placed[0], placed[0].balancingTargets));
    ExecApart(c, r1, RulePlan(c.env, true, placed[0], placed[0].balancingTargets), from, name, site);
    forall lb | lb in placed[1..] ensures lb in placed && lb.name == name {
      var i :| 0 <= i < |desire| && placed[i] == lb;
      assert desire[i] in desire;
    }
    RegisterAllOwn(c.env, name, site, placed[1..]);
    ExecApart(c, r2, RegisterAll(c.env, placed[1..]), from, name, site);
    ApartThen(r, r1, r2, from, name, site);
    ApartThen(r, r2, Exec(c, r2, RegisterAll(c.env, placed[1..])), from, name, site);
  }

  /**
   * In every state of every run, failing runs included, nothing differs from the start but the
   * one balancer, whose address and interfaces never change, and permissions that let in what
   * that balancer sends.
   */
  lemma RunsStayApart(c: Ctx, r: Run, name: string, desire: seq<ElasticLoadBalancer>)
    requires WorldOK(c.env, r.world) && r.out.Done? && desire != [] && forall d :: d in desire ==> d.name == name
    ensures StaysApart(r, EnsureElb(c, r, name, desire).run, r.world, name, SiteOf(c.env, r.world, name, desire))
  {
    var site, r1 := SiteOf(c.env, r.world, name, desire), Exec(c, r, On(name, ElbLook));
    var f := EnsureElb(c, r, name, desire);
    LookIdeal(c, r, name);
    assert AllCalls(On(name, ElbLook), OwnCalls(c.env, name, site));
    ExecApart(c, r, On(name, ElbLook), r.world, name, site);
    if r1.out == Failed(BalancerNotFound) {
      CreateStaysApart(c, r1.(out := Done), r.world, name, desire, site);
      ApartThen(r, r1.(out := Done), f.run, r.world, name, site);
    } else if r1.out.Done? {
      UpdateStaysApart(c, r1, r.world, name, desire, site);
      ApartThen(r, r1, f.run, r.world, name, site);
    }
  }

  /** Deletions stay apart in the same way. */
  lemma DeletionsStayApart(c: Ctx, r: Run, name: string)
    requires r.out.Done? && name in r.world.elb
    ensures StaysApart(r, DeleteElb(c, r, name).run, r.world, name, Site(r.world.elb[name].vip, r.world.elb[name].nics))
  {
    var site, r1 := Site(r.world.elb[name].vip, r.world.elb[name].nics), Exec(c, r, On(name, ElbLook));
    LookIdeal(c, r, name);
    assert AllCalls(On(name, ElbLook), OwnCalls(c.env, name, site));
    ExecApart(c, r, On(name, ElbLook), r.world, name, site);
    ViewAt(c.env, r1.world, r.world, name, site);
    DeleteAllOwn(c.env, name, site, ViewOf(c.env, r1.world, name));
    ExecApart(c, r1, DeleteAll(c.env, ViewOf(c.env, r1.world, name)), r.world, name, site);
    ApartThen(r, r1, Exec(c, r1, DeleteAll(c.env, ViewOf(c.env, r1.world, name))), r.world, name, site);
  }
}
