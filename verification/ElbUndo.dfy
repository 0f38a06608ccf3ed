/** Deleting after a creation, wherever it stopped, gives back the cloud as it was. */
module ElbUndo {
  import opened Base
  import opened Cloud
  import opened Runs
  import opened HealthTarget
  import opened Rules
  import opened ElbPlan
  import opened ElbIdeal
  import opened ElbUpdate
  import opened ElbRuns
  import opened ElbEnsure
  import opened ElbTheorems
  import opened ElbSafety
  import opened ElbApart
  import opened ElbUndisturbed
  import opened ElbRetries
  import opened ElbGuard
  import opened ElbGaps
  import ElbCommute

  /** The cloud never lists a new listener before the one it listed first. */
  ghost predicate FirstStays(env: Env) {
    forall order, k :: order != [] ==> Arranged(env, order, k) != [] && Arranged(env, order, k)[0] == order[0]
  }

  /** No group carries a permission for what a balancer at `site` sends. */
  ghost predicate OwnFree(rules: RuleMap, site: Site) {
    forall g, p :: g in rules && p in rules[g] ==> !FromOnly(p, Addresses(site.vip, site.nics))
  }

  /** A balancer that is being made: its name and place, its first listener and the nodes. */
  datatype Birth = Birth(name: string, site: Site, first: Key, ids: set<string>)

  /**
   * The first listener is complete, and every own permission in a group is one that a listener of
   * `ks` needs in a group of its nodes: just what a deletion takes away.
   */
  ghost predicate Covered(env: Env, w: World, x: Birth, ks: set<Key>) {
    && x.name in w.elb && w.elb[x.name].vip == x.site.vip && w.elb[x.name].nics == x.site.nics
    && w.elb[x.name].order != [] && w.elb[x.name].order[0] == x.first
    && x.first in w.elb[x.name].at && w.elb[x.name].at[x.first].targets == x.ids
    && x.first in ks && ks <= w.elb[x.name].at.Keys
    && OnlyCovered(env, w.rules, x, Needs(w.elb[x.name], ks))
  }

  ghost predicate OnlyCovered(env: Env, rules: RuleMap, x: Birth, needs: set<Permission>) {
    forall g, p :: g in rules && p in rules[g] && FromOnly(p, Addresses(x.site.vip, x.site.nics)) ==>
      Touched(env, g, x.ids) && p in needs
  }

  ghost predicate CoveredSomehow(env: Env, w: World, x: Birth) {
    exists ks :: Covered(env, w, x, ks)
  }

  // ---------------------------------------------------------------- registering a further port

  /** Requests about one balancer of which `allowed` holds, and none about rules. */
  ghost function PortCalls(name: string, allowed: ElbOp -> bool): Call -> bool {
    (call: Call) => match call { case Elb(n, op) => n == name && allowed(op) case _ => false }
  }

  ghost function CoveredFor(env: Env, x: Birth, ks: set<Key>): World -> bool {
    (w: World) => Covered(env, w, x, ks)
  }

  lemma PortStepsCalls(name: string, lb: ElasticLoadBalancer)
    requires lb.name == name && Separate(lb.healthCheckTarget).Some?
    ensures AllCalls(RegisterSteps(lb), PortCalls(name, Registering({KeyOf(lb)})))
  {
    var ok := PortCalls(name, Registering({KeyOf(lb)}));
    assert AllCalls(WaitApplied(name), ok);
    assert AllCalls(FillSteps(lb).next.first, ok) && AllCalls(FillSteps(lb).next.next, ok);
    assert AllCalls(FillSteps(lb), ok);
    assert AllCalls(On(name, ElbAddPort(KeyOf(lb))), ok);
  }

  lemma PortCallKeepsCovered(env: Env, w: World, x: Birth, ks: set<Key>, k: Key, op: ElbOp)
    requires Covered(env, w, x, ks) && k !in ks && FirstStays(env) && Registering({k})(op)
    requires Apply(env, w, Elb(x.name, op)).Ok?
    ensures Covered(env, Apply(env, w, Elb(x.name, op)).value, x, ks)
  {
    var w' := Apply(env, w, Elb(x.name, op)).value;
    SameNeeds(w.elb[x.name], w'.elb[x.name], ks);
  }

  lemma PortCallsKeepCovered(env: Env, x: Birth, ks: set<Key>, k: Key)
    requires k !in ks && FirstStays(env)
    ensures Preserved(env, PortCalls(x.name, Registering({k})), CoveredFor(env, x, ks))
  {
    forall w, call | PortCalls(x.name, Registering({k}))(call) && Covered(env, w, x, ks) && Apply(env, w, call).Ok?
      ensures Covered(env, Apply(env, w, call).value, x, ks)
    {
      PortCallKeepsCovered(env, w, x, ks, k, call.elbop);
    }
  }

  // ---------------------------------------------------------------- allowing its rules

  ghost function StillCovered(env: Env, x: Birth, ks: set<Key>, elb: map<string, ElbBalancer>): World -> bool {
    (w: World) => w.elb == elb && Covered(env, w, x, ks)
  }

  lemma RuleCallKeepsCovered(env: Env, x: Birth, ks: set<Key>, w: World, g: string, p: Permission)
    requires Covered(env, w, x, ks) && Touched(env, g, x.ids) && p in Needs(w.elb[x.name], ks)
    requires Apply(env, w, Authorize(g, p)).Ok?
    ensures var w' := Apply(env, w, Authorize(g, p)).value; w'.elb == w.elb && Covered(env, w', x, ks)
  {
  }

  lemma RuleCallsKeepCovered(env: Env, x: Birth, ks: set<Key>, elb: map<string, ElbBalancer>, ps: set<Permission>)
    requires x.name in elb && ps <= Needs(elb[x.name], ks)
    ensures Preserved(env, RuleCalls(env, true, x.ids, ps), StillCovered(env, x, ks, elb))
  {
    forall w: World, call | RuleCalls(env, true, x.ids, ps)(call) && w.elb == elb && Covered(env, w, x, ks)
                     && Apply(env, w, call).Ok?
      ensures var w' := Apply(env, w, call).value; w'.elb == elb && Covered(env, w', x, ks)
    {
      if call.Authorize? {
        RuleCallKeepsCovered(env, x, ks, w, call.group, call.permission);
      }
    }
  }

  /** A listener of the balancer in the making. */
  ghost predicate Belongs(env: Env, x: Birth, lb: ElasticLoadBalancer) {
    && ListenerOK(env, x.name, lb) && RulesOf(lb).Ok? && IdSet(lb) == x.ids && lb.protocol == "TCP"
    && lb.vip == x.site.vip && lb.networkInterfaces == x.site.nics
  }

  lemma NeedOf(b: ElbBalancer, x: Birth, lb: ElasticLoadBalancer, ks: set<Key>, env: Env)
    requires Belongs(env, x, lb) && b.vip == x.site.vip && b.nics == x.site.nics
    requires KeyOf(lb) in ks && KeyOf(lb) in b.at && b.at[KeyOf(lb)] == WantOf(lb)
    ensures Permissions(lb) <= Needs(b, ks)
  {
    assert Permissions(lb) == Need(b, KeyOf(lb));
    NeedInNeeds(b, KeyOf(lb), ks);
  }

  lemma RulesCover(c: Ctx, r: Run, x: Birth, ks: set<Key>, lb: ElasticLoadBalancer)
    requires Covered(c.env, r.world, x, ks) && Belongs(c.env, x, lb) && KeyOf(lb) in ks
    requires r.world.elb[x.name].at[KeyOf(lb)] == WantOf(lb)
    ensures var r1 := Exec(c, r, RulePlan(c.env, true, lb, lb.balancingTargets));
            Covered(c.env, r1.world, x, ks) && r1.world.elb == r.world.elb
  {
    var plan, ps := RulePlan(c.env, true, lb, lb.balancingTargets), Permissions(lb);
    NeedOf(r.world.elb[x.name], x, lb, ks, c.env);
    RulePlanCalls(c.env, true, lb, lb.balancingTargets);
    RuleCallsKeepCovered(c.env, x, ks, r.world.elb, ps);
    ExecInvariant(c, r, plan, RuleCalls(c.env, true, x.ids, ps), StillCovered(c.env, x, ks, r.world.elb));
  }

  // ---------------------------------------------------------------- one listener after the other

  lemma MoreNeeds(b: ElbBalancer, ks: set<Key>, ks': set<Key>)
    requires ks <= ks'
    ensures Needs(b, ks) <= Needs(b, ks')
  {
  }

  lemma MoreIsOnlyCovered(env: Env, rules: RuleMap, x: Birth, needs: set<Permission>, needs': set<Permission>)
    requires OnlyCovered(env, rules, x, needs) && needs <= needs'
    ensures OnlyCovered(env, rules, x, needs')
  {
  }

  lemma MoreIsCovered(env: Env, w: World, x: Birth, ks: set<Key>, ks': set<Key>)
    requires Covered(env, w, x, ks) && ks <= ks' <= w.elb[x.name].at.Keys
    ensures Covered(env, w, x, ks')
  {
    MoreNeeds(w.elb[x.name], ks, ks');
    MoreIsOnlyCovered(env, w.rules, x, Needs(w.elb[x.name], ks), Needs(w.elb[x.name], ks'));
  }

  /** The listeners made so far are just those of `ks`. */
  ghost predicate Complete(env: Env, w: World, x: Birth, ks: set<Key>) {
    Covered(env, w, x, ks) && w.elb[x.name].at.Keys == ks
  }

  lemma NextListener(c: Ctx, r: Run, x: Birth, ks: set<Key>, lb: ElasticLoadBalancer)
    requires Complete(c.env, r.world, x, ks) && FirstStays(c.env) && EnvOK(c.env) && r.out.Done?
    requires Belongs(c.env, x, lb) && KeyOf(lb) !in ks
    ensures var r1 := Exec(c, r, Then(RegisterSteps(lb), RulePlan(c.env, true, lb, lb.balancingTargets)));
            && CoveredSomehow(c.env, r1.world, x)
            && (r1.out.Done? ==> Complete(c.env, r1.world, x, ks + {KeyOf(lb)}))
  {
    var k, rA, plan := KeyOf(lb), Exec(c, r, RegisterSteps(lb)), RulePlan(c.env, true, lb, lb.balancingTargets);
    PortStepsCalls(x.name, lb);
    PortCallsKeepCovered(c.env, x, ks, k);
    ExecInvariant(c, r, RegisterSteps(lb), PortCalls(x.name, Registering({k})), CoveredFor(c.env, x, ks));
    if rA.out.Done? {
      ExecDone(c, r, RegisterSteps(lb));
      RegisterIdeal(c.env, r.world, x.name, lb, r.world.elb[x.name]);
      MoreIsCovered(c.env, rA.world, x, ks, ks + {k});
      RulesCover(c, rA, x, ks + {k}, lb);
    } else {
      ExecAfterFailure(c, rA, plan);
    }
  }

  lemma {:induction false} FurtherListeners(c: Ctx, r: Run, x: Birth, ks: set<Key>, lbs: seq<ElasticLoadBalancer>)
    requires Complete(c.env, r.world, x, ks) && FirstStays(c.env) && EnvOK(c.env) && r.out.Done?
    requires Distinct(KeySeq(lbs)) && forall lb :: lb in lbs ==> Belongs(c.env, x, lb) && KeyOf(lb) !in ks
    ensures var r1 := Exec(c, r, RegisterAll(c.env, lbs));
            && CoveredSomehow(c.env, r1.world, x)
            && (r1.out.Done? ==> Complete(c.env, r1.world, x, ks + Keys(lbs)))
  {
    if lbs == [] {
      assert ks + Keys(lbs) == ks;
    } else {
      var init, lb := lbs[..|lbs| - 1], lbs[|lbs| - 1];
      assert lbs == init + [lb];
      LastIsNew(init, lb);
      FurtherListeners(c, r, x, ks, init);
      var r1 := Exec(c, r, RegisterAll(c.env, init));
      assert KeySeq(lbs) == KeySeq(init) + [KeyOf(lb)];
      assert ks + Keys(lbs) == ks + Keys(init) + {KeyOf(lb)};
      if r1.out.Done? {
        NextListener(c, r1, x, ks + Keys(init), lb);
      } else {
        ExecAfterFailure(c, r1, Then(RegisterSteps(lb), RulePlan(c.env, true, lb, lb.balancingTargets)));
      }
    }
  }

  // ---------------------------------------------------------------- the whole creation

  /** The balancer that `desire` makes. */
  function BirthOf(env: Env, name: string, ids: set<string>, desire: seq<ElasticLoadBalancer>): Birth
    requires desire != []
  {
    Birth(name, Site(env.vipOf(name), Assigned(env, desire[0].networkInterfaces)), KeyOf(desire[0]), ids)
  }

  lemma LocatedBelong(env: Env, name: string, ids: set<string>, desire: seq<ElasticLoadBalancer>)
    requires DesireOK(env, name, ids, desire) && ArmsOK(desire[0].networkInterfaces)
    ensures var located, x := Located(env, name, desire), BirthOf(env, name, ids, desire);
            && Belongs(env, x, located[0]) && KeyOf(located[0]) == x.first && WantOf(located[0]) == WantOf(desire[0])
            && Distinct(KeySeq(located[1..]))
            && forall lb :: lb in located[1..] ==> Belongs(env, x, lb) && KeyOf(lb) !in {x.first}
  {
    var located := Located(env, name, desire);
    PlacedIs(env, name, ids, desire, env.vipOf(name), Assigned(env, desire[0].networkInterfaces));
    TailOf(env, name, ids, located);
    assert located[0] in located;
    KeysDistinct(located[1..]);
  }

  /** No rule is touched while the first listener is made. */
  lemma FirstListener(c: Ctx, r: Run, name: string, ids: set<string>, desire: seq<ElasticLoadBalancer>)
    requires DesireOK(c.env, name, ids, desire) && name !in r.world.elb && r.out.Done?
    ensures var r1, x := Exec(c, r, Then(CreateSteps(desire[0]), On(name, ElbLook))), BirthOf(c.env, name, ids, desire);
            && r1.world.rules == r.world.rules
            && (r1.out.Done? && OwnFree(r.world.rules, x.site) ==>
                  Complete(c.env, r1.world, x, {x.first}) && r1.world.elb[name].at[x.first] == WantOf(desire[0]))
  {
    var plan := Then(CreateSteps(desire[0]), On(name, ElbLook));
    assert desire[0] in desire;
    FirstCalls(name, desire[0]);
    ExecInvariant(c, r, plan, PortCalls(name, Anything()), SameRules(r.world.rules));
    if Exec(c, r, plan).out.Done? {
      ExecDone(c, r, plan);
      FirstPlanIdeal(c.env, r.world, name, ids, desire);
    }
  }

  ghost function Anything(): ElbOp -> bool {
    (op: ElbOp) => true
  }

  ghost function SameRules(rules: RuleMap): World -> bool {
    (w: World) => w.rules == rules
  }

  lemma FirstCalls(name: string, lb: ElasticLoadBalancer)
    requires lb.name == name
    ensures AllCalls(Then(CreateSteps(lb), On(name, ElbLook)), PortCalls(name, Anything()))
  {
    var ok := PortCalls(name, Anything());
    assert AllCalls(WaitApplied(name), ok);
    assert AllCalls(FillSteps(lb).next.first, ok) && AllCalls(FillSteps(lb).next.next, ok);
    assert AllCalls(FillSteps(lb), ok);
    assert AllCalls(On(name, ElbCreate(KeyOf(lb), lb.networkInterfaces)), ok) && AllCalls(On(name, ElbLook), ok);
  }

  /** Wherever a creation stops: no own permission is in a group, or all that are a deletion takes away. */
  lemma CreationCovers(c: Ctx, r: Run, name: string, ids: set<string>, desire: seq<ElasticLoadBalancer>)
    requires DesireOK(c.env, name, ids, desire) && ArmsOK(desire[0].networkInterfaces) && name !in r.world.elb
    requires EnvOK(c.env) && r.out.Done? && FirstStays(c.env)
    requires OwnFree(r.world.rules, BirthOf(c.env, name, ids, desire).site)
    ensures var w, x := EnsureCreated(c, r, name, desire).run.world, BirthOf(c.env, name, ids, desire);
            OwnFree(w.rules, x.site) || CoveredSomehow(c.env, w, x)
  {
    var x, located := BirthOf(c.env, name, ids, desire), Located(c.env, name, desire);
    var r1 := Exec(c, r, Then(CreateSteps(desire[0]), On(name, ElbLook)));
    FirstListener(c, r, name, ids, desire);
    CreateIsWhole(c, r, name, desire);
    var rest := WholeCreate(c, r, name, desire).next;
    if r1.out.Done? {
      LocatedBelong(c.env, name, ids, desire);
      LearnedHere(c.env, r1.world, x, desire);
      RulesCover(c, r1, x, {x.first}, located[0]);
      var r2 := Exec(c, r1, RulePlan(c.env, true, located[0], located[0].balancingTargets));
      if r2.out.Done? {
        FurtherListeners(c, r2, x, {x.first}, located[1..]);
      } else {
        ExecAfterFailure(c, r2, RegisterAll(c.env, located[1..]));
      }
    } else {
      ExecAfterFailure(c, r1, rest);
    }
  }

  lemma LearnedHere(env: Env, w: World, x: Birth, desire: seq<ElasticLoadBalancer>)
    requires desire != [] && x == BirthOf(env, x.name, x.ids, desire) && Covered(env, w, x, {x.first})
    ensures var view := ViewOf(env, w, x.name);
            PlacedAll(desire, FirstVip(view), FirstNics(view)) == Located(env, x.name, desire)
  {
  }

  // ---------------------------------------------------------------- and its deletion

  lemma UncoveredByDeletion(env: Env, w: World, name: string, x: Birth, g: string, p: Permission)
    requires WorldOK(env, w) && EnvOK(env) && name in w.elb && x.name == name && g in w.rules
    requires w.elb[name].vip == x.site.vip && w.elb[name].nics == x.site.nics
    requires OwnFree(w.rules, x.site) || CoveredSomehow(env, w, x)
    ensures g in AfterDelete(env, w, name).rules
    ensures p in AfterDelete(env, w, name).rules[g] <==>
            p in w.rules[g] && !FromOnly(p, Addresses(x.site.vip, x.site.nics))
  {
    var b := w.elb[name];
    DeletedRules(env, w, name, g);
    if p in Needs(b, b.at.Keys) {
      var k :| k in b.at.Keys && p in Need(b, k);
      NeedIsOwn(b, k, p);
    }
    if CoveredSomehow(env, w, x) {
      var ks :| Covered(env, w, x, ks);
      assert FirstTargets(b) == x.ids;
      MoreIsCovered(env, w, x, ks, b.at.Keys);
    }
  }

  lemma NeedIsOwn(b: ElbBalancer, k: Key, p: Permission)
    requires p in Need(b, k)
    ensures FromOnly(p, Addresses(b.vip, b.nics))
  {
    PermissionsFromOwn(ElasticLoadBalancer("", "", b.vip, "", "TCP", 0, 0, [], k.port, k.instancePort, HealthAt(b, k),
                                           0, 0, b.nics), p);
  }

  lemma PermissionBack(env: Env, w: World, w1: World, name: string, x: Birth, g: string, p: Permission)
    requires WorldOK(env, w1) && EnvOK(env) && x.name == name && Apart(w1, w, name, x.site) && g in w.rules
    requires OwnFree(w.rules, x.site) && (OwnFree(w1.rules, x.site) || CoveredSomehow(env, w1, x))
    ensures var rules := if name in w1.elb then AfterDelete(env, w1, name).rules else w1.rules;
            g in rules && (p in rules[g] <==> p in w.rules[g])
  {
    assert g in w1.rules;
    if FromOnly(p, Addresses(x.site.vip, x.site.nics)) {
      assert p !in w.rules[g];
    } else {
      assert p in w1.rules[g] <==> p in w.rules[g];
    }
    if name in w1.elb {
      UncoveredByDeletion(env, w1, name, x, g, p);
    }
  }

  /** What stayed apart, and lost its own permissions, is as it was. */
  lemma BackToStart(env: Env, w: World, w1: World, name: string, x: Birth)
    requires WorldOK(env, w1) && EnvOK(env) && name !in w.elb && x.name == name && Apart(w1, w, name, x.site)
    requires OwnFree(w.rules, x.site) && (OwnFree(w1.rules, x.site) || CoveredSomehow(env, w1, x))
    ensures name in w1.elb ==> AfterDelete(env, w1, name) == w
    ensures name !in w1.elb ==> w1 == w
  {
    var w2 := if name in w1.elb then AfterDelete(env, w1, name) else w1;
    forall n ensures Lookup(w2.elb, n) == Lookup(w.elb, n) {
    }
    ElbCommute.SameMaps(w2.elb, w.elb);
    forall g | g in w.rules ensures g in w2.rules && w2.rules[g] == w.rules[g] {
      forall p ensures g in w2.rules && (p in w2.rules[g] <==> p in w.rules[g]) {
        PermissionBack(env, w, w1, name, x, g, p);
      }
    }
    assert w2.rules == w.rules;
  }

  /**
   * Creating a balancer and deleting it gives back the cloud exactly as it was, listeners and
   * security group rules alike, whatever failed in the creation, if no group carried a permission
   * for what that balancer sends, and the cloud does not list new listeners before the first.
   */
  lemma FailedCreationIsUndone(c: Ctx, r: Run, name: string, ids: set<string>, desire: seq<ElasticLoadBalancer>)
    requires Ready(c, r, name, ids, desire) && name !in r.world.elb
    requires Separate(c.env.defaultHealth).Some? && FirstStays(c.env)
    requires OwnFree(r.world.rules, SiteOf(c.env, r.world, name, desire))
    ensures var f := EnsureElb(c, r, name, desire);
            var f' := DeleteElb(c, f.run, name);
            && (f'.status.Ok? ==> f'.run.world == r.world)
            && (FaultFree(c, f.run.clock, f'.run.clock) ==> f'.status.Ok?)
  {
    var x, f, r1 := BirthOf(c.env, name, ids, desire), EnsureElb(c, r, name, desire), Exec(c, r, On(name, ElbLook));
    LookIdeal(c, r, name);
    EnsureKeepsWorldOK(c, r, name, desire);
    RunResumes(c, r, name, ids, desire);
    RunsStayApart(c, r, name, desire);
    if r1.out == Failed(BalancerNotFound) {
      CreationCovers(c, r1.(out := Done), name, ids, desire);
    }
    DeleteRun(c, f.run, name);
    BackToStart(c.env, r.world, f.run.world, name, x);
  }
}
