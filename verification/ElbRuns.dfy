/** Whole elastic operations: the state they end in, as a function of the state they begin in. */
module ElbRuns {
  import opened Base
  import opened Cloud
  import opened Runs
  import opened Rules
  import opened ElbPlan
  import opened ElbIdeal
  import opened ElbUpdate

  // ---------------------------------------------------------------- what is desired

  /** Listeners as the builder makes them: distinct ports, TCP, and all with the targets `ids`. */
  ghost predicate DesireOK(env: Env, name: string, ids: set<string>, desire: seq<ElasticLoadBalancer>) {
    && desire != []
    && DistinctPorts(desire)
    && forall d :: d in desire ==> ListenerOK(env, name, d) && d.protocol == "TCP" && IdSet(d) == ids
  }

  ghost predicate ArmsOK(nics: seq<NetworkInterface>) {
    |nics| == 1 || |nics| == 2
  }

  lemma PlacedIs(env: Env, name: string, ids: set<string>, desire: seq<ElasticLoadBalancer>,
                 vip: string, nics: seq<NetworkInterface>)
    requires DesireOK(env, name, ids, desire) && ArmsOK(nics)
    ensures var placed := PlacedAll(desire, vip, nics);
            && DesireOK(env, name, ids, placed) && Registrable(env, name, ids, placed)
            && KeySeq(placed) == KeySeq(desire)
            && forall d :: d in placed ==> d.vip == vip && d.networkInterfaces == nics
  {
  }

  // ---------------------------------------------------------------- creating

  /** The balancer a successful creation leaves. */
  function Created(env: Env, name: string, desire: seq<ElasticLoadBalancer>): ElbBalancer
    requires desire != []
  {
    var nics := Assigned(env, desire[0].networkInterfaces);
    var first := ElbBalancer(env.vipOf(name), nics, [KeyOf(desire[0])], map[KeyOf(desire[0]) := WantOf(desire[0])]);
    PlusAll(env, first, PlacedAll(desire, env.vipOf(name), nics)[1..])
  }

  /** The desired listeners with the address and interfaces a creation gives them. */
  function Located(env: Env, name: string, desire: seq<ElasticLoadBalancer>): seq<ElasticLoadBalancer>
    requires desire != []
  {
    PlacedAll(desire, env.vipOf(name), Assigned(env, desire[0].networkInterfaces))
  }

  lemma TailOf(env: Env, name: string, ids: set<string>, all: seq<ElasticLoadBalancer>)
    requires DesireOK(env, name, ids, all)
    ensures DistinctPorts(all[1..])
    ensures forall d :: d in all[1..] ==> d in all && d.loadBalancerPort != all[0].loadBalancerPort
    ensures KeySeq(all) == [KeyOf(all[0])] + KeySeq(all[1..])
  {
  }

  /** A created balancer has exactly the desired listeners. */
  lemma CreatedIs(env: Env, name: string, ids: set<string>, desire: seq<ElasticLoadBalancer>)
    requires DesireOK(env, name, ids, desire) && ArmsOK(desire[0].networkInterfaces)
    ensures var b := Created(env, name, desire);
            && Elems(b.order) == Elems(KeySeq(desire)) && b.at.Keys == Elems(KeySeq(desire))
            && b.vip == env.vipOf(name) && b.nics == Assigned(env, desire[0].networkInterfaces)
  {
    var located, k0 := Located(env, name, desire), KeyOf(desire[0]);
    var first := ElbBalancer(env.vipOf(name), Assigned(env, desire[0].networkInterfaces), [k0],
                             map[k0 := WantOf(desire[0])]);
    PlacedIs(env, name, ids, desire, env.vipOf(name), Assigned(env, desire[0].networkInterfaces));
    TailOf(env, name, ids, located);
    PlusAllIs(env, first, located[1..]);
    ElemsAppend([k0], KeySeq(located[1..]));
  }

  lemma AddedToFirst(env: Env, first: ElbBalancer, all: seq<ElasticLoadBalancer>, i: nat)
    requires DistinctPorts(all) && i < |all| && first.at == map[KeyOf(all[0]) := WantOf(all[0])]
    ensures var at := PlusAll(env, first, all[1..]).at; KeyOf(all[i]) in at && at[KeyOf(all[i])] == WantOf(all[i])
  {
    if i > 0 {
      PlusAllValue(env, first, all[1..], i - 1);
    } else {
      forall lb | lb in all[1..] ensures KeyOf(lb) !in first.at {
        var k :| 1 <= k < |all| && all[k] == lb;
        assert all[0].loadBalancerPort != all[k].loadBalancerPort;
      }
      PlusAllIs(env, first, all[1..]);
    }
  }

  lemma CreatedAt(env: Env, name: string, ids: set<string>, desire: seq<ElasticLoadBalancer>, i: nat)
    requires DesireOK(env, name, ids, desire) && i < |desire|
    ensures var b := Created(env, name, desire);
            KeyOf(desire[i]) in b.at && b.at[KeyOf(desire[i])] == WantOf(desire[i])
  {
    var located, k0 := Located(env, name, desire), KeyOf(desire[0]);
    var first := ElbBalancer(env.vipOf(name), Assigned(env, desire[0].networkInterfaces), [k0],
                             map[k0 := WantOf(desire[0])]);
    forall a, z | 0 <= a < z < |located| ensures located[a].loadBalancerPort != located[z].loadBalancerPort {
      assert desire[a].loadBalancerPort != desire[z].loadBalancerPort;
    }
    AddedToFirst(env, first, located, i);
  }

  /** The state a creation ends in. */
  function AfterCreate(env: Env, w: World, name: string, ids: set<string>, desire: seq<ElasticLoadBalancer>): World
    requires desire != []
  {
    Set(w, name, Some(Created(env, name, desire)),
        Adjust(env, w.rules, true, ids, AllPermissions(Located(env, name, desire))))
  }

  lemma FirstPlanIdeal(env: Env, w: World, name: string, ids: set<string>, desire: seq<ElasticLoadBalancer>)
    requires DesireOK(env, name, ids, desire) && name !in w.elb
    ensures var k0, nics := KeyOf(desire[0]), Assigned(env, desire[0].networkInterfaces);
            Ideal(env, w, Then(CreateSteps(desire[0]), On(name, ElbLook))) ==
            Ok(WithB(w, name, ElbBalancer(env.vipOf(name), nics, [k0], map[k0 := WantOf(desire[0])])))
  {
    var k0, nics := KeyOf(desire[0]), Assigned(env, desire[0].networkInterfaces);
    var w1 := WithB(w, name, ElbBalancer(env.vipOf(name), nics, [k0], map[k0 := WantOf(desire[0])]));
    CreateIdeal(env, w, name, desire[0]);
    RequestIdeal(env, w1, name, ElbLook);
    SetSet(w1, name, None, w1.rules, None, w1.rules);
  }

  lemma RestPlanIdeal(env: Env, w: World, name: string, ids: set<string>, desire: seq<ElasticLoadBalancer>)
    requires EnvOK(env) && DesireOK(env, name, ids, desire) && w.rules.Keys == env.members.Keys
    requires ArmsOK(desire[0].networkInterfaces)
    requires var k0, nics := KeyOf(desire[0]), Assigned(env, desire[0].networkInterfaces);
             Lookup(w.elb, name) == Some(ElbBalancer(env.vipOf(name), nics, [k0], map[k0 := WantOf(desire[0])]))
    ensures var located := Located(env, name, desire);
            Ideal(env, w, Then(RulePlan(env, true, located[0], located[0].balancingTargets),
                               RegisterAll(env, located[1..]))) == Ok(AfterCreate(env, w, name, ids, desire))
  {
    var located, first := Located(env, name, desire), w.elb[name];
    PlacedIs(env, name, ids, desire, env.vipOf(name), Assigned(env, desire[0].networkInterfaces));
    TailOf(env, name, ids, located);
    assert located[0] in located;
    RulePlanIdeal(env, w, true, located[0], located[0].balancingTargets);
    var rules1 := Adjust(env, w.rules, true, ids, Permissions(located[0]));
    RegisterAllIdeal(env, w.(rules := rules1), name, ids, located[1..], first);
    AdjustInTwo(env, w.rules, ids, located);
    assert w.(rules := rules1) == Set(w, name, Some(first), rules1) by {
      SetSet(w, name, None, w.rules, None, w.rules);
    }
    SetSet(w, name, Some(first), rules1, Some(Created(env, name, desire)),
           Adjust(env, w.rules, true, ids, AllPermissions(located)));
  }

  lemma AdjustInTwo(env: Env, rules: RuleMap, ids: set<string>, lbs: seq<ElasticLoadBalancer>)
    requires lbs != []
    ensures Adjust(env, Adjust(env, rules, true, ids, Permissions(lbs[0])), true, ids, AllPermissions(lbs[1..])) ==
            Adjust(env, rules, true, ids, AllPermissions(lbs))
  {
    AdjustTwice(env, rules, true, ids, Permissions(lbs[0]), AllPermissions(lbs[1..]));
    assert lbs == [lbs[0]] + lbs[1..];
    assert AllPermissions(lbs) == Permissions(lbs[0]) + AllPermissions(lbs[1..]);
  }

  /** Whenever a creation reports success it ends in exactly this state; without faults it succeeds. */
  lemma CreateRun(c: Ctx, r: Run, name: string, ids: set<string>, desire: seq<ElasticLoadBalancer>)
    requires WorldOK(c.env, r.world) && EnvOK(c.env) && r.out.Done? && name !in r.world.elb
    requires DesireOK(c.env, name, ids, desire) && ArmsOK(desire[0].networkInterfaces)
    ensures var f := EnsureCreated(c, r, name, desire);
            && (f.status.Ok? ==> f.run.world == AfterCreate(c.env, r.world, name, ids, desire)
                                 && f.status.value == c.env.vipOf(name))
            && (FaultFree(c, r.clock, f.run.clock) ==> f.status.Ok?)
  {
    var f, located := EnsureCreated(c, r, name, desire), Located(c.env, name, desire);
    var plan1 := Then(CreateSteps(desire[0]), On(name, ElbLook));
    var r1 := Exec(c, r, plan1);
    var view := ViewOf(c.env, r1.world, name);
    var placed := PlacedAll(desire, FirstVip(view), FirstNics(view));
    var plan2 := Then(RulePlan(c.env, true, placed[0], placed[0].balancingTargets), RegisterAll(c.env, placed[1..]));
    FirstPlanIdeal(c.env, r.world, name, ids, desire);
    ExecContinues(c, r, plan1);
    ExecContinues(c, r1, plan2);
    if FaultFree(c, r.clock, f.run.clock) {
      ExecFaultFree(c, r, plan1);
    }
    if r1.out.Done? {
      ExecDone(c, r, plan1);
      var first := r1.world.elb[name];
      assert placed == located;
      RestPlanIdeal(c.env, r1.world, name, ids, desire);
      SetSet(r.world, name, Some(first), r.world.rules, Some(Created(c.env, name, desire)),
             AfterCreate(c.env, r.world, name, ids, desire).rules);
      if FaultFree(c, r.clock, f.run.clock) {
        ExecFaultFree(c, r1, plan2);
      }
      if f.status.Ok? {
        ExecDone(c, r1, plan2);
      }
    } else {
      ExecAfterFailure(c, r1, plan2);
    }
  }

  // ---------------------------------------------------------------- deleting

  lemma ViewIsRemovable(env: Env, name: string, b: ElbBalancer, part: seq<ElasticLoadBalancer>)
    requires EnvOK(env) && ElbOK(env, b) && Usable(b)
    requires Distinct(KeySeq(part)) && forall lb :: lb in part ==> lb in View(env, name, b)
    ensures Removable(env, name, FirstTargets(b), b, part)
  {
    ViewIs(env, name, b);
    forall lb | lb in part ensures RulesOf(lb).Ok? && lb.name == name {
      ViewHasRules(env, name, b, KeyOf(lb), FirstTargets(b));
    }
  }

  /** The state a deletion ends in. */
  function AfterDelete(env: Env, w: World, name: string): World
    requires name in w.elb
  {
    var b := w.elb[name];
    Set(w, name, None, Adjust(env, w.rules, false, FirstTargets(b), AllPermissions(View(env, name, b))))
  }

  lemma LookIdeal(c: Ctx, r: Run, name: string)
    requires r.out.Done?
    ensures var r1 := Exec(c, r, On(name, ElbLook));
            && r1.world == r.world && r1.clock == r.clock + 1
            && (r1.out.Done? ==> name in r.world.elb)
            && (r1.out == Failed(BalancerNotFound) ==> name !in r.world.elb)
            && (c.faults(r.clock) == NoFault && name in r.world.elb ==> r1.out.Done?)
            && (c.faults(r.clock) == NoFault && name !in r.world.elb ==> r1.out == Failed(BalancerNotFound))
  {
  }

  lemma DeleteEverythingIdeal(env: Env, w: World, name: string)
    requires WorldOK(env, w) && EnvOK(env) && name in w.elb && Usable(w.elb[name])
    ensures Ideal(env, w, DeleteAll(env, View(env, name, w.elb[name]))) == Ok(AfterDelete(env, w, name))
  {
    var b := w.elb[name];
    var view := View(env, name, b);
    ViewIs(env, name, b);
    ViewIsRemovable(env, name, b, view);
    DeleteAllIdeal(env, w, name, FirstTargets(b), view, b);
    ExcludingMembers(b.order, Elems(b.order));
    NoElems(Excluding(b.order, Elems(b.order)));
  }

  /** Whenever a deletion reports success it ends in exactly this state; without faults it succeeds. */
  lemma DeleteRun(c: Ctx, r: Run, name: string)
    requires WorldOK(c.env, r.world) && EnvOK(c.env) && r.out.Done?
    requires name in r.world.elb ==> Usable(r.world.elb[name])
    ensures var f := DeleteElb(c, r, name);
            && (f.status.Ok? ==>
                  f.run.world == if name in r.world.elb then AfterDelete(c.env, r.world, name) else r.world)
            && (FaultFree(c, r.clock, f.run.clock) ==> f.status.Ok?)
  {
    var r1 := Exec(c, r, On(name, ElbLook));
    var plan := DeleteAll(c.env, ViewOf(c.env, r1.world, name));
    LookIdeal(c, r, name);
    ExecContinues(c, r1, plan);
    if r1.out.Done? {
      DeleteEverythingIdeal(c.env, r.world, name);
      if FaultFree(c, r.clock, DeleteElb(c, r, name).run.clock) {
        ExecFaultFree(c, r1, plan);
      }
      if Exec(c, r1, plan).out.Done? {
        ExecDone(c, r1, plan);
      }
    } else {
      ExecAfterFailure(c, r1, plan);
    }
  }
}
