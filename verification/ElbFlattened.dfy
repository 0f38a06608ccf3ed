/** What comes of reading one listener for all: uniform starts, and a lost request nobody notices. */
module ElbFlattened {
  import opened Base
  import opened Cloud
  import opened Runs
  import opened Differences
  import opened Rules
  import opened ElbPlan
  import opened ElbIdeal
  import opened ElbUpdate
  import opened ElbRuns
  import opened ElbEnsure
  import opened ElbConverge
  import opened ElbTheorems

  // ---------------------------------------------------------------- from uniform balancers

  /** The nodes stay, or no port is created, or no port is kept: never new ports beside kept ones with new nodes. */
  predicate OneSided(want: set<Key>, at: set<Key>, ids: set<string>, had: set<string>) {
    ids == had || want <= at || want !! at
  }

  /** The cloud lists no kept listener behind a created one. */
  ghost predicate KeptFirst(order: seq<Key>, at: set<Key>) {
    forall i, j :: 0 <= i < j < |order| && order[j] in at ==> order[i] in at
  }

  lemma OneSidedReads(want: set<Key>, at: map<Key, ElbListener>, k0: Key, ids: set<string>, had: set<string>)
    requires k0 in want && forall k :: k in at ==> at[k].targets == had
    ensures ReadsWellEnough(want, at, if k0 in at then had else ids, ids) <==>
            OneSided(want, at.Keys, ids, had) || k0 !in at
    ensures OneSided(want, at.Keys, ids, had) ==> KeptRightly(want, at, ids)
    ensures !OneSided(want, at.Keys, ids, had) ==> !KeptRightly(want, at, ids)
  {
    ShiftedIsDesired(had, had, ids);
  }

  /** The first created listener stops the run; what is listed behind it stays as it was. */
  lemma MixedStart(p: ElbBalancer, b: ElbBalancer, ids: set<string>, had: set<string>, m: nat)
    requires had != ids && Uniform(b, had) && p.order != [] && p.order[0] in b.at && m <= |p.order|
    requires forall j :: 0 <= j < |p.order| ==>
               p.order[j] in p.at && p.at[p.order[j]].targets == TargetsThen(b, ids, p.order[j])
    requires AllFit(p, had, ids, m) && (m < |p.order| ==> !Fits(p.at[p.order[m]].targets, had, ids))
    requires exists j :: 0 <= j < |p.order| && p.order[j] !in b.at
    ensures RightAfter(p.order, b, had, ids, m) <==> KeptFirst(p.order, b.at.Keys)
  {
    ShiftedIsDesired(had, had, ids);
    ShiftedIsDesired(ids, had, ids);
    forall j | 0 <= j < m ensures p.order[j] in b.at {
      assert Fits(p.at[p.order[j]].targets, had, ids);
    }
    assert m < |p.order| && p.order[m] !in b.at;
    if KeptFirst(p.order, b.at.Keys) {
      forall j | m < j < |p.order| ensures p.order[j] !in b.at {
        assert p.order[m] !in b.at;
      }
      forall j | 0 <= j < |p.order| ensures RightOnTurn(TargetsThen(b, ids, p.order[j]), had, ids, j, m) {
      }
    }
    if RightAfter(p.order, b, had, ids, m) {
      forall j | m < j < |p.order| ensures p.order[j] !in b.at {
        assert RightOnTurn(TargetsThen(b, ids, p.order[j]), had, ids, j, m);
      }
    }
  }

  lemma PortedByOrder(env: Env, name: string, ids: set<string>, desire: seq<ElasticLoadBalancer>, b: ElbBalancer)
    requires Setting(env, name, ids, desire, b)
    ensures var p := Ported(env, name, desire, b);
            forall j :: 0 <= j < |p.order| ==>
              p.order[j] in p.at && p.at[p.order[j]].targets == TargetsThen(b, ids, p.order[j])
  {
    var p := Ported(env, name, desire, b);
    PortedIs(env, name, ids, desire, b);
    forall j | 0 <= j < |p.order|
      ensures p.order[j] in p.at && p.at[p.order[j]].targets == TargetsThen(b, ids, p.order[j])
    {
      assert p.order[j] in Elems(p.order);
      PortedTargets(env, name, ids, desire, b, p.order[j]);
    }
  }

  lemma StoppedUniformly(env: Env, name: string, ids: set<string>, desire: seq<ElasticLoadBalancer>, b: ElbBalancer,
                         had: set<string>)
    requires Setting(env, name, ids, desire, b) && Uniform(b, had) && had != ids && !(Keys(desire) <= b.at.Keys)
    requires var p := Ported(env, name, desire, b); p.order != [] && p.order[0] in b.at
    ensures var p, read := Ported(env, name, desire, b), ReadThen(env, name, desire, b);
            RightAfter(p.order, b, read, ids, FirstMisfit(p, read, ids, |p.order|)) <==> KeptFirst(p.order, b.at.Keys)
  {
    var p := Ported(env, name, desire, b);
    WhatIsRead(env, name, ids, desire, b);
    PortedIs(env, name, ids, desire, b);
    PortedByOrder(env, name, ids, desire, b);
    var k :| k in Keys(desire) && k !in b.at;
    assert k in Elems(p.order);
    MixedStart(p, b, ids, had, FirstMisfit(p, had, ids, |p.order|));
  }

  /**
   * On a balancer whose listeners all have the targets `had`, a run without faults and without a
   * port clash succeeds exactly if the nodes stay, or no port is created, or none is kept, or the
   * cloud lists a created listener first; it leaves the balancer as desired exactly if one of the
   * first three holds or the cloud lists no kept listener behind a created one. So where a created
   * listener is listed first beside kept ones and the nodes change, success is reported wrongly.
   */
  lemma UniformStarts(c: Ctx, r: Run, name: string, ids: set<string>, desire: seq<ElasticLoadBalancer>,
                      had: set<string>)
    requires Ready(c, r, name, ids, desire) && Standing(r.world, name, had)
    requires NoClash(Keys(desire), r.world.elb[name].at)
    requires FaultFree(c, r.clock, EnsureElb(c, r, name, desire).run.clock)
    ensures var b, f := r.world.elb[name], EnsureElb(c, r, name, desire);
            var order := Ported(c.env, name, PlacedOn(r.world, name, desire), b).order;
            && order != []
            && (f.status.Ok? <==> OneSided(Keys(desire), b.at.Keys, ids, had) || order[0] !in b.at)
            && (Arrived(f.run.world, name, Keys(desire), ids) <==>
                  OneSided(Keys(desire), b.at.Keys, ids, had) || KeptFirst(order, b.at.Keys))
  {
    var b, placed := r.world.elb[name], PlacedOn(r.world, name, desire);
    var order := Ported(c.env, name, placed, b).order;
    PlacedSetting(c, r, name, ids, desire);
    WhatIsRead(c.env, name, ids, placed, b);
    OneSidedReads(Keys(desire), b.at, order[0], ids, had);
    SucceedsExactly(c, r, name, ids, desire);
    if OneSided(Keys(desire), b.at.Keys, ids, had) {
      SuccessMeansConverged(c, r, name, ids, desire);
    } else if order[0] !in b.at {
      SuccessMeansConverged(c, r, name, ids, desire);
      NewFirst(c.env, name, ids, placed, b);
    } else {
      StoppedUniformly(c.env, name, ids, placed, b, had);
      TwoRunsConverge(c, r, name, ids, desire);
    }
  }

  lemma NewFirst(env: Env, name: string, ids: set<string>, desire: seq<ElasticLoadBalancer>, b: ElbBalancer)
    requires Setting(env, name, ids, desire, b) && !(Keys(desire) !! b.at.Keys)
    ensures var order := Ported(env, name, desire, b).order;
            order != [] && order[0] !in b.at ==> !KeptFirst(order, b.at.Keys)
  {
    var order := Ported(env, name, desire, b).order;
    PortedIs(env, name, ids, desire, b);
    var k :| k in Keys(desire) && k in b.at;
    assert k in Elems(order);
    var j :| 0 <= j < |order| && order[j] == k;
    if order != [] && order[0] !in b.at {
      assert order[0] !in b.at && order[j] in b.at && 0 < j;
    }
  }

  // ---------------------------------------------------------------- a lost request that is never noticed

  const HTTP := Key(80, 30080)
  const HTTPS := Key(443, 30443)
  const COMMON_NICS := [NetworkInterface("net-COMMON_GLOBAL", "", [], true)]

  function TwoPorts(name: string, x: Instance): seq<ElasticLoadBalancer> {
    [ElasticLoadBalancer("", name, "", "", "TCP", 0, 0, [x], 80, 30080, "ICMP", 10, 1, COMMON_NICS),
     ElasticLoadBalancer("", name, "", "", "TCP", 0, 0, [x], 443, 30443, "ICMP", 10, 1, COMMON_NICS)]
  }

  lemma TwoPortsOK(env: Env, name: string, x: Instance)
    requires EnvOK(env) && Known(env, x)
    ensures DesireOK(env, name, {x.instanceID}, TwoPorts(name, x)) && ArmsOK(COMMON_NICS)
    ensures Keys(TwoPorts(name, x)) == {HTTP, HTTPS}
  {
    var desire := TwoPorts(name, x);
    assert Ids([x]) == [x.instanceID];
    forall d | d in desire ensures IdSet(d) == {x.instanceID} && ListenerOK(env, name, d) {
      assert d.balancingTargets == [x];
    }
    assert KeySeq(desire) == [HTTP, HTTPS];
  }

  /** The balancer when the first port is complete, and the second lacks its instances. */
  function HalfFilled(env: Env, name: string, id: string): ElbBalancer {
    ElbBalancer(env.vipOf(name), Assigned(env, COMMON_NICS), Arranged(env, [HTTP], HTTPS),
                map[HTTP := ElbListener({id}, "ICMP"), HTTPS := ElbListener({}, "ICMP")])
  }

  /** The requests of a creation up to the registration of the second port's instances. */
  function UpToInstances(env: Env, name: string, x: Instance): Plan {
    var desire, located := TwoPorts(name, x), Located(env, name, TwoPorts(name, x));
    Then(Then(CreateSteps(desire[0]), On(name, ElbLook)),
         Then(RulePlan(env, true, located[0], located[0].balancingTargets),
              Then(On(name, ElbAddPort(HTTPS)),
                   Then(WaitApplied(name), Then(On(name, ElbHealth(HTTPS, "ICMP")), WaitApplied(name))))))
  }

  /** The first port, alone. */
  function OnePort(env: Env, name: string, id: string): ElbBalancer {
    ElbBalancer(env.vipOf(name), Assigned(env, COMMON_NICS), [HTTP], map[HTTP := ElbListener({id}, "ICMP")])
  }

  lemma SecondPortIdeal(env: Env, w: World, name: string, id: string)
    requires Lookup(w.elb, name) == Some(OnePort(env, name, id))
    ensures Ideal(env, w, Then(On(name, ElbAddPort(HTTPS)),
                               Then(WaitApplied(name), Then(On(name, ElbHealth(HTTPS, "ICMP")), WaitApplied(name))))) ==
            Ok(WithB(w, name, HalfFilled(env, name, id)))
  {
    var v, k := OnePort(env, name, id), HTTPS;
    var v1, v2 := Plus(env, v, k, ElbListener({}, env.defaultHealth)), HalfFilled(env, name, id);
    RequestIdeal(env, w, name, ElbAddPort(k));
    var w1, w2 := WithB(w, name, v1), WithB(w, name, v2);
    RequestIdeal(env, w1, name, ElbWait);
    SetSet(w1, name, None, w1.rules, None, w1.rules);
    assert SetAt(v1, k, ElbListener({}, "ICMP")) == v2;
    RequestIdeal(env, w1, name, ElbHealth(k, "ICMP"));
    SetSet(w, name, Some(v1), w.rules, Some(v2), w.rules);
    WaitIdeal(env, w1, name, On(name, ElbHealth(k, "ICMP")), w2);
  }

  /** The rules when those of the first port are allowed. */
  function FirstRules(env: Env, rules: RuleMap, name: string, x: Instance): RuleMap {
    Adjust(env, rules, true, {x.instanceID}, Permissions(Located(env, name, TwoPorts(name, x))[0]))
  }

  lemma UpToInstancesIdeal(env: Env, w: World, name: string, x: Instance)
    requires WorldOK(env, w) && EnvOK(env) && Known(env, x) && name !in w.elb
    ensures var plan, v := UpToInstances(env, name, x), OnePort(env, name, x.instanceID);
            var b := HalfFilled(env, name, x.instanceID);
            && Ideal(env, w, plan.first) == Ok(WithB(w, name, v))
            && Ideal(env, w, plan) == Ok(Set(w, name, Some(b), FirstRules(env, w.rules, name, x)))
  {
    var desire, located := TwoPorts(name, x), Located(env, name, TwoPorts(name, x));
    var v := OnePort(env, name, x.instanceID);
    TwoPortsOK(env, name, x);
    FirstPlanIdeal(env, w, name, {x.instanceID}, desire);
    assert Ids([x]) == [x.instanceID];
    assert WantOf(desire[0]) == ElbListener({x.instanceID}, "ICMP");
    PlacedIs(env, name, {x.instanceID}, desire, env.vipOf(name), Assigned(env, COMMON_NICS));
    assert located[0] in located;
    var w1 := WithB(w, name, v);
    RulePlanIdeal(env, w1, true, located[0], located[0].balancingTargets);
    var ids := Elems(Ids(located[0].balancingTargets));
    var w2 := w1.(rules := Adjust(env, w1.rules, true, ids, Permissions(located[0])));
    SecondPortIdeal(env, w2, name, x.instanceID);
    SetSet(w, name, Some(v), w2.rules, Some(HalfFilled(env, name, x.instanceID)), w2.rules);
    assert w2 == Set(w, name, Some(v), w2.rules);
  }

  /** Without faults the requests up to there are made, and leave the half filled balancer. */
  lemma UpToInstancesRun(c: Ctx, r: Run, name: string, x: Instance)
    requires WorldOK(c.env, r.world) && EnvOK(c.env) && r.out.Done? && Known(c.env, x) && name !in r.world.elb
    requires var plan := UpToInstances(c.env, name, x); FaultFree(c, r.clock, Exec(c, r, plan).clock)
    ensures var r' := Exec(c, r, UpToInstances(c.env, name, x));
            && r'.out.Done?
            && r'.world == Set(r.world, name, Some(HalfFilled(c.env, name, x.instanceID)),
                               FirstRules(c.env, r.world.rules, name, x))
    ensures var plan := UpToInstances(c.env, name, x);
            Exec(c, r, plan.first).world == WithB(r.world, name, OnePort(c.env, name, x.instanceID))
  {
    var plan := UpToInstances(c.env, name, x);
    UpToInstancesIdeal(c.env, r.world, name, x);
    ExecFaultFree(c, r, plan);
    ExecDone(c, r, plan);
    ExecDone(c, Exec(c, r, plan.first), plan.next);
    ExecDone(c, r, plan.first);
  }

  /** The requests for a further port up to the registration of its instances. */
  function PortSteps(name: string, k: Key, health: string): Plan {
    Then(On(name, ElbAddPort(k)), Then(WaitApplied(name), Then(On(name, ElbHealth(k, health)), WaitApplied(name))))
  }

  lemma RegisterSplit(c: Ctx, r: Run, lb: ElasticLoadBalancer)
    ensures Exec(c, r, RegisterSteps(lb)) ==
            Exec(c, Exec(c, r, PortSteps(lb.name, KeyOf(lb), lb.healthCheckTarget)),
                 Then(On(lb.name, ElbAttach(KeyOf(lb), Ids(lb.balancingTargets))), WaitApplied(lb.name)))
  {
    var k, r1 := KeyOf(lb), Exec(c, r, On(lb.name, ElbAddPort(KeyOf(lb))));
    var wait, health := WaitApplied(lb.name), On(lb.name, ElbHealth(k, lb.healthCheckTarget));
    var r2 := Exec(c, r1, wait);
    var r3 := Exec(c, r2, Then(health, wait));
    assert Exec(c, r1, Then(wait, Then(health, wait))) == r3;
    assert Exec(c, r, PortSteps(lb.name, k, lb.healthCheckTarget)) == r3;
    assert Exec(c, r1, FillSteps(lb)) == Exec(c, r2, FillSteps(lb).next) == Exec(c, r3, FillSteps(lb).next.next);
  }

  lemma LostInRegistration(c: Ctx, r: Run, lb: ElasticLoadBalancer)
    requires var r' := Exec(c, r, PortSteps(lb.name, KeyOf(lb), lb.healthCheckTarget));
             r'.out.Done? && c.faults(r'.clock) == RequestLost
    ensures var r' := Exec(c, r, PortSteps(lb.name, KeyOf(lb), lb.healthCheckTarget));
            var f := Exec(c, r, RegisterAll(c.env, [lb]));
            f.world == r'.world && f.clock == r'.clock + 1 && f.out == Failed(Fault)
  {
    var rules := RulePlan(c.env, true, lb, lb.balancingTargets);
    assert [lb][..0] == [];
    assert RegisterAll(c.env, [lb]) == Then(Skip, Then(RegisterSteps(lb), rules));
    RegisterSplit(c, r, lb);
    ExecLost(c, Exec(c, r, PortSteps(lb.name, KeyOf(lb), lb.healthCheckTarget)),
             Elb(lb.name, ElbAttach(KeyOf(lb), Ids(lb.balancingTargets))), None, WaitApplied(lb.name));
    ExecAfterFailure(c, Exec(c, r, RegisterSteps(lb)), rules);
  }

  /** A creation in which only the registration of the second port's instances is lost stops there. */
  lemma LostInstances(c: Ctx, r: Run, name: string, x: Instance)
    requires WorldOK(c.env, r.world) && EnvOK(c.env) && r.out.Done? && Known(c.env, x) && name !in r.world.elb
    requires var n := Exec(c, r, UpToInstances(c.env, name, x)).clock;
             FaultFree(c, r.clock, n) && c.faults(n) == RequestLost
    ensures var f, r' := EnsureCreated(c, r, name, TwoPorts(name, x)), Exec(c, r, UpToInstances(c.env, name, x));
            && f.status == Err(Fault) && f.run.clock == r'.clock + 1 && f.run.out.Done? && f.run.world == r'.world
            && r'.world == Set(r.world, name, Some(HalfFilled(c.env, name, x.instanceID)),
                               FirstRules(c.env, r.world.rules, name, x))
  {
    var desire, plan := TwoPorts(name, x), UpToInstances(c.env, name, x);
    UpToInstancesRun(c, r, name, x);
    var r1 := Exec(c, r, plan.first);
    var view := ViewOf(c.env, r1.world, name);
    var placed := PlacedAll(desire, FirstVip(view), FirstNics(view));
    LearnedOnePort(c.env, r1.world, name, x);
    assert placed[1..] == [placed[1]];
    LostInRegistration(c, Exec(c, r1, plan.next.first), placed[1]);
  }

  lemma LearnedOnePort(env: Env, w: World, name: string, x: Instance)
    requires Lookup(w.elb, name) == Some(OnePort(env, name, x.instanceID))
    ensures var view := ViewOf(env, w, name);
            PlacedAll(TwoPorts(name, x), FirstVip(view), FirstNics(view)) == Located(env, name, TwoPorts(name, x))
  {
  }

  /**
   * One lost request in the creation of a balancer with two ports, the one that registers the
   * instances of the second, is never noticed if the cloud lists the new port behind the first:
   * the creation reports the error and the run after it success, changing nothing, although the
   * second port serves nobody.
   */
  lemma LostRequestIsNeverNoticed(env: Env, r: Run, name: string, x: Instance) returns (n: nat)
    requires WorldOK(env, r.world) && EnvOK(env) && r.out.Done? && Known(env, x) && name !in r.world.elb
    requires Arranged(env, [HTTP], HTTPS)[0] == HTTP
    ensures var c, desire := Ctx(env, LosesOnly(n)), TwoPorts(name, x);
            var f := EnsureElb(c, r, name, desire);
            var f' := EnsureElb(c, f.run, name, desire);
            && Ready(c, r, name, {x.instanceID}, desire)
            && f.status == Err(Fault) && Lookup(f.run.world.elb, name) == Some(HalfFilled(env, name, x.instanceID))
            && f'.status == Ok(env.vipOf(name)) && f'.run.world == f.run.world
  {
    var c0, plan, desire := Ctx(env, (i: nat) => NoFault), UpToInstances(env, name, x), TwoPorts(name, x);
    var s := Exec(c0, r, On(name, ElbLook)).(out := Done);
    n := Exec(c0, s, plan).clock;
    var c := Ctx(env, LosesOnly(n));
    TwoPortsOK(env, name, x);
    ExecContinues(c0, s, plan);
    ExecAgrees(c0, c, r, On(name, ElbLook));
    LookIdeal(c, r, name);
    ExecAgrees(c0, c, s, plan);
    LostInstances(c, s, name, x);
    EnsureKeepsWorldOK(c, r, name, desire);
    HalfFilledLooksRight(c, EnsureElb(c, r, name, desire).run, name, x);
  }

  lemma HalfFilledLooksRight(c: Ctx, r: Run, name: string, x: Instance)
    requires WorldOK(c.env, r.world) && EnvOK(c.env) && r.out.Done? && Known(c.env, x)
    requires Lookup(r.world.elb, name) == Some(HalfFilled(c.env, name, x.instanceID))
    requires Arranged(c.env, [HTTP], HTTPS)[0] == HTTP
    requires FaultFree(c, r.clock, EnsureElb(c, r, name, TwoPorts(name, x)).run.clock)
    ensures var f := EnsureElb(c, r, name, TwoPorts(name, x));
            f.status == Ok(c.env.vipOf(name)) && f.run.world == r.world
  {
    TwoPortsOK(c.env, name, x);
    assert r.world.elb[name].at.Keys == {HTTP, HTTPS};
    RightAtFirstSight(c, r, name, {x.instanceID}, TwoPorts(name, x));
  }
}
