/** The main results about elastic load balancers: when a run succeeds, and what it leaves. */
module ElbTheorems {
  import opened Base
  import opened Cloud
  import opened Runs
  import opened Differences
  import opened HealthTarget
  import opened Rules
  import opened ElbPlan
  import opened ElbIdeal
  import opened ElbUpdate
  import opened ElbRuns
  import opened ElbEnsure
  import opened ElbConverge

  /** A well-formed cloud, a run that has not failed, and listeners as the builder makes them. */
  ghost predicate Ready(c: Ctx, r: Run, name: string, ids: set<string>, desire: seq<ElasticLoadBalancer>) {
    && WorldOK(c.env, r.world) && EnvOK(c.env) && r.out.Done?
    && DesireOK(c.env, name, ids, desire) && ArmsOK(desire[0].networkInterfaces)
  }

  /** The balancer, if it exists, has listeners whose rules can be made, whatever their targets. */
  ghost predicate UsableIfThere(w: World, name: string) {
    name in w.elb ==> Usable(w.elb[name])
  }

  /** The balancer exists, its listeners have rules, and all have the targets `had`. */
  ghost predicate Standing(w: World, name: string, had: set<string>) {
    name in w.elb && Usable(w.elb[name]) && Uniform(w.elb[name], had)
  }

  /** The balancer exists with exactly the desired listeners, all with exactly the desired targets. */
  ghost predicate Arrived(w: World, name: string, want: set<Key>, ids: set<string>) {
    Standing(w, name, ids) && w.elb[name].at.Keys == want
  }

  // ---------------------------------------------------------------- both phases

  /** The state after the port phase. */
  function AfterPorts(env: Env, w: World, name: string, ids: set<string>, desire: seq<ElasticLoadBalancer>,
                      b: ElbBalancer): World {
    Set(w, name, Some(Ported(env, name, desire, b)), PortedRules(env, w.rules, name, ids, desire, b))
  }

  /** The targets the client reads for every listener once the ports are right. */
  function ReadThen(env: Env, name: string, desire: seq<ElasticLoadBalancer>, b: ElbBalancer): set<string> {
    FirstTargets(Ported(env, name, desire, b))
  }

  /** The state in which an update ends when no fault interferes and no port clashes. */
  ghost function AfterUpdate(env: Env, w: World, name: string, ids: set<string>, desire: seq<ElasticLoadBalancer>,
                             b: ElbBalancer): World {
    AfterNodes(env, AfterPorts(env, w, name, ids, desire, b), name, ids, Ported(env, name, desire, b),
               ReadThen(env, name, desire, b))
  }

  lemma PortedReconcilable(env: Env, w: World, name: string, ids: set<string>, desire: seq<ElasticLoadBalancer>,
                           b: ElbBalancer)
    requires Setting(env, name, ids, desire, b) && WorldOK(env, AfterPorts(env, w, name, ids, desire, b))
    ensures Reconcilable(env, name, ids, desire, Ported(env, name, desire, b), ReadThen(env, name, desire, b))
  {
    var w1 := AfterPorts(env, w, name, ids, desire, b);
    PortedUsable(env, name, ids, desire, b);
    PortedIs(env, name, ids, desire, b);
    assert name in w1.elb && w1.elb[name] == Ported(env, name, desire, b);
  }

  /** The desired listeners with the address and the interfaces of the balancer. */
  function PlacedOn(w: World, name: string, desire: seq<ElasticLoadBalancer>): seq<ElasticLoadBalancer>
    requires name in w.elb
  {
    PlacedAll(desire, w.elb[name].vip, w.elb[name].nics)
  }

  lemma PlacedSetting(c: Ctx, r: Run, name: string, ids: set<string>, desire: seq<ElasticLoadBalancer>)
    requires Ready(c, r, name, ids, desire) && name in r.world.elb && Usable(r.world.elb[name])
    ensures Setting(c.env, name, ids, PlacedOn(r.world, name, desire), r.world.elb[name])
    ensures Keys(PlacedOn(r.world, name, desire)) == Keys(desire)
  {
    var b := r.world.elb[name];
    PlacedIs(c.env, name, ids, desire, b.vip, b.nics);
  }

  lemma ViewFirst(env: Env, w: World, name: string)
    requires WorldOK(env, w) && name in w.elb
    ensures FirstVip(ViewOf(env, w, name)) == w.elb[name].vip && FirstNics(ViewOf(env, w, name)) == w.elb[name].nics
  {
  }

  /** The port phase of a run: it fails on a clash and otherwise ends in the state `AfterPorts`. */
  lemma PortRun(c: Ctx, r: Run, name: string, ids: set<string>, desire: seq<ElasticLoadBalancer>)
    requires Ready(c, r, name, ids, desire) && name in r.world.elb && Usable(r.world.elb[name])
    ensures var b, placed := r.world.elb[name], PlacedOn(r.world, name, desire);
            var r1 := Exec(c, r, PortPlan(c.env, name, placed, View(c.env, name, b)));
            && r.clock <= r1.clock
            && (r1.out.Done? ==> NoClash(Keys(desire), b.at) && WorldOK(c.env, r1.world)
                                 && r1.world == AfterPorts(c.env, r.world, name, ids, placed, b))
            && (FaultFree(c, r.clock, r1.clock) && NoClash(Keys(desire), b.at) ==> r1.out.Done?)
  {
    var b, placed := r.world.elb[name], PlacedOn(r.world, name, desire);
    var plan := PortPlan(c.env, name, placed, View(c.env, name, b));
    PlacedSetting(c, r, name, ids, desire);
    PortIdeal(c.env, r.world, name, ids, placed, b);
    ExecContinues(c, r, plan);
    ExecKeepsWorldOK(c, r, plan);
    if Exec(c, r, plan).out.Done? {
      ExecDone(c, r, plan);
    }
    if FaultFree(c, r.clock, Exec(c, r, plan).clock) {
      ExecFaultFree(c, r, plan);
    }
  }

  /** Whether every listener, once the ports are right, takes the requests that follow from what the client reads. */
  ghost predicate WillFit(env: Env, name: string, ids: set<string>, desire: seq<ElasticLoadBalancer>, b: ElbBalancer) {
    Fitting(Ported(env, name, desire, b), ReadThen(env, name, desire, b), ids)
  }

  /** The reconciliation that follows it. */
  lemma NodeRun(c: Ctx, r: Run, w: World, name: string, ids: set<string>, desire: seq<ElasticLoadBalancer>,
                b: ElbBalancer)
    requires Setting(c.env, name, ids, desire, b) && WorldOK(c.env, r.world) && r.out.Done?
    requires r.world == AfterPorts(c.env, w, name, ids, desire, b)
    ensures var r1 := Exec(c, r, ReconcileAll(c.env, desire, ViewOf(c.env, r.world, name)));
            && (r1.out.Done? ==> WillFit(c.env, name, ids, desire, b)
                                 && r1.world == AfterUpdate(c.env, w, name, ids, desire, b))
            && (FaultFree(c, r.clock, r1.clock) ==>
                  && (WillFit(c.env, name, ids, desire, b) ==> r1.out.Done?)
                  && r1.world == AfterUpdate(c.env, w, name, ids, desire, b))
  {
    var p, plan := Ported(c.env, name, desire, b), ReconcileAll(c.env, desire, ViewOf(c.env, r.world, name));
    assert ViewOf(c.env, r.world, name) == View(c.env, name, p);
    PortedReconcilable(c.env, w, name, ids, desire, b);
    ReconcileOutcome(c.env, r.world, name, ids, desire, p, ReadThen(c.env, name, desire, b));
    if Exec(c, r, plan).out.Done? {
      ExecDone(c, r, plan);
      ReachIdeal(c.env, r.world, plan);
    }
    if FaultFree(c, r.clock, Exec(c, r, plan).clock) {
      ExecFaultFree(c, r, plan);
    }
  }

  lemma AddressAfterPorts(c: Ctx, w: World, name: string, ids: set<string>, desire: seq<ElasticLoadBalancer>,
                          b: ElbBalancer)
    requires Setting(c.env, name, ids, desire, b)
    ensures FirstVip(ViewOf(c.env, AfterPorts(c.env, w, name, ids, desire, b), name)) == b.vip
  {
    PortedIs(c.env, name, ids, desire, b);
  }

  /** Everything there is to know of one run on a balancer that exists. */
  lemma UpdateRun(c: Ctx, r: Run, name: string, ids: set<string>, desire: seq<ElasticLoadBalancer>)
    requires Ready(c, r, name, ids, desire) && name in r.world.elb && Usable(r.world.elb[name])
    ensures var b, placed, f := r.world.elb[name], PlacedOn(r.world, name, desire), EnsureUpdated(c, r, name, desire);
            && (f.status.Ok? ==>
                  && NoClash(Keys(desire), b.at) && WillFit(c.env, name, ids, placed, b)
                  && f.run.world == AfterUpdate(c.env, r.world, name, ids, placed, b)
                  && f.status.value == b.vip)
            && (FaultFree(c, r.clock, f.run.clock) && NoClash(Keys(desire), b.at) ==>
                  && (WillFit(c.env, name, ids, placed, b) ==> f.status.Ok?)
                  && f.run.world == AfterUpdate(c.env, r.world, name, ids, placed, b))
  {
    var b, placed := r.world.elb[name], PlacedOn(r.world, name, desire);
    ViewFirst(c.env, r.world, name);
    var r1 := Exec(c, r, PortPlan(c.env, name, placed, View(c.env, name, b)));
    var plan2 := ReconcileAll(c.env, placed, ViewOf(c.env, r1.world, name));
    PlacedSetting(c, r, name, ids, desire);
    PortRun(c, r, name, ids, desire);
    ExecContinues(c, r1, plan2);
    if r1.out.Done? {
      NodeRun(c, r1, r.world, name, ids, placed, b);
      AddressAfterPorts(c, r.world, name, ids, placed, b);
    } else {
      ExecAfterFailure(c, r1, plan2);
    }
  }

  // ---------------------------------------------------------------- the whole operation

  /** Whether the start allows success: no port clash, and no listener refuses what the client asks of it. */
  ghost predicate Reachable(env: Env, w: World, name: string, ids: set<string>, desire: seq<ElasticLoadBalancer>) {
    name in w.elb ==>
      && NoClash(Keys(desire), w.elb[name].at)
      && WillFit(env, name, ids, PlacedOn(w, name, desire), w.elb[name])
  }

  /** The state in which a run ends when no fault interferes and no port clashes. */
  ghost function Settled(env: Env, w: World, name: string, ids: set<string>, desire: seq<ElasticLoadBalancer>): World
    requires desire != []
  {
    if name in w.elb then AfterUpdate(env, w, name, ids, PlacedOn(w, name, desire), w.elb[name])
    else AfterCreate(env, w, name, ids, desire)
  }

  /** Whatever the targets were: the exact success condition of a run, and the state it ends in. */
  lemma EnsureRun(c: Ctx, r: Run, name: string, ids: set<string>, desire: seq<ElasticLoadBalancer>)
    requires Ready(c, r, name, ids, desire) && UsableIfThere(r.world, name)
    ensures var w, f := r.world, EnsureElb(c, r, name, desire);
            && f.run.out.Done?
            && (f.status.Ok? ==>
                  && Reachable(c.env, w, name, ids, desire)
                  && f.run.world == Settled(c.env, w, name, ids, desire)
                  && f.status.value == if name in w.elb then w.elb[name].vip else c.env.vipOf(name))
            && (FaultFree(c, r.clock, f.run.clock) && Reachable(c.env, w, name, ids, desire) ==> f.status.Ok?)
            && (FaultFree(c, r.clock, f.run.clock) && (name in w.elb ==> NoClash(Keys(desire), w.elb[name].at)) ==>
                  f.run.world == Settled(c.env, w, name, ids, desire))
  {
    var r1 := Exec(c, r, On(name, ElbLook));
    LookIdeal(c, r, name);
    if r1.out == Failed(BalancerNotFound) {
      CreateRun(c, r1.(out := Done), name, ids, desire);
      CreateContinues(c, r1.(out := Done), name, desire);
    } else if r1.out.Done? {
      UpdateRun(c, r1, name, ids, desire);
      UpdateContinues(c, r1, name, desire);
    }
  }

  /** The plan that a creation carries out, as far as faults let it. */
  function WholeCreate(c: Ctx, r: Run, name: string, desire: seq<ElasticLoadBalancer>): Plan
    requires desire != []
  {
    var plan1 := Then(CreateSteps(desire[0]), On(name, ElbLook));
    var view := ViewOf(c.env, Exec(c, r, plan1).world, name);
    var placed := PlacedAll(desire, FirstVip(view), FirstNics(view));
    Then(plan1, Then(RulePlan(c.env, true, placed[0], placed[0].balancingTargets), RegisterAll(c.env, placed[1..])))
  }

  lemma CreateIsWhole(c: Ctx, r: Run, name: string, desire: seq<ElasticLoadBalancer>)
    requires desire != []
    ensures EnsureCreated(c, r, name, desire).run == Exec(c, r, WholeCreate(c, r, name, desire)).(out := Done)
  {
  }

  lemma CreateContinues(c: Ctx, r: Run, name: string, desire: seq<ElasticLoadBalancer>)
    requires desire != []
    ensures Continues(r, EnsureCreated(c, r, name, desire).run)
  {
    CreateIsWhole(c, r, name, desire);
    ExecContinues(c, r, WholeCreate(c, r, name, desire));
  }

  lemma UpdateContinues(c: Ctx, r: Run, name: string, desire: seq<ElasticLoadBalancer>)
    ensures Continues(r, EnsureUpdated(c, r, name, desire).run)
  {
    var view := ViewOf(c.env, r.world, name);
    var placed := PlacedAll(desire, FirstVip(view), FirstNics(view));
    var plan := PortPlan(c.env, name, placed, view);
    ExecContinues(c, r, Then(plan, ReconcileAll(c.env, placed, ViewOf(c.env, Exec(c, r, plan).world, name))));
  }

  lemma EnsureKeepsWorldOK(c: Ctx, r: Run, name: string, desire: seq<ElasticLoadBalancer>)
    requires WorldOK(c.env, r.world)
    ensures WorldOK(c.env, EnsureElb(c, r, name, desire).run.world)
  {
    if desire != [] {
      var r1 := Exec(c, r, On(name, ElbLook));
      ExecKeepsWorldOK(c, r, On(name, ElbLook));
      if r1.out == Failed(BalancerNotFound) {
        CreateKeepsWorldOK(c, r1.(out := Done), name, desire);
      } else if r1.out.Done? {
        UpdateKeepsWorldOK(c, r1, name, desire);
      }
    }
  }

  lemma CreateKeepsWorldOK(c: Ctx, r: Run, name: string, desire: seq<ElasticLoadBalancer>)
    requires WorldOK(c.env, r.world) && desire != []
    ensures WorldOK(c.env, EnsureCreated(c, r, name, desire).run.world)
  {
    CreateIsWhole(c, r, name, desire);
    ExecKeepsWorldOK(c, r, WholeCreate(c, r, name, desire));
  }

  lemma UpdateKeepsWorldOK(c: Ctx, r: Run, name: string, desire: seq<ElasticLoadBalancer>)
    requires WorldOK(c.env, r.world)
    ensures WorldOK(c.env, EnsureUpdated(c, r, name, desire).run.world)
  {
    var view := ViewOf(c.env, r.world, name);
    var placed := PlacedAll(desire, FirstVip(view), FirstNics(view));
    var plan := PortPlan(c.env, name, placed, view);
    ExecKeepsWorldOK(c, r, Then(plan, ReconcileAll(c.env, placed, ViewOf(c.env, Exec(c, r, plan).world, name))));
  }

  // ---------------------------------------------------------------- what the client reads, and what fits it

  /** It reads what the listener listed first has: its old targets if it was kept, the desired ones if it is new. */
  lemma WhatIsRead(env: Env, name: string, ids: set<string>, desire: seq<ElasticLoadBalancer>, b: ElbBalancer)
    requires Setting(env, name, ids, desire, b)
    ensures var p, read := Ported(env, name, desire, b), ReadThen(env, name, desire, b);
            && p.order != [] && p.order[0] in Keys(desire)
            && read == if p.order[0] in b.at then b.at[p.order[0]].targets else ids
  {
    var p := Ported(env, name, desire, b);
    PortedIs(env, name, ids, desire, b);
    assert p.order[0] in Elems(p.order);
    if p.order[0] !in b.at {
      PortedNew(env, name, ids, desire, b, p.order[0]);
    }
  }

  /** The targets of a desired listener once the ports are right. */
  lemma PortedTargets(env: Env, name: string, ids: set<string>, desire: seq<ElasticLoadBalancer>, b: ElbBalancer,
                      k: Key)
    requires Setting(env, name, ids, desire, b) && k in Keys(desire)
    ensures k in Ported(env, name, desire, b).at
    ensures Ported(env, name, desire, b).at[k].targets == if k in b.at then b.at[k].targets else ids
  {
    PortedIs(env, name, ids, desire, b);
    if k !in b.at {
      PortedNew(env, name, ids, desire, b, k);
    }
  }

  /** The client reads the desired targets, or no port is created and every listener kept takes its requests. */
  ghost predicate ReadsWellEnough(want: set<Key>, at: map<Key, ElbListener>, read: set<string>, ids: set<string>) {
    read == ids || (want <= at.Keys && forall k :: k in want ==> Fits(at[k].targets, read, ids))
  }

  /** A created listener has the desired targets: it fits only a client that reads just these. */
  lemma WhenAllFit(env: Env, name: string, ids: set<string>, desire: seq<ElasticLoadBalancer>, b: ElbBalancer)
    requires Setting(env, name, ids, desire, b)
    ensures WillFit(env, name, ids, desire, b) <==>
            ReadsWellEnough(Keys(desire), b.at, ReadThen(env, name, desire, b), ids)
  {
    var p, read, want := Ported(env, name, desire, b), ReadThen(env, name, desire, b), Keys(desire);
    PortedIs(env, name, ids, desire, b);
    forall k | k in want ensures p.at[k].targets == if k in b.at then b.at[k].targets else ids {
      PortedTargets(env, name, ids, desire, b, k);
    }
    ShiftedIsDesired(ids, read, ids);
    if WillFit(env, name, ids, desire, b) && !(want <= b.at.Keys) {
      var k :| k in want && k !in b.at;
      assert Fits(p.at[k].targets, read, ids);
    }
  }

  /** Kept listeners that a successful run leaves with the desired targets: all alike, or right already. */
  ghost predicate KeptRightly(want: set<Key>, at: map<Key, ElbListener>, ids: set<string>) {
    if want <= at.Keys then forall k, k' :: k in want && k' in want ==> at[k].targets == at[k'].targets
    else forall k :: k in want && k in at ==> at[k].targets == ids
  }

  /** What a shift brings to the desired targets are just the listeners that the client reads rightly. */
  lemma RightWhereRead(p: ElbBalancer, b: ElbBalancer, k0: Key, read: set<string>, ids: set<string>)
    requires Fitting(p, read, ids) && k0 in p.at && read == p.at[k0].targets
    requires forall k :: k in p.at ==> p.at[k].targets == if k in b.at then b.at[k].targets else ids
    ensures (forall k :: k in p.at ==> Shifted(p.at[k].targets, read, ids) == ids) <==>
            KeptRightly(p.at.Keys, b.at, ids)
  {
    forall k | k in p.at ensures Shifted(p.at[k].targets, read, ids) == ids <==> p.at[k].targets == read {
      ShiftedIsDesired(p.at[k].targets, read, ids);
    }
    if !(p.at.Keys <= b.at.Keys) {
      var k :| k in p.at && k !in b.at;
      ShiftedIsDesired(p.at[k].targets, read, ids);
      assert read == ids;
    }
  }

  /** Where every listener takes its requests, each ends with its targets shifted. */
  lemma UpdatedAt(env: Env, w: World, name: string, ids: set<string>, desire: seq<ElasticLoadBalancer>,
                  b: ElbBalancer, k: Key)
    requires Setting(env, name, ids, desire, b) && WorldOK(env, AfterPorts(env, w, name, ids, desire, b))
    requires WillFit(env, name, ids, desire, b) && k in Keys(desire)
    ensures var p, w' := Ported(env, name, desire, b), AfterUpdate(env, w, name, ids, desire, b);
            && name in w'.elb && k in p.at && k in w'.elb[name].at
            && w'.elb[name].at[k].targets == Shifted(p.at[k].targets, ReadThen(env, name, desire, b), ids)
  {
    var p, read, w1 := Ported(env, name, desire, b), ReadThen(env, name, desire, b),
                       AfterPorts(env, w, name, ids, desire, b);
    PortedReconcilable(env, w, name, ids, desire, b);
    PortedIs(env, name, ids, desire, b);
    assert k in Elems(p.order);
    var j :| 0 <= j < |p.order| && p.order[j] == k;
    FittingIsAllFit(p, read, ids);
    NodesAt(env, w1, name, ids, p, read, j);
  }

  /** What every update leaves: the desired ports, usable, at the old address, the first listener right. */
  lemma UpdatedHas(env: Env, w: World, name: string, ids: set<string>, desire: seq<ElasticLoadBalancer>,
                   b: ElbBalancer)
    requires Setting(env, name, ids, desire, b) && WorldOK(env, AfterPorts(env, w, name, ids, desire, b))
    ensures var w' := AfterUpdate(env, w, name, ids, desire, b);
            && name in w'.elb && Usable(w'.elb[name]) && w'.elb[name].at.Keys == Keys(desire)
            && w'.elb[name].vip == b.vip && w'.elb[name].nics == b.nics && FirstTargets(w'.elb[name]) == ids
            && w' == Set(w, name, Some(w'.elb[name]), w'.rules)
  {
    var p, read := Ported(env, name, desire, b), ReadThen(env, name, desire, b);
    var w1, w' := AfterPorts(env, w, name, ids, desire, b), AfterUpdate(env, w, name, ids, desire, b);
    PortedReconcilable(env, w, name, ids, desire, b);
    PortedIs(env, name, ids, desire, b);
    NodesKeep(env, w1, name, ids, p, read);
    NodesLeave(env, w1, name, ids, p, read);
    SetSet(w, name, Some(p), w1.rules, Some(w'.elb[name]), w'.rules);
  }

  lemma UpdatedArrives(env: Env, w: World, name: string, ids: set<string>, desire: seq<ElasticLoadBalancer>,
                       b: ElbBalancer)
    requires Setting(env, name, ids, desire, b) && WorldOK(env, AfterPorts(env, w, name, ids, desire, b))
    requires WillFit(env, name, ids, desire, b)
    ensures Arrived(AfterUpdate(env, w, name, ids, desire, b), name, Keys(desire), ids) <==>
            KeptRightly(Keys(desire), b.at, ids)
  {
    var p, w' := Ported(env, name, desire, b), AfterUpdate(env, w, name, ids, desire, b);
    PortedIs(env, name, ids, desire, b);
    WhatIsRead(env, name, ids, desire, b);
    UpdatedHas(env, w, name, ids, desire, b);
    forall k | k in p.at
      ensures p.at[k].targets == if k in b.at then b.at[k].targets else ids
      ensures w'.elb[name].at[k].targets == Shifted(p.at[k].targets, ReadThen(env, name, desire, b), ids)
    {
      PortedTargets(env, name, ids, desire, b, k);
      UpdatedAt(env, w, name, ids, desire, b, k);
    }
    RightWhereRead(p, b, p.order[0], ReadThen(env, name, desire, b), ids);
  }

  // ---------------------------------------------------------------- convergence

  lemma CreatedHas(env: Env, name: string, ids: set<string>, desire: seq<ElasticLoadBalancer>)
    requires DesireOK(env, name, ids, desire) && ArmsOK(desire[0].networkInterfaces)
    ensures var b := Created(env, name, desire); b.at.Keys == Keys(desire) && Uniform(b, ids) && Usable(b)
  {
    var b := Created(env, name, desire);
    CreatedIs(env, name, ids, desire);
    forall k | k in b.at ensures b.at[k].targets == ids && Separate(b.at[k].health).Some? {
      assert k in Elems(KeySeq(desire));
      var i :| 0 <= i < |desire| && KeySeq(desire)[i] == k;
      CreatedAt(env, name, ids, desire, i);
      assert desire[i] in desire;
    }
  }

  lemma PortsKeepWorldOK(env: Env, w: World, name: string, ids: set<string>, desire: seq<ElasticLoadBalancer>,
                         b: ElbBalancer)
    requires Setting(env, name, ids, desire, b) && WorldOK(env, w) && Lookup(w.elb, name) == Some(b)
    requires NoClash(Keys(desire), b.at)
    ensures WorldOK(env, AfterPorts(env, w, name, ids, desire, b))
  {
    PortIdeal(env, w, name, ids, desire, b);
    IdealKeepsWorldOK(env, w, PortPlan(env, name, desire, View(env, name, b)));
  }

  /** The start of an update in a form the results about states can use. */
  lemma StartOfUpdate(c: Ctx, r: Run, name: string, ids: set<string>, desire: seq<ElasticLoadBalancer>)
    requires Ready(c, r, name, ids, desire) && name in r.world.elb && Usable(r.world.elb[name])
    requires NoClash(Keys(desire), r.world.elb[name].at)
    ensures var b, placed := r.world.elb[name], PlacedOn(r.world, name, desire);
            && Setting(c.env, name, ids, placed, b) && Keys(placed) == Keys(desire)
            && WorldOK(c.env, AfterPorts(c.env, r.world, name, ids, placed, b))
  {
    PlacedSetting(c, r, name, ids, desire);
    PortsKeepWorldOK(c.env, r.world, name, ids, PlacedOn(r.world, name, desire), r.world.elb[name]);
  }

  /** The targets of a desired listener before the run, and what a successful run makes of them. */
  function LeftAt(env: Env, w: World, name: string, ids: set<string>, desire: seq<ElasticLoadBalancer>, k: Key)
    : set<string>
  {
    if name in w.elb && k in w.elb[name].at then
      Shifted(w.elb[name].at[k].targets, ReadThen(env, name, PlacedOn(w, name, desire), w.elb[name]), ids)
    else ids
  }

  /**
   * Whenever a run reports success, wherever it started and whatever failed: the balancer has
   * exactly the desired listeners, the one listed first has exactly the desired targets, every
   * kept one has gained and lost what the client thought it had to, the address returned is the
   * balancer's own, and no other balancer changed. All listeners have the desired targets exactly
   * if, at the start, the kept ones had equal targets or, beside a created one, the desired ones.
   */
  lemma SuccessMeansConverged(c: Ctx, r: Run, name: string, ids: set<string>, desire: seq<ElasticLoadBalancer>)
    requires Ready(c, r, name, ids, desire) && UsableIfThere(r.world, name)
    ensures var f, want := EnsureElb(c, r, name, desire), Keys(desire);
            f.status.Ok? ==>
              && name in f.run.world.elb && Usable(f.run.world.elb[name])
              && f.run.world.elb[name].at.Keys == want && FirstTargets(f.run.world.elb[name]) == ids
              && (forall k :: k in want ==>
                    f.run.world.elb[name].at[k].targets == LeftAt(c.env, r.world, name, ids, desire, k))
              && f.status.value == f.run.world.elb[name].vip
              && (name in r.world.elb ==> f.status.value == r.world.elb[name].vip)
              && f.run.world == Set(r.world, name, Some(f.run.world.elb[name]), f.run.world.rules)
              && (Arrived(f.run.world, name, want, ids) <==>
                    (name in r.world.elb ==> KeptRightly(want, r.world.elb[name].at, ids)))
  {
    var f := EnsureElb(c, r, name, desire);
    EnsureRun(c, r, name, ids, desire);
    if f.status.Ok? && name in r.world.elb {
      UpdateSucceeded(c, r, name, ids, desire);
    } else if f.status.Ok? {
      CreatedHas(c.env, name, ids, desire);
      CreatedIs(c.env, name, ids, desire);
      EnsureKeepsWorldOK(c, r, name, desire);
      UniformFirst(c.env, f.run.world, name, ids);
    }
  }

  lemma UpdateSucceeded(c: Ctx, r: Run, name: string, ids: set<string>, desire: seq<ElasticLoadBalancer>)
    requires Ready(c, r, name, ids, desire) && name in r.world.elb && Usable(r.world.elb[name])
    requires Reachable(c.env, r.world, name, ids, desire)
    ensures var b, w', want := r.world.elb[name], Settled(c.env, r.world, name, ids, desire), Keys(desire);
            && name in w'.elb && Usable(w'.elb[name]) && w'.elb[name].at.Keys == want
            && FirstTargets(w'.elb[name]) == ids && w'.elb[name].vip == b.vip
            && (forall k :: k in want ==>
                  w'.elb[name].at[k].targets == LeftAt(c.env, r.world, name, ids, desire, k))
            && w' == Set(r.world, name, Some(w'.elb[name]), w'.rules)
            && (Arrived(w', name, want, ids) <==> KeptRightly(want, b.at, ids))
  {
    var b, placed, w' := r.world.elb[name], PlacedOn(r.world, name, desire), Settled(c.env, r.world, name, ids, desire);
    StartOfUpdate(c, r, name, ids, desire);
    UpdatedHas(c.env, r.world, name, ids, placed, b);
    UpdatedArrives(c.env, r.world, name, ids, placed, b);
    forall k | k in Keys(desire) ensures w'.elb[name].at[k].targets == LeftAt(c.env, r.world, name, ids, desire, k) {
      UpdatedAt(c.env, r.world, name, ids, placed, b, k);
      PortedTargets(c.env, name, ids, placed, b, k);
      if k !in b.at {
        ShiftedIsDesired(ids, ReadThen(c.env, name, placed, b), ids);
      }
    }
  }

  lemma UniformFirst(env: Env, w: World, name: string, ids: set<string>)
    requires WorldOK(env, w) && name in w.elb && Uniform(w.elb[name], ids)
    ensures FirstTargets(w.elb[name]) == ids
  {
    assert w.elb[name].order[0] in Elems(w.elb[name].order);
  }

  lemma CreatedHeeds(c: Ctx, r: Run, name: string, desire: seq<ElasticLoadBalancer>)
    requires desire != [] && EnsureCreated(c, r, name, desire).status.Ok?
    ensures FaultFree(c, r.clock, EnsureCreated(c, r, name, desire).run.clock)
  {
    CreateIsWhole(c, r, name, desire);
    ExecHeeds(c, r, WholeCreate(c, r, name, desire));
  }

  lemma UpdatedHeeds(c: Ctx, r: Run, name: string, desire: seq<ElasticLoadBalancer>)
    requires EnsureUpdated(c, r, name, desire).status.Ok?
    ensures FaultFree(c, r.clock, EnsureUpdated(c, r, name, desire).run.clock)
  {
    var view := ViewOf(c.env, r.world, name);
    var placed := PlacedAll(desire, FirstVip(view), FirstNics(view));
    var plan := PortPlan(c.env, name, placed, view);
    ExecHeeds(c, r, Then(plan, ReconcileAll(c.env, placed, ViewOf(c.env, Exec(c, r, plan).world, name))));
  }

  /** A run that reports success lost no request and no answer; only rules that were right already are no failure. */
  lemma SuccessHeedsFaults(c: Ctx, r: Run, name: string, desire: seq<ElasticLoadBalancer>)
    requires r.out.Done? && EnsureElb(c, r, name, desire).status.Ok?
    ensures FaultFree(c, r.clock, EnsureElb(c, r, name, desire).run.clock)
  {
    var r1 := Exec(c, r, On(name, ElbLook));
    if r1.out == Failed(BalancerNotFound) {
      CreatedHeeds(c, r1.(out := Done), name, desire);
    } else {
      UpdatedHeeds(c, r1, name, desire);
    }
  }

  lemma DeletionHeedsFaults(c: Ctx, r: Run, name: string)
    requires r.out.Done? && DeleteElb(c, r, name).status.Ok?
    ensures FaultFree(c, r.clock, DeleteElb(c, r, name).run.clock)
  {
    var r1 := Exec(c, r, On(name, ElbLook));
    if r1.out != Failed(BalancerNotFound) {
      ExecHeeds(c, r1, DeleteAll(c.env, ViewOf(c.env, r1.world, name)));
    }
  }

  /**
   * A run succeeds exactly if no request and no answer is lost, no desired listener needs a port
   * used for another node port and, once the ports are right, the client reads the desired targets, or no port was
   * created and every listener takes the requests meant for one with the targets read: it has none
   * of the instances to register and all of those to deregister.
   */
  lemma SucceedsExactly(c: Ctx, r: Run, name: string, ids: set<string>, desire: seq<ElasticLoadBalancer>)
    requires Ready(c, r, name, ids, desire) && UsableIfThere(r.world, name)
    ensures EnsureElb(c, r, name, desire).status.Ok? <==>
            && FaultFree(c, r.clock, EnsureElb(c, r, name, desire).run.clock)
            && (name in r.world.elb ==>
                  var b, placed := r.world.elb[name], PlacedOn(r.world, name, desire);
                  && NoClash(Keys(desire), b.at)
                  && ReadsWellEnough(Keys(desire), b.at, ReadThen(c.env, name, placed, b), ids))
  {
    EnsureRun(c, r, name, ids, desire);
    if EnsureElb(c, r, name, desire).status.Ok? {
      SuccessHeedsFaults(c, r, name, desire);
    }
    if name in r.world.elb {
      PlacedSetting(c, r, name, ids, desire);
      WhenAllFit(c.env, name, ids, PlacedOn(r.world, name, desire), r.world.elb[name]);
    }
  }

  /** How many listeners, in the order the cloud lists them, a run without faults brings through. */
  ghost function Turns(env: Env, w: World, name: string, ids: set<string>, desire: seq<ElasticLoadBalancer>): nat
    requires name in w.elb
  {
    var placed, b := PlacedOn(w, name, desire), w.elb[name];
    var p := Ported(env, name, placed, b);
    FirstMisfit(p, ReadThen(env, name, placed, b), ids, |p.order|)
  }

  /** The targets of the listener `k` when the ports are right: kept ones have their old ones. */
  function TargetsThen(b: ElbBalancer, ids: set<string>, k: Key): set<string> {
    if k in b.at then b.at[k].targets else ids
  }

  /**
   * Whether a run without faults that gets as far as the listener `m` leaves the desired targets
   * at listener `j`, which had `t`: before `m` if they were read rightly, after it if they were
   * the desired ones; `m` itself may also lack the instances that the client registers.
   */
  predicate RightOnTurn(t: set<string>, read: set<string>, ids: set<string>, j: nat, m: nat) {
    if j < m then t == read else t == ids || (j == m && t == ids * read)
  }

  ghost predicate RightAfter(order: seq<Key>, b: ElbBalancer, read: set<string>, ids: set<string>, m: nat) {
    forall j :: 0 <= j < |order| ==> RightOnTurn(TargetsThen(b, ids, order[j]), read, ids, j, m)
  }

  lemma HalfRight(t: set<string>, read: set<string>, ids: set<string>)
    requires !Fits(t, read, ids)
    ensures HalfShifted(t, read, ids) == ids <==> t == ids || t == ids * read
  {
    if HalfShifted(t, read, ids) == ids && t != ids {
      forall x ensures x in t <==> x in ids * read {
        assert x in t + (ids - read) <==> x in ids;
      }
    }
    if t == ids * read {
      assert t + (ids - read) == ids;
    }
  }

  lemma RightInTurn(env: Env, w: World, name: string, ids: set<string>, desire: seq<ElasticLoadBalancer>,
                    b: ElbBalancer, j: nat)
    requires Setting(env, name, ids, desire, b) && WorldOK(env, AfterPorts(env, w, name, ids, desire, b))
    requires j < |Ported(env, name, desire, b).order|
    ensures var p, read := Ported(env, name, desire, b), ReadThen(env, name, desire, b);
            var w', m := AfterUpdate(env, w, name, ids, desire, b), FirstMisfit(p, read, ids, |p.order|);
            && name in w'.elb && p.order[j] in w'.elb[name].at
            && (w'.elb[name].at[p.order[j]].targets == ids <==>
                  RightOnTurn(TargetsThen(b, ids, p.order[j]), read, ids, j, m))
  {
    var p, read, w1 := Ported(env, name, desire, b), ReadThen(env, name, desire, b),
                       AfterPorts(env, w, name, ids, desire, b);
    var m, t := FirstMisfit(p, read, ids, |p.order|), TargetsThen(b, ids, p.order[j]);
    PortedReconcilable(env, w, name, ids, desire, b);
    PortedIs(env, name, ids, desire, b);
    assert p.order[j] in Elems(p.order);
    PortedTargets(env, name, ids, desire, b, p.order[j]);
    NodesAt(env, w1, name, ids, p, read, j);
    if j < m {
      ShiftedIsDesired(t, read, ids);
    } else if j == m {
      HalfRight(t, read, ids);
    }
  }

  lemma RightEverywhere(env: Env, w: World, name: string, ids: set<string>, desire: seq<ElasticLoadBalancer>,
                        b: ElbBalancer)
    requires Setting(env, name, ids, desire, b) && WorldOK(env, AfterPorts(env, w, name, ids, desire, b))
    ensures var p, read := Ported(env, name, desire, b), ReadThen(env, name, desire, b);
            Arrived(AfterUpdate(env, w, name, ids, desire, b), name, Keys(desire), ids) <==>
            RightAfter(p.order, b, read, ids, FirstMisfit(p, read, ids, |p.order|))
  {
    var p, read := Ported(env, name, desire, b), ReadThen(env, name, desire, b);
    var w', m := AfterUpdate(env, w, name, ids, desire, b), FirstMisfit(p, read, ids, |p.order|);
    PortedIs(env, name, ids, desire, b);
    UpdatedHas(env, w, name, ids, desire, b);
    forall j | 0 <= j < |p.order|
      ensures p.order[j] in w'.elb[name].at
      ensures w'.elb[name].at[p.order[j]].targets == ids <==>
              RightOnTurn(TargetsThen(b, ids, p.order[j]), read, ids, j, m)
    {
      RightInTurn(env, w, name, ids, desire, b, j);
    }
    UniformByOrder(p.order, w'.elb[name], b, read, ids, m);
  }

  lemma UniformByOrder(order: seq<Key>, b': ElbBalancer, b: ElbBalancer, read: set<string>, ids: set<string>, m: nat)
    requires Elems(order) == b'.at.Keys
    requires forall j :: 0 <= j < |order| ==> order[j] in b'.at
    requires forall j :: 0 <= j < |order| ==>
               (b'.at[order[j]].targets == ids <==> RightOnTurn(TargetsThen(b, ids, order[j]), read, ids, j, m))
    ensures Uniform(b', ids) <==> RightAfter(order, b, read, ids, m)
  {
    if RightAfter(order, b, read, ids, m) {
      forall k | k in b'.at ensures b'.at[k].targets == ids {
        assert k in Elems(order);
        var j :| 0 <= j < |order| && order[j] == k;
      }
    }
  }

  /**
   * From any balancer, one run without faults and without a port clash makes the ports right and
   * the first listener too, even if it reports an error; the next one changes nothing and, without
   * faults, reports success. Whether that success is true depends on the first run only.
   */
  lemma TwoRunsConverge(c: Ctx, r: Run, name: string, ids: set<string>, desire: seq<ElasticLoadBalancer>)
    requires Ready(c, r, name, ids, desire) && name in r.world.elb && Usable(r.world.elb[name])
    requires NoClash(Keys(desire), r.world.elb[name].at)
    ensures var b, placed, r1 := r.world.elb[name], PlacedOn(r.world, name, desire), EnsureElb(c, r, name, desire).run;
            var f := EnsureElb(c, r1, name, desire);
            FaultFree(c, r.clock, r1.clock) ==>
              && name in r1.world.elb && r1.world.elb[name].at.Keys == Keys(desire)
              && f.run.world == r1.world
              && (FaultFree(c, r1.clock, f.run.clock) ==> f.status == Ok(b.vip))
              && (Arrived(r1.world, name, Keys(desire), ids) <==>
                    RightAfter(Ported(c.env, name, placed, b).order, b, ReadThen(c.env, name, placed, b), ids,
                               Turns(c.env, r.world, name, ids, desire)))
  {
    var b, placed, r1 := r.world.elb[name], PlacedOn(r.world, name, desire), EnsureElb(c, r, name, desire).run;
    if FaultFree(c, r.clock, r1.clock) {
      EnsureRun(c, r, name, ids, desire);
      StartOfUpdate(c, r, name, ids, desire);
      UpdatedHas(c.env, r.world, name, ids, placed, b);
      RightEverywhere(c.env, r.world, name, ids, placed, b);
      EnsureKeepsWorldOK(c, r, name, desire);
      RightAtFirstSight(c, r1, name, ids, desire);
    }
  }

  // ---------------------------------------------------------------- what the client does not see

  lemma ListenerIdle(env: Env, name: string, d: ElasticLoadBalancer, cur: ElasticLoadBalancer)
    requires EnvOK(env) && ListenerOK(env, name, d)
    requires cur.balancingTargets == ViewInstances(env, env.list(IdSet(d)))
    ensures Idle(Then(AttachPlan(env, d, cur), DetachPlan(env, d, cur)))
  {
    AttachNewOK(env, name, d);
    ViewedIds(env, IdSet(d));
    MissingIds(env, d.balancingTargets, cur.balancingTargets);
    MissingIds(env, cur.balancingTargets, d.balancingTargets);
    EmptyIds(Missing(d.balancingTargets, cur.balancingTargets, InstanceEquals));
    EmptyIds(Missing(cur.balancingTargets, d.balancingTargets, InstanceEquals));
  }

  lemma DesiredFor(env: Env, name: string, ids: set<string>, desire: seq<ElasticLoadBalancer>,
                   cur: ElasticLoadBalancer) returns (d: ElasticLoadBalancer)
    requires DesireOK(env, name, ids, desire) && cur.name == name && KeyOf(cur) in Keys(desire)
    ensures Find(desire, cur, ElbEquals) == Some(d) && d in desire && KeyOf(d) == KeyOf(cur)
  {
    var j :| 0 <= j < |desire| && KeySeq(desire)[j] == KeyOf(cur);
    assert desire[j] in desire && ElbEquals(cur, desire[j]);
    FindMatch(desire, cur, ElbEquals);
    d := Find(desire, cur, ElbEquals).value;
  }

  lemma {:induction false} ReconcileIdle(env: Env, name: string, ids: set<string>, desire: seq<ElasticLoadBalancer>,
                                         view: seq<ElasticLoadBalancer>)
    requires EnvOK(env) && DesireOK(env, name, ids, desire)
    requires forall cur :: cur in view ==> && cur.name == name && KeyOf(cur) in Keys(desire)
                                           && cur.balancingTargets == ViewInstances(env, env.list(ids))
    ensures Idle(ReconcileAll(env, desire, view))
  {
    if view != [] {
      var cur := view[|view| - 1];
      ReconcileIdle(env, name, ids, desire, view[..|view| - 1]);
      var d := DesiredFor(env, name, ids, desire, cur);
      ListenerIdle(env, name, d, cur);
    }
  }

  lemma PortsIdle(env: Env, name: string, ids: set<string>, desire: seq<ElasticLoadBalancer>, b: ElbBalancer)
    requires EnvOK(env) && DesireOK(env, name, ids, desire) && ElbOK(env, b) && b.at.Keys == Keys(desire)
    ensures Idle(PortPlan(env, name, desire, View(env, name, b)))
  {
    var view := View(env, name, b);
    ViewIs(env, name, b);
    assert Mapped(desire, KeyOf) == KeySeq(desire) && Mapped(view, KeyOf) == b.order;
    NoPorts(env, name, desire, view);
  }

  lemma NoPorts(env: Env, name: string, desire: seq<ElasticLoadBalancer>, view: seq<ElasticLoadBalancer>)
    requires forall x, y :: x in desire && y in view ==> x.name == y.name
    requires Elems(Mapped(desire, KeyOf)) == Elems(Mapped(view, KeyOf))
    ensures Idle(PortPlan(env, name, desire, view))
  {
    NothingApart(desire, view);
    NothingApart(view, desire);
  }

  lemma NothingApart(s: seq<ElasticLoadBalancer>, t: seq<ElasticLoadBalancer>)
    requires forall x, y :: x in s && y in t ==> x.name == y.name
    requires Elems(Mapped(s, KeyOf)) == Elems(Mapped(t, KeyOf))
    ensures Missing(s, t, ElbEquals) == []
  {
    MissingByKey(s, t, ElbEquals, KeyOf);
    NoElems(Mapped(Missing(s, t, ElbEquals), KeyOf));
  }

  lemma UpdateIdle(c: Ctx, r: Run, name: string, ids: set<string>, desire: seq<ElasticLoadBalancer>)
    requires Ready(c, r, name, ids, desire) && name in r.world.elb
    requires r.world.elb[name].at.Keys == Keys(desire) && FirstTargets(r.world.elb[name]) == ids
    ensures EnsureUpdated(c, r, name, desire) == Finished(r, Ok(r.world.elb[name].vip))
  {
    var b, placed := r.world.elb[name], PlacedOn(r.world, name, desire);
    var view := View(c.env, name, b);
    ViewFirst(c.env, r.world, name);
    PlacedDesire(c.env, name, ids, desire, b.vip, b.nics);
    PortsIdle(c.env, name, ids, placed, b);
    IdleDoesNothing(c, r, PortPlan(c.env, name, placed, view));
    ViewIs(c.env, name, b);
    ReconcileIdle(c.env, name, ids, placed, view);
    IdleDoesNothing(c, r, ReconcileAll(c.env, placed, view));
  }

  /**
   * If the listeners are the desired ones and the first has the desired targets, a run looks once,
   * asks for nothing else and reports success, whatever the targets of the other listeners are.
   */
  lemma RightAtFirstSight(c: Ctx, r: Run, name: string, ids: set<string>, desire: seq<ElasticLoadBalancer>)
    requires Ready(c, r, name, ids, desire) && name in r.world.elb
    requires r.world.elb[name].at.Keys == Keys(desire) && FirstTargets(r.world.elb[name]) == ids
    ensures var f := EnsureElb(c, r, name, desire);
            && f.run.world == r.world
            && NewEvents(r, f.run) == [Event(Elb(name, ElbLook), r.world, r.world)]
            && (FaultFree(c, r.clock, f.run.clock) ==> f.status == Ok(r.world.elb[name].vip))
  {
    var r1 := Exec(c, r, On(name, ElbLook));
    LookIdeal(c, r, name);
    assert r1.log == r.log + [Event(Elb(name, ElbLook), r.world, r.world)];
    if r1.out.Done? {
      UpdateIdle(c, r1, name, ids, desire);
    }
  }

  lemma PlacedDesire(env: Env, name: string, ids: set<string>, desire: seq<ElasticLoadBalancer>,
                     vip: string, nics: seq<NetworkInterface>)
    requires DesireOK(env, name, ids, desire)
    ensures DesireOK(env, name, ids, PlacedAll(desire, vip, nics)) && Keys(PlacedAll(desire, vip, nics)) == Keys(desire)
  {
    var placed := PlacedAll(desire, vip, nics);
    forall d | d in placed ensures ListenerOK(env, name, d) && d.protocol == "TCP" && IdSet(d) == ids {
      var i :| 0 <= i < |desire| && placed[i] == d;
      assert desire[i] in desire;
    }
    assert KeySeq(placed) == KeySeq(desire);
  }
}
