/** Elastic operations that are repeated after failures: they always come to an end that is reported as success. */
module ElbRetries {
  import opened Base
  import opened Cloud
  import opened Runs
  import opened HealthTarget
  import opened Rules
  import opened ElbPlan
  import opened ElbIdeal
  import opened ElbUpdate
  import opened ElbRuns
  import opened ElbEnsure
  import opened ElbTheorems
  import opened ElbUndisturbed

  // ---------------------------------------------------------------- creating

  /** Making a balancer with the interfaces `nics` and listeners with the keys `ks`. */
  ghost function Making(ks: set<Key>, nics: seq<NetworkInterface>): ElbOp -> bool {
    (op: ElbOp) =>
      match op
      case ElbCreate(k, asked) => k in ks && asked == nics
      case ElbRemovePort(_) => false
      case ElbDetach(_, _) => false
      case ElbAddPort(k) => k in ks
      case ElbHealth(_, target) => Separate(target).Some?
      case _ => true
  }

  lemma {:induction false} RegisterAllMakes(env: Env, name: string, ks: set<Key>, nics: seq<NetworkInterface>,
                                            lbs: seq<ElasticLoadBalancer>)
    requires forall lb :: lb in lbs ==> lb.name == name && KeyOf(lb) in ks && Separate(lb.healthCheckTarget).Some?
    ensures AllCalls(RegisterAll(env, lbs), PhaseCalls(name, Making(ks, nics)))
  {
    if lbs != [] {
      var lb := lbs[|lbs| - 1];
      RegisterAllMakes(env, name, ks, nics, lbs[..|lbs| - 1]);
      StepsMake(name, ks, nics, lb);
      RulePlanInPhase(env, name, Making(ks, nics), true, lb, lb.balancingTargets);
    }
  }

  lemma StepsMake(name: string, ks: set<Key>, nics: seq<NetworkInterface>, lb: ElasticLoadBalancer)
    requires lb.name == name && KeyOf(lb) in ks && Separate(lb.healthCheckTarget).Some?
    ensures AllCalls(RegisterSteps(lb), PhaseCalls(name, Making(ks, nics)))
    ensures lb.networkInterfaces == nics ==> AllCalls(CreateSteps(lb), PhaseCalls(name, Making(ks, nics)))
  {
    var ok := PhaseCalls(name, Making(ks, nics));
    assert AllCalls(WaitApplied(name), ok);
    assert AllCalls(FillSteps(lb).next.first, ok) && AllCalls(FillSteps(lb).next.next, ok);
    assert AllCalls(FillSteps(lb), ok);
    assert AllCalls(On(name, ElbAddPort(KeyOf(lb))), ok);
  }

  lemma KeysOfAll(ks: set<Key>, lbs: seq<ElasticLoadBalancer>)
    requires Keys(lbs) <= ks
    ensures forall lb :: lb in lbs ==> KeyOf(lb) in ks
  {
    forall lb | lb in lbs ensures KeyOf(lb) in ks {
      var i :| 0 <= i < |lbs| && lbs[i] == lb;
      assert KeySeq(lbs)[i] == KeyOf(lb);
    }
  }

  lemma CreationMakes(c: Ctx, r: Run, name: string, ids: set<string>, desire: seq<ElasticLoadBalancer>)
    requires DesireOK(c.env, name, ids, desire)
    ensures AllCalls(WholeCreate(c, r, name, desire),
                     PhaseCalls(name, Making(Keys(desire), desire[0].networkInterfaces)))
  {
    var ks, nics, plan := Keys(desire), desire[0].networkInterfaces, WholeCreate(c, r, name, desire);
    var view := ViewOf(c.env, Exec(c, r, plan.first).world, name);
    var placed := PlacedAll(desire, FirstVip(view), FirstNics(view));
    PlacedDesire(c.env, name, ids, desire, FirstVip(view), FirstNics(view));
    KeysOfAll(ks, desire);
    KeysOfAll(ks, placed);
    StepsMake(name, ks, nics, desire[0]);
    assert AllCalls(On(name, ElbLook), PhaseCalls(name, Making(ks, nics)));
    RulePlanInPhase(c.env, name, Making(ks, nics), true, placed[0], placed[0].balancingTargets);
    RegisterAllMakes(c.env, name, ks, nics, placed[1..]);
  }

  /** A balancer in the making: at its address, with wanted listeners only. */
  ghost predicate InTheMaking(env: Env, w: World, name: string, want: set<Key>, nics: seq<NetworkInterface>) {
    name in w.elb ==>
      && w.elb[name].vip == env.vipOf(name) && w.elb[name].nics == Assigned(env, nics)
      && w.elb[name].at.Keys <= want && StaysUsable(env, w.elb[name])
  }

  ghost function InTheMakingFor(env: Env, name: string, want: set<Key>, nics: seq<NetworkInterface>): World -> bool {
    (w: World) => InTheMaking(env, w, name, want, nics)
  }

  lemma MakingKeeps(env: Env, w: World, name: string, want: set<Key>, nics: seq<NetworkInterface>, op: ElbOp)
    requires InTheMaking(env, w, name, want, nics) && Making(want, nics)(op) && ArmsOK(nics)
    requires Apply(env, w, Elb(name, op)).Ok?
    ensures InTheMaking(env, Apply(env, w, Elb(name, op)).value, name, want, nics)
  {
  }

  lemma MakingIsPreserved(env: Env, name: string, want: set<Key>, nics: seq<NetworkInterface>)
    requires ArmsOK(nics)
    ensures Preserved(env, PhaseCalls(name, Making(want, nics)), InTheMakingFor(env, name, want, nics))
  {
    forall w, call | PhaseCalls(name, Making(want, nics))(call) && InTheMaking(env, w, name, want, nics)
                     && Apply(env, w, call).Ok?
      ensures InTheMaking(env, Apply(env, w, call).value, name, want, nics)
    {
      if call.Elb? {
        MakingKeeps(env, w, name, want, nics, call.elbop);
      }
    }
  }

  /** In every state of a creation, failing ones included, there is no balancer or one in the making. */
  lemma CreationThroughout(c: Ctx, r: Run, name: string, ids: set<string>, desire: seq<ElasticLoadBalancer>)
    requires DesireOK(c.env, name, ids, desire) && ArmsOK(desire[0].networkInterfaces) && name !in r.world.elb
    ensures var inv := InTheMakingFor(c.env, name, Keys(desire), desire[0].networkInterfaces);
            inv(EnsureCreated(c, r, name, desire).run.world)
            && AllStates(NewEvents(r, EnsureCreated(c, r, name, desire).run), inv)
  {
    var nics, plan := desire[0].networkInterfaces, WholeCreate(c, r, name, desire);
    CreateIsWhole(c, r, name, desire);
    CreationMakes(c, r, name, ids, desire);
    MakingIsPreserved(c.env, name, Keys(desire), nics);
    ExecInvariant(c, r, plan, PhaseCalls(name, Making(Keys(desire), nics)),
                  InTheMakingFor(c.env, name, Keys(desire), nics));
  }

  // ---------------------------------------------------------------- again and again

  /** Where a run may begin that can come to success: listeners with rules, and no port clash. */
  ghost predicate Resumable(c: Ctx, r: Run, name: string, ids: set<string>, desire: seq<ElasticLoadBalancer>) {
    && Ready(c, r, name, ids, desire)
    && (name in r.world.elb ==> Usable(r.world.elb[name]) && NoClash(Keys(desire), r.world.elb[name].at))
  }

  lemma SamePortSameListener(desire: seq<ElasticLoadBalancer>, i: nat, j: nat)
    requires DistinctPorts(desire) && i < |desire| && j < |desire|
    requires desire[i].loadBalancerPort == desire[j].loadBalancerPort
    ensures i == j
  {
  }

  lemma WantedDoNotClash(desire: seq<ElasticLoadBalancer>, at: map<Key, ElbListener>, at': map<Key, ElbListener>)
    requires DistinctPorts(desire) && NoClash(Keys(desire), at) && at'.Keys <= at.Keys + Keys(desire)
    ensures NoClash(Keys(desire), at')
  {
    forall k, k' | k in Keys(desire) && k' in at' && k.port == k'.port ensures k == k' {
      if k' in Keys(desire) {
        var i :| 0 <= i < |desire| && KeySeq(desire)[i] == k;
        var j :| 0 <= j < |desire| && KeySeq(desire)[j] == k';
        SamePortSameListener(desire, i, j);
      }
    }
  }

  /** No run, however it fails, leaves a balancer from which the next cannot begin. */
  lemma RunResumes(c: Ctx, r: Run, name: string, ids: set<string>, desire: seq<ElasticLoadBalancer>)
    requires Resumable(c, r, name, ids, desire) && Separate(c.env.defaultHealth).Some?
    ensures Resumable(c, EnsureElb(c, r, name, desire).run, name, ids, desire)
    ensures r.clock <= EnsureElb(c, r, name, desire).run.clock
  {
    var r1 := Exec(c, r, On(name, ElbLook));
    EnsureRun(c, r, name, ids, desire);
    EnsureKeepsWorldOK(c, r, name, desire);
    LookIdeal(c, r, name);
    if name in r.world.elb {
      NothingIsDisturbed(c, r, name, ids, desire);
      WantedDoNotClash(desire, r.world.elb[name].at, EnsureElb(c, r, name, desire).run.world.elb[name].at);
    } else if r1.out == Failed(BalancerNotFound) {
      CreationResumes(c, r1.(out := Done), name, ids, desire);
    }
  }

  lemma CreationResumes(c: Ctx, r: Run, name: string, ids: set<string>, desire: seq<ElasticLoadBalancer>)
    requires DesireOK(c.env, name, ids, desire) && ArmsOK(desire[0].networkInterfaces) && name !in r.world.elb
    requires Separate(c.env.defaultHealth).Some?
    ensures var r' := EnsureCreated(c, r, name, desire).run;
            && r.clock <= r'.clock
            && (name in r'.world.elb ==> Usable(r'.world.elb[name]) && NoClash(Keys(desire), r'.world.elb[name].at))
  {
    var r' := EnsureCreated(c, r, name, desire).run;
    CreationThroughout(c, r, name, ids, desire);
    CreateContinues(c, r, name, desire);
    if name in r'.world.elb {
      WantedDoNotClash(desire, map[], r'.world.elb[name].at);
    }
  }

  /** The service controller runs the whole operation again, `n` times, whatever came of it. */
  function Retry(c: Ctx, r: Run, name: string, desire: seq<ElasticLoadBalancer>, n: nat): Run {
    if n == 0 then r else EnsureElb(c, Retry(c, r, name, desire, n - 1), name, desire).run
  }

  lemma OneMore(c: Ctx, r: Run, name: string, ids: set<string>, desire: seq<ElasticLoadBalancer>, n: nat)
    requires Resumable(c, r, name, ids, desire) && Separate(c.env.defaultHealth).Some?
    requires n > 0 ==> Resumable(c, Retry(c, r, name, desire, n - 1), name, ids, desire)
    ensures Resumable(c, Retry(c, r, name, desire, n), name, ids, desire)
  {
    if n > 0 {
      RunResumes(c, Retry(c, r, name, desire, n - 1), name, ids, desire);
    }
  }

  lemma {:induction n} RetryResumes(c: Ctx, r: Run, name: string, ids: set<string>, desire: seq<ElasticLoadBalancer>,
                                    n: nat)
    requires Resumable(c, r, name, ids, desire) && Separate(c.env.defaultHealth).Some?
    ensures Resumable(c, Retry(c, r, name, desire, n), name, ids, desire)
  {
    OneMore(c, r, name, ids, desire, n);
  }

  /** Two runs without faults from such a start: the second changes nothing and reports success. */
  lemma TwoRunsSucceed(c: Ctx, r: Run, name: string, ids: set<string>, desire: seq<ElasticLoadBalancer>)
    requires Resumable(c, r, name, ids, desire) && Separate(c.env.defaultHealth).Some?
    ensures var f := EnsureElb(c, r, name, desire);
            var f' := EnsureElb(c, f.run, name, desire);
            FaultFree(c, r.clock, f'.run.clock) ==>
              && f'.status.Ok? && f'.run.world == f.run.world && name in f'.run.world.elb
              && f'.run.world.elb[name].at.Keys == Keys(desire) && FirstTargets(f'.run.world.elb[name]) == ids
              && f'.status.value == f'.run.world.elb[name].vip
  {
    var f := EnsureElb(c, r, name, desire);
    var f' := EnsureElb(c, f.run, name, desire);
    RunResumes(c, r, name, ids, desire);
    RunResumes(c, f.run, name, ids, desire);
    if FaultFree(c, r.clock, f'.run.clock) {
      if name in r.world.elb {
        TwoRunsConverge(c, r, name, ids, desire);
      } else {
        SucceedsExactly(c, r, name, ids, desire);
        SuccessMeansConverged(c, r, name, ids, desire);
        RightAtFirstSight(c, f.run, name, ids, desire);
      }
      SuccessMeansConverged(c, f.run, name, ids, desire);
    }
  }

  /**
   * If no port clashes at the start, then after any number of runs, whatever failed in them, two
   * runs without faults end in reported success: the ports are right, the port listed first has
   * exactly the nodes, and the second of the two changes nothing.
   */
  lemma RetriesConverge(c: Ctx, r: Run, name: string, ids: set<string>, desire: seq<ElasticLoadBalancer>, n: nat)
    requires Resumable(c, r, name, ids, desire) && Separate(c.env.defaultHealth).Some?
    ensures var r' := Retry(c, r, name, desire, n);
            var f := EnsureElb(c, r', name, desire);
            var f' := EnsureElb(c, f.run, name, desire);
            FaultFree(c, r'.clock, f'.run.clock) ==>
              && f'.status.Ok? && f'.run.world == f.run.world && name in f'.run.world.elb
              && f'.run.world.elb[name].at.Keys == Keys(desire) && FirstTargets(f'.run.world.elb[name]) == ids
              && f'.status.value == f'.run.world.elb[name].vip
  {
    RetryResumes(c, r, name, ids, desire, n);
    TwoRunsSucceed(c, Retry(c, r, name, desire, n), name, ids, desire);
  }
}
