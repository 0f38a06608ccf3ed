/** Whole L4 operations under arbitrary faults: what they keep, and where they end. */
module L4Runs {
  import opened Base
  import opened Cloud
  import opened Runs
  import opened L4Plan
  import opened L4Measure
  import opened L4Steps
  import opened L4Phases
  import opened L4Reconcile
  import opened L4Update

  // ---------------------------------------------------------------- runs that keep what a goal asks for

  /** Every request made between `r` and `r'` is progress towards `g` and disturbs nothing. */
  ghost predicate Keeps(g: Goal, r: Run, r': Run) {
    && Continues(r, r')
    && AllGood(NewEvents(r, r'), Good(g))
    && GoodStep(g, r'.world, r'.world)
  }

  lemma KeepsThen(g: Goal, r0: Run, r1: Run, r2: Run)
    requires Keeps(g, r0, r1) && Keeps(g, r1, r2)
    ensures Keeps(g, r0, r2)
  {
    ContinuesTransitive(r0, r1, r2);
  }

  lemma ExecKeeps(c: Ctx, r: Run, plan: Plan, g: Goal)
    requires GoodStep(g, r.world, r.world)
    requires r.out.Done? ==> Steady(c.env, r.world, plan, Good(g))
    ensures Keeps(g, r, Exec(c, r, plan))
  {
    ExecContinues(c, r, plan);
    if r.out.Done? {
      GoodClosed(g);
      ExecSteady(c, r, plan, Good(g));
    } else {
      ExecAfterFailure(c, r, plan);
    }
  }

  lemma GoodAtStart(env: Env, w: World, g: Goal)
    requires WorldOK(env, w) && (g.start == None || g.start == Lookup(w.l4, g.name))
    requires g.had == None || g.had == Some(AtOf(Lookup(w.l4, g.name)).Keys)
    ensures GoodStep(g, w, w)
  {
    WithWith(w, g.name, None, None);
    if g.start.Some? {
      assert g.start.value.order[0] in Elems(g.start.value.order);
    }
  }

  lemma LookRun(c: Ctx, r: Run, name: string, g: Goal)
    requires r.out.Done? && GoodStep(g, r.world, r.world)
    ensures var r1 := Exec(c, r, On(name, L4Look));
            && r1.world == r.world && Keeps(g, r, r1) && r1.clock == r.clock + 1
            && (r1.out == Failed(BalancerNotFound) ==> name !in r.world.l4)
            && (r1.out.Done? ==> name in r.world.l4)
            && (c.faults(r.clock) == NoFault && name in r.world.l4 ==> r1.out.Done?)
            && (c.faults(r.clock) == NoFault && name !in r.world.l4 ==> r1.out == Failed(BalancerNotFound))
            && NewEvents(r, r1) == [Event(L4(name, L4Look), r.world, r.world)]
  {
    WithWith(r.world, name, None, None);
    ContinuesDo(c, r, Ask(L4(name, L4Look), None));
  }

  // ---------------------------------------------------------------- where a successful run ends

  /** The balancer a successful run leaves, as a function of what was there and what is desired. */
  function Settled(env: Env, name: string, desire: seq<LoadBalancer>, b: Option<L4Balancer>): L4Balancer
    requires desire != []
  {
    match b
    case Some(v) => Ported(env, name, desire, v).(at := Wanted(desire))
    case None =>
      PlusAll(env, First(env, name, desire[0]), desire[1..])
  }

  lemma TailOfDesire(env: Env, name: string, desire: seq<LoadBalancer>)
    requires DesireOK(env, name, desire) && desire != []
    ensures DistinctPorts(desire[1..])
    ensures forall d :: d in desire[1..] ==> d in desire && d.loadBalancerPort != desire[0].loadBalancerPort
    ensures Elems(KeySeq(desire)) == {KeyOf(desire[0])} + Elems(KeySeq(desire[1..]))
  {
    assert KeySeq(desire) == [KeyOf(desire[0])] + KeySeq(desire[1..]);
    ElemsAppend([KeyOf(desire[0])], KeySeq(desire[1..]));
  }

  lemma FreshAt(env: Env, name: string, desire: seq<LoadBalancer>, first: L4Balancer)
    requires DesireOK(env, name, desire) && desire != []
    requires first == First(env, name, desire[0])
    ensures PlusAll(env, first, desire[1..]).at == Wanted(desire) && PlusAll(env, first, desire[1..]).vip == first.vip
  {
    var g, rest := GoalOf(name, desire, None), desire[1..];
    GoalIsOK(env, name, desire, None);
    TailOfDesire(env, name, desire);
    assert Describes(g, env, desire[0]);
    PlusAllKeys(g, env, first, rest);
    SameListeners(PlusAll(env, first, rest).at, Wanted(desire), first.at, KeySeq(rest));
  }

  /** Listeners that are there from the start or were added, each as wanted. */
  lemma SameListeners(at: Listeners, want: Listeners, was: Listeners, added: seq<Key>)
    requires forall k :: k in at <==> k in was || k in added
    requires want.Keys == was.Keys + Elems(added)
    requires forall k :: k in was ==> k in at && at[k] == was[k] && k in want && was[k] == want[k]
    requires forall k :: k in at && k !in was ==> k in want && at[k] == want[k]
    ensures at == want
  {
  }

  lemma SettledKept(env: Env, name: string, desire: seq<LoadBalancer>, v: L4Balancer)
    requires Setting(env, name, desire, v)
    ensures var b := Settled(env, name, desire, Some(v)); b.at == Wanted(desire) && b.vip == v.vip
  {
    PortedVip(env, name, desire, v);
  }

  lemma SettledNew(env: Env, name: string, desire: seq<LoadBalancer>)
    requires DesireOK(env, name, desire) && desire != []
    ensures var b := Settled(env, name, desire, None); b.at == Wanted(desire) && b.vip == env.vipOf(name)
  {
    FreshAt(env, name, desire, First(env, name, desire[0]));
  }

  lemma SettledAt(env: Env, name: string, desire: seq<LoadBalancer>, b: Option<L4Balancer>)
    requires DesireOK(env, name, desire) && desire != []
    requires b.Some? ==> Setting(env, name, desire, b.value)
    ensures Settled(env, name, desire, b).at == Wanted(desire)
    ensures Settled(env, name, desire, b).vip == if b.Some? then b.value.vip else env.vipOf(name)
  {
    match b {
      case Some(v) => SettledKept(env, name, desire, v);
      case None => SettledNew(env, name, desire);
    }
  }

  /** Its health checks: those of kept ports as they were, those of new ports as desired. */
  ghost predicate ChecksSettled(g: Goal, b: Option<L4Balancer>, checks: map<Key, HealthCheck>) {
    && checks.Keys <= g.want.Keys
    && forall k :: k in g.want ==>
         if k in AtOf(b) then SameCheck(k, ChecksOf(b), checks)
         else k in checks && k in g.checks && checks[k] == g.checks[k]
  }

  lemma FirstChecks(env: Env, name: string, desire: seq<LoadBalancer>)
    requires DesireOK(env, name, desire) && desire != []
    ensures var b := PlusAll(env, First(env, name, desire[0]), desire[1..]);
            ChecksSettled(GoalOf(name, desire, None), None, b.checks)
  {
    var g, first := GoalOf(name, desire, None), First(env, name, desire[0]);
    GoalIsOK(env, name, desire, None);
    TailOfDesire(env, name, desire);
    FreshAt(env, name, desire, first);
    assert Describes(g, env, desire[0]);
    PlusAllKeys(g, env, first, desire[1..]);
  }

  lemma SettledChecks(env: Env, name: string, desire: seq<LoadBalancer>, b: Option<L4Balancer>)
    requires DesireOK(env, name, desire) && desire != []
    requires b.Some? ==> Setting(env, name, desire, b.value)
    ensures ChecksSettled(GoalOf(name, desire, b), b, Settled(env, name, desire, b).checks)
  {
    if b.Some? {
      PortedIs(env, name, desire, b.value);
    } else {
      FirstChecks(env, name, desire);
    }
  }

  // ---------------------------------------------------------------- creating

  lemma RestIsSteady(env: Env, w: World, name: string, desire: seq<LoadBalancer>)
    requires DesireOK(env, name, desire) && desire != []
    requires var first := First(env, name, desire[0]);
             Lookup(w.l4, name) == Some(first)
    ensures Steady(env, w, RegisterAll(desire[1..]), Good(GoalOf(name, desire, None)))
    ensures Ideal(env, w, RegisterAll(desire[1..])) == Ok(With(w, name, Some(Settled(env, name, desire, None))))
  {
    var g := GoalOf(name, desire, None);
    var first := First(env, name, desire[0]);
    GoalIsOK(env, name, desire, None);
    TailOfDesire(env, name, desire);
    assert Describes(g, env, desire[0]);
    RegisterAllSteady(g, env, w, desire[1..], first);
  }

  lemma CreatedRun(c: Ctx, r: Run, name: string, desire: seq<LoadBalancer>)
    requires WorldOK(c.env, r.world) && DesireOK(c.env, name, desire) && desire != []
    requires r.out.Done? && name !in r.world.l4
    ensures var g, f := GoalOf(name, desire, None), EnsureCreated(c, r, name, desire);
            && Keeps(g, r, f.run)
            && (f.status.Ok? ==> f.run.world == With(r.world, name, Some(Settled(c.env, name, desire, None)))
                                 && f.status.value == c.env.vipOf(name))
            && (FaultFree(c, r.clock, f.run.clock) ==> f.status.Ok?)
  {
    var g, f := GoalOf(name, desire, None), EnsureCreated(c, r, name, desire);
    var first := First(c.env, name, desire[0]);
    var r1 := Exec(c, r, CreateSteps(desire[0]));
    var r2 := Exec(c, r1, RegisterAll(desire[1..]));
    GoalIsOK(c.env, name, desire, None);
    GoodAtStart(c.env, r.world, g);
    CreateSteady(g, c.env, r.world, desire[0]);
    ExecKeeps(c, r, CreateSteps(desire[0]), g);
    ExecContinues(c, r, CreateSteps(desire[0]));
    ExecContinues(c, r1, RegisterAll(desire[1..]));
    if FaultFree(c, r.clock, f.run.clock) {
      ExecFaultFree(c, r, CreateSteps(desire[0]));
    }
    if r1.out.Done? {
      ExecDone(c, r, CreateSteps(desire[0]));
      RestIsSteady(c.env, r1.world, name, desire);
      WithWith(r.world, name, Some(first), Some(Settled(c.env, name, desire, None)));
      if FaultFree(c, r.clock, f.run.clock) {
        ExecFaultFree(c, r1, RegisterAll(desire[1..]));
      }
    } else {
      ExecAfterFailure(c, r1, RegisterAll(desire[1..]));
    }
    if r2.out.Done? {
      ExecDone(c, r1, RegisterAll(desire[1..]));
    }
    ExecKeeps(c, r1, RegisterAll(desire[1..]), g);
    KeepsThen(g, r, r1, r2);
  }

  // ---------------------------------------------------------------- updating

  lemma PortedReconcilable(env: Env, name: string, desire: seq<LoadBalancer>, v: L4Balancer)
    requires Setting(env, name, desire, v) && L4OK(env, Ported(env, name, desire, v))
    requires Trimming(GoalOf(name, desire, Some(v)), Ported(env, name, desire, v))
    ensures Reconcilable(env, GoalOf(name, desire, Some(v)), Ported(env, name, desire, v))
    ensures Ported(env, name, desire, v).vip == v.vip
  {
    PortedIs(env, name, desire, v);
    TrimmingIsFine(GoalOf(name, desire, Some(v)), Ported(env, name, desire, v));
  }

  lemma ReconciledRun(c: Ctx, r: Run, w: World, name: string, desire: seq<LoadBalancer>, v: L4Balancer)
    requires Setting(c.env, name, desire, v) && WorldOK(c.env, r.world) && r.out.Done?
    requires r.world == With(w, name, Some(Ported(c.env, name, desire, v)))
    requires Trimming(GoalOf(name, desire, Some(v)), Ported(c.env, name, desire, v))
    requires GoodStep(GoalOf(name, desire, Some(v)), r.world, r.world)
    ensures var g, plan := GoalOf(name, desire, Some(v)), ReconcileAll(desire, ViewOf(c.env, r.world, name));
            && Keeps(g, r, Exec(c, r, plan))
            && Ideal(c.env, r.world, plan) == Ok(With(w, name, Some(Settled(c.env, name, desire, Some(v)))))
            && FirstVip(ViewOf(c.env, r.world, name)) == v.vip
  {
    var g, v2 := GoalOf(name, desire, Some(v)), Ported(c.env, name, desire, v);
    var view := ViewOf(c.env, r.world, name);
    assert L4OK(c.env, v2) by { assert name in r.world.l4 && r.world.l4[name] == v2; }
    PortedReconcilable(c.env, name, desire, v);
    ReconcileWhole(c.env, r.world, name, desire, Some(v), v2);
    WithWith(w, name, Some(v2), Some(Settled(c.env, name, desire, Some(v))));
    ExecKeeps(c, r, ReconcileAll(desire, view), g);
  }

  /** The port phase of a run. */
  lemma PortedRun(c: Ctx, r: Run, name: string, desire: seq<LoadBalancer>)
    requires WorldOK(c.env, r.world) && r.out.Done? && name in r.world.l4
    requires EnvOK(c.env) && DesireOK(c.env, name, desire) && desire != []
    ensures var v := r.world.l4[name];
            var g, r1 := GoalOf(name, desire, Some(v)), Exec(c, r, PortPlan(name, desire, View(c.env, name, v)));
            && Keeps(g, r, r1) && WorldOK(c.env, r1.world)
            && Trimming(g, Ported(c.env, name, desire, v))
            && (r1.out.Done? ==> NoClash(Wanted(desire), v.at)
                                 && r1.world == With(r.world, name, Some(Ported(c.env, name, desire, v))))
            && (FaultFree(c, r.clock, r1.clock) && NoClash(Wanted(desire), v.at) ==> r1.out.Done?)
  {
    var v := r.world.l4[name];
    var g, plan := GoalOf(name, desire, Some(v)), PortPlan(name, desire, View(c.env, name, v));
    GoodAtStart(c.env, r.world, g);
    PortPhase(c.env, r.world, name, desire, v);
    ExecKeeps(c, r, plan, g);
    ExecKeepsWorldOK(c, r, plan);
    if FaultFree(c, r.clock, Exec(c, r, plan).clock) {
      ExecFaultFree(c, r, plan);
    }
    if Exec(c, r, plan).out.Done? {
      ExecDone(c, r, plan);
    }
  }

  lemma UpdatedRun(c: Ctx, r: Run, name: string, desire: seq<LoadBalancer>)
    requires WorldOK(c.env, r.world) && r.out.Done? && name in r.world.l4
    requires EnvOK(c.env) && DesireOK(c.env, name, desire) && desire != []
    ensures var v, f := r.world.l4[name], EnsureUpdated(c, r, name, desire);
            && Keeps(GoalOf(name, desire, Some(v)), r, f.run)
            && (f.status.Ok? ==> NoClash(Wanted(desire), v.at) && f.status.value == v.vip
                                 && f.run.world == With(r.world, name, Some(Settled(c.env, name, desire, Some(v)))))
            && (FaultFree(c, r.clock, f.run.clock) && NoClash(Wanted(desire), v.at) ==> f.status.Ok?)
  {
    var v, f := r.world.l4[name], EnsureUpdated(c, r, name, desire);
    var g, r1 := GoalOf(name, desire, Some(v)), Exec(c, r, PortPlan(name, desire, View(c.env, name, v)));
    var plan2 := ReconcileAll(desire, ViewOf(c.env, r1.world, name));
    var r2 := Exec(c, r1, plan2);
    PortedRun(c, r, name, desire);
    ExecContinues(c, r1, plan2);
    if r1.out.Done? {
      ReconciledRun(c, r1, r.world, name, desire, v);
      if FaultFree(c, r.clock, f.run.clock) {
        ExecFaultFree(c, r1, plan2);
      }
      if f.status.Ok? {
        ExecDone(c, r1, plan2);
      }
      KeepsThen(g, r, r1, r2);
    } else {
      ExecAfterFailure(c, r1, plan2);
    }
  }

  // ---------------------------------------------------------------- the whole operation

  /** Where the run of a balancer that is not there ends, after the look. */
  lemma CreatedAfter(c: Ctx, r: Run, r1: Run, name: string, desire: seq<LoadBalancer>)
    requires WorldOK(c.env, r.world) && EnvOK(c.env) && DesireOK(c.env, name, desire) && desire != []
    requires name !in r.world.l4 && r1.world == r.world && r1.out.Done?
    requires Keeps(GoalOf(name, desire, None), r, r1)
    ensures var f := EnsureCreated(c, r1, name, desire);
            && Keeps(GoalOf(name, desire, None), r, f.run)
            && (f.status.Ok? ==> && f.run.world == With(r.world, name, Some(Settled(c.env, name, desire, None)))
                                 && f.status.value == Settled(c.env, name, desire, None).vip)
            && (FaultFree(c, r1.clock, f.run.clock) ==> f.status.Ok?)
  {
    CreatedRun(c, r1, name, desire);
    SettledNew(c.env, name, desire);
    KeepsThen(GoalOf(name, desire, None), r, r1, EnsureCreated(c, r1, name, desire).run);
  }

  /** Where the run of a balancer that is there ends, after the look. */
  lemma UpdatedAfter(c: Ctx, r: Run, r1: Run, name: string, desire: seq<LoadBalancer>)
    requires WorldOK(c.env, r.world) && EnvOK(c.env) && DesireOK(c.env, name, desire) && desire != []
    requires name in r.world.l4 && r1.world == r.world && r1.out.Done?
    requires Keeps(GoalOf(name, desire, Some(r.world.l4[name])), r, r1)
    ensures var v, f := r.world.l4[name], EnsureUpdated(c, r1, name, desire);
            && Keeps(GoalOf(name, desire, Some(v)), r, f.run)
            && (f.status.Ok? ==> && NoClash(Wanted(desire), v.at)
                                 && f.run.world == With(r.world, name, Some(Settled(c.env, name, desire, Some(v))))
                                 && f.status.value == Settled(c.env, name, desire, Some(v)).vip)
            && (FaultFree(c, r1.clock, f.run.clock) && NoClash(Wanted(desire), v.at) ==> f.status.Ok?)
  {
    var v := r.world.l4[name];
    UpdatedRun(c, r1, name, desire);
    SettledKept(c.env, name, desire, v);
    KeepsThen(GoalOf(name, desire, Some(v)), r, r1, EnsureUpdated(c, r1, name, desire).run);
  }

  /** Everything there is to know of one run of `EnsureL4`, whatever the faults. */
  lemma EnsureRun(c: Ctx, r: Run, name: string, desire: seq<LoadBalancer>)
    requires WorldOK(c.env, r.world) && r.out.Done?
    requires EnvOK(c.env) && DesireOK(c.env, name, desire) && desire != []
    ensures var start, f := Lookup(r.world.l4, name), EnsureL4(c, r, name, desire);
            && f.run.out.Done?
            && Keeps(GoalOf(name, desire, start), r, f.run)
            && (f.status.Ok? ==> && NoClash(Wanted(desire), AtOf(start))
                                 && f.run.world == With(r.world, name, Some(Settled(c.env, name, desire, start)))
                                 && f.status.value == Settled(c.env, name, desire, start).vip)
            && (FaultFree(c, r.clock, f.run.clock) && NoClash(Wanted(desire), AtOf(start)) ==> f.status.Ok?)
  {
    var start, f := Lookup(r.world.l4, name), EnsureL4(c, r, name, desire);
    var g, r1 := GoalOf(name, desire, start), Exec(c, r, On(name, L4Look));
    GoodAtStart(c.env, r.world, g);
    LookRun(c, r, name, g);
    if r1.out == Failed(BalancerNotFound) {
      CreatedAfter(c, r, r1.(out := Done), name, desire);
    } else if r1.out.Done? {
      UpdatedAfter(c, r, r1, name, desire);
    } else {
      assert f.run == r1.(out := Done);
    }
  }
}
