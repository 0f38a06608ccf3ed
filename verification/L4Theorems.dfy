/** The main results about L4 load balancers. */
module L4Theorems {
  import opened Base
  import opened Cloud
  import opened Runs
  import opened Spending
  import opened Differences
  import opened L4Plan
  import opened L4Measure
  import opened L4Steps
  import opened L4Reconcile
  import opened L4Update
  import opened L4Runs
  import L4Frame

  /** A well-formed cloud, a run that has not failed, and listeners as the builder makes them. */
  ghost predicate Ready(c: Ctx, r: Run, name: string, desire: seq<LoadBalancer>) {
    WorldOK(c.env, r.world) && r.out.Done? && EnvOK(c.env) && DesireOK(c.env, name, desire)
  }

  // ---------------------------------------------------------------- exact convergence

  /** A balancer with exactly the desired listeners, each with exactly its targets and filters. */
  ghost predicate Converged(desire: seq<LoadBalancer>, b: L4Balancer) {
    && b.at.Keys == Elems(KeySeq(desire))
    && forall d :: d in desire ==>
         && KeyOf(d) in b.at
         && b.at[KeyOf(d)].targets == Elems(Ids(d.balancingTargets))
         && b.at[KeyOf(d)].filters == Elems(d.filters) - {ANY_IP_ADDRESSES}
  }

  lemma ConvergedIsWanted(desire: seq<LoadBalancer>, b: L4Balancer)
    requires DistinctPorts(desire)
    ensures Converged(desire, b) <==> b.at == Wanted(desire)
  {
    WantedKeys(desire);
    WantedAt(desire);
    if Converged(desire, b) {
      forall k | k in b.at ensures b.at[k] == Wanted(desire)[k] {
        assert k in Elems(KeySeq(desire));
        var i :| 0 <= i < |desire| && KeySeq(desire)[i] == k;
        assert desire[i] in desire;
      }
    }
  }

  /**
   * What a successful run leaves of health checks: a port that was there has what it had, a new
   * one what is desired.
   */
  ghost predicate HealthChecked(desire: seq<LoadBalancer>, start: Option<L4Balancer>, b: L4Balancer) {
    forall d :: d in desire ==>
      var k := KeyOf(d);
      if start.Some? && k in start.value.at then SameCheck(k, start.value.checks, b.checks)
      else
        && k in b.checks
        && b.checks[k] == HealthCheck(d.healthCheckTarget, d.healthCheckInterval, d.healthCheckUnhealthyThreshold)
  }

  lemma SettledIsChecked(name: string, desire: seq<LoadBalancer>, start: Option<L4Balancer>, b: L4Balancer)
    requires DistinctPorts(desire) && ChecksSettled(GoalOf(name, desire, start), start, b.checks)
    ensures HealthChecked(desire, start, b)
  {
    WantedAt(desire);
  }

  /**
   * Whenever a run reports success, from any starting state and with any faults, it has converged,
   * and every port that it made has the desired health check.
   */
  lemma SuccessMeansConverged(c: Ctx, r: Run, name: string, desire: seq<LoadBalancer>)
    requires Ready(c, r, name, desire)
    ensures var f := EnsureL4(c, r, name, desire);
            f.status.Ok? ==>
              && name in f.run.world.l4
              && Converged(desire, f.run.world.l4[name])
              && HealthChecked(desire, Lookup(r.world.l4, name), f.run.world.l4[name])
              && f.status.value == f.run.world.l4[name].vip
              && (name in r.world.l4 ==> f.status.value == r.world.l4[name].vip)
              && OnlyL4(name, r.world, f.run.world)
  {
    if desire != [] {
      var start, f := Lookup(r.world.l4, name), EnsureL4(c, r, name, desire);
      EnsureRun(c, r, name, desire);
      SettledAt(c.env, name, desire, start);
      ConvergedIsWanted(desire, Settled(c.env, name, desire, start));
      SettledChecks(c.env, name, desire, start);
      SettledIsChecked(name, desire, start, Settled(c.env, name, desire, start));
    }
  }

  // ---------------------------------------------------------------- no disruption

  /** Whatever happens in a run, all it can change is the balancer it is about. */
  lemma {:induction false} ChainTouchesOnly(g: Goal, w: World, log: seq<Event>, w': World)
    requires Chained(w, log, w') && AllGood(log, Good(g))
    ensures OnlyL4(g.name, w, w')
  {
    WithWith(w, g.name, None, None);
    if log != [] {
      var e, init := log[|log| - 1], log[..|log| - 1];
      ChainTouchesOnly(g, w, init, e.before);
      assert Good(g)(e.before, e.after);
      WithWith(w, g.name, Lookup(e.before.l4, g.name), Lookup(w'.l4, g.name));
    }
  }

  /** The same for every state on the way. */
  lemma {:induction false} StatesTouchOnly(g: Goal, w: World, log: seq<Event>, w': World, i: nat)
    requires Chained(w, log, w') && AllGood(log, Good(g)) && i < |log|
    ensures OnlyL4(g.name, w, log[i].before) && OnlyL4(g.name, w, log[i].after)
    decreases |log|
  {
    var e, init := log[|log| - 1], log[..|log| - 1];
    if i == |init| {
      ChainTouchesOnly(g, w, init, e.before);
      ChainTouchesOnly(g, w, log, w');
    } else {
      StatesTouchOnly(g, w, init, e.before, i);
    }
  }

  /**
   * In every state of a run on a balancer that exists, failing runs included: listeners lie
   * between the intersection and the union of old and new, none is deleted before all are
   * registered, the last one never goes, the address stays, kept listeners never drop below both
   * target sets, and no other balancer and no rule is touched.
   */
  lemma NothingIsDisturbed(c: Ctx, r: Run, name: string, desire: seq<LoadBalancer>, i: nat)
    requires Ready(c, r, name, desire) && desire != [] && name in r.world.l4
    requires i < |NewEvents(r, EnsureL4(c, r, name, desire).run)|
    ensures var g := GoalOf(name, desire, Some(r.world.l4[name]));
            var e := NewEvents(r, EnsureL4(c, r, name, desire).run)[i];
            && Undisturbed(g, Lookup(e.before.l4, name)) && Undisturbed(g, Lookup(e.after.l4, name))
            && OnlyL4(name, r.world, e.before) && OnlyL4(name, r.world, e.after)
  {
    var g, r' := GoalOf(name, desire, Some(r.world.l4[name])), EnsureL4(c, r, name, desire).run;
    EnsureRun(c, r, name, desire);
    var e := NewEvents(r, r')[i];
    assert Good(g)(e.before, e.after);
    StatesTouchOnly(g, r.world, NewEvents(r, r'), r'.world, i);
  }

  /** No port that the run made serves a node before it has the desired health check. */
  ghost predicate WatchedFirst(desire: seq<LoadBalancer>, start: Option<L4Balancer>, b: Option<L4Balancer>) {
    forall d :: d in desire && KeyOf(d) !in AtOf(start) && KeyOf(d) in AtOf(b) && AtOf(b)[KeyOf(d)].targets != {} ==>
      && KeyOf(d) in ChecksOf(b)
      && ChecksOf(b)[KeyOf(d)] ==
         HealthCheck(d.healthCheckTarget, d.healthCheckInterval, d.healthCheckUnhealthyThreshold)
  }

  lemma CheckedIsWatched(name: string, desire: seq<LoadBalancer>, start: Option<L4Balancer>, b: Option<L4Balancer>)
    requires DistinctPorts(desire) && Checked(GoalOf(name, desire, start), b)
    ensures WatchedFirst(desire, start, b)
  {
    WantedAt(desire);
  }

  /**
   * In every state of a run, failing runs included, whether it creates the balancer or finds it:
   * the health check of a new port comes before its nodes.
   */
  lemma HealthCheckComesFirst(c: Ctx, r: Run, name: string, desire: seq<LoadBalancer>, i: nat)
    requires Ready(c, r, name, desire) && desire != []
    requires i < |NewEvents(r, EnsureL4(c, r, name, desire).run)|
    ensures var start, e := Lookup(r.world.l4, name), NewEvents(r, EnsureL4(c, r, name, desire).run)[i];
            && WatchedFirst(desire, start, Lookup(e.before.l4, name))
            && WatchedFirst(desire, start, Lookup(e.after.l4, name))
  {
    var start, e := Lookup(r.world.l4, name), NewEvents(r, EnsureL4(c, r, name, desire).run)[i];
    EnsureRun(c, r, name, desire);
    assert Good(GoalOf(name, desire, start))(e.before, e.after);
    CheckedIsWatched(name, desire, start, Lookup(e.before.l4, name));
    CheckedIsWatched(name, desire, start, Lookup(e.after.l4, name));
  }

  lemma OthersUntouched(c: Ctx, r: Run, name: string, desire: seq<LoadBalancer>)
    requires Ready(c, r, name, desire)
    ensures OnlyL4(name, r.world, EnsureL4(c, r, name, desire).run.world)
  {
    WithWith(r.world, name, None, None);
    if desire != [] {
      var start, f := Lookup(r.world.l4, name), EnsureL4(c, r, name, desire);
      EnsureRun(c, r, name, desire);
      ChainTouchesOnly(GoalOf(name, desire, start), r.world, NewEvents(r, f.run), f.run.world);
    }
  }

  // ---------------------------------------------------------------- success, exactly

  lemma CreatedHeeds(c: Ctx, r: Run, name: string, desire: seq<LoadBalancer>)
    requires desire != [] && EnsureCreated(c, r, name, desire).status.Ok?
    ensures FaultFree(c, r.clock, EnsureCreated(c, r, name, desire).run.clock)
  {
    ExecHeeds(c, r, Then(CreateSteps(desire[0]), RegisterAll(desire[1..])));
  }

  lemma UpdatedHeeds(c: Ctx, r: Run, name: string, desire: seq<LoadBalancer>)
    requires EnsureUpdated(c, r, name, desire).status.Ok?
    ensures FaultFree(c, r.clock, EnsureUpdated(c, r, name, desire).run.clock)
  {
    var plan := PortPlan(name, desire, ViewOf(c.env, r.world, name));
    ExecHeeds(c, r, Then(plan, ReconcileAll(desire, ViewOf(c.env, Exec(c, r, plan).world, name))));
  }

  /** A run that reports success lost no request and no answer. */
  lemma SuccessHeedsFaults(c: Ctx, r: Run, name: string, desire: seq<LoadBalancer>)
    requires r.out.Done? && EnsureL4(c, r, name, desire).status.Ok?
    ensures FaultFree(c, r.clock, EnsureL4(c, r, name, desire).run.clock)
  {
    var r1 := Exec(c, r, On(name, L4Look));
    if r1.out == Failed(BalancerNotFound) {
      CreatedHeeds(c, r1.(out := Done), name, desire);
    } else {
      UpdatedHeeds(c, r1, name, desire);
    }
  }

  /**
   * A run succeeds exactly if no request and no answer is lost, something is desired and no
   * desired listener needs a port used for another node port.
   */
  lemma SucceedsExactlyWithoutClash(c: Ctx, r: Run, name: string, desire: seq<LoadBalancer>)
    requires Ready(c, r, name, desire)
    ensures EnsureL4(c, r, name, desire).status.Ok? <==>
            && FaultFree(c, r.clock, EnsureL4(c, r, name, desire).run.clock)
            && desire != [] && NoClash(Wanted(desire), AtOf(Lookup(r.world.l4, name)))
  {
    if desire != [] {
      EnsureRun(c, r, name, desire);
      if EnsureL4(c, r, name, desire).status.Ok? {
        SuccessHeedsFaults(c, r, name, desire);
      }
    }
  }

  lemma RegisterStepsStrict(lb: LoadBalancer)
    ensures Strict(RegisterSteps(lb))
  {
    assert Strict(FillSteps(lb).next.first) && Strict(FillSteps(lb).next.next);
    assert Strict(FillSteps(lb).first) && Strict(FillSteps(lb).next);
  }

  lemma ListenerPlanStrict(d: LoadBalancer, cur: LoadBalancer)
    ensures Strict(ListenerPlan(d, cur))
  {
  }

  lemma {:induction false} RegisterAllStrict(lbs: seq<LoadBalancer>)
    ensures Strict(RegisterAll(lbs))
  {
    if lbs != [] {
      RegisterAllStrict(lbs[..|lbs| - 1]);
      RegisterStepsStrict(lbs[|lbs| - 1]);
    }
  }

  lemma {:induction false} DeleteAllStrict(lbs: seq<LoadBalancer>)
    ensures Strict(DeleteAll(lbs))
  {
    if lbs != [] {
      DeleteAllStrict(lbs[..|lbs| - 1]);
    }
  }

  lemma {:induction false} ReconcileAllStrict(desire: seq<LoadBalancer>, current: seq<LoadBalancer>)
    ensures Strict(ReconcileAll(desire, current))
  {
    if current != [] {
      ReconcileAllStrict(desire, current[..|current| - 1]);
      var lb := current[|current| - 1];
      if Find(desire, lb, LoadBalancerEquals).Some? {
        ListenerPlanStrict(Find(desire, lb, LoadBalancerEquals).value, lb);
      }
    }
  }

  lemma PortPlanStrict(name: string, desire: seq<LoadBalancer>, current: seq<LoadBalancer>)
    ensures Strict(PortPlan(name, desire, current))
  {
    RegisterAllStrict(ToCreate(desire, current));
    DeleteAllStrict(ToDelete(desire, current));
  }

  lemma AcceptedThen(c: Ctx, r: Run, p: Plan, q: Plan)
    requires Strict(p) && Strict(q) && Exec(c, Exec(c, r, p), q).out.Done?
    ensures AllAccepted(c.env, NewEvents(r, Exec(c, Exec(c, r, p), q)))
  {
    ExecAccepted(c, r, Then(p, q));
  }

  lemma UpdateIsAccepted(c: Ctx, r: Run, name: string, desire: seq<LoadBalancer>)
    requires EnsureUpdated(c, r, name, desire).status.Ok?
    ensures AllAccepted(c.env, NewEvents(r, EnsureUpdated(c, r, name, desire).run))
  {
    var plan := PortPlan(name, desire, ViewOf(c.env, r.world, name));
    var plan2 := ReconcileAll(desire, ViewOf(c.env, Exec(c, r, plan).world, name));
    PortPlanStrict(name, desire, ViewOf(c.env, r.world, name));
    ReconcileAllStrict(desire, ViewOf(c.env, Exec(c, r, plan).world, name));
    AcceptedThen(c, r, plan, plan2);
  }

  /** A successful run on a balancer that exists makes no request that the cloud refuses. */
  lemma EveryRequestIsAccepted(c: Ctx, r: Run, name: string, desire: seq<LoadBalancer>)
    requires Ready(c, r, name, desire) && name in r.world.l4
    ensures EnsureL4(c, r, name, desire).status.Ok? ==>
              AllAccepted(c.env, NewEvents(r, EnsureL4(c, r, name, desire).run))
  {
    var g, r1, f := DesireOf(name, desire), Exec(c, r, On(name, L4Look)), EnsureL4(c, r, name, desire);
    if f.status.Ok? {
      GoodAtStart(c.env, r.world, g);
      LookRun(c, r, name, g);
      UpdateIsAccepted(c, r1, name, desire);
      ExecAccepted(c, r, On(name, L4Look));
      EnsureContinues(c, r1, name, desire);
      ContinuesTransitive(r, r1, f.run);
    }
  }

  lemma EnsureContinues(c: Ctx, r: Run, name: string, desire: seq<LoadBalancer>)
    ensures Continues(r, EnsureUpdated(c, r, name, desire).run)
  {
    var plan := PortPlan(name, desire, ViewOf(c.env, r.world, name));
    var plan2 := ReconcileAll(desire, ViewOf(c.env, Exec(c, r, plan).world, name));
    ExecContinues(c, r, Then(plan, plan2));
  }

  // ---------------------------------------------------------------- idempotence

  /** A listener in its desired form needs no request. */
  lemma ListenerIdle(env: Env, name: string, vip: string, d: LoadBalancer)
    requires EnvOK(env) && ListenerOK(env, name, d)
    ensures Idle(ListenerPlan(d, ViewListener(env, name, vip, KeyOf(d), WantOf(d))))
  {
    var want := WantOf(d);
    var cur := ViewListener(env, name, vip, KeyOf(d), want);
    var toRegister := Missing(d.balancingTargets, cur.balancingTargets, InstanceEquals);
    var toDeregister := Missing(cur.balancingTargets, d.balancingTargets, InstanceEquals);
    forall id | id in Ids(d.balancingTargets) ensures id in env.inventory {
      IdsMembers(d.balancingTargets, id);
    }
    ViewIds(env, want.targets);
    MissingIds(env, d.balancingTargets, cur.balancingTargets);
    MissingIds(env, cur.balancingTargets, d.balancingTargets);
    assert Elems(Ids(toRegister)) == {} && Elems(Ids(toDeregister)) == {};
    NoElems(Ids(toRegister));
    NoElems(Ids(toDeregister));
    ViewFilters(env, want.filters);
    FilterChangeSets(d, cur, want.filters);
    NoChanges(FilterChanges(d, cur));
  }

  lemma NoChanges(changes: seq<Filter>)
    requires Added(changes) == {} && Removed(changes) == {}
    ensures changes == []
  {
    assert changes != [] ==> changes[0].ipAddress in Added(changes) + Removed(changes);
  }

  lemma {:induction false} ReconcileIdle(env: Env, name: string, desire: seq<LoadBalancer>, v: L4Balancer, i: nat)
    requires Setting(env, name, desire, v) && v.at == Wanted(desire) && i <= |v.order|
    ensures Idle(ReconcileAll(desire, View(env, name, v)[..i]))
  {
    if i > 0 {
      ReconcileIdle(env, name, desire, v, i - 1);
      var view := View(env, name, v);
      assert view[..i][..i - 1] == view[..i - 1];
      assert v.order[i - 1] in Elems(v.order);
      var d := CurrentIsDesired(env, name, desire, view[i - 1]);
      WantedAt(desire);
      ListenerIdle(env, name, v.vip, d);
    }
  }

  lemma PortsIdle(env: Env, name: string, desire: seq<LoadBalancer>, v: L4Balancer)
    requires Setting(env, name, desire, v) && v.at == Wanted(desire)
    ensures Idle(PortPlan(name, desire, View(env, name, v)))
  {
    CreatedKeys(env, name, desire, v);
    DeletedKeys(env, name, desire, v);
    NoElems(KeySeq(ToCreate(desire, View(env, name, v))));
    NoElems(KeySeq(ToDelete(desire, View(env, name, v))));
  }

  lemma UpdateIdle(c: Ctx, r: Run, name: string, desire: seq<LoadBalancer>)
    requires Ready(c, r, name, desire) && name in r.world.l4 && desire != []
    requires r.world.l4[name].at == Wanted(desire)
    ensures EnsureUpdated(c, r, name, desire) == Finished(r, Ok(r.world.l4[name].vip))
  {
    var v := r.world.l4[name];
    var view := View(c.env, name, v);
    PortsIdle(c.env, name, desire, v);
    IdleDoesNothing(c, r, PortPlan(name, desire, view));
    ReconcileIdle(c.env, name, desire, v, |v.order|);
    assert view[..|v.order|] == view;
    IdleDoesNothing(c, r, ReconcileAll(desire, view));
    assert FirstVip(view) == v.vip;
  }

  /** On a converged balancer a run looks once and asks for nothing else, and returns the same address. */
  lemma ConvergedIsLeftAlone(c: Ctx, r: Run, name: string, desire: seq<LoadBalancer>)
    requires Ready(c, r, name, desire) && name in r.world.l4 && desire != []
    requires Converged(desire, r.world.l4[name])
    ensures var f := EnsureL4(c, r, name, desire);
            && f.run.world == r.world
            && NewEvents(r, f.run) == [Event(L4(name, L4Look), r.world, r.world)]
            && (f.status.Ok? ==> f.status.value == r.world.l4[name].vip)
            && (FaultFree(c, r.clock, f.run.clock) ==> f.status.Ok?)
  {
    var r1 := Exec(c, r, On(name, L4Look));
    LookRun(c, r, name, DesireOf(name, desire)) by { GoodAtStart(c.env, r.world, DesireOf(name, desire)); }
    ConvergedIsWanted(desire, r.world.l4[name]);
    if r1.out.Done? {
      UpdateIdle(c, r1, name, desire);
    }
  }

  // ---------------------------------------------------------------- retries

  /** The service controller runs the whole operation again, `n` times, whatever came of it. */
  function Retry(c: Ctx, r: Run, name: string, desire: seq<LoadBalancer>, n: nat): Run {
    if n == 0 then r else EnsureL4(c, Retry(c, r, name, desire, n - 1), name, desire).run
  }

  function Distance(g: Goal, w: World): nat
    requires Elems(g.ks) == g.want.Keys
  {
    Measure(g.ks, g.want, AtOf(Lookup(w.l4, g.name))) + Unchecked(g, Lookup(w.l4, g.name))
  }

  /** How many desired ports have no health check configured. */
  function Unchecked(g: Goal, b: Option<L4Balancer>): nat {
    |g.want.Keys - ChecksOf(b).Keys|
  }

  /** Health checks only come, where they are wanted. */
  lemma ChecksFall(g: Goal, b: Option<L4Balancer>, b': Option<L4Balancer>)
    requires GoalOK(g) && BalancerStep(g, b, b')
    ensures Unchecked(g, b') <= Unchecked(g, b)
    ensures AtOf(b) == AtOf(b') && ChecksOf(b) != ChecksOf(b') ==> Unchecked(g, b') < Unchecked(g, b)
  {
    var missing, missing' := g.want.Keys - ChecksOf(b).Keys, g.want.Keys - ChecksOf(b').Keys;
    forall k | k in missing' ensures k in missing {
    }
    SmallerSet(missing', missing);
    if AtOf(b) == AtOf(b') && ChecksOf(b) != ChecksOf(b') {
      var k := NewCheck(g, b, b');
      assert k in missing && k !in missing';
    }
  }

  lemma NoMoreKeys<K, W>(c: map<K, W>, c': map<K, W>)
    requires forall k :: k in c ==> k in c' && c'[k] == c[k]
    ensures c'.Keys <= c.Keys ==> c == c'
  {
    if c'.Keys <= c.Keys {
      assert c.Keys == c'.Keys;
    }
  }

  lemma NewCheck(g: Goal, b: Option<L4Balancer>, b': Option<L4Balancer>) returns (k: Key)
    requires GoalOK(g) && ChecksStep(g, b, b') && AtOf(b) == AtOf(b') && ChecksOf(b) != ChecksOf(b')
    ensures k in g.want && k !in ChecksOf(b) && k in ChecksOf(b')
  {
    NoMoreKeys(ChecksOf(b), ChecksOf(b'));
    k :| k in ChecksOf(b') && k !in ChecksOf(b);
  }

  /** Every request that changes the cloud brings it strictly nearer. */
  lemma StepFalls(g: Goal, w: World, w': World)
    requires GoalOK(g) && GoodStep(g, w, w')
    ensures Distance(g, w') <= Distance(g, w)
    ensures w != w' ==> Distance(g, w') < Distance(g, w)
  {
    var b, b' := Lookup(w.l4, g.name), Lookup(w'.l4, g.name);
    MeasureFalls(g.ks, g.want, AtOf(b), AtOf(b'));
    ChecksFall(g, b, b');
    if AtOf(b) == AtOf(b') && ChecksOf(b) == ChecksOf(b') {
      WithWith(w, g.name, None, None);
    }
  }

  lemma {:induction false} EffectiveIsBounded(g: Goal, w: World, log: seq<Event>, w': World)
    requires GoalOK(g) && Chained(w, log, w') && AllGood(log, Good(g))
    ensures Effective(log) + Distance(g, w') <= Distance(g, w)
  {
    if log != [] {
      var e := log[|log| - 1];
      EffectiveIsBounded(g, w, log[..|log| - 1], e.before);
      assert Good(g)(e.before, e.after);
      StepFalls(g, e.before, e.after);
    }
  }

  lemma KeepsFromAnyStart(g: Goal, r: Run, r': Run)
    requires Keeps(g, r, r')
    ensures Keeps(AnyStart(g), r, r')
  {
  }

  /** What is desired, whatever is there. */
  function DesireOf(name: string, desire: seq<LoadBalancer>): Goal {
    AnyStart(GoalOf(name, desire, None))
  }

  /** `r'` was reached from `r` by runs for the same desire, and another one may begin there. */
  ghost predicate Retried(c: Ctx, r: Run, r': Run, name: string, desire: seq<LoadBalancer>) {
    Keeps(DesireOf(name, desire), r, r') && Ready(c, r', name, desire)
  }

  lemma NextRun(c: Ctx, r: Run, r1: Run, name: string, desire: seq<LoadBalancer>)
    requires Retried(c, r, r1, name, desire) && desire != []
    ensures Retried(c, r, EnsureL4(c, r1, name, desire).run, name, desire)
  {
    var r2 := EnsureL4(c, r1, name, desire).run;
    EnsureRun(c, r1, name, desire);
    KeepsFromAnyStart(GoalOf(name, desire, Lookup(r1.world.l4, name)), r1, r2);
    KeepsThen(DesireOf(name, desire), r, r1, r2);
    EnsureKeepsWorldOK(c, r1, name, desire);
  }

  lemma NotYetRun(c: Ctx, r: Run, name: string, desire: seq<LoadBalancer>)
    requires Ready(c, r, name, desire)
    ensures Retried(c, r, Retry(c, r, name, desire, 0), name, desire)
  {
    GoodAtStart(c.env, r.world, DesireOf(name, desire));
    assert NewEvents(r, r) == [];
  }

  lemma OneMore(c: Ctx, r: Run, name: string, desire: seq<LoadBalancer>, n: nat)
    requires Ready(c, r, name, desire) && desire != []
    requires n > 0 ==> Retried(c, r, Retry(c, r, name, desire, n - 1), name, desire)
    ensures Retried(c, r, Retry(c, r, name, desire, n), name, desire)
  {
    if n == 0 {
      NotYetRun(c, r, name, desire);
    } else {
      NextRun(c, r, Retry(c, r, name, desire, n - 1), name, desire);
    }
  }

  lemma {:induction n} RetryKeeps(c: Ctx, r: Run, name: string, desire: seq<LoadBalancer>, n: nat)
    requires Ready(c, r, name, desire) && desire != []
    ensures Retried(c, r, Retry(c, r, name, desire, n), name, desire)
  {
    OneMore(c, r, name, desire, n);
  }

  lemma EnsureKeepsWorldOK(c: Ctx, r: Run, name: string, desire: seq<LoadBalancer>)
    requires WorldOK(c.env, r.world)
    ensures WorldOK(c.env, EnsureL4(c, r, name, desire).run.world)
  {
    if desire != [] {
      var r1 := Exec(c, r, On(name, L4Look));
      ExecKeepsWorldOK(c, r, On(name, L4Look));
      if r1.out == Failed(BalancerNotFound) {
        var r2 := Exec(c, r1.(out := Done), CreateSteps(desire[0]));
        ExecKeepsWorldOK(c, r1.(out := Done), CreateSteps(desire[0]));
        ExecKeepsWorldOK(c, r2, RegisterAll(desire[1..]));
      } else if r1.out.Done? {
        var plan := PortPlan(name, desire, ViewOf(c.env, r1.world, name));
        var r2 := Exec(c, r1, plan);
        ExecKeepsWorldOK(c, r1, plan);
        ExecKeepsWorldOK(c, r2, ReconcileAll(desire, ViewOf(c.env, r2.world, name)));
      }
    }
  }

  /**
   * However often the operation is repeated and whatever fails, the number of requests that
   * change the cloud is bounded by the initial distance.
   */
  lemma RetriesChangeBoundedly(c: Ctx, r: Run, name: string, desire: seq<LoadBalancer>, n: nat)
    requires Ready(c, r, name, desire) && desire != []
    ensures Elems(KeySeq(desire)) == Wanted(desire).Keys
    ensures var g, r' := DesireOf(name, desire), Retry(c, r, name, desire, n);
            Effective(NewEvents(r, r')) + Distance(g, r'.world) <= Distance(g, r.world)
  {
    var g, r' := DesireOf(name, desire), Retry(c, r, name, desire, n);
    GoalIsOK(c.env, name, desire, None);
    RetryKeeps(c, r, name, desire, n);
    EffectiveIsBounded(g, r.world, NewEvents(r, r'), r'.world);
  }

  /** The ports that stay and have no health check configured. */
  function Lacking(g: Goal, b: Option<L4Balancer>): set<Key> {
    set k | k in g.want && k in AtOf(b) && k !in ChecksOf(b)
  }

  /** A successful run leaves exactly those without. */
  lemma WhatStaysUnchecked(g: Goal, b: Option<L4Balancer>, s: L4Balancer)
    requires ChecksSettled(g, b, s.checks)
    ensures g.want.Keys - s.checks.Keys == Lacking(g, b)
  {
    forall k ensures k in g.want.Keys - s.checks.Keys <==> k in Lacking(g, b) {
    }
  }

  /**
   * No port clash at the start is none after any number of faulty runs; one run without faults then
   * converges, and all that remains are the health checks that ports lacked before it.
   */
  lemma RetriesConverge(c: Ctx, r: Run, name: string, desire: seq<LoadBalancer>, n: nat)
    requires Ready(c, r, name, desire) && desire != []
    requires NoClash(Wanted(desire), AtOf(Lookup(r.world.l4, name)))
    ensures Elems(KeySeq(desire)) == Wanted(desire).Keys
    ensures var g, r' := DesireOf(name, desire), Retry(c, r, name, desire, n);
            var f := EnsureL4(c, r', name, desire);
            FaultFree(c, r'.clock, f.run.clock) ==>
              && f.status.Ok? && name in f.run.world.l4 && Converged(desire, f.run.world.l4[name])
              && Distance(g, f.run.world) == |Lacking(g, Lookup(r'.world.l4, name))|
  {
    var g, r' := DesireOf(name, desire), Retry(c, r, name, desire, n);
    WantedKeys(desire);
    RetryKeeps(c, r, name, desire, n);
    ChainKeepsNoClash(g, r.world, NewEvents(r, r'), r'.world);
    if FaultFree(c, r'.clock, EnsureL4(c, r', name, desire).run.clock) {
      QuietRunConverges(c, r', name, desire);
    }
  }

  lemma SettledDistance(env: Env, name: string, desire: seq<LoadBalancer>, b: Option<L4Balancer>, w: World)
    requires DesireOK(env, name, desire) && desire != []
    requires b.Some? ==> Setting(env, name, desire, b.value)
    requires Lookup(w.l4, name) == Some(Settled(env, name, desire, b))
    ensures Elems(KeySeq(desire)) == Wanted(desire).Keys
    ensures Distance(DesireOf(name, desire), w) == |Lacking(DesireOf(name, desire), b)|
  {
    var g := DesireOf(name, desire);
    WantedKeys(desire);
    SettledAt(env, name, desire, b);
    SettledChecks(env, name, desire, b);
    WhatStaysUnchecked(GoalOf(name, desire, b), b, Settled(env, name, desire, b));
    MeasureZero(g.ks, g.want, Wanted(desire));
  }

  lemma QuietRunConverges(c: Ctx, r: Run, name: string, desire: seq<LoadBalancer>)
    requires Ready(c, r, name, desire) && desire != []
    requires NoClash(Wanted(desire), AtOf(Lookup(r.world.l4, name)))
    requires FaultFree(c, r.clock, EnsureL4(c, r, name, desire).run.clock)
    ensures Elems(KeySeq(desire)) == Wanted(desire).Keys
    ensures var g, f := DesireOf(name, desire), EnsureL4(c, r, name, desire);
            && f.status.Ok? && name in f.run.world.l4 && Converged(desire, f.run.world.l4[name])
            && Distance(g, f.run.world) == |Lacking(g, Lookup(r.world.l4, name))|
            && HealthChecked(desire, Lookup(r.world.l4, name), f.run.world.l4[name])
  {
    WantedKeys(desire);
    EnsureRun(c, r, name, desire);
    SuccessMeansConverged(c, r, name, desire);
    SettledDistance(c.env, name, desire, Lookup(r.world.l4, name), EnsureL4(c, r, name, desire).run.world);
  }

  /** A balancer with one port, as the cloud makes it. */
  function Bare(env: Env, name: string, k: Key): L4Balancer {
    L4Balancer(env.vipOf(name), [k], map[k := L4Listener({}, {})], map[])
  }

  /** A creation in which only the first health check request is lost stops there. */
  lemma LostCheck(c: Ctx, r: Run, name: string, desire: seq<LoadBalancer>)
    requires Ready(c, r, name, desire) && desire != [] && name !in r.world.l4
    requires c.faults == LosesOnly(r.clock + 2)
    ensures var f := EnsureL4(c, r, name, desire);
            && f.status == Err(Fault) && f.run.out.Done? && f.run.clock == r.clock + 3
            && f.run.world == With(r.world, name, Some(Bare(c.env, name, KeyOf(desire[0]))))
  {
    var d, k := desire[0], KeyOf(desire[0]);
    assert d in desire && d.name == name;
    var r1 := Exec(c, r, On(name, L4Look)).(out := Done);
    var r2 := Exec(c, r1, On(name, L4Create(k)));
    assert r2.world == With(r.world, name, Some(Bare(c.env, name, k))) && r2.out.Done?;
    ExecLost(c, r2, L4(name, L4Health(k, CheckOf(d))), None, FillSteps(d).next);
    assert Exec(c, r1, CreateSteps(d)) == Exec(c, r2, FillSteps(d));
    ExecAfterFailure(c, Exec(c, r1, CreateSteps(d)), RegisterAll(desire[1..]));
  }

  /**
   * One lost request in a creation, the one that configures the health check of the first port, is
   * never made up for: the creation reports the error, and the run after it success, with
   * everything else as desired, but that port keeps the health check of the cloud.
   */
  lemma LostCheckIsNeverNoticed(env: Env, r: Run, name: string, desire: seq<LoadBalancer>)
    requires WorldOK(env, r.world) && r.out.Done? && EnvOK(env) && DesireOK(env, name, desire)
    requires desire != [] && name !in r.world.l4
    ensures var c, k := Ctx(env, LosesOnly(r.clock + 2)), KeyOf(desire[0]);
            var f := EnsureL4(c, r, name, desire);
            var f' := EnsureL4(c, f.run, name, desire);
            && f.status == Err(Fault) && f'.status.Ok? && name in f'.run.world.l4
            && Converged(desire, f'.run.world.l4[name])
            && k in f'.run.world.l4[name].at && k !in f'.run.world.l4[name].checks
  {
    var c, k := Ctx(env, LosesOnly(r.clock + 2)), KeyOf(desire[0]);
    LostCheck(c, r, name, desire);
    EnsureKeepsWorldOK(c, r, name, desire);
    BareDoesNotClash(env, name, desire);
    QuietRunConverges(c, EnsureL4(c, r, name, desire).run, name, desire);
    var last := EnsureL4(c, EnsureL4(c, r, name, desire).run, name, desire).run.world;
    assert SameCheck(k, Bare(env, name, k).checks, last.l4[name].checks);
  }

  lemma BareDoesNotClash(env: Env, name: string, desire: seq<LoadBalancer>)
    requires DistinctPorts(desire) && desire != []
    ensures NoClash(Wanted(desire), Bare(env, name, KeyOf(desire[0])).at)
  {
    WantedPorts(desire);
    WantedKeys(desire);
    assert KeySeq(desire)[0] in Elems(KeySeq(desire));
  }

  /** A successful run leaves every port with a health check exactly if no port that stays lacked one. */
  lemma SuccessChecksExactly(c: Ctx, r: Run, name: string, desire: seq<LoadBalancer>)
    requires Ready(c, r, name, desire)
    ensures var f := EnsureL4(c, r, name, desire);
            f.status.Ok? && name in f.run.world.l4 ==>
              ((forall k :: k in f.run.world.l4[name].at ==> k in f.run.world.l4[name].checks) <==>
                 (name in r.world.l4 ==> forall d :: d in desire && KeyOf(d) in r.world.l4[name].at ==>
                    KeyOf(d) in r.world.l4[name].checks))
  {
    var f := EnsureL4(c, r, name, desire);
    SuccessMeansConverged(c, r, name, desire);
    if f.status.Ok? {
      forall k | k in f.run.world.l4[name].at ensures exists d :: d in desire && KeyOf(d) == k {
        var i :| 0 <= i < |desire| && KeySeq(desire)[i] == k;
        assert desire[i] in desire;
      }
    }
  }

  lemma {:induction false} ChainKeepsNoClash(g: Goal, w: World, log: seq<Event>, w': World)
    requires Chained(w, log, w') && AllGood(log, Good(g))
    requires NoClash(g.want, AtOf(Lookup(w.l4, g.name)))
    ensures NoClash(g.want, AtOf(Lookup(w'.l4, g.name)))
  {
    if log != [] {
      var e := log[|log| - 1];
      ChainKeepsNoClash(g, w, log[..|log| - 1], e.before);
      assert Good(g)(e.before, e.after);
    }
  }

  // ---------------------------------------------------------------- deleting

  /** The listeners that are left when the first `i` in the cloud's order are gone. */
  function Dropped(v: L4Balancer, i: nat): Option<L4Balancer>
    requires i <= |v.order|
  {
    if i == |v.order| then None
    else
      var gone := Elems(v.order[..i]);
      Some(v.(order := v.order[i..], at := v.at - gone, checks := v.checks - gone))
  }

  lemma HeadAndTail(order: seq<Key>, i: nat)
    requires Distinct(order) && i < |order|
    ensures Without(order[i..], order[i]) == order[i + 1..]
    ensures Elems(order[..i + 1]) == Elems(order[..i]) + {order[i]} && order[i] !in order[..i]
  {
    assert order[i..] == [order[i]] + order[i + 1..];
    WithoutHead(order[i], order[i + 1..]);
    assert order[..i + 1] == order[..i] + [order[i]];
    ElemsAppend(order[..i], [order[i]]);
  }

  lemma DropNext(env: Env, name: string, v: L4Balancer, i: nat)
    requires Listed(v.order, v.at) && i < |v.order|
    ensures ApplyL4(env, name, Dropped(v, i), L4RemovePort(v.order[i])) == Ok(Dropped(v, i + 1))
  {
    HeadAndTail(v.order, i);
    assert v.order[i] in Elems(v.order);
    assert v.at - Elems(v.order[..i + 1]) == v.at - Elems(v.order[..i]) - {v.order[i]};
    assert v.checks - Elems(v.order[..i + 1]) == v.checks - Elems(v.order[..i]) - {v.order[i]};
  }

  lemma {:induction false} WithoutHead<T(!new)>(x: T, s: seq<T>)
    requires x !in s
    ensures Without([x] + s, x) == s
  {
    if s == [] {
      assert ([x] + s)[..0] == [];
    } else {
      var init := s[..|s| - 1];
      assert ([x] + s)[..|s|] == [x] + init;
      WithoutHead(x, init);
      assert s == init + [s[|s| - 1]];
    }
  }

  lemma DroppedIs(v: L4Balancer, i: nat)
    requires Listed(v.order, v.at) && v.checks.Keys <= v.at.Keys && i <= |v.order|
    ensures var gone := Elems(v.order[..i]);
            AtOf(Dropped(v, i)) == v.at - gone && ChecksOf(Dropped(v, i)) == v.checks - gone
  {
    if i == |v.order| {
      assert v.order[..i] == v.order;
    }
  }

  lemma DropStep(g: Goal, v: L4Balancer, i: nat)
    requires Listed(v.order, v.at) && v.checks.Keys <= v.at.Keys && i < |v.order|
    requires g.want == map[] && g.start == None && g.had == None
    ensures BalancerStep(g, Dropped(v, i), Dropped(v, i + 1))
  {
    var gone, gone' := Elems(v.order[..i]), Elems(v.order[..i + 1]);
    DroppedIs(v, i);
    DroppedIs(v, i + 1);
    HeadAndTail(v.order, i);
    assert v.order[i] in Elems(v.order);
    LessIsAStep(g, Dropped(v, i), Dropped(v, i + 1), v.at, v.checks, gone, gone', v.order[i]);
  }

  lemma LessIsAStep(g: Goal, b: Option<L4Balancer>, b': Option<L4Balancer>, at: Listeners,
                    checks: map<Key, HealthCheck>, gone: set<Key>, gone': set<Key>, k: Key)
    requires g.want == map[] && g.start == None && g.had == None && checks.Keys <= at.Keys
    requires AtOf(b) == at - gone && ChecksOf(b) == checks - gone
    requires AtOf(b') == at - gone' && ChecksOf(b') == checks - gone'
    requires k in at && k !in gone && gone' == gone + {k}
    ensures BalancerStep(g, b, b')
  {
    assert k in AtOf(b) && k !in AtOf(b');
  }

  function Nothing(name: string): Goal {
    Goal(name, [], map[], map[], None, None)
  }

  lemma DropRequest(env: Env, w: World, name: string, v: L4Balancer, i: nat)
    requires Listed(v.order, v.at) && v.checks.Keys <= v.at.Keys
    requires i < |v.order| && Lookup(w.l4, name) == Dropped(v, i)
    ensures Steady(env, w, On(name, L4RemovePort(v.order[i])), Good(Nothing(name)))
    ensures Ideal(env, w, On(name, L4RemovePort(v.order[i]))) == Ok(With(w, name, Dropped(v, i + 1)))
  {
    DropNext(env, name, v, i);
    DropStep(Nothing(name), v, i);
    OneRequest(Nothing(name), env, w, L4RemovePort(v.order[i]));
  }

  lemma DeleteSplit(env: Env, name: string, v: L4Balancer, i: nat)
    requires i < |v.order|
    ensures var view := View(env, name, v);
            DeleteAll(view[..i + 1]) == Then(DeleteAll(view[..i]), On(name, L4RemovePort(v.order[i])))
  {
    var view := View(env, name, v);
    assert view[..i + 1][..i] == view[..i] && view[..i + 1][i] == view[i];
  }

  lemma DeleteSteadyStart(env: Env, w: World, name: string, v: L4Balancer)
    requires Listed(v.order, v.at) && Lookup(w.l4, name) == Some(v)
    ensures Steady(env, w, DeleteAll(View(env, name, v)[..0]), Good(Nothing(name)))
    ensures Ideal(env, w, DeleteAll(View(env, name, v)[..0])) == Ok(With(w, name, Dropped(v, 0)))
  {
    WithWith(w, name, None, None);
    assert v.at - Elems(v.order[..0]) == v.at && v.checks - Elems(v.order[..0]) == v.checks;
  }

  lemma DeleteSteadyStep(env: Env, w: World, name: string, v: L4Balancer, i: nat)
    requires Listed(v.order, v.at) && v.checks.Keys <= v.at.Keys && i < |v.order| && Lookup(w.l4, name) == Some(v)
    requires Steady(env, w, DeleteAll(View(env, name, v)[..i]), Good(Nothing(name)))
    requires Ideal(env, w, DeleteAll(View(env, name, v)[..i])) == Ok(With(w, name, Dropped(v, i)))
    ensures Steady(env, w, DeleteAll(View(env, name, v)[..i + 1]), Good(Nothing(name)))
    ensures Ideal(env, w, DeleteAll(View(env, name, v)[..i + 1])) == Ok(With(w, name, Dropped(v, i + 1)))
  {
    var w1 := With(w, name, Dropped(v, i));
    DropRequest(env, w1, name, v, i);
    WithWith(w, name, Dropped(v, i), Dropped(v, i + 1));
    DeleteSplit(env, name, v, i);
    SteadyThen(env, w, DeleteAll(View(env, name, v)[..i]), w1, On(name, L4RemovePort(v.order[i])), Good(Nothing(name)));
  }

  lemma {:induction false} DeleteSteady(env: Env, w: World, name: string, v: L4Balancer, i: nat)
    requires Listed(v.order, v.at) && v.checks.Keys <= v.at.Keys && i <= |v.order| && Lookup(w.l4, name) == Some(v)
    ensures Steady(env, w, DeleteAll(View(env, name, v)[..i]), Good(Nothing(name)))
    ensures Ideal(env, w, DeleteAll(View(env, name, v)[..i])) == Ok(With(w, name, Dropped(v, i)))
  {
    if i == 0 {
      DeleteSteadyStart(env, w, name, v);
    } else {
      DeleteSteady(env, w, name, v, i - 1);
      DeleteSteadyStep(env, w, name, v, i - 1);
    }
  }

  lemma DeletionHeedsFaults(c: Ctx, r: Run, name: string)
    requires r.out.Done? && DeleteL4(c, r, name).status.Ok?
    ensures FaultFree(c, r.clock, DeleteL4(c, r, name).run.clock)
  {
    var r1 := Exec(c, r, On(name, L4Look));
    if r1.out != Failed(BalancerNotFound) {
      ExecHeeds(c, r1, DeleteAll(ViewOf(c.env, r1.world, name)));
    }
  }

  /**
   * Deleting touches nothing but the balancer; if it reports success the balancer is gone, and it
   * does exactly if nothing is lost.
   */
  lemma DeleteRemoves(c: Ctx, r: Run, name: string)
    requires WorldOK(c.env, r.world) && r.out.Done?
    ensures var f := DeleteL4(c, r, name);
            && Keeps(Nothing(name), r, f.run)
            && (f.status.Ok? ==> f.run.world == With(r.world, name, None))
            && (f.status.Ok? <==> FaultFree(c, r.clock, f.run.clock))
  {
    if DeleteL4(c, r, name).status.Ok? {
      DeletionHeedsFaults(c, r, name);
    }
    var g, r1 := Nothing(name), Exec(c, r, On(name, L4Look));
    GoodAtStart(c.env, r.world, g);
    LookRun(c, r, name, g);
    WithWith(r.world, name, None, None);
    var plan := DeleteAll(ViewOf(c.env, r1.world, name));
    ExecContinues(c, r1, plan);
    if r1.out.Done? {
      var v := r.world.l4[name];
      DeleteSteady(c.env, r.world, name, v, |v.order|);
      assert View(c.env, name, v)[..|v.order|] == View(c.env, name, v);
      ExecKeeps(c, r1, plan, g);
      KeepsThen(g, r, r1, Exec(c, r1, plan));
      if FaultFree(c, r.clock, DeleteL4(c, r, name).run.clock) {
        ExecFaultFree(c, r1, plan);
      }
      if Exec(c, r1, plan).out.Done? {
        ExecDone(c, r1, plan);
      }
    } else {
      ExecAfterFailure(c, r1, plan);
    }
  }

  /** Creating a balancer and deleting it again gives back the cloud exactly as it was. */
  lemma CreateThenDeleteRestores(c: Ctx, r: Run, name: string, desire: seq<LoadBalancer>)
    requires Ready(c, r, name, desire) && name !in r.world.l4
    ensures var f := EnsureL4(c, r, name, desire);
            var f' := DeleteL4(c, f.run, name);
            f'.status.Ok? ==> f'.run.world == r.world
  {
    var f := EnsureL4(c, r, name, desire);
    OthersUntouched(c, r, name, desire);
    EnsureKeepsWorldOK(c, r, name, desire);
    if desire != [] {
      EnsureRun(c, r, name, desire);
    }
    DeleteRemoves(c, f.run, name);
    WithWith(r.world, name, Lookup(f.run.world.l4, name), None);
  }

  // ---------------------------------------------------------------- two services

  datatype Operation = Ensure(name: string, desire: seq<LoadBalancer>) | Delete(name: string)

  /** Carries out one operation; a deletion answers with the empty string. */
  function Perform(c: Ctx, r: Run, o: Operation): Finished<string> {
    match o
    case Ensure(name, desire) => EnsureL4(c, r, name, desire)
    case Delete(name) =>
      var f := DeleteL4(c, r, name);
      Finished(f.run, if f.status.Ok? then Ok("") else Err(f.status.error))
  }

  ghost predicate Startable(c: Ctx, r: Run, o: Operation) {
    && WorldOK(c.env, r.world) && r.out.Done? && EnvOK(c.env)
    && (o.Ensure? ==> DesireOK(c.env, o.name, o.desire))
  }

  /** The balancer that a successful operation leaves where it found `b`. */
  function Left(env: Env, o: Operation, b: Option<L4Balancer>): Option<L4Balancer> {
    if o.Ensure? && o.desire != [] then Some(Settled(env, o.name, o.desire, b)) else None
  }

  function Answer(env: Env, o: Operation, b: Option<L4Balancer>): string {
    if o.Ensure? && o.desire != [] then Settled(env, o.name, o.desire, b).vip else ""
  }

  lemma PerformIs(c: Ctx, r: Run, o: Operation)
    requires Startable(c, r, o) && Perform(c, r, o).status.Ok?
    ensures var f, b := Perform(c, r, o), Lookup(r.world.l4, o.name);
            && f.run.out.Done? && WorldOK(c.env, f.run.world)
            && f.run.world == With(r.world, o.name, Left(c.env, o, b)) && f.status == Ok(Answer(c.env, o, b))
  {
    match o
    case Ensure(name, desire) =>
      EnsureRun(c, r, name, desire);
      EnsureKeepsWorldOK(c, r, name, desire);
    case Delete(name) =>
      DeleteRemoves(c, r, name);
      DeleteKeepsWorldOK(c, r, name);
  }

  lemma DeleteKeepsWorldOK(c: Ctx, r: Run, name: string)
    requires WorldOK(c.env, r.world)
    ensures WorldOK(c.env, DeleteL4(c, r, name).run.world)
  {
    var r1 := Exec(c, r, On(name, L4Look));
    ExecKeepsWorldOK(c, r, On(name, L4Look));
    ExecKeepsWorldOK(c, r1, DeleteAll(ViewOf(c.env, r1.world, name)));
  }

  lemma WithCommutes(w: World, a: string, x: Option<L4Balancer>, b: string, y: Option<L4Balancer>)
    requires a != b
    ensures With(With(w, a, x), b, y) == With(With(w, b, y), a, x)
    ensures Lookup(With(w, a, x).l4, b) == Lookup(w.l4, b)
  {
    assert Put(Put(w.l4, a, x), b, y) == Put(Put(w.l4, b, y), a, x);
  }

  /**
   * Operations on two balancers of different names, whether they ensure or delete, end in the
   * same cloud and give the same answers, whichever comes first.
   */
  lemma OperationsCommute(c: Ctx, r: Run, x: Operation, y: Operation)
    requires x.name != y.name && Startable(c, r, x) && Startable(c, r, y)
    ensures var rx, ry := Perform(c, r, x), Perform(c, r, y);
            var rxy, ryx := Perform(c, rx.run, y), Perform(c, ry.run, x);
            rx.status.Ok? && ry.status.Ok? && rxy.status.Ok? && ryx.status.Ok? ==>
              rxy.run.world == ryx.run.world && rxy.status == ry.status && ryx.status == rx.status
  {
    var rx, ry := Perform(c, r, x), Perform(c, r, y);
    var rxy, ryx := Perform(c, rx.run, y), Perform(c, ry.run, x);
    if rx.status.Ok? && ry.status.Ok? && rxy.status.Ok? && ryx.status.Ok? {
      var vx, vy := Left(c.env, x, Lookup(r.world.l4, x.name)), Left(c.env, y, Lookup(r.world.l4, y.name));
      PerformIs(c, r, x);
      PerformIs(c, r, y);
      WithCommutes(r.world, x.name, vx, y.name, vy);
      WithCommutes(r.world, y.name, vy, x.name, vx);
      PerformIs(c, rx.run, y);
      PerformIs(c, ry.run, x);
    }
  }

  ghost function SameBalancer(name: string): (World, World) -> bool {
    (w: World, w': World) => Lookup(w.l4, name) == Lookup(w'.l4, name)
  }

  lemma SameBalancerIsFrame(env: Env, name: string)
    ensures L4Frame.Frame(env, name, SameBalancer(name))
  {
  }

  /** What an operation does without faults to its balancer, and what it answers, depends on that balancer alone. */
  lemma PerformAlike(c: Ctx, r: Run, r': Run, o: Operation)
    requires Startable(c, r, o) && r'.out.Done? && Lookup(r.world.l4, o.name) == Lookup(r'.world.l4, o.name)
    requires Quiet(c, r, Perform(c, r, o)) && Quiet(c, r', Perform(c, r', o))
    ensures Perform(c, r, o).status == Perform(c, r', o).status
    ensures Lookup(Perform(c, r, o).run.world.l4, o.name) == Lookup(Perform(c, r', o).run.world.l4, o.name)
  {
    SameBalancerIsFrame(c.env, o.name);
    match o
    case Ensure(name, desire) =>
      L4Frame.EnsureAlike(c, r, r', name, desire, SameBalancer(name));
    case Delete(name) =>
      L4Frame.DeleteAlike(c, r, r', name, SameBalancer(name));
  }

  /** Whatever fails, an operation touches its balancer only. */
  lemma PerformTouchesOnly(c: Ctx, r: Run, o: Operation)
    requires Startable(c, r, o)
    ensures Perform(c, r, o).run.out.Done? && OnlyL4(o.name, r.world, Perform(c, r, o).run.world)
  {
    match o
    case Ensure(name, desire) =>
      OthersUntouched(c, r, name, desire);
      if desire != [] {
        EnsureRun(c, r, name, desire);
      }
    case Delete(name) =>
      DeleteRemoves(c, r, name);
      ChainTouchesOnly(Nothing(name), r.world, NewEvents(r, DeleteL4(c, r, name).run), DeleteL4(c, r, name).run.world);
  }

  /**
   * Without faults operations on two balancers of different names end in the same cloud and give
   * the same answers whichever comes first, also where a port clash or anything else stops one.
   */
  lemma QuietOperationsCommute(c: Ctx, r: Run, x: Operation, y: Operation)
    requires x.name != y.name && Startable(c, r, x) && Startable(c, r, y)
    ensures var rx, ry := Perform(c, r, x), Perform(c, r, y);
            var rxy, ryx := Perform(c, rx.run, y), Perform(c, ry.run, x);
            Quiet(c, r, rx) && Quiet(c, r, ry) && Quiet(c, rx.run, rxy) && Quiet(c, ry.run, ryx) ==>
              rxy.run.world == ryx.run.world && rxy.status == ry.status && ryx.status == rx.status
  {
    var rx, ry := Perform(c, r, x), Perform(c, r, y);
    var rxy, ryx := Perform(c, rx.run, y), Perform(c, ry.run, x);
    if Quiet(c, r, rx) && Quiet(c, r, ry) && Quiet(c, rx.run, rxy) && Quiet(c, ry.run, ryx) {
      var vx, vy := Lookup(rx.run.world.l4, x.name), Lookup(ry.run.world.l4, y.name);
      PerformTouchesOnly(c, r, x);
      PerformTouchesOnly(c, r, y);
      PerformKeepsWorldOK(c, r, x);
      PerformKeepsWorldOK(c, r, y);
      WithCommutes(r.world, x.name, vx, y.name, vy);
      WithCommutes(r.world, y.name, vy, x.name, vx);
      PerformAlike(c, r, ry.run, x);
      PerformAlike(c, r, rx.run, y);
      PerformTouchesOnly(c, rx.run, y);
      PerformTouchesOnly(c, ry.run, x);
    }
  }

  lemma PerformKeepsWorldOK(c: Ctx, r: Run, o: Operation)
    requires WorldOK(c.env, r.world)
    ensures WorldOK(c.env, Perform(c, r, o).run.world)
  {
    match o
    case Ensure(name, desire) => EnsureKeepsWorldOK(c, r, name, desire);
    case Delete(name) => DeleteKeepsWorldOK(c, r, name);
  }
}
