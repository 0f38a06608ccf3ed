/** What every state of an elastic run keeps, failing runs included, and what repeated runs come to. */
module ElbUndisturbed {
  import opened Base
  import opened Cloud
  import opened Runs
  import opened Differences
  import opened HealthTarget
  import opened Rules
  import opened ElbPlan
  import opened ElbIdeal
  import opened ElbUpdate
  import opened ElbRuns
  import opened ElbEnsure
  import opened ElbConverge
  import opened ElbTheorems
  import opened ElbSafety

  // ---------------------------------------------------------------- the requests of a phase

  /** Requests about one balancer of which `allowed` holds, and any about rules. */
  ghost function PhaseCalls(name: string, allowed: ElbOp -> bool): Call -> bool {
    (call: Call) =>
      match call
      case Elb(n, op) => n == name && allowed(op)
      case ListGroups => true
      case WaitGroup(_) => true
      case Authorize(_, _) => true
      case Revoke(_, _) => true
      case _ => false
  }

  /** Registering listeners with the keys `ks`. */
  ghost function Registering(ks: set<Key>): ElbOp -> bool {
    (op: ElbOp) =>
      match op
      case ElbLook => true
      case ElbWait => true
      case ElbAddPort(k) => k in ks
      case ElbHealth(k, target) => k in ks && Separate(target).Some?
      case ElbAttach(k, _) => k in ks
      case _ => false
  }

  /** Deleting listeners with the keys `ks`. */
  ghost function Deleting(ks: set<Key>): ElbOp -> bool {
    (op: ElbOp) => op.ElbLook? || (op.ElbRemovePort? && op.key in ks)
  }

  /** Registering instances of `add` and deregistering instances of `del`. */
  ghost function Reconciling(add: set<string>, del: set<string>): ElbOp -> bool {
    (op: ElbOp) => (op.ElbAttach? && Elems(op.ids) <= add) || (op.ElbDetach? && Elems(op.ids) <= del)
  }

  lemma RulePlanInPhase(env: Env, name: string, allowed: ElbOp -> bool, add: bool, lb: ElasticLoadBalancer,
                        instances: seq<Instance>)
    ensures AllCalls(RulePlan(env, add, lb, instances), PhaseCalls(name, allowed))
  {
    var ok := RuleCalls(env, add, Elems(Ids(instances)), Permissions(lb));
    RulePlanCalls(env, add, lb, instances);
    AllCallsWeaken(RulePlan(env, add, lb, instances), ok, PhaseCalls(name, allowed));
  }

  lemma FillStepsRegister(name: string, ks: set<Key>, lb: ElasticLoadBalancer)
    requires lb.name == name && KeyOf(lb) in ks && Separate(lb.healthCheckTarget).Some?
    ensures AllCalls(FillSteps(lb), PhaseCalls(name, Registering(ks)))
  {
    var ok := PhaseCalls(name, Registering(ks));
    assert AllCalls(WaitApplied(name), ok);
    assert AllCalls(FillSteps(lb).next.first, ok) && AllCalls(FillSteps(lb).next.next, ok);
  }

  lemma {:induction false} RegisterAllRegisters(env: Env, name: string, ks: set<Key>, lbs: seq<ElasticLoadBalancer>)
    requires forall lb :: lb in lbs ==> lb.name == name && KeyOf(lb) in ks && Separate(lb.healthCheckTarget).Some?
    ensures AllCalls(RegisterAll(env, lbs), PhaseCalls(name, Registering(ks)))
  {
    if lbs != [] {
      var lb := lbs[|lbs| - 1];
      RegisterAllRegisters(env, name, ks, lbs[..|lbs| - 1]);
      FillStepsRegister(name, ks, lb);
      assert AllCalls(On(name, ElbAddPort(KeyOf(lb))), PhaseCalls(name, Registering(ks)));
      RulePlanInPhase(env, name, Registering(ks), true, lb, lb.balancingTargets);
    }
  }

  lemma {:induction false} DeleteAllDeletes(env: Env, name: string, ks: set<Key>, lbs: seq<ElasticLoadBalancer>)
    requires forall lb :: lb in lbs ==> lb.name == name && KeyOf(lb) in ks
    ensures AllCalls(DeleteAll(env, lbs), PhaseCalls(name, Deleting(ks)))
  {
    if lbs != [] {
      var lb := lbs[|lbs| - 1];
      DeleteAllDeletes(env, name, ks, lbs[..|lbs| - 1]);
      RulePlanInPhase(env, name, Deleting(ks), false, lb, lb.balancingTargets);
    }
  }

  lemma AttachReconciles(env: Env, name: string, d: ElasticLoadBalancer, cur: ElasticLoadBalancer,
                         add: set<string>, del: set<string>)
    requires cur.name == name
    requires Elems(Ids(Missing(d.balancingTargets, cur.balancingTargets, InstanceEquals))) <= add
    ensures AllCalls(AttachPlan(env, d, cur), PhaseCalls(name, Reconciling(add, del)))
  {
    var instances := Missing(d.balancingTargets, cur.balancingTargets, InstanceEquals);
    RulePlanInPhase(env, name, Reconciling(add, del), true, cur, instances);
    assert AllCalls(On(name, ElbAttach(KeyOf(cur), Ids(instances))), PhaseCalls(name, Reconciling(add, del)));
  }

  lemma DetachReconciles(env: Env, name: string, d: ElasticLoadBalancer, cur: ElasticLoadBalancer,
                         add: set<string>, del: set<string>)
    requires cur.name == name
    requires Elems(Ids(Missing(cur.balancingTargets, d.balancingTargets, InstanceEquals))) <= del
    ensures AllCalls(DetachPlan(env, d, cur), PhaseCalls(name, Reconciling(add, del)))
  {
    var instances := Missing(cur.balancingTargets, d.balancingTargets, InstanceEquals);
    RulePlanInPhase(env, name, Reconciling(add, del), false, cur, instances);
    assert AllCalls(On(name, ElbDetach(KeyOf(cur), Ids(instances))), PhaseCalls(name, Reconciling(add, del)));
  }

  lemma PlanForReconciles(env: Env, name: string, ids: set<string>, desire: seq<ElasticLoadBalancer>, v: ElbBalancer,
                          read: set<string>, i: nat)
    requires Reconcilable(env, name, ids, desire, v, read) && i < |v.order|
    ensures AllCalls(PlanFor(env, desire, View(env, name, v)[i]), PhaseCalls(name, Reconciling(ids - read, read - ids)))
  {
    var cur := View(env, name, v)[i];
    var d := CurrentReads(env, name, ids, desire, v, read, i, v);
    AttachIds(env, name, v, d, cur, read);
    AttachReconciles(env, name, d, cur, ids - read, read - ids);
    DetachReconciles(env, name, d, cur, ids - read, read - ids);
  }

  lemma {:induction false} ReconcileAllReconciles(env: Env, name: string, ids: set<string>,
                                                  desire: seq<ElasticLoadBalancer>, v: ElbBalancer, read: set<string>,
                                                  i: nat)
    requires Reconcilable(env, name, ids, desire, v, read) && i <= |v.order|
    ensures AllCalls(ReconcileAll(env, desire, View(env, name, v)[..i]),
                     PhaseCalls(name, Reconciling(ids - read, read - ids)))
  {
    if i > 0 {
      ReconcileAllReconciles(env, name, ids, desire, v, read, i - 1);
      PlanForReconciles(env, name, ids, desire, v, read, i - 1);
      ReconcileSplit(env, desire, View(env, name, v), i - 1);
    }
  }

  // ---------------------------------------------------------------- what each phase keeps

  /** Rules of all listeners can be made, if they can for new ones. */
  ghost predicate StaysUsable(env: Env, b: ElbBalancer) {
    Separate(env.defaultHealth).Some? ==> Usable(b)
  }

  /** While ports are registered: those of `b` are all there, as they were, and only wanted ones besides. */
  ghost predicate WhileRegistering(env: Env, w: World, name: string, b: ElbBalancer, want: set<Key>) {
    && name in w.elb && w.elb[name].vip == b.vip && w.elb[name].nics == b.nics && StaysUsable(env, w.elb[name])
    && b.at.Keys <= w.elb[name].at.Keys <= b.at.Keys + want
    && forall k :: k in b.at ==> w.elb[name].at[k] == b.at[k]
  }

  /** While ports are deleted: the wanted ones are all there, the kept ones as they were. */
  ghost predicate WhileDeleting(env: Env, w: World, name: string, b: ElbBalancer, want: set<Key>) {
    && name in w.elb && w.elb[name].vip == b.vip && w.elb[name].nics == b.nics && StaysUsable(env, w.elb[name])
    && want <= w.elb[name].at.Keys <= b.at.Keys + want && Elems(w.elb[name].order) == w.elb[name].at.Keys
    && forall k :: k in b.at && k in want ==> w.elb[name].at[k] == b.at[k]
  }

  /** While nodes are registered and deregistered: exactly the wanted ports, and their health checks. */
  ghost predicate WhileReconciling(env: Env, w: World, name: string, b: ElbBalancer, want: set<Key>,
                                   add: set<string>, del: set<string>) {
    && name in w.elb && w.elb[name].vip == b.vip && w.elb[name].nics == b.nics && StaysUsable(env, w.elb[name])
    && w.elb[name].at.Keys == want
    && forall k :: k in b.at && k in want ==>
         && w.elb[name].at[k].health == b.at[k].health
         && b.at[k].targets - del <= w.elb[name].at[k].targets <= b.at[k].targets + add
  }

  ghost function WhileRegisteringFrom(env: Env, name: string, b: ElbBalancer, want: set<Key>): World -> bool {
    (w: World) => WhileRegistering(env, w, name, b, want)
  }

  ghost function WhileDeletingFrom(env: Env, name: string, b: ElbBalancer, want: set<Key>): World -> bool {
    (w: World) => WhileDeleting(env, w, name, b, want)
  }

  ghost function WhileReconcilingFrom(env: Env, name: string, b: ElbBalancer, want: set<Key>,
                                      add: set<string>, del: set<string>): World -> bool {
    (w: World) => WhileReconciling(env, w, name, b, want, add, del)
  }

  lemma RegisteringKeeps(env: Env, w: World, name: string, b: ElbBalancer, want: set<Key>, op: ElbOp)
    requires WhileRegistering(env, w, name, b, want) && Registering(want - b.at.Keys)(op)
    requires Apply(env, w, Elb(name, op)).Ok?
    ensures WhileRegistering(env, Apply(env, w, Elb(name, op)).value, name, b, want)
  {
  }

  lemma RegisteringIsPreserved(env: Env, name: string, b: ElbBalancer, want: set<Key>)
    ensures Preserved(env, PhaseCalls(name, Registering(want - b.at.Keys)), WhileRegisteringFrom(env, name, b, want))
  {
    forall w, call | PhaseCalls(name, Registering(want - b.at.Keys))(call) && WhileRegistering(env, w, name, b, want)
                     && Apply(env, w, call).Ok?
      ensures WhileRegistering(env, Apply(env, w, call).value, name, b, want)
    {
      if call.Elb? {
        RegisteringKeeps(env, w, name, b, want, call.elbop);
      }
    }
  }

  lemma DeletingKeeps(env: Env, w: World, name: string, b: ElbBalancer, want: set<Key>, op: ElbOp)
    requires WhileDeleting(env, w, name, b, want) && Deleting(b.at.Keys - want)(op) && want != {}
    requires Apply(env, w, Elb(name, op)).Ok?
    ensures WhileDeleting(env, Apply(env, w, Elb(name, op)).value, name, b, want)
  {
    if op.ElbRemovePort? {
      var k :| k in want;
      assert k in Elems(w.elb[name].order);
      assert k in Without(w.elb[name].order, op.key);
    }
  }

  lemma DeletingIsPreserved(env: Env, name: string, b: ElbBalancer, want: set<Key>)
    requires want != {}
    ensures Preserved(env, PhaseCalls(name, Deleting(b.at.Keys - want)), WhileDeletingFrom(env, name, b, want))
  {
    forall w, call | PhaseCalls(name, Deleting(b.at.Keys - want))(call) && WhileDeleting(env, w, name, b, want)
                     && Apply(env, w, call).Ok?
      ensures WhileDeleting(env, Apply(env, w, call).value, name, b, want)
    {
      if call.Elb? {
        DeletingKeeps(env, w, name, b, want, call.elbop);
      }
    }
  }

  lemma ReconcilingKeeps(env: Env, w: World, name: string, b: ElbBalancer, want: set<Key>, add: set<string>,
                         del: set<string>, op: ElbOp)
    requires WhileReconciling(env, w, name, b, want, add, del) && Reconciling(add, del)(op) && add !! del
    requires Apply(env, w, Elb(name, op)).Ok?
    ensures WhileReconciling(env, Apply(env, w, Elb(name, op)).value, name, b, want, add, del)
  {
  }

  lemma ReconcilingIsPreserved(env: Env, name: string, b: ElbBalancer, want: set<Key>, add: set<string>,
                               del: set<string>)
    requires add !! del
    ensures Preserved(env, PhaseCalls(name, Reconciling(add, del)), WhileReconcilingFrom(env, name, b, want, add, del))
  {
    forall w, call | PhaseCalls(name, Reconciling(add, del))(call) && WhileReconciling(env, w, name, b, want, add, del)
                     && Apply(env, w, call).Ok?
      ensures WhileReconciling(env, Apply(env, w, call).value, name, b, want, add, del)
    {
      if call.Elb? {
        ReconcilingKeeps(env, w, name, b, want, add, del, call.elbop);
      }
    }
  }

  // ---------------------------------------------------------------- no disruption

  /**
   * The balancer `b` is being brought to the ports `want` and the nodes `ids`: it exists at its
   * address, no kept port is missing and none is there that is neither old nor wanted, none is
   * gone before all wanted ones are there, and each kept one has its health check, its old nodes
   * as far as they stay, and none that is neither old nor wanted.
   */
  ghost predicate Undisturbed(env: Env, w: World, name: string, b: ElbBalancer, want: set<Key>, ids: set<string>) {
    && name in w.elb && w.elb[name].vip == b.vip && w.elb[name].nics == b.nics && StaysUsable(env, w.elb[name])
    && b.at.Keys * want <= w.elb[name].at.Keys <= b.at.Keys + want
    && (want <= w.elb[name].at.Keys || b.at.Keys <= w.elb[name].at.Keys)
    && forall k :: k in b.at && k in want ==>
         && w.elb[name].at[k].health == b.at[k].health
         && b.at[k].targets * ids <= w.elb[name].at[k].targets <= b.at[k].targets + ids
  }

  ghost function UndisturbedFrom(env: Env, name: string, b: ElbBalancer, want: set<Key>, ids: set<string>)
    : World -> bool
  {
    (w: World) => Undisturbed(env, w, name, b, want, ids)
  }

  lemma PhasesAreUndisturbed(env: Env, w: World, name: string, b: ElbBalancer, want: set<Key>, read: set<string>,
                             ids: set<string>)
    ensures WhileRegistering(env, w, name, b, want) ==> Undisturbed(env, w, name, b, want, ids)
    ensures WhileDeleting(env, w, name, b, want) ==> Undisturbed(env, w, name, b, want, ids)
    ensures WhileReconciling(env, w, name, b, want, ids - read, read - ids) ==> Undisturbed(env, w, name, b, want, ids)
  {
  }

  /** `r'` continues `r` and `inv` holds in all states since. */
  ghost predicate Throughout(r: Run, r': Run, inv: World -> bool) {
    Continues(r, r') && inv(r'.world) && AllStates(NewEvents(r, r'), inv)
  }

  lemma ThroughoutThen(r0: Run, r1: Run, r2: Run, inv: World -> bool)
    requires Throughout(r0, r1, inv) && Throughout(r1, r2, inv)
    ensures Throughout(r0, r2, inv)
  {
    ContinuesTransitive(r0, r1, r2);
  }

  lemma ThroughoutTwice(r0: Run, r1: Run, r2: Run, r3: Run, inv: World -> bool)
    requires Throughout(r0, r1, inv) && Throughout(r1, r2, inv) && Throughout(r2, r3, inv)
    ensures Throughout(r0, r3, inv)
  {
    ThroughoutThen(r0, r1, r2, inv);
    ThroughoutThen(r0, r2, r3, inv);
  }

  /** A run that has failed does nothing more. */
  lemma FailedThroughout(c: Ctx, r: Run, plan: Plan, inv: World -> bool)
    requires r.out.Failed? && inv(r.world)
    ensures Throughout(r, Exec(c, r, plan), inv)
  {
    ExecAfterFailure(c, r, plan);
    ExecContinues(c, r, Skip);
    assert NewEvents(r, r) == [];
  }

  lemma ExecThroughout(c: Ctx, r: Run, plan: Plan, ok: Call -> bool, inv: World -> bool, weaker: World -> bool)
    requires AllCalls(plan, ok) && Preserved(c.env, ok, inv) && inv(r.world)
    requires forall w :: inv(w) ==> weaker(w)
    ensures inv(Exec(c, r, plan).world) && Throughout(r, Exec(c, r, plan), weaker)
  {
    ExecInvariant(c, r, plan, ok, inv);
    ExecContinues(c, r, plan);
  }

  /** The start of a run on the balancer `b`. */
  ghost predicate Begins(c: Ctx, r: Run, name: string, ids: set<string>, desire: seq<ElasticLoadBalancer>,
                         b: ElbBalancer)
  {
    && Setting(c.env, name, ids, desire, b) && WorldOK(c.env, r.world) && r.out.Done?
    && Lookup(r.world.elb, name) == Some(b)
  }

  lemma RegisterPhase(c: Ctx, r: Run, name: string, ids: set<string>, desire: seq<ElasticLoadBalancer>, b: ElbBalancer)
    requires Begins(c, r, name, ids, desire, b)
    ensures var r1 := Exec(c, r, RegisterAll(c.env, ToCreate(desire, View(c.env, name, b))));
            && Throughout(r, r1, UndisturbedFrom(c.env, name, b, Keys(desire), ids))
            && (r1.out.Done? ==> WhileDeleting(c.env, r1.world, name, b, Keys(desire)))
  {
    var created, want := ToCreate(desire, View(c.env, name, b)), Keys(desire);
    var plan := RegisterAll(c.env, created);
    CreatedPart(c.env, name, ids, desire, b);
    forall lb | lb in created
      ensures KeyOf(lb) in want - b.at.Keys && lb.name == name && Separate(lb.healthCheckTarget).Some?
    {
      var i :| 0 <= i < |created| && created[i] == lb;
      assert KeySeq(created)[i] in Keys(created);
    }
    RegisterAllRegisters(c.env, name, want - b.at.Keys, created);
    RegisteringIsPreserved(c.env, name, b, want);
    forall w | WhileRegistering(c.env, w, name, b, want) ensures Undisturbed(c.env, w, name, b, want, ids) {
      PhasesAreUndisturbed(c.env, w, name, b, want, ids, ids);
    }
    ExecThroughout(c, r, plan, PhaseCalls(name, Registering(want - b.at.Keys)),
                   WhileRegisteringFrom(c.env, name, b, want), UndisturbedFrom(c.env, name, b, want, ids));
    if Exec(c, r, plan).out.Done? {
      ExecDone(c, r, plan);
      ExecKeepsWorldOK(c, r, plan);
      CreatePhase(c.env, r.world, name, ids, desire, b);
      PlusAllIs(c.env, b, created);
    }
  }

  lemma DeletedAreGone(env: Env, name: string, ids: set<string>, desire: seq<ElasticLoadBalancer>, b: ElbBalancer)
    requires Setting(env, name, ids, desire, b)
    ensures forall lb :: lb in ToDelete(desire, View(env, name, b)) ==>
              lb.name == name && KeyOf(lb) in b.at.Keys - Keys(desire)
    ensures Keys(desire) != {}
  {
    var deleted := ToDelete(desire, View(env, name, b));
    DeletedPart(env, name, ids, desire, b);
    forall lb | lb in deleted ensures lb.name == name && KeyOf(lb) in b.at.Keys - Keys(desire) {
      var i :| 0 <= i < |deleted| && deleted[i] == lb;
      assert KeySeq(deleted)[i] in Keys(deleted);
    }
    assert KeySeq(desire)[0] in Keys(desire);
  }

  lemma DeletePhaseRun(c: Ctx, r: Run, name: string, ids: set<string>, desire: seq<ElasticLoadBalancer>, b: ElbBalancer)
    requires Setting(c.env, name, ids, desire, b) && WhileDeleting(c.env, r.world, name, b, Keys(desire))
    ensures var plan := DeleteAll(c.env, ToDelete(desire, View(c.env, name, b)));
            && Throughout(r, Exec(c, r, plan), UndisturbedFrom(c.env, name, b, Keys(desire), ids))
            && WhileDeleting(c.env, Exec(c, r, plan).world, name, b, Keys(desire))
  {
    var deleted, want := ToDelete(desire, View(c.env, name, b)), Keys(desire);
    DeletedAreGone(c.env, name, ids, desire, b);
    DeleteAllDeletes(c.env, name, b.at.Keys - want, deleted);
    DeletingIsPreserved(c.env, name, b, want);
    forall w | WhileDeleting(c.env, w, name, b, want) ensures Undisturbed(c.env, w, name, b, want, ids) {
      PhasesAreUndisturbed(c.env, w, name, b, want, ids, ids);
    }
    ExecThroughout(c, r, DeleteAll(c.env, deleted), PhaseCalls(name, Deleting(b.at.Keys - want)),
                   WhileDeletingFrom(c.env, name, b, want), UndisturbedFrom(c.env, name, b, want, ids));
  }

  /** A look, or no request at all. */
  lemma LookThroughout(c: Ctx, r: Run, name: string, plan: Plan, inv: World -> bool)
    requires plan == Skip || plan == On(name, ElbLook)
    requires inv(r.world)
    ensures Throughout(r, Exec(c, r, plan), inv) && Exec(c, r, plan).world == r.world
  {
    ExecContinues(c, r, plan);
    SetSet(r.world, name, None, r.world.rules, None, r.world.rules);
  }

  lemma PortsThroughout(c: Ctx, r: Run, name: string, ids: set<string>, desire: seq<ElasticLoadBalancer>,
                        b: ElbBalancer)
    requires Begins(c, r, name, ids, desire, b)
    ensures Throughout(r, Exec(c, r, PortPlan(c.env, name, desire, View(c.env, name, b))),
                       UndisturbedFrom(c.env, name, b, Keys(desire), ids))
  {
    var plan, inv := PortPlan(c.env, name, desire, View(c.env, name, b)),
                     UndisturbedFrom(c.env, name, b, Keys(desire), ids);
    var r1 := Exec(c, r, plan.first.first);
    var r2 := Exec(c, r1, plan.first.next);
    RegisterPhase(c, r, name, ids, desire, b);
    if r1.out.Done? {
      DeletePhaseRun(c, r1, name, ids, desire, b);
    } else {
      FailedThroughout(c, r1, plan.first.next, inv);
    }
    LookThroughout(c, r2, name, plan.next, inv);
    ThroughoutTwice(r, r1, r2, Exec(c, r2, plan.next), inv);
  }

  lemma NodesThroughout(c: Ctx, r: Run, name: string, ids: set<string>, desire: seq<ElasticLoadBalancer>,
                        b: ElbBalancer)
    requires Setting(c.env, name, ids, desire, b) && WorldOK(c.env, r.world)
    requires Lookup(r.world.elb, name) == Some(Ported(c.env, name, desire, b))
    ensures Throughout(r, Exec(c, r, ReconcileAll(c.env, desire, ViewOf(c.env, r.world, name))),
                       UndisturbedFrom(c.env, name, b, Keys(desire), ids))
  {
    var p, read, want := Ported(c.env, name, desire, b), ReadThen(c.env, name, desire, b), Keys(desire);
    PortedUsable(c.env, name, ids, desire, b);
    PortedIs(c.env, name, ids, desire, b);
    assert View(c.env, name, p)[..|p.order|] == View(c.env, name, p) == ViewOf(c.env, r.world, name);
    ReconcileAllReconciles(c.env, name, ids, desire, p, read, |p.order|);
    ReconcilingIsPreserved(c.env, name, b, want, ids - read, read - ids);
    forall w | WhileReconciling(c.env, w, name, b, want, ids - read, read - ids)
      ensures Undisturbed(c.env, w, name, b, want, ids)
    {
      PhasesAreUndisturbed(c.env, w, name, b, want, read, ids);
    }
    ExecThroughout(c, r, ReconcileAll(c.env, desire, View(c.env, name, p)),
                   PhaseCalls(name, Reconciling(ids - read, read - ids)),
                   WhileReconcilingFrom(c.env, name, b, want, ids - read, read - ids),
                   UndisturbedFrom(c.env, name, b, want, ids));
  }

  lemma UpdateThroughout(c: Ctx, r: Run, name: string, ids: set<string>, desire: seq<ElasticLoadBalancer>)
    requires Ready(c, r, name, ids, desire) && name in r.world.elb && Usable(r.world.elb[name])
    ensures Throughout(r, EnsureUpdated(c, r, name, desire).run,
                       UndisturbedFrom(c.env, name, r.world.elb[name], Keys(desire), ids))
  {
    var b, placed := r.world.elb[name], PlacedOn(r.world, name, desire);
    var inv := UndisturbedFrom(c.env, name, b, Keys(desire), ids);
    ViewFirst(c.env, r.world, name);
    var plan := PortPlan(c.env, name, placed, View(c.env, name, b));
    var r1 := Exec(c, r, plan);
    var plan2 := ReconcileAll(c.env, placed, ViewOf(c.env, r1.world, name));
    PlacedSetting(c, r, name, ids, desire);
    PortsThroughout(c, r, name, ids, placed, b);
    if r1.out.Done? {
      PortRun(c, r, name, ids, desire);
      NodesThroughout(c, r1, name, ids, placed, b);
    } else {
      FailedThroughout(c, r1, plan2, inv);
    }
    ThroughoutThen(r, r1, Exec(c, r1, plan2), inv);
  }

  /**
   * In every state of a run on a balancer that exists, whatever its targets are and whatever
   * fails: the address stays, kept ports are there and no other than old and wanted ones is, none
   * is gone before all wanted ones are there, the last one never goes, and a kept port loses no
   * node that is to stay and gets none that is not wanted.
   */
  lemma NothingIsDisturbed(c: Ctx, r: Run, name: string, ids: set<string>, desire: seq<ElasticLoadBalancer>)
    requires Ready(c, r, name, ids, desire) && name in r.world.elb && Usable(r.world.elb[name])
    ensures Throughout(r, EnsureElb(c, r, name, desire).run,
                       UndisturbedFrom(c.env, name, r.world.elb[name], Keys(desire), ids))
  {
    var b, r1 := r.world.elb[name], Exec(c, r, On(name, ElbLook));
    var inv := UndisturbedFrom(c.env, name, b, Keys(desire), ids);
    LookIdeal(c, r, name);
    LookThroughout(c, r, name, On(name, ElbLook), inv);
    if r1.out.Done? {
      UpdateThroughout(c, r1, name, ids, desire);
      ThroughoutThen(r, r1, EnsureUpdated(c, r1, name, desire).run, inv);
    }
  }
}
