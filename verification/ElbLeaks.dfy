/** Runs with a fault that end in a leak, and inputs that show what undoing a creation cannot do without. */
module ElbLeaks {
  import opened Base
  import opened Cloud
  import opened Runs
  import opened Differences
  import opened Rules
  import opened ElbPlan
  import opened ElbIdeal
  import opened ElbUpdate
  import opened ElbRuns
  import opened ElbEnsure
  import opened ElbConverge
  import opened ElbTheorems
  import opened ElbFlattened
  import opened ElbApart
  import opened ElbGuard
  import opened ElbGaps
  import opened ElbUndo

  // ---------------------------------------------------------------- what undoing a creation needs

  lemma OnePortAgain(env: Env, name: string, x: Instance)
    requires EnvOK(env) && Known(env, x)
    ensures DesireOK(env, name, {x.instanceID}, OnePortFor(name, [x])) && ArmsOK(COMMON_NICS)
  {
    assert Ids([x]) == [x.instanceID];
    OnePortForOK(env, name, [x]);
  }

  lemma HoldsIt(env: Env, g: string, id: string)
    requires g in env.members && id in env.members[g]
    ensures Touched(env, g, {id})
  {
    assert id in env.members[g] * {id};
  }

  lemma FoundInOwn(lbs: seq<ElasticLoadBalancer>, site: Site, rules: RuleMap, g: string)
    requires forall lb :: lb in lbs ==> lb.vip == site.vip && lb.networkInterfaces == site.nics
    requires g in rules && !(rules[g] !! AllPermissions(lbs))
    ensures !OwnFree(rules, site)
  {
    var p :| p in rules[g] && p in AllPermissions(lbs);
    var lb :| lb in lbs && p in Permissions(lb);
    PermissionsFromOwn(lb, p);
  }

  lemma UndoFails(c: Ctx, r: Run, name: string, ids: set<string>, desire: seq<ElasticLoadBalancer>, g: string)
    requires Ready(c, r, name, ids, desire) && name !in r.world.elb && forall n: nat :: c.faults(n) == NoFault
    requires g in r.world.rules && Touched(c.env, g, ids)
    requires !(r.world.rules[g] !! AllPermissions(Located(c.env, name, desire)))
    ensures var f := EnsureElb(c, r, name, desire);
            var f' := DeleteElb(c, f.run, name);
            f.status.Ok? && f'.status.Ok? && f'.run.world != r.world
  {
    CreateThenDelete(c, r, name, ids, desire);
  }

  lemma LocatedAt(env: Env, w: World, name: string, desire: seq<ElasticLoadBalancer>)
    requires desire != [] && name !in w.elb
    ensures var site := SiteOf(env, w, name, desire);
            forall lb :: lb in Located(env, name, desire) ==> lb.vip == site.vip && lb.networkInterfaces == site.nics
  {
  }

  /**
   * Where a group of the target carries a permission of the new balancer already, creating and
   * deleting it without faults does not give back the cloud, wherever the cloud lists listeners.
   */
  lemma UndoNeedsOwnFree(c: Ctx, r: Run, name: string, x: Instance, g: string)
    requires Fresh(c, r, name) && Known(c.env, x) && g in c.env.members && x.instanceID in c.env.members[g]
    requires !(r.world.rules[g] !! AllPermissions(Located(c.env, name, OnePortFor(name, [x]))))
    ensures var f := EnsureElb(c, r, name, OnePortFor(name, [x]));
            var f' := DeleteElb(c, f.run, name);
            f.status.Ok? && f'.status.Ok? && f'.run.world != r.world
    ensures !OwnFree(r.world.rules, SiteOf(c.env, r.world, name, OnePortFor(name, [x])))
  {
    var desire := OnePortFor(name, [x]);
    OnePortAgain(c.env, name, x);
    HoldsIt(c.env, g, x.instanceID);
    UndoFails(c, r, name, {x.instanceID}, desire, g);
    LocatedAt(c.env, r.world, name, desire);
    FoundInOwn(Located(c.env, name, desire), SiteOf(c.env, r.world, name, desire), r.world.rules, g);
  }

  /**
   * If the cloud lists a second port before the first, one lost request in the creation, the one
   * that registers the instances of that port, makes a deletion without faults leave the rules of
   * the first port in a group that did not carry them before.
   */
  lemma UndoNeedsFirstStays(env: Env, r: Run, name: string, x: Instance, g: string) returns (n: nat)
    requires WorldOK(env, r.world) && EnvOK(env) && r.out.Done? && Known(env, x) && name !in r.world.elb
    requires Arranged(env, [HTTP], HTTPS)[0] == HTTPS
    requires g in env.members && x.instanceID in env.members[g]
    requires OwnFree(r.world.rules, SiteOf(env, r.world, name, TwoPorts(name, x)))
    ensures var c := Ctx(env, LosesOnly(n));
            var f := EnsureElb(c, r, name, TwoPorts(name, x));
            var f' := DeleteElb(c, f.run, name);
            && f.status == Err(Fault) && f'.status.Ok? && name !in f'.run.world.elb
            && g in f'.run.world.rules && r.world.rules[g] < f'.run.world.rules[g]
  {
    var c0, plan, desire := Ctx(env, (i: nat) => NoFault), UpToInstances(env, name, x), TwoPorts(name, x);
    var s := Exec(c0, r, On(name, ElbLook)).(out := Done);
    n := Exec(c0, s, plan).clock;
    var c := Ctx(env, LosesOnly(n));
    TwoPortsOK(env, name, x);
    ExecContinues(c0, s, plan);
    ExecAgrees(c0, c, r, On(name, ElbLook));
    LookIdeal(c, r, name);
    ExecAgrees(c0, c, s, plan);
    LostInstances(c, s, name, x);
    EnsureKeepsWorldOK(c, r, name, desire);
    HalfFilledLeaks(c, EnsureElb(c, r, name, desire).run, r.world, name, x, g);
  }

  /** The first permission of the first port. */
  lemma FirstNeedsSomething(env: Env, name: string, x: Instance)
    requires EnvOK(env) && Known(env, x)
    ensures var located := Located(env, name, TwoPorts(name, x));
            Permissions(located[0]) != {} && forall p :: p in Permissions(located[0]) ==>
              FromOnly(p, Addresses(env.vipOf(name), Assigned(env, COMMON_NICS)))
  {
    var lb := Located(env, name, TwoPorts(name, x))[0];
    var rules := RulesOf(lb).value;
    assert rules[0] in rules;
    assert Encode(rules[0]) in Permissions(lb);
    forall p | p in Permissions(lb) ensures FromOnly(p, Addresses(lb.vip, lb.networkInterfaces)) {
      PermissionsFromOwn(lb, p);
    }
  }

  lemma HalfFilledLeaks(c: Ctx, r: Run, w: World, name: string, x: Instance, g: string)
    requires WorldOK(c.env, r.world) && EnvOK(c.env) && r.out.Done? && Known(c.env, x)
    requires Arranged(c.env, [HTTP], HTTPS)[0] == HTTPS && name !in w.elb
    requires r.world == Set(w, name, Some(HalfFilled(c.env, name, x.instanceID)), FirstRules(c.env, w.rules, name, x))
    requires g in w.rules && g in c.env.members && x.instanceID in c.env.members[g]
    requires OwnFree(w.rules, SiteOf(c.env, w, name, TwoPorts(name, x)))
    requires FaultFree(c, r.clock, DeleteElb(c, r, name).run.clock)
    ensures var f := DeleteElb(c, r, name);
            f.status.Ok? && name !in f.run.world.elb && g in f.run.world.rules && w.rules[g] < f.run.world.rules[g]
  {
    var b := r.world.elb[name];
    assert b == HalfFilled(c.env, name, x.instanceID) && FirstTargets(b) == {};
    DeleteRun(c, r, name);
    DeletedRules(c.env, r.world, name, g);
    FirstNeedsSomething(c.env, name, x);
    GainsSomething(c.env, w.rules, name, x, g, Addresses(c.env.vipOf(name), Assigned(c.env, COMMON_NICS)));
  }

  lemma GainsSomething(env: Env, rules: RuleMap, name: string, x: Instance, g: string, own: set<string>)
    requires g in rules && g in env.members && x.instanceID in env.members[g]
    requires var ps := Permissions(Located(env, name, TwoPorts(name, x))[0]);
             ps != {} && forall p :: p in ps ==> FromOnly(p, own)
    requires forall p :: p in rules[g] ==> !FromOnly(p, own)
    ensures g in FirstRules(env, rules, name, x) && rules[g] < FirstRules(env, rules, name, x)[g]
  {
    var ps := Permissions(Located(env, name, TwoPorts(name, x))[0]);
    assert x.instanceID in env.members[g] * {x.instanceID};
    assert Touched(env, g, {x.instanceID});
    var p :| p in ps;
    assert p !in rules[g];
  }

  // ---------------------------------------------------------------- a run that leads to a leak

  lemma CreationFinishes(c: Ctx, r: Run, name: string, desire: seq<ElasticLoadBalancer>)
    requires desire != []
    ensures var plan := WholeCreate(c, r, name, desire);
            EnsureCreated(c, r, name, desire) ==
            Finish(Exec(c, r, plan), FirstVip(ViewOf(c.env, Exec(c, r, plan.first).world, name)))
  {
  }

  /** Oracles that agree on the requests of a creation give the same creation. */
  lemma CreationAgrees(c: Ctx, c': Ctx, r: Run, name: string, desire: seq<ElasticLoadBalancer>)
    requires desire != [] && c.env == c'.env
    requires forall n: nat :: r.clock <= n < EnsureCreated(c, r, name, desire).run.clock ==> c.faults(n) == c'.faults(n)
    ensures EnsureCreated(c', r, name, desire) == EnsureCreated(c, r, name, desire)
  {
    var plan := WholeCreate(c, r, name, desire);
    CreationFinishes(c, r, name, desire);
    CreationFinishes(c', r, name, desire);
    ExecContinues(c, Exec(c, r, plan.first), plan.next);
    ExecAgrees(c, c', r, plan.first);
    assert WholeCreate(c', r, name, desire) == plan;
    ExecAgrees(c, c', r, plan);
  }

  lemma EnsureAgrees(c: Ctx, c': Ctx, r: Run, name: string, desire: seq<ElasticLoadBalancer>)
    requires desire != [] && c.env == c'.env && r.out.Done? && name !in r.world.elb
    requires forall n: nat :: r.clock <= n < EnsureElb(c, r, name, desire).run.clock ==> c.faults(n) == c'.faults(n)
    ensures EnsureElb(c', r, name, desire) == EnsureElb(c, r, name, desire)
    ensures r.clock <= EnsureElb(c, r, name, desire).run.clock
  {
    var r1 := Exec(c, r, On(name, ElbLook));
    LookIdeal(c, r, name);
    if r1.out == Failed(BalancerNotFound) {
      CreateContinues(c, r1.(out := Done), name, desire);
      ExecAgrees(c, c', r, On(name, ElbLook));
      CreationAgrees(c, c', r1.(out := Done), name, desire);
    } else {
      ExecAgrees(c, c', r, On(name, ElbLook));
    }
  }

  /** The requests for one listener up to the listing of the groups to deny its rules in. */
  function UpToDeny(env: Env, d: ElasticLoadBalancer, cur: ElasticLoadBalancer): Plan {
    Then(AttachPlan(env, d, cur),
         On(cur.name, ElbDetach(KeyOf(cur), Ids(Missing(cur.balancingTargets, d.balancingTargets, InstanceEquals)))))
  }

  lemma UpToDenyIdeal(env: Env, w: World, name: string, v: ElbBalancer, d: ElasticLoadBalancer,
                      cur: ElasticLoadBalancer, read: set<string>)
    requires Reads(env, name, v, d, cur, read) && Lookup(w.elb, name) == Some(v) && w.rules.Keys == env.members.Keys
    requires v.at[KeyOf(d)].targets == read
    ensures Ideal(env, w, UpToDeny(env, d, cur)) ==
            Ok(Set(w, name, Some(Retarget(v, KeyOf(d), IdSet(d))),
                   Adjust(env, w.rules, true, IdSet(d) - read, Permissions(cur))))
  {
    var k := KeyOf(d);
    var v1 := Retarget(v, k, read + (IdSet(d) - read));
    var rules1 := Adjust(env, w.rules, true, IdSet(d) - read, Permissions(cur));
    var w1 := Set(w, name, Some(v1), rules1);
    AttachIdeal(env, w, name, v, d, cur, read);
    DetachRequest(env, w1, name, v1, d, cur, read);
    assert read + (IdSet(d) - read) - (read - IdSet(d)) == IdSet(d);
    RetargetTwice(v, k, read + (IdSet(d) - read), IdSet(d));
    SetSet(w, name, Some(v1), rules1, Some(Retarget(v, k, IdSet(d))), rules1);
  }

  /** Losing the listing of the groups then: the listener has its new targets, and no rule was denied. */
  lemma LostDeny(c: Ctx, r: Run, name: string, v: ElbBalancer, d: ElasticLoadBalancer, cur: ElasticLoadBalancer,
                 read: set<string>)
    requires Reads(c.env, name, v, d, cur, read) && Lookup(r.world.elb, name) == Some(v) && r.out.Done?
    requires r.world.rules.Keys == c.env.members.Keys && v.at[KeyOf(d)].targets == read && read - IdSet(d) != {}
    requires var n := Exec(c, r, UpToDeny(c.env, d, cur)).clock;
             FaultFree(c, r.clock, n) && c.faults(n) == RequestLost
    ensures var r' := Exec(c, r, Then(AttachPlan(c.env, d, cur), DetachPlan(c.env, d, cur)));
            && r'.out == Failed(Fault) && r'.clock == Exec(c, r, UpToDeny(c.env, d, cur)).clock + 1
            && r'.world == Set(r.world, name, Some(Retarget(v, KeyOf(d), IdSet(d))),
                               Adjust(c.env, r.world.rules, true, IdSet(d) - read, Permissions(cur)))
  {
    var del := Missing(cur.balancingTargets, d.balancingTargets, InstanceEquals);
    AttachIds(c.env, name, v, d, cur, read);
    UpToDenyIdeal(c.env, r.world, name, v, d, cur, read);
    ExecFaultFree(c, r, UpToDeny(c.env, d, cur));
    ExecDone(c, r, UpToDeny(c.env, d, cur));
    ExecLost(c, Exec(c, r, UpToDeny(c.env, d, cur)), ListGroups, None, RulePlan(c.env, false, cur, del).next);
  }

  /** The desired listener that the client takes the first current one for. */
  function FirstFor(env: Env, w: World, name: string, desire: seq<ElasticLoadBalancer>): Option<ElasticLoadBalancer>
    requires name in w.elb && w.elb[name].order != []
  {
    Find(PlacedOn(w, name, desire), View(env, name, w.elb[name])[0], ElbEquals)
  }

  /** A balancer with two ports, as the client finds it before it changes the node from `id` to that of `y`. */
  lemma SplitReads(env: Env, w: World, name: string, nic: NetworkInterface, vip: string, id: string, y: Instance)
    requires WorldOK(env, w) && EnvOK(env) && Known(env, y)
    requires Lookup(w.elb, name) == Some(SplitBalancer(vip, nic, id, id))
    ensures var b, d := w.elb[name], FirstFor(env, w, name, TwoPorts(name, y));
            && d.Some? && IdSet(d.value) == {y.instanceID} && KeyOf(d.value) == HTTP
            && Reads(env, name, b, d.value, View(env, name, b)[0], {id})
            && Idle(PortPlan(env, name, PlacedOn(w, name, TwoPorts(name, y)), View(env, name, b)))
  {
    var b, placed := w.elb[name], PlacedOn(w, name, TwoPorts(name, y));
    SplitReconcilable(env, w, name, nic, vip, id, y);
    var d := CurrentReads(env, name, {y.instanceID}, placed, b, {id}, 0, b);
    PortsIdle(env, name, {y.instanceID}, placed, b);
  }

  lemma SplitUsable(vip: string, nic: NetworkInterface, id: string, id': string)
    ensures var b := SplitBalancer(vip, nic, id, id'); Usable(b) && b.at.Keys == {HTTP, HTTPS}
  {
  }

  lemma PlacedPorts(env: Env, name: string, y: Instance, vip: string, nic: NetworkInterface)
    requires EnvOK(env) && Known(env, y)
    ensures var placed := PlacedAll(TwoPorts(name, y), vip, [nic]);
            DesireOK(env, name, {y.instanceID}, placed) && Keys(placed) == {HTTP, HTTPS}
  {
    TwoPortsOK(env, name, y);
    PlacedIs(env, name, {y.instanceID}, TwoPorts(name, y), vip, [nic]);
  }

  lemma SplitReconcilable(env: Env, w: World, name: string, nic: NetworkInterface, vip: string, id: string, y: Instance)
    requires WorldOK(env, w) && EnvOK(env) && Known(env, y)
    requires Lookup(w.elb, name) == Some(SplitBalancer(vip, nic, id, id))
    ensures Reconcilable(env, name, {y.instanceID}, PlacedOn(w, name, TwoPorts(name, y)), w.elb[name], {id})
  {
    SplitUsable(vip, nic, id, id);
    PlacedPorts(env, name, y, vip, nic);
  }

  /** What the run does from its look to the end, if the first listener fails. */
  lemma TwoListeners(c: Ctx, r: Run, name: string, placed: seq<ElasticLoadBalancer>, view: seq<ElasticLoadBalancer>)
    requires Idle(PortPlan(c.env, name, placed, view)) && view == ViewOf(c.env, r.world, name) && |view| == 2
    requires Exec(c, r, PlanFor(c.env, placed, view[0])).out.Failed?
    ensures UpdateFrom(c, r, name, placed, view) == Finish(Exec(c, r, PlanFor(c.env, placed, view[0])), FirstVip(view))
  {
    IdleDoesNothing(c, r, PortPlan(c.env, name, placed, view));
    ReconcileSplit(c.env, placed, view, 1);
    ReconcileSplit(c.env, placed, view, 0);
    assert view[..2] == view;
    ExecAfterFailure(c, Exec(c, r, PlanFor(c.env, placed, view[0])), PlanFor(c.env, placed, view[1]));
  }

  /** The requests of that run, up to the listing of the groups. */
  function UpToFirstDeny(env: Env, w: World, name: string, y: Instance): Plan
    requires name in w.elb && w.elb[name].order != []
  {
    match FirstFor(env, w, name, TwoPorts(name, y))
    case Some(d) => UpToDeny(env, d, View(env, name, w.elb[name])[0])
    case None => Skip
  }

  /** The state in which the run ends if that listing is lost: the first port has moved, and kept its old rules. */
  function Moved(env: Env, w: World, name: string, nic: NetworkInterface, vip: string, id: string, y: Instance): World
    requires name in w.elb && w.elb[name].order != []
  {
    Set(w, name, Some(SplitBalancer(vip, nic, y.instanceID, id)),
        Adjust(env, w.rules, true, {y.instanceID} - {id}, Permissions(View(env, name, w.elb[name])[0])))
  }

  lemma SplitMoves(vip: string, nic: NetworkInterface, id: string, id': string)
    ensures Retarget(SplitBalancer(vip, nic, id, id), HTTP, {id'}) == SplitBalancer(vip, nic, id', id)
  {
    var b := SplitBalancer(vip, nic, id, id);
    assert b.at[HTTP := ElbListener({id'}, "ICMP")] == SplitBalancer(vip, nic, id', id).at;
  }

  /** The requests for the first listener, as far as they get. */
  lemma LostAtFirst(c: Ctx, r: Run, name: string, nic: NetworkInterface, vip: string, id: string, y: Instance)
    requires WorldOK(c.env, r.world) && EnvOK(c.env) && r.out.Done? && Known(c.env, y) && y.instanceID != id
    requires Lookup(r.world.elb, name) == Some(SplitBalancer(vip, nic, id, id))
    requires var n := Exec(c, r, UpToFirstDeny(c.env, r.world, name, y)).clock;
             FaultFree(c, r.clock, n) && c.faults(n) == RequestLost
    ensures var placed, cur := PlacedOn(r.world, name, TwoPorts(name, y)), View(c.env, name, r.world.elb[name])[0];
            var r' := Exec(c, r, PlanFor(c.env, placed, cur));
            && r'.out == Failed(Fault) && r'.world == Moved(c.env, r.world, name, nic, vip, id, y)
            && r'.clock == Exec(c, r, UpToFirstDeny(c.env, r.world, name, y)).clock + 1
            && Idle(PortPlan(c.env, name, placed, View(c.env, name, r.world.elb[name])))
  {
    var b, d := r.world.elb[name], FirstFor(c.env, r.world, name, TwoPorts(name, y));
    SplitReads(c.env, r.world, name, nic, vip, id, y);
    assert {id} - {y.instanceID} == {id};
    LostDeny(c, r, name, b, d.value, View(c.env, name, b)[0], {id});
    SplitMoves(vip, nic, id, y.instanceID);
  }

  lemma LostInUpdate(c: Ctx, r: Run, name: string, nic: NetworkInterface, vip: string, id: string, y: Instance)
    requires WorldOK(c.env, r.world) && EnvOK(c.env) && r.out.Done? && Known(c.env, y) && y.instanceID != id
    requires Lookup(r.world.elb, name) == Some(SplitBalancer(vip, nic, id, id))
    requires var n := Exec(c, r, UpToFirstDeny(c.env, r.world, name, y)).clock;
             FaultFree(c, r.clock, n) && c.faults(n) == RequestLost
    ensures var f := EnsureUpdated(c, r, name, TwoPorts(name, y));
            && f.status == Err(Fault) && f.run.out.Done?
            && f.run.clock == Exec(c, r, UpToFirstDeny(c.env, r.world, name, y)).clock + 1
            && f.run.world == Moved(c.env, r.world, name, nic, vip, id, y)
  {
    LostAtFirst(c, r, name, nic, vip, id, y);
    ViewFirst(c.env, r.world, name);
    TwoListeners(c, r, name, PlacedOn(r.world, name, TwoPorts(name, y)), View(c.env, name, r.world.elb[name]));
  }

  /** A change of the node in which only that listing is lost. */
  lemma LostInChange(c: Ctx, r: Run, name: string, nic: NetworkInterface, vip: string, id: string, y: Instance)
    requires WorldOK(c.env, r.world) && EnvOK(c.env) && r.out.Done? && Known(c.env, y) && y.instanceID != id
    requires Lookup(r.world.elb, name) == Some(SplitBalancer(vip, nic, id, id))
    requires var n := Exec(c, Exec(c, r, On(name, ElbLook)), UpToFirstDeny(c.env, r.world, name, y)).clock;
             FaultFree(c, r.clock, n) && c.faults(n) == RequestLost
    ensures var f := EnsureElb(c, r, name, TwoPorts(name, y));
            && f.status == Err(Fault) && f.run.out.Done?
            && f.run.clock == Exec(c, Exec(c, r, On(name, ElbLook)), UpToFirstDeny(c.env, r.world, name, y)).clock + 1
            && f.run.world == Moved(c.env, r.world, name, nic, vip, id, y)
  {
    LookIdeal(c, r, name);
    ExecContinues(c, Exec(c, r, On(name, ElbLook)), UpToFirstDeny(c.env, r.world, name, y));
    LostInUpdate(c, Exec(c, r, On(name, ElbLook)), name, nic, vip, id, y);
  }

  lemma TwoKeys(s: seq<Key>, a: Key, b: Key)
    requires Distinct(s) && Elems(s) == {a, b} && a != b && s != [] && s[0] == a
    ensures s == [a, b]
  {
    DistinctCount(s);
    assert |{a, b}| == 2;
    assert s[1] in Elems(s);
  }

  lemma CreatedSplit(env: Env, name: string, x: Instance)
    requires EnvOK(env) && Known(env, x) && Arranged(env, [HTTP], HTTPS)[0] == HTTP
    ensures |Assigned(env, COMMON_NICS)| == 1
    ensures var nic := Assigned(env, COMMON_NICS)[0];
            Created(env, name, TwoPorts(name, x)) == SplitBalancer(env.vipOf(name), nic, x.instanceID, x.instanceID)
  {
    var located, l := Located(env, name, TwoPorts(name, x)), ElbListener({x.instanceID}, "ICMP");
    var first := ElbBalancer(env.vipOf(name), Assigned(env, COMMON_NICS), [HTTP], map[HTTP := l]);
    assert Ids([x]) == [x.instanceID];
    assert WantOf(located[0]) == WantOf(located[1]) == l;
    assert located[1..] == [located[1]] && [located[1]][..0] == [];
    assert PlusAll(env, first, [located[1]]) == Plus(env, first, HTTPS, l);
    TwoKeys(Arranged(env, [HTTP], HTTPS), HTTP, HTTPS);
  }

  /** The rules of a group that holds `id` once the balancer is made, and once its first port has moved. */
  lemma StillThere(env: Env, w: World, name: string, nic: NetworkInterface, vip: string, id: string, y: Instance,
                   g: string)
    requires WorldOK(env, w) && Lookup(w.elb, name) == Some(SplitBalancer(vip, nic, id, id)) && Guarded(env, w, name)
    requires g in env.members && id in env.members[g]
    ensures var w' := Moved(env, w, name, nic, vip, id, y);
            && g in w'.rules && Needs(w.elb[name], {HTTP, HTTPS}) <= w'.rules[g]
            && Needs(SplitBalancer(vip, nic, y.instanceID, id), {HTTP, HTTPS}) == Needs(w.elb[name], {HTTP, HTTPS})
  {
    var b := w.elb[name];
    HoldsIt(env, g, id);
    GuardedUniformly(env, w, name, {id});
    assert b.at.Keys == {HTTP, HTTPS};
    SameNeeds(b, SplitBalancer(vip, nic, y.instanceID, id), {HTTP, HTTPS});
  }

  lemma MovedLeaks(c: Ctx, r: Run, w: World, name: string, nic: NetworkInterface, vip: string, id: string, y: Instance,
                   g: string)
    requires WorldOK(c.env, r.world) && EnvOK(c.env) && r.out.Done? && WorldOK(c.env, w) && y.instanceID != id
    requires Lookup(w.elb, name) == Some(SplitBalancer(vip, nic, id, id)) && Guarded(c.env, w, name)
    requires r.world == Moved(c.env, w, name, nic, vip, id, y)
    requires g in c.env.members && id in c.env.members[g] && y.instanceID !in c.env.members[g]
    requires FaultFree(c, r.clock, DeleteElb(c, r, name).run.clock)
    ensures var f := DeleteElb(c, r, name);
            && f.status.Ok? && name !in f.run.world.elb && g in f.run.world.rules
            && Needs(w.elb[name], {HTTP, HTTPS}) <= f.run.world.rules[g] != {}
  {
    StillThere(c.env, w, name, nic, vip, id, y, g);
    LeakingDeletion(c, r, name, nic, vip, y.instanceID, id, g);
  }

  lemma ChangeLoses(c0: Ctx, r: Run, name: string, nic: NetworkInterface, vip: string, id: string, y: Instance)
    returns (n: nat)
    requires WorldOK(c0.env, r.world) && EnvOK(c0.env) && r.out.Done? && Known(c0.env, y) && y.instanceID != id
    requires Lookup(r.world.elb, name) == Some(SplitBalancer(vip, nic, id, id))
    requires forall i: nat :: c0.faults(i) == NoFault
    ensures r.clock < n
    ensures var f := EnsureElb(Ctx(c0.env, LosesOnly(n)), r, name, TwoPorts(name, y));
            && f.status == Err(Fault) && f.run.out.Done? && f.run.clock == n + 1 && WorldOK(c0.env, f.run.world)
            && f.run.world == Moved(c0.env, r.world, name, nic, vip, id, y)
  {
    var plan, r1 := UpToFirstDeny(c0.env, r.world, name, y), Exec(c0, r, On(name, ElbLook));
    LookIdeal(c0, r, name);
    n := Exec(c0, r1, plan).clock;
    var c := Ctx(c0.env, LosesOnly(n));
    ExecContinues(c0, r1, plan);
    ExecAgrees(c0, c, r, On(name, ElbLook));
    ExecAgrees(c0, c, r1, plan);
    LostInChange(c, r, name, nic, vip, id, y);
    EnsureKeepsWorldOK(c, r, name, TwoPorts(name, y));
  }

  /** A successful creation, step by step where it matters here. */
  lemma SplitCreated(c: Ctx, r: Run, name: string, x: Instance)
    requires Fresh(c, r, name) && Known(c.env, x) && Arranged(c.env, [HTTP], HTTPS)[0] == HTTP
    ensures |Assigned(c.env, COMMON_NICS)| == 1
    ensures var f, nic := EnsureElb(c, r, name, TwoPorts(name, x)), Assigned(c.env, COMMON_NICS)[0];
            && f.status.Ok? && f.run.out.Done? && WorldOK(c.env, f.run.world) && Guarded(c.env, f.run.world, name)
            && Lookup(f.run.world.elb, name) ==
               Some(SplitBalancer(c.env.vipOf(name), nic, x.instanceID, x.instanceID))
  {
    TwoPortsOK(c.env, name, x);
    CreatedThen(c, r, name, {x.instanceID}, TwoPorts(name, x));
    CreatedSplit(c.env, name, x);
  }

  /**
   * One lost request leads to such a balancer, from a cloud without it: a creation that succeeds,
   * then a change of the node from `x` to `y` in which only one request is lost, the listing of the
   * groups before the rules of the first port are denied. A deletion without faults then leaves
   * all permissions of the balancer that is gone in a group of `x`.
   */
  lemma LeakIsReached(env: Env, r: Run, name: string, x: Instance, y: Instance, g: string) returns (n: nat)
    requires WorldOK(env, r.world) && EnvOK(env) && r.out.Done? && name !in r.world.elb
    requires Known(env, x) && Known(env, y) && x.instanceID != y.instanceID && Arranged(env, [HTTP], HTTPS)[0] == HTTP
    requires g in env.members && x.instanceID in env.members[g] && y.instanceID !in env.members[g]
    ensures var c := Ctx(env, LosesOnly(n));
            var f := EnsureElb(c, r, name, TwoPorts(name, x));
            var f' := EnsureElb(c, f.run, name, TwoPorts(name, y));
            var f'' := DeleteElb(c, f'.run, name);
            && f.status.Ok? && name in f.run.world.elb && f'.status == Err(Fault)
            && f''.status.Ok? && name !in f''.run.world.elb && g in f''.run.world.rules
            && Needs(f.run.world.elb[name], {HTTP, HTTPS}) <= f''.run.world.rules[g] != {}
  {
    var c0 := Ctx(env, (i: nat) => NoFault);
    SplitCreated(c0, r, name, x);
    var nic, r1 := Assigned(env, COMMON_NICS)[0], EnsureElb(c0, r, name, TwoPorts(name, x)).run;
    n := ChangeLoses(c0, r1, name, nic, env.vipOf(name), x.instanceID, y);
    var c := Ctx(env, LosesOnly(n));
    EnsureAgrees(c0, c, r, name, TwoPorts(name, x));
    MovedLeaks(c, EnsureElb(c, r1, name, TwoPorts(name, y)).run, r1.world, name, nic, env.vipOf(name), x.instanceID,
               y, g);
  }

  // ---------------------------------------------------------------- deletions that stop half way

  /** Deleting a balancer that is not there changes nothing and, without faults, succeeds. */
  lemma GoneStaysGone(c: Ctx, r: Run, name: string)
    requires r.out.Done? && name !in r.world.elb
    ensures var f := DeleteElb(c, r, name);
            f.run.world == r.world && (FaultFree(c, r.clock, f.run.clock) ==> f.status.Ok?)
  {
    var r1 := Exec(c, r, On(name, ElbLook));
    LookIdeal(c, r, name);
    if r1.out != Failed(BalancerNotFound) {
      ExecAfterFailure(c, r1, DeleteAll(c.env, ViewOf(c.env, r1.world, name)));
    }
  }

  lemma RemovesTheLast(c: Ctx, r: Run, name: string, k: Key)
    requires WorldOK(c.env, r.world) && r.out.Done? && c.faults(r.clock) == NoFault
    requires name in r.world.elb && r.world.elb[name].order == [k]
    ensures var r' := Exec(c, r, On(name, ElbRemovePort(k)));
            r'.out.Done? && r'.clock == r.clock + 1 && r'.world == Set(r.world, name, None, r.world.rules)
  {
    assert k in Elems(r.world.elb[name].order);
    assert [k][..0] == [];
    assert Without([k], k) == [];
  }

  /**
   * One lost request in the deletion of a balancer with one listener, the one that lists the groups
   * once the listener is gone: the balancer is gone, all permissions stay, and the next deletion,
   * which finds no balancer, reports success and leaves them for good.
   */
  lemma InterruptedDeletionLeaks(c: Ctx, r: Run, name: string, k: Key)
    requires WorldOK(c.env, r.world) && r.out.Done? && name in r.world.elb && r.world.elb[name].order == [k]
    requires c.faults(r.clock) == c.faults(r.clock + 1) == NoFault && c.faults(r.clock + 2) == RequestLost
    ensures var f := DeleteElb(c, r, name);
            var f' := DeleteElb(c, f.run, name);
            && f.status == Err(Fault) && name !in f.run.world.elb && f.run.world.rules == r.world.rules
            && f'.run.world == f.run.world && (FaultFree(c, f.run.clock, f'.run.clock) ==> f'.status.Ok?)
  {
    var r1, view := Exec(c, r, On(name, ElbLook)), View(c.env, name, r.world.elb[name]);
    LookIdeal(c, r, name);
    var lb := view[0];
    var r2 := Exec(c, r1, On(name, ElbRemovePort(k)));
    RemovesTheLast(c, r1, name, k);
    assert view[..0] == [];
    var rules := RulePlan(c.env, false, lb, lb.balancingTargets);
    assert DeleteAll(c.env, view) == Then(Skip, Then(On(name, ElbRemovePort(k)), rules));
    ExecLost(c, r2, ListGroups, None, rules.next);
    assert Exec(c, r1, DeleteAll(c.env, view)) == Exec(c, r2, rules);
    GoneStaysGone(c, DeleteElb(c, r, name).run, name);
  }
}
