/** Where the security groups go wrong: inputs that lose the invariant, and what deletions leave behind. */
module ElbGaps {
  import opened Base
  import opened Cloud
  import opened Runs
  import opened Differences
  import opened Rules
  import opened ElbPlan
  import opened ElbIdeal
  import opened ElbUpdate
  import opened ElbRuns
  import opened ElbEnsure
  import opened ElbTheorems
  import opened ElbFlattened
  import opened ElbGuard

  // ---------------------------------------------------------------- losing the invariant

  /** A cloud without the balancer, and no faults. */
  ghost predicate Fresh(c: Ctx, r: Run, name: string) {
    && WorldOK(c.env, r.world) && EnvOK(c.env) && r.out.Done? && name !in r.world.elb
    && forall n: nat :: c.faults(n) == NoFault
  }

  /** The state after a creation, as the next run finds it. */
  lemma CreatedThen(c: Ctx, r: Run, name: string, ids: set<string>, desire: seq<ElasticLoadBalancer>)
    requires Fresh(c, r, name) && DesireOK(c.env, name, ids, desire) && ArmsOK(desire[0].networkInterfaces)
    ensures var f := EnsureElb(c, r, name, desire);
            && f.status.Ok? && f.run.out.Done? && WorldOK(c.env, f.run.world)
            && Arrived(f.run.world, name, Keys(desire), ids) && Guarded(c.env, f.run.world, name)
            && f.run.world.elb[name] == Created(c.env, name, desire)
  {
    EnsureRun(c, r, name, ids, desire);
    SuccessMeansConverged(c, r, name, ids, desire);
    CreateGuards(c, r, name, ids, desire);
    EnsureKeepsWorldOK(c, r, name, desire);
  }

  lemma FirstOfTwo(env: Env, name: string, x: Instance)
    requires EnvOK(env) && Known(env, x)
    ensures var d := TwoPorts(name, x)[..1];
            DesireOK(env, name, {x.instanceID}, d) && Keys(d) == {HTTP} && ArmsOK(d[0].networkInterfaces)
  {
    TwoPortsOK(env, name, x);
    assert KeySeq(TwoPorts(name, x)[..1]) == [HTTP];
  }

  lemma TwoPortsCreated(env: Env, name: string, x: Instance)
    requires EnvOK(env) && Known(env, x)
    ensures var b, check := Created(env, name, TwoPorts(name, x)), "ICMP";
            && b.at.Keys == {HTTP, HTTPS} && |b.nics| == 1
            && b.at[HTTP].health == check && b.at[HTTPS].health == check
  {
    var desire := TwoPorts(name, x);
    TwoPortsOK(env, name, x);
    CreatedIs(env, name, {x.instanceID}, desire);
    CreatedAt(env, name, {x.instanceID}, desire, 0);
    CreatedAt(env, name, {x.instanceID}, desire, 1);
  }

  /** The two listeners have their health check in common. */
  lemma PingInCommon(desire: seq<ElasticLoadBalancer>, b: ElbBalancer, name: string, x: Instance)
    requires desire == TwoPorts(name, x)[..1] && Keys(desire) == {HTTP} && b.at.Keys == {HTTP, HTTPS} && |b.nics| == 1
    requires var check := "ICMP"; b.at[HTTP].health == check && b.at[HTTPS].health == check
    ensures PlainChecks(desire, b) && !PairsApart(desire, b)
  {
    assert desire[0] in desire && HTTPS in b.at.Keys - Keys(desire);
    assert !NothingInCommon(b.nics, KeyOf(desire[0]), Protocol(CheckThen(b, desire[0])), HTTPS,
                            Protocol(HealthAt(b, HTTPS)));
  }

  lemma PingIsTaken(c: Ctx, r: Run, name: string, x: Instance)
    requires WorldOK(c.env, r.world) && EnvOK(c.env) && r.out.Done? && forall n: nat :: c.faults(n) == NoFault
    requires Known(c.env, x) && SomeGroup(c.env, r.world.rules, {x.instanceID}) && Guarded(c.env, r.world, name)
    requires Standing(r.world, name, {x.instanceID}) && r.world.elb[name] == Created(c.env, name, TwoPorts(name, x))
    ensures var f := EnsureElb(c, r, name, TwoPorts(name, x)[..1]);
            f.status.Ok? && name in f.run.world.elb && !Guarded(c.env, f.run.world, name)
  {
    var desire, ids := TwoPorts(name, x)[..1], {x.instanceID};
    TwoPortsCreated(c.env, name, x);
    FirstOfTwo(c.env, name, x);
    PingInCommon(desire, r.world.elb[name], name, x);
    UniformRunSucceeds(c, r, name, ids, desire, ids);
    PortChangeByChecks(c, r, name, ids, desire);
    PortChangeKeepsGuard(c, r, name, ids, desire);
  }

  /**
   * Two ports on one arm, both checked by ICMP, that serve an instance of some group: removing the
   * second port takes away the permission for the health check of the first.
   */
  lemma RemovedPortTakesRules(c: Ctx, r: Run, name: string, x: Instance)
    requires Fresh(c, r, name) && Known(c.env, x) && SomeGroup(c.env, r.world.rules, {x.instanceID})
    ensures var f := EnsureElb(c, r, name, TwoPorts(name, x));
            var f' := EnsureElb(c, f.run, name, TwoPorts(name, x)[..1]);
            && f.status.Ok? && Guarded(c.env, f.run.world, name)
            && f'.status.Ok? && name in f'.run.world.elb && !Guarded(c.env, f'.run.world, name)
  {
    TwoPortsOK(c.env, name, x);
    CreatedThen(c, r, name, {x.instanceID}, TwoPorts(name, x));
    PingIsTaken(c, EnsureElb(c, r, name, TwoPorts(name, x)).run, name, x);
  }

  lemma UniformRunSucceeds(c: Ctx, r: Run, name: string, ids: set<string>, desire: seq<ElasticLoadBalancer>,
                           had: set<string>)
    requires Ready(c, r, name, ids, desire) && Standing(r.world, name, had) && Keys(desire) <= r.world.elb[name].at.Keys
    requires forall n: nat :: c.faults(n) == NoFault
    ensures EnsureElb(c, r, name, desire).status.Ok?
  {
    assert NoClash(Keys(desire), r.world.elb[name].at);
    UniformStarts(c, r, name, ids, desire, had);
  }

  /** A service with one port. */
  function OnePortFor(name: string, instances: seq<Instance>): seq<ElasticLoadBalancer> {
    [ElasticLoadBalancer("", name, "", "", "TCP", 0, 0, instances, 80, 30080, "ICMP", 10, 1, COMMON_NICS)]
  }

  lemma OnePortForOK(env: Env, name: string, instances: seq<Instance>)
    requires EnvOK(env) && (forall x :: x in instances ==> Known(env, x)) && Distinct(Ids(instances))
    ensures DesireOK(env, name, Elems(Ids(instances)), OnePortFor(name, instances))
    ensures Keys(OnePortFor(name, instances)) == {HTTP}
  {
    var d := OnePortFor(name, instances)[0];
    assert ListenerOK(env, name, d) && IdSet(d) == Elems(Ids(instances));
    assert KeySeq(OnePortFor(name, instances)) == [HTTP];
  }

  lemma NodeIsTaken(c: Ctx, r: Run, name: string, x: Instance, id: string, g: string)
    requires WorldOK(c.env, r.world) && EnvOK(c.env) && r.out.Done? && forall n: nat :: c.faults(n) == NoFault
    requires Known(c.env, x) && x.instanceID != id && g in c.env.members && {x.instanceID, id} <= c.env.members[g]
    requires Arrived(r.world, name, {HTTP}, {x.instanceID, id}) && Guarded(c.env, r.world, name)
    ensures var f := EnsureElb(c, r, name, OnePortFor(name, [x])); f.status.Ok? && !Guarded(c.env, f.run.world, name)
  {
    var had, ids, desire := {x.instanceID, id}, {x.instanceID}, OnePortFor(name, [x]);
    assert Ids([x]) == [x.instanceID];
    OnePortForOK(c.env, name, [x]);
    NodeChangeKeepsGuard(c, r, name, ids, desire, had);
    UniformRunSucceeds(c, r, name, ids, desire, had);
    assert x.instanceID in c.env.members[g] * ids && id in c.env.members[g] * (had - ids);
    assert g in r.world.rules && Touched(c.env, g, ids) && Touched(c.env, g, had - ids);
  }

  /** A port that serves two instances of one group: removing one of them takes away the rules for the other. */
  lemma RemovedNodeTakesRules(c: Ctx, r: Run, name: string, x: Instance, y: Instance, g: string)
    requires Fresh(c, r, name) && Known(c.env, x) && Known(c.env, y) && x.instanceID != y.instanceID
    requires g in c.env.members && {x.instanceID, y.instanceID} <= c.env.members[g]
    ensures var f := EnsureElb(c, r, name, OnePortFor(name, [x, y]));
            var f' := EnsureElb(c, f.run, name, OnePortFor(name, [x]));
            && f.status.Ok? && Guarded(c.env, f.run.world, name)
            && f'.status.Ok? && !Guarded(c.env, f'.run.world, name)
  {
    assert Ids([x, y]) == [x.instanceID, y.instanceID];
    OnePortForOK(c.env, name, [x, y]);
    CreatedThen(c, r, name, {x.instanceID, y.instanceID}, OnePortFor(name, [x, y]));
    NodeIsTaken(c, EnsureElb(c, r, name, OnePortFor(name, [x, y])).run, name, x, y.instanceID, g);
  }

  // ---------------------------------------------------------------- deleting

  /** A group that holds a target of some listener. */
  ghost predicate Involved(env: Env, b: ElbBalancer, g: string) {
    exists k :: k in b.at && Touched(env, g, b.at[k].targets)
  }

  /** No group that holds a target of a listener of `b` carries a permission of `b`. */
  ghost predicate Cleaned(env: Env, rules: RuleMap, b: ElbBalancer) {
    forall g :: g in rules && Involved(env, b, g) ==> rules[g] !! Needs(b, b.at.Keys)
  }

  /** What a deletion leaves in one group. */
  lemma DeletedRules(env: Env, w: World, name: string, g: string)
    requires WorldOK(env, w) && EnvOK(env) && name in w.elb && g in w.rules
    ensures var b, w' := w.elb[name], AfterDelete(env, w, name);
            && g in w'.rules
            && w'.rules[g] == if Touched(env, g, FirstTargets(b)) then w.rules[g] - Needs(b, b.at.Keys) else w.rules[g]
  {
    var b := w.elb[name];
    ViewIs(env, name, b);
    ViewNeeds(env, name, b, View(env, name, b));
  }

  /**
   * A deletion that reports success has revoked the permissions of the balancer in all groups of
   * its targets exactly if every such group that carried one holds a target of the listener listed
   * first: the client sees no other targets.
   */
  lemma DeletionCleansUp(c: Ctx, r: Run, name: string)
    requires WorldOK(c.env, r.world) && EnvOK(c.env) && r.out.Done?
    requires name in r.world.elb && Usable(r.world.elb[name])
    ensures var b, f := r.world.elb[name], DeleteElb(c, r, name);
            f.status.Ok? ==>
              (Cleaned(c.env, f.run.world.rules, b) <==>
                 forall g :: g in r.world.rules && Involved(c.env, b, g) ==>
                   r.world.rules[g] !! Needs(b, b.at.Keys) || Touched(c.env, g, FirstTargets(b)))
  {
    DeleteRun(c, r, name);
    if DeleteElb(c, r, name).status.Ok? {
      forall g | g in r.world.rules
        ensures var b, w' := r.world.elb[name], AfterDelete(c.env, r.world, name);
                && g in w'.rules
                && (w'.rules[g] !! Needs(b, b.at.Keys) <==>
                      r.world.rules[g] !! Needs(b, b.at.Keys) || Touched(c.env, g, FirstTargets(b)))
      {
        DeletedRules(c.env, r.world, name, g);
      }
    }
  }

  /** Two listeners with different targets. */
  function SplitBalancer(vip: string, nic: NetworkInterface, id: string, id': string): ElbBalancer {
    ElbBalancer(vip, [nic], [HTTP, HTTPS], map[HTTP := ElbListener({id}, "ICMP"), HTTPS := ElbListener({id'}, "ICMP")])
  }

  lemma SplitIs(env: Env, vip: string, nic: NetworkInterface, id: string, id': string, g: string)
    requires g in env.members && id !in env.members[g]
    ensures var b := SplitBalancer(vip, nic, id, id');
            Usable(b) && !Touched(env, g, FirstTargets(b)) && Needs(b, {HTTP, HTTPS}) != {}
  {
    var b := SplitBalancer(vip, nic, id, id');
    NeedIsSomething(b, HTTP);
    var p :| p in Need(b, HTTP);
    assert p in Needs(b, {HTTP, HTTPS});
  }

  /** Deleting such a balancer leaves its permissions in a group that holds only the second one's target. */
  lemma LeakingDeletion(c: Ctx, r: Run, name: string, nic: NetworkInterface, vip: string, id: string, id': string,
                        g: string)
    requires WorldOK(c.env, r.world) && EnvOK(c.env) && r.out.Done?
    requires FaultFree(c, r.clock, DeleteElb(c, r, name).run.clock)
    requires Lookup(r.world.elb, name) == Some(SplitBalancer(vip, nic, id, id'))
    requires g in c.env.members && id !in c.env.members[g] && id' in c.env.members[g]
    requires Needs(SplitBalancer(vip, nic, id, id'), {HTTP, HTTPS}) <= r.world.rules[g]
    ensures var f := DeleteElb(c, r, name);
            && f.status.Ok? && name !in f.run.world.elb && g in f.run.world.rules
            && f.run.world.rules[g] == r.world.rules[g] != {}
  {
    SplitIs(c.env, vip, nic, id, id', g);
    DeleteRun(c, r, name);
    DeletedRules(c.env, r.world, name, g);
  }
}
