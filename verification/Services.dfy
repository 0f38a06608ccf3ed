/** The operations that the service controller calls, and what they do from end to end. */
module Services {
  import opened Base
  import opened Cloud
  import opened Runs
  import opened Strings
  import opened Annotations
  import opened Differences
  import opened Builders
  import opened Soundness
  import opened Built
  import L4Plan
  import L4Steps
  import L4Runs
  import L4Theorems
  import Rules
  import ElbPlan
  import ElbUpdate
  import ElbRuns
  import ElbTheorems

  const NAME_LENGTH := 15
  const MAX_PORTS := 3

  // ---------------------------------------------------------------- names

  /** The UID of a service without its dashes. */
  function DashFree(uid: string): string {
    Removing(uid, '-')
  }

  function LoadBalancerName(s: Service): (r: string)
    requires |DashFree(s.uid)| >= NAME_LENGTH
    ensures |r| == NAME_LENGTH && '-' !in r
  {
    DashFree(s.uid)[..NAME_LENGTH]
  }

  /** Of a UID in its usual form the name is the first two groups and most of the third. */
  lemma NameOf(s: Service, a: string, b: string, c: string, rest: string)
    requires s.uid == a + "-" + b + "-" + c + "-" + rest && |a| == 8 && |b| == 4 && |c| == 4
    requires '-' !in a && '-' !in b && '-' !in c
    ensures |DashFree(s.uid)| >= NAME_LENGTH && LoadBalancerName(s) == a + b + c[..3]
  {
    assert s.uid == a + ("-" + (b + ("-" + (c + ("-" + rest)))));
    RemovingAppend(a, "-" + (b + ("-" + (c + ("-" + rest)))), '-');
    RemovingAppend(b, "-" + (c + ("-" + rest)), '-');
    RemovingAppend(c, "-" + rest, '-');
    RemovingOne(b + ("-" + (c + ("-" + rest))), '-');
    RemovingOne(c + ("-" + rest), '-');
    RemovingOne(rest, '-');
    assert DashFree(s.uid) == a + (b + (c + Removing(rest, '-')));
    assert (a + (b + (c + Removing(rest, '-'))))[..15] == a + b + c[..3];
  }

  // ---------------------------------------------------------------- the operations

  predicate IsElastic(a: AnnotationMap) {
    Text(a, LB_TYPE) == "elb"
  }

  predicate IsL4(a: AnnotationMap) {
    Text(a, LB_TYPE) == "lb" || Text(a, LB_TYPE) == ""
  }

  predicate Acceptable(s: Service) {
    0 < |s.ports| <= MAX_PORTS && s.loadBalancerIP == ""
  }

  function LookAt(ids: seq<string>): Plan {
    Act(Ask(LookInstances(ids), None))
  }

  function EnsureKind(c: Ctx, r: Run, s: Service, instances: seq<Instance>): Finished<string>
    requires |DashFree(s.uid)| >= NAME_LENGTH && instances != []
  {
    var name := LoadBalancerName(s);
    if IsElastic(s.annotations) then
      var desire := BuildElastic(name, instances, s);
      if desire.Err? then Finished(r, Err(desire.error)) else ElbPlan.EnsureElb(c, r, name, desire.value)
    else if IsL4(s.annotations) then
      var desire := BuildL4(name, instances, s, c.env.list);
      if desire.Err? then Finished(r, Err(desire.error)) else L4Plan.EnsureL4(c, r, name, desire.value)
    else Finished(r, Err(InvalidService))
  }

  function EnsureService(c: Ctx, r: Run, s: Service, nodes: seq<string>, isIP: string -> bool): Finished<string>
    requires |DashFree(s.uid)| >= NAME_LENGTH
  {
    if !Acceptable(s) then Finished(r, Err(InvalidService))
    else
      var r1 := Exec(c, r, LookAt(nodes));
      if r1.out.Failed? then Finish(r1, "")
      else if Described(c.env, nodes) == [] then Finished(r1, Err(InstanceNotFound))
      else if !Valid(s.annotations, isIP) then Finished(r1, Err(InvalidService))
      else EnsureKind(c, r1, s, Described(c.env, nodes))
  }

  function Look(s: Service): Plan
    requires |DashFree(s.uid)| >= NAME_LENGTH
  {
    if IsElastic(s.annotations) then ElbPlan.On(LoadBalancerName(s), ElbLook)
    else if IsL4(s.annotations) then L4Plan.On(LoadBalancerName(s), L4Look)
    else Act(Stop(InvalidService))
  }

  function UpdateService(c: Ctx, r: Run, s: Service, nodes: seq<string>, isIP: string -> bool): Finished<string>
    requires |DashFree(s.uid)| >= NAME_LENGTH
  {
    if !Valid(s.annotations, isIP) then Finished(r, Err(InvalidService))
    else
      var r1 := Exec(c, r, Look(s));
      if r1.out.Failed? then Finish(r1, "") else EnsureService(c, r1, s, nodes, isIP)
  }

  function DeleteService(c: Ctx, r: Run, s: Service): Finished<()>
    requires |DashFree(s.uid)| >= NAME_LENGTH
  {
    if IsElastic(s.annotations) then ElbPlan.DeleteElb(c, r, LoadBalancerName(s))
    else if IsL4(s.annotations) then L4Plan.DeleteL4(c, r, LoadBalancerName(s))
    else Finished(r, Err(InvalidService))
  }

  // ---------------------------------------------------------------- nodes

  /** The instances that the nodes stand for: no node at all stands for every instance there is. */
  function Meant(env: Env, nodes: seq<string>): set<string> {
    if nodes == [] then env.inventory.Keys else Elems(nodes)
  }

  /** All nodes exist, and they stand for some instance. */
  predicate NodesThere(env: Env, nodes: seq<string>) {
    Elems(nodes) <= env.inventory.Keys && env.inventory.Keys != {}
  }

  lemma DescribedIsOK(env: Env, nodes: seq<string>)
    requires EnvOK(env) && NodesThere(env, nodes)
    ensures NodesOK(env, Described(env, nodes)) && Elems(Ids(Described(env, nodes))) == Meant(env, nodes)
    ensures forall x :: x in Described(env, nodes) ==> Lookup(env.inventory, x.instanceID) == Some(x)
  {
    var ids, instances := Answered(env, nodes), Described(env, nodes);
    assert Elems(nodes) * env.inventory.Keys == Elems(nodes);
    assert Elems(ids) == Meant(env, nodes);
    forall i | 0 <= i < |ids| ensures ids[i] in env.inventory && instances[i] == env.inventory[ids[i]] {
      assert ids[i] in Elems(ids);
    }
    assert Ids(instances) == ids;
    assert ids != [] by {
      if nodes == [] {
        var id :| id in env.inventory;
        assert id in Elems(ids);
      } else {
        assert nodes[0] in Elems(ids);
      }
    }
    forall x | x in instances ensures Known(env, x) && Lookup(env.inventory, x.instanceID) == Some(x) {
      var i :| 0 <= i < |instances| && instances[i] == x;
    }
  }

  lemma DescribedSome(env: Env, nodes: seq<string>)
    requires EnvOK(env) && Elems(nodes) <= env.inventory.Keys
    ensures Described(env, nodes) != [] <==> NodesThere(env, nodes)
  {
    if NodesThere(env, nodes) {
      DescribedIsOK(env, nodes);
    } else {
      assert Elems(nodes) * env.inventory.Keys == {};
      NoElems(Answered(env, nodes));
    }
  }

  lemma LookAtKeeps(c: Ctx, r: Run, nodes: seq<string>)
    requires r.out.Done?
    ensures var r1 := Exec(c, r, LookAt(nodes));
            && r1.world == r.world && r1.clock == r.clock + 1
            && (r1.out.Done? ==> Elems(nodes) <= c.env.inventory.Keys)
            && (c.faults(r.clock) == NoFault && Elems(nodes) <= c.env.inventory.Keys ==> r1.out.Done?)
  {
  }

  /** The look at the nodes: unless it is lost it finds some exactly if they are there. */
  lemma LookFindsNodes(c: Ctx, r: Run, nodes: seq<string>)
    requires r.out.Done? && EnvOK(c.env)
    ensures var r1 := Exec(c, r, LookAt(nodes));
            && r1.world == r.world && r1.clock == r.clock + 1
            && (r1.out.Done? && Described(c.env, nodes) != [] <==>
                  c.faults(r.clock) == NoFault && NodesThere(c.env, nodes))
  {
    LookAtKeeps(c, r, nodes);
    if Elems(nodes) <= c.env.inventory.Keys {
      DescribedSome(c.env, nodes);
    }
  }

  // ---------------------------------------------------------------- L4 services, from end to end

  /** A service of L4 type as Kubernetes delivers it: distinct TCP ports with node ports, parsed ranges, and nodes. */
  ghost predicate L4Service(c: Ctx, s: Service, nodes: seq<string>) {
    && EnvOK(c.env) && |DashFree(s.uid)| >= NAME_LENGTH
    && PortsOK(s.ports) && RangesOK(s) && TypeOf(s.annotations) == "lb"
  }

  /** One listener for each port, serving exactly the nodes, filtering exactly the source ranges. */
  ghost predicate Serves(b: L4Balancer, s: Service, nodes: set<string>)
    requires s.sourceRanges.Some?
  {
    && b.at.Keys == Elems(PortKeys(s.ports))
    && forall k :: k in b.at ==>
         && b.at[k].targets == nodes
         && b.at[k].filters == AllowedFilters(s.sourceRanges.value) - {"*.*.*.*"}
  }

  lemma ConvergedServes(env: Env, b: L4Balancer, s: Service, nodes: seq<string>, isIP: string -> bool)
    requires EnvOK(env) && |DashFree(s.uid)| >= NAME_LENGTH && NodesThere(env, nodes)
    requires PortsOK(s.ports) && RangesOK(s) && TypeOf(s.annotations) == "lb" && Valid(s.annotations, isIP)
    requires var desire := BuildL4(LoadBalancerName(s), Described(env, nodes), s, env.list);
             desire.Ok? && L4Theorems.Converged(desire.value, b)
    ensures Serves(b, s, Meant(env, nodes))
  {
    var name, instances := LoadBalancerName(s), Described(env, nodes);
    DescribedIsOK(env, nodes);
    L4DesireIsOK(env, name, instances, s, isIP);
    var desire := BuildL4(name, instances, s, env.list).value;
    forall k | k in b.at
      ensures b.at[k].targets == Meant(env, nodes)
      ensures b.at[k].filters == AllowedFilters(s.sourceRanges.value) - {"*.*.*.*"}
    {
      assert k in Elems(L4Plan.KeySeq(desire));
      var i :| 0 <= i < |desire| && L4Plan.KeySeq(desire)[i] == k;
      assert desire[i] in desire;
    }
  }

  /** Every port that was not there has the health check of the annotations. */
  ghost predicate NewPortsAreChecked(s: Service, start: Option<L4Balancer>, b: L4Balancer) {
    forall p :: p in s.ports && !(start.Some? && Key(p.port, p.nodePort) in start.value.at) ==>
      var k := Key(p.port, p.nodePort);
      && k in b.checks
      && CheckIs(s.annotations, p.nodePort, b.checks[k].target, b.checks[k].interval, b.checks[k].threshold)
  }

  lemma CheckedPorts(env: Env, start: Option<L4Balancer>, b: L4Balancer, s: Service, nodes: seq<string>,
                     isIP: string -> bool)
    requires EnvOK(env) && |DashFree(s.uid)| >= NAME_LENGTH && NodesThere(env, nodes)
    requires PortsOK(s.ports) && RangesOK(s) && TypeOf(s.annotations) == "lb" && Valid(s.annotations, isIP)
    requires var desire := BuildL4(LoadBalancerName(s), Described(env, nodes), s, env.list);
             desire.Ok? && L4Theorems.HealthChecked(desire.value, start, b)
    ensures NewPortsAreChecked(s, start, b)
  {
    var name, instances := LoadBalancerName(s), Described(env, nodes);
    forall p | p in s.ports && !(start.Some? && Key(p.port, p.nodePort) in start.value.at)
      ensures var k := Key(p.port, p.nodePort);
              k in b.checks
              && CheckIs(s.annotations, p.nodePort, b.checks[k].target, b.checks[k].interval, b.checks[k].threshold)
    {
      var i :| 0 <= i < |s.ports| && s.ports[i] == p;
      L4EntryInFull(name, instances, s, isIP, env.list, i);
      assert BuildL4(name, instances, s, env.list).value[i] in BuildL4(name, instances, s, env.list).value;
    }
  }

  lemma L4IsReady(c: Ctx, r: Run, s: Service, nodes: seq<string>, isIP: string -> bool)
    requires WorldOK(c.env, r.world) && r.out.Done? && L4Service(c, s, nodes)
    requires Valid(s.annotations, isIP) && NodesThere(c.env, nodes)
    ensures var name, instances := LoadBalancerName(s), Described(c.env, nodes);
            && instances != [] && BuildL4(name, instances, s, c.env.list).Ok?
            && var desire := BuildL4(name, instances, s, c.env.list).value;
               L4Theorems.Ready(c, r, name, desire) && L4Plan.KeySeq(desire) == PortKeys(s.ports)
  {
    DescribedIsOK(c.env, nodes);
    L4DesireIsOK(c.env, LoadBalancerName(s), Described(c.env, nodes), s, isIP);
  }

  /**
   * From the service to the cloud: whenever ensuring an L4 service reports success, whatever
   * failed before and wherever it started, its balancer has one listener for each port, serving
   * exactly the instances meant and filtering exactly the source ranges; the ports that are new have the
   * health check that is annotated, or by TCP; the address returned is the balancer's own and
   * nothing else in the cloud changed.
   */
  lemma EnsuredL4Serves(c: Ctx, r: Run, s: Service, nodes: seq<string>, isIP: string -> bool)
    requires WorldOK(c.env, r.world) && r.out.Done? && L4Service(c, s, nodes)
    ensures var f, name := EnsureService(c, r, s, nodes, isIP), LoadBalancerName(s);
            f.status.Ok? ==>
              && name in f.run.world.l4
              && Serves(f.run.world.l4[name], s, Meant(c.env, nodes))
              && NewPortsAreChecked(s, Lookup(r.world.l4, name), f.run.world.l4[name])
              && f.status.value == f.run.world.l4[name].vip
              && L4Steps.OnlyL4(name, r.world, f.run.world)
  {
    var f, name := EnsureService(c, r, s, nodes, isIP), LoadBalancerName(s);
    if f.status.Ok? {
      var r1, instances := Exec(c, r, LookAt(nodes)), Described(c.env, nodes);
      LookFindsNodes(c, r, nodes);
      L4IsReady(c, r1, s, nodes, isIP);
      L4Theorems.SuccessMeansConverged(c, r1, name, BuildL4(name, instances, s, c.env.list).value);
      ConvergedServes(c.env, f.run.world.l4[name], s, nodes, isIP);
      CheckedPorts(c.env, Lookup(r.world.l4, name), f.run.world.l4[name], s, nodes, isIP);
    }
  }

  /**
   * A service without nodes: since a request that names no instance is answered with all of them,
   * reported success makes every listener serve every instance there is.
   */
  lemma NoNodesMeanEveryInstance(c: Ctx, r: Run, s: Service, isIP: string -> bool)
    requires WorldOK(c.env, r.world) && r.out.Done? && L4Service(c, s, [])
    ensures var f, name := EnsureService(c, r, s, [], isIP), LoadBalancerName(s);
            f.status.Ok? ==>
              && name in f.run.world.l4
              && forall k :: k in f.run.world.l4[name].at ==> f.run.world.l4[name].at[k].targets == c.env.inventory.Keys
  {
    EnsuredL4Serves(c, r, s, [], isIP);
  }

  /** The keys that need a port of the balancer for another node port. */
  ghost predicate PortClash(s: Service, at: set<Key>) {
    exists k, k' :: k in PortKeys(s.ports) && k' in at && k.port == k'.port && k != k'
  }

  lemma NoClashIsPortClash(desire: seq<L4Plan.LoadBalancer>, s: Service, b: Option<L4Balancer>)
    requires L4Plan.KeySeq(desire) == PortKeys(s.ports) && L4Steps.DistinctPorts(desire)
    ensures L4Steps.NoClash(L4Steps.Wanted(desire), L4Steps.AtOf(b)) <==> !PortClash(s, L4Steps.AtOf(b).Keys)
  {
    L4Steps.WantedKeys(desire);
    forall k ensures k in L4Steps.Wanted(desire) <==> k in PortKeys(s.ports) {
      assert k in L4Steps.Wanted(desire) <==> k in Elems(L4Plan.KeySeq(desire));
    }
  }

  /** Where ensuring a service stops before its kind matters, and where it goes on. */
  lemma EnsureGoesOn(c: Ctx, r: Run, s: Service, nodes: seq<string>, isIP: string -> bool)
    requires |DashFree(s.uid)| >= NAME_LENGTH && r.out.Done? && EnvOK(c.env)
    ensures var r1, f := Exec(c, r, LookAt(nodes)), EnsureService(c, r, s, nodes, isIP);
            && r1.world == r.world && r1.clock == r.clock + 1
            && if Acceptable(s) && Valid(s.annotations, isIP) && NodesThere(c.env, nodes)
                  && c.faults(r.clock) == NoFault
               then r1.out.Done? && Described(c.env, nodes) != []
                    && f == EnsureKind(c, r1, s, Described(c.env, nodes))
               else f.status.Err?
  {
    LookFindsNodes(c, r, nodes);
  }

  lemma L4KindSucceeds(c: Ctx, r: Run, s: Service, nodes: seq<string>, isIP: string -> bool)
    requires WorldOK(c.env, r.world) && r.out.Done? && L4Service(c, s, nodes) && 0 < |s.ports|
    requires Valid(s.annotations, isIP) && NodesThere(c.env, nodes) && Described(c.env, nodes) != []
    ensures var f := EnsureKind(c, r, s, Described(c.env, nodes));
            && r.clock <= f.run.clock
            && (f.status.Ok? <==>
                  && FaultFree(c, r.clock, f.run.clock)
                  && (LoadBalancerName(s) in r.world.l4 ==> !PortClash(s, r.world.l4[LoadBalancerName(s)].at.Keys)))
  {
    var name, instances := LoadBalancerName(s), Described(c.env, nodes);
    L4IsReady(c, r, s, nodes, isIP);
    var desire := BuildL4(name, instances, s, c.env.list).value;
    NoClashIsPortClash(desire, s, Lookup(r.world.l4, name));
    EnsureL4Continues(c, r, name, desire);
    L4Theorems.SucceedsExactlyWithoutClash(c, r, name, desire);
  }

  /** Faults of a run whose first request is made separately. */
  lemma FirstFault(c: Ctx, n: nat, end: nat)
    requires n < end
    ensures FaultFree(c, n, end) <==> c.faults(n) == NoFault && FaultFree(c, n + 1, end)
  {
  }

  /**
   * Ensuring an L4 service succeeds exactly if nothing is lost, it has one to three ports and no
   * fixed address, its annotations are valid, its nodes exist, and no port is in use for another
   * node port.
   */
  lemma EnsureL4SucceedsExactly(c: Ctx, r: Run, s: Service, nodes: seq<string>, isIP: string -> bool)
    requires WorldOK(c.env, r.world) && r.out.Done? && L4Service(c, s, nodes)
    ensures EnsureService(c, r, s, nodes, isIP).status.Ok? <==>
            && FaultFree(c, r.clock, EnsureService(c, r, s, nodes, isIP).run.clock)
            && 1 <= |s.ports| <= 3 && s.loadBalancerIP == ""
            && Valid(s.annotations, isIP) && NodesThere(c.env, nodes)
            && (LoadBalancerName(s) in r.world.l4 ==> !PortClash(s, r.world.l4[LoadBalancerName(s)].at.Keys))
  {
    var r1, f := Exec(c, r, LookAt(nodes)), EnsureService(c, r, s, nodes, isIP);
    EnsureGoesOn(c, r, s, nodes, isIP);
    if Acceptable(s) && Valid(s.annotations, isIP) && NodesThere(c.env, nodes) {
      assert r.clock < f.run.clock by {
        if c.faults(r.clock) == NoFault {
          L4KindSucceeds(c, r1, s, nodes, isIP);
        }
      }
      FirstFault(c, r.clock, f.run.clock);
      if c.faults(r.clock) == NoFault {
        L4KindSucceeds(c, r1, s, nodes, isIP);
      }
    }
  }

  lemma EnsureL4Continues(c: Ctx, r: Run, name: string, desire: seq<L4Plan.LoadBalancer>)
    requires L4Theorems.Ready(c, r, name, desire) && desire != []
    ensures r.clock <= L4Plan.EnsureL4(c, r, name, desire).run.clock
  {
    L4Runs.EnsureRun(c, r, name, desire);
  }

  // ---------------------------------------------------------------- elastic services, from end to end

  ghost predicate ElasticService(c: Ctx, s: Service, nodes: seq<string>) {
    && EnvOK(c.env) && |DashFree(s.uid)| >= NAME_LENGTH
    && PortsOK(s.ports) && TypeOf(s.annotations) == "elb"
  }

  lemma ElasticIsReady(c: Ctx, r: Run, s: Service, nodes: seq<string>, isIP: string -> bool)
    requires WorldOK(c.env, r.world) && r.out.Done? && ElasticService(c, s, nodes)
    requires Valid(s.annotations, isIP) && NodesThere(c.env, nodes)
    ensures var name, instances := LoadBalancerName(s), Described(c.env, nodes);
            && instances != [] && BuildElastic(name, instances, s).Ok?
            && var desire := BuildElastic(name, instances, s).value;
               && ElbTheorems.Ready(c, r, name, Meant(c.env, nodes), desire)
               && ElbPlan.KeySeq(desire) == PortKeys(s.ports)
  {
    DescribedIsOK(c.env, nodes);
    ElasticDesireIsOK(c.env, LoadBalancerName(s), Described(c.env, nodes), s, isIP);
  }

  /**
   * Whenever ensuring an elastic service reports success, whatever failed before and wherever it
   * started, its balancer has one listener for each port, the first one serves exactly the nodes,
   * the address returned is the balancer's own and no other balancer changed. All listeners serve
   * exactly the nodes if and only if, at the start, those that were kept served the same nodes or,
   * beside a new one, the ones asked for.
   */
  lemma EnsuredElasticServes(c: Ctx, r: Run, s: Service, nodes: seq<string>, isIP: string -> bool)
    requires WorldOK(c.env, r.world) && r.out.Done? && ElasticService(c, s, nodes)
    requires ElbTheorems.UsableIfThere(r.world, LoadBalancerName(s))
    ensures var f, name, want := EnsureService(c, r, s, nodes, isIP), LoadBalancerName(s), Elems(PortKeys(s.ports));
            f.status.Ok? ==>
              && name in f.run.world.elb && ElbUpdate.Usable(f.run.world.elb[name])
              && f.run.world.elb[name].at.Keys == want
              && ElbPlan.FirstTargets(f.run.world.elb[name]) == Meant(c.env, nodes)
              && (ElbTheorems.Arrived(f.run.world, name, want, Meant(c.env, nodes)) <==>
                    (name in r.world.elb ==> ElbTheorems.KeptRightly(want, r.world.elb[name].at, Meant(c.env, nodes))))
              && f.status.value == f.run.world.elb[name].vip
              && f.run.world.l4 == r.world.l4
              && forall n :: n != name ==> Lookup(f.run.world.elb, n) == Lookup(r.world.elb, n)
  {
    var f, name := EnsureService(c, r, s, nodes, isIP), LoadBalancerName(s);
    if f.status.Ok? {
      var r1 := Exec(c, r, LookAt(nodes));
      LookFindsNodes(c, r, nodes);
      ElasticIsReady(c, r1, s, nodes, isIP);
      var desire := BuildElastic(name, Described(c.env, nodes), s).value;
      ElbTheorems.SuccessMeansConverged(c, r1, name, Meant(c.env, nodes), desire);
    }
  }

  /** What the client reads for all listeners once the ports are right: the targets of the one listed first. */
  function ReadFor(env: Env, w: World, s: Service, nodes: seq<string>): set<string>
    requires |DashFree(s.uid)| >= NAME_LENGTH && LoadBalancerName(s) in w.elb
  {
    var name, instances := LoadBalancerName(s), Described(env, nodes);
    if instances == [] || BuildElastic(name, instances, s).Err? then {}
    else
      var placed := ElbTheorems.PlacedOn(w, name, BuildElastic(name, instances, s).value);
      ElbTheorems.ReadThen(env, name, placed, w.elb[name])
  }

  lemma ElasticKindSucceeds(c: Ctx, r: Run, s: Service, nodes: seq<string>, isIP: string -> bool)
    requires WorldOK(c.env, r.world) && r.out.Done? && ElasticService(c, s, nodes) && 0 < |s.ports|
    requires ElbTheorems.UsableIfThere(r.world, LoadBalancerName(s))
    requires Valid(s.annotations, isIP) && NodesThere(c.env, nodes) && Described(c.env, nodes) != []
    ensures var f := EnsureKind(c, r, s, Described(c.env, nodes));
            && r.clock <= f.run.clock
            && (f.status.Ok? <==>
                  && FaultFree(c, r.clock, f.run.clock)
                  && (LoadBalancerName(s) in r.world.elb ==>
                        var at, read := r.world.elb[LoadBalancerName(s)].at, ReadFor(c.env, r.world, s, nodes);
                        && !PortClash(s, at.Keys)
                        && ElbTheorems.ReadsWellEnough(Elems(PortKeys(s.ports)), at, read, Meant(c.env, nodes))))
  {
    var name := LoadBalancerName(s);
    ElasticIsReady(c, r, s, nodes, isIP);
    var desire := BuildElastic(name, Described(c.env, nodes), s).value;
    ElasticContinues(c, r, name, desire);
    ElbTheorems.SucceedsExactly(c, r, name, Meant(c.env, nodes), desire);
  }

  /**
   * It succeeds exactly if nothing is lost, the service has one to three ports and no fixed address,
   * its annotations are valid, its nodes exist
   * and, on a balancer that exists, no port is in use for another node port and the client reads
   * the nodes asked for, or no port is new and every listener takes what is asked of it.
   */
  lemma EnsureElasticSucceedsExactly(c: Ctx, r: Run, s: Service, nodes: seq<string>, isIP: string -> bool)
    requires WorldOK(c.env, r.world) && r.out.Done? && ElasticService(c, s, nodes)
    requires ElbTheorems.UsableIfThere(r.world, LoadBalancerName(s))
    ensures EnsureService(c, r, s, nodes, isIP).status.Ok? <==>
            && FaultFree(c, r.clock, EnsureService(c, r, s, nodes, isIP).run.clock)
            && 1 <= |s.ports| <= 3 && s.loadBalancerIP == ""
            && Valid(s.annotations, isIP) && NodesThere(c.env, nodes)
            && (LoadBalancerName(s) in r.world.elb ==>
                  var at, read := r.world.elb[LoadBalancerName(s)].at, ReadFor(c.env, r.world, s, nodes);
                  && !PortClash(s, at.Keys)
                  && ElbTheorems.ReadsWellEnough(Elems(PortKeys(s.ports)), at, read, Meant(c.env, nodes)))
  {
    var r1, f := Exec(c, r, LookAt(nodes)), EnsureService(c, r, s, nodes, isIP);
    EnsureGoesOn(c, r, s, nodes, isIP);
    if Acceptable(s) && Valid(s.annotations, isIP) && NodesThere(c.env, nodes) {
      assert r.clock < f.run.clock by {
        if c.faults(r.clock) == NoFault {
          ElasticKindSucceeds(c, r1, s, nodes, isIP);
        }
      }
      FirstFault(c, r.clock, f.run.clock);
      if c.faults(r.clock) == NoFault {
        ElasticKindSucceeds(c, r1, s, nodes, isIP);
      }
    }
  }

  lemma ElasticContinues(c: Ctx, r: Run, name: string, desire: seq<Rules.ElasticLoadBalancer>)
    requires desire != [] && r.out.Done?
    ensures r.clock <= ElbPlan.EnsureElb(c, r, name, desire).run.clock
  {
    var r1 := Exec(c, r, ElbPlan.On(name, ElbLook));
    ElbRuns.LookIdeal(c, r, name);
    if r1.out == Failed(BalancerNotFound) {
      ElbTheorems.CreateContinues(c, r1.(out := Done), name, desire);
    } else if r1.out.Done? {
      ElbTheorems.UpdateContinues(c, r1, name, desire);
    }
  }

  // ---------------------------------------------------------------- refusals

  /** No ports, more than three, or a fixed address: the service is refused before any request. */
  lemma RefusedAtOnce(c: Ctx, r: Run, s: Service, nodes: seq<string>, isIP: string -> bool)
    requires |DashFree(s.uid)| >= NAME_LENGTH && !(1 <= |s.ports| <= 3 && s.loadBalancerIP == "")
    ensures EnsureService(c, r, s, nodes, isIP) == Finished(r, Err(InvalidService))
  {
  }

  /**
   * Nodes that do not exist, annotations that are not valid, or a port of another protocol than
   * TCP: the service is refused after one look at the nodes, and the cloud stays as it is.
   */
  lemma RefusedAfterTheNodes(c: Ctx, r: Run, s: Service, nodes: seq<string>, isIP: string -> bool)
    requires |DashFree(s.uid)| >= NAME_LENGTH && r.out.Done?
    requires || !(Elems(nodes) <= c.env.inventory.Keys) || !Valid(s.annotations, isIP)
             || exists p :: p in s.ports && p.protocol != "TCP"
    ensures var f := EnsureService(c, r, s, nodes, isIP);
            && f.status.Err? && f.run.world == r.world && f.run.clock <= r.clock + 1
            && (forall i :: 0 <= i < |NewEvents(r, f.run)| ==> NewEvents(r, f.run)[i].call == LookInstances(nodes))
  {
    var r1, f := Exec(c, r, LookAt(nodes)), EnsureService(c, r, s, nodes, isIP);
    LookAtKeeps(c, r, nodes);
    assert NewEvents(r, r) == [];
    assert NewEvents(r, r1) == [Event(LookInstances(nodes), r.world, r.world)];
    if Elems(nodes) <= c.env.inventory.Keys && Valid(s.annotations, isIP) {
      var p :| p in s.ports && p.protocol != "TCP";
      if Described(c.env, nodes) != [] {
        OnlyTCPIsBuilt(LoadBalancerName(s), Described(c.env, nodes), s, c.env.list, p);
      }
    }
  }

  // ---------------------------------------------------------------- deleting

  predicate HasBalancer(w: World, s: Service)
    requires |DashFree(s.uid)| >= NAME_LENGTH
  {
    if IsElastic(s.annotations) then LoadBalancerName(s) in w.elb else LoadBalancerName(s) in w.l4
  }

  /** After a deletion that reports success there is no balancer of the service, and every other one is as it was. */
  lemma DeletedServiceIsGone(c: Ctx, r: Run, s: Service)
    requires WorldOK(c.env, r.world) && EnvOK(c.env) && r.out.Done? && |DashFree(s.uid)| >= NAME_LENGTH
    requires LoadBalancerName(s) in r.world.elb ==> ElbUpdate.Usable(r.world.elb[LoadBalancerName(s)])
    ensures var f, name := DeleteService(c, r, s), LoadBalancerName(s);
            f.status.Ok? ==>
              && !HasBalancer(f.run.world, s)
              && (forall n :: n != name ==> Lookup(f.run.world.l4, n) == Lookup(r.world.l4, n)
                                            && Lookup(f.run.world.elb, n) == Lookup(r.world.elb, n))
  {
    var name := LoadBalancerName(s);
    if IsElastic(s.annotations) {
      ElbRuns.DeleteRun(c, r, name);
    } else if IsL4(s.annotations) {
      L4Theorems.DeleteRemoves(c, r, name);
    }
  }

  /**
   * Deleting a service succeeds for either type, an absent or empty type included, exactly if
   * nothing is lost, and a deletion that reports success leaves no balancer of
   * that kind and all other balancers as they were. Any other type is refused without a request.
   */
  lemma DeleteServiceSucceeds(c: Ctx, r: Run, s: Service)
    requires WorldOK(c.env, r.world) && EnvOK(c.env) && r.out.Done? && |DashFree(s.uid)| >= NAME_LENGTH
    requires LoadBalancerName(s) in r.world.elb ==> ElbUpdate.Usable(r.world.elb[LoadBalancerName(s)])
    ensures var a, f, name := s.annotations, DeleteService(c, r, s), LoadBalancerName(s);
            && (LB_TYPE !in a || a[LB_TYPE] == "" || a[LB_TYPE] == "lb" ==>
                  && (f.status.Ok? <==> FaultFree(c, r.clock, f.run.clock))
                  && (f.status.Ok? ==> f.run.world == L4Steps.With(r.world, name, None)))
            && (LB_TYPE in a && a[LB_TYPE] == "elb" ==>
                  && (f.status.Ok? <==> FaultFree(c, r.clock, f.run.clock))
                  && (f.status.Ok? ==>
                        && name !in f.run.world.elb && f.run.world.l4 == r.world.l4
                        && forall n :: n != name ==> Lookup(f.run.world.elb, n) == Lookup(r.world.elb, n)))
            && (LB_TYPE in a && a[LB_TYPE] !in {"", "lb", "elb"} ==> f == Finished(r, Err(InvalidService)))
  {
    var a, name := s.annotations, LoadBalancerName(s);
    if LB_TYPE !in a || a[LB_TYPE] == "" || a[LB_TYPE] == "lb" {
      L4Theorems.DeleteRemoves(c, r, name);
    } else if a[LB_TYPE] == "elb" {
      ElbRuns.DeleteRun(c, r, name);
      if DeleteService(c, r, s).status.Ok? {
        ElbTheorems.DeletionHeedsFaults(c, r, name);
      }
    }
  }

  lemma L4KindIsUndone(c: Ctx, r: Run, s: Service, nodes: seq<string>, isIP: string -> bool)
    requires WorldOK(c.env, r.world) && r.out.Done? && L4Service(c, s, nodes) && LoadBalancerName(s) !in r.world.l4
    requires Valid(s.annotations, isIP) && NodesThere(c.env, nodes) && Described(c.env, nodes) != [] && s.ports != []
    ensures var f := EnsureKind(c, r, s, Described(c.env, nodes));
            var f' := L4Plan.DeleteL4(c, f.run, LoadBalancerName(s));
            && WorldOK(c.env, f.run.world) && f.run.out.Done?
            && (f'.status.Ok? ==> f'.run.world == r.world)
  {
    var name := LoadBalancerName(s);
    L4IsReady(c, r, s, nodes, isIP);
    var desire := BuildL4(name, Described(c.env, nodes), s, c.env.list).value;
    L4Theorems.CreateThenDeleteRestores(c, r, name, desire);
    L4Theorems.EnsureKeepsWorldOK(c, r, name, desire);
    L4Runs.EnsureRun(c, r, name, desire);
  }

  /** Whatever failed in ensuring an L4 service without a balancer, deleting it without faults gives back the cloud. */
  lemma L4ServiceIsUndone(c: Ctx, r: Run, s: Service, nodes: seq<string>, isIP: string -> bool)
    requires WorldOK(c.env, r.world) && r.out.Done? && L4Service(c, s, nodes) && LoadBalancerName(s) !in r.world.l4
    ensures var f := EnsureService(c, r, s, nodes, isIP);
            var f' := DeleteService(c, f.run, s);
            && (FaultFree(c, f.run.clock, f'.run.clock) ==> f'.status.Ok?)
            && (f'.status.Ok? ==> f'.run.world == r.world)
  {
    var name, f, r1 := LoadBalancerName(s), EnsureService(c, r, s, nodes, isIP), Exec(c, r, LookAt(nodes));
    LookFindsNodes(c, r, nodes);
    L4Steps.WithWith(r.world, name, None, None);
    if Acceptable(s) && r1.out.Done? && Described(c.env, nodes) != [] && Valid(s.annotations, isIP) {
      L4KindIsUndone(c, r1, s, nodes, isIP);
    }
    L4Theorems.DeleteRemoves(c, f.run, name);
  }
}
