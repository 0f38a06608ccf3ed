/** Updating a service against ensuring it: where both end, and what each needs. */
module Updates {
  import opened Base
  import opened Cloud
  import opened Runs
  import opened Annotations
  import opened Builders
  import opened Differences
  import opened Services
  import L4Frame
  import L4Steps
  import ElbFrame
  import ElbTheorems

  // ---------------------------------------------------------------- runs without faults depend on the cloud only

  /** Two operations that ended in the same state of the cloud and gave the same answer. */
  predicate SameEnd<T(==)>(f: Finished<T>, f': Finished<T>) {
    f.run.world == f'.run.world && f.status == f'.status
  }

  ghost function Same(): (World, World) -> bool {
    (w: World, w': World) => w == w'
  }

  lemma SameIsFrame(env: Env, name: string)
    ensures L4Frame.Frame(env, name, Same()) && ElbFrame.Frame(env, name, Same())
  {
  }

  lemma SameKind(c: Ctx, r: Run, r': Run, s: Service, instances: seq<Instance>)
    requires SamePlace(r, r') && |DashFree(s.uid)| >= NAME_LENGTH && instances != []
    requires Quiet(c, r, EnsureKind(c, r, s, instances)) && Quiet(c, r', EnsureKind(c, r', s, instances))
    ensures SameEnd(EnsureKind(c, r, s, instances), EnsureKind(c, r', s, instances))
  {
    var name := LoadBalancerName(s);
    BuiltNames(name, instances, s, c.env.list);
    SameIsFrame(c.env, name);
    if IsElastic(s.annotations) {
      var desire := BuildElastic(name, instances, s);
      if desire.Ok? {
        ElbFrame.EnsureAlike(c, r, r', name, desire.value, Same());
      }
    } else if IsL4(s.annotations) {
      var desire := BuildL4(name, instances, s, c.env.list);
      if desire.Ok? {
        L4Frame.EnsureAlike(c, r, r', name, desire.value, Same());
      }
    }
  }

  lemma KindNotBefore(c: Ctx, r: Run, s: Service, instances: seq<Instance>)
    requires |DashFree(s.uid)| >= NAME_LENGTH && instances != []
    ensures r.clock <= EnsureKind(c, r, s, instances).run.clock
  {
    var name := LoadBalancerName(s);
    if IsElastic(s.annotations) {
      if BuildElastic(name, instances, s).Ok? {
        ElbFrame.EnsureNotBefore(c, r, name, BuildElastic(name, instances, s).value);
      }
    } else if IsL4(s.annotations) && BuildL4(name, instances, s, c.env.list).Ok? {
      L4Frame.EnsureNotBefore(c, r, name, BuildL4(name, instances, s, c.env.list).value);
    }
  }

  /** Ensuring a service without faults depends on the cloud only, not on what was done before. */
  lemma EnsureDependsOnCloud(c: Ctx, r: Run, r': Run, s: Service, nodes: seq<string>, isIP: string -> bool)
    requires SamePlace(r, r') && |DashFree(s.uid)| >= NAME_LENGTH
    requires Quiet(c, r, EnsureService(c, r, s, nodes, isIP)) && Quiet(c, r', EnsureService(c, r', s, nodes, isIP))
    ensures SameEnd(EnsureService(c, r, s, nodes, isIP), EnsureService(c, r', s, nodes, isIP))
  {
    var r1, r1', instances := Exec(c, r, LookAt(nodes)), Exec(c, r', LookAt(nodes)), Described(c.env, nodes);
    if Acceptable(s) {
      if instances != [] {
        KindNotBefore(c, r1, s, instances);
        KindNotBefore(c, r1', s, instances);
      }
      SameExec(c, r, EnsureService(c, r, s, nodes, isIP).run.clock, r', EnsureService(c, r', s, nodes, isIP).run.clock,
               LookAt(nodes));
      if r1.out.Done? && instances != [] && Valid(s.annotations, isIP) {
        SameKind(c, r1, r1', s, instances);
      }
    }
  }

  lemma LookRun(c: Ctx, r: Run, s: Service, isIP: string -> bool)
    requires r.out.Done? && |DashFree(s.uid)| >= NAME_LENGTH
    ensures var r1 := Exec(c, r, Look(s));
            && r1.world == r.world && r.clock <= r1.clock && (r1.out.Done? ==> HasBalancer(r.world, s))
            && (c.faults(r.clock) == NoFault && Valid(s.annotations, isIP) && HasBalancer(r.world, s) ==> r1.out.Done?)
  {
  }

  lemma EnsureNotBefore(c: Ctx, r: Run, s: Service, nodes: seq<string>, isIP: string -> bool)
    requires |DashFree(s.uid)| >= NAME_LENGTH
    ensures r.clock <= EnsureService(c, r, s, nodes, isIP).run.clock
  {
    if Described(c.env, nodes) != [] {
      KindNotBefore(c, Exec(c, r, LookAt(nodes)), s, Described(c.env, nodes));
    }
  }

  /**
   * Without faults, updating a service with valid annotations whose balancer exists ends in the
   * same cloud and gives the same answer as ensuring it, whether both succeed or something, such
   * as a port clash, stops them. Where there is no balancer, or the annotations are not valid, an
   * update fails and changes nothing, faults or no faults.
   */
  lemma UpdateEndsAsEnsure(c: Ctx, r: Run, s: Service, nodes: seq<string>, isIP: string -> bool)
    requires r.out.Done? && |DashFree(s.uid)| >= NAME_LENGTH
    ensures var f, f' := UpdateService(c, r, s, nodes, isIP), EnsureService(c, r, s, nodes, isIP);
            if HasBalancer(r.world, s) && Valid(s.annotations, isIP) then
              Quiet(c, r, f) && Quiet(c, r, f') ==> SameEnd(f, f')
            else f.status.Err? && f.run.world == r.world
  {
    var r1 := Exec(c, r, Look(s));
    LookRun(c, r, s, isIP);
    if HasBalancer(r.world, s) && Valid(s.annotations, isIP)
       && Quiet(c, r, UpdateService(c, r, s, nodes, isIP)) && Quiet(c, r, EnsureService(c, r, s, nodes, isIP)) {
      EnsureNotBefore(c, r1, s, nodes, isIP);
      assert r1.clock == r.clock + 1;
      EnsureDependsOnCloud(c, r1, r, s, nodes, isIP);
    }
  }

  // ---------------------------------------------------------------- under faults

  /** Under any faults, an update and an ensuring that both succeed end in the same cloud, with the same address. */
  lemma SuccessfulL4UpdateIsEnsure(c: Ctx, r: Run, s: Service, nodes: seq<string>, isIP: string -> bool)
    requires WorldOK(c.env, r.world) && r.out.Done? && L4Service(c, s, nodes)
    ensures var f, f' := UpdateService(c, r, s, nodes, isIP), EnsureService(c, r, s, nodes, isIP);
            f.status.Ok? && f'.status.Ok? ==> SameEnd(f, f')
  {
    if UpdateService(c, r, s, nodes, isIP).status.Ok? && EnsureService(c, r, s, nodes, isIP).status.Ok? {
      LookRun(c, r, s, isIP);
      EnsuredL4Is(c, r, s, nodes, isIP);
      EnsuredL4Is(c, Exec(c, r, Look(s)), s, nodes, isIP);
    }
  }

  lemma EnsuredL4Is(c: Ctx, r: Run, s: Service, nodes: seq<string>, isIP: string -> bool)
    requires WorldOK(c.env, r.world) && r.out.Done? && L4Service(c, s, nodes)
    requires EnsureService(c, r, s, nodes, isIP).status.Ok?
    ensures var name, instances, f := LoadBalancerName(s), Described(c.env, nodes), EnsureService(c, r, s, nodes, isIP);
            var desire := BuildL4(name, instances, s, c.env.list);
            && desire.Ok? && desire.value != []
            && var b := L4Runs.Settled(c.env, name, desire.value, Lookup(r.world.l4, name));
               f.run.world == L4Steps.With(r.world, name, Some(b)) && f.status == Ok(b.vip)
  {
    var r1, name, instances := Exec(c, r, LookAt(nodes)), LoadBalancerName(s), Described(c.env, nodes);
    LookFindsNodes(c, r, nodes);
    L4IsReady(c, r1, s, nodes, isIP);
    L4Runs.EnsureRun(c, r1, name, BuildL4(name, instances, s, c.env.list).value);
  }

  /** The same for elastic services, whatever the targets of the listeners are at the start. */
  lemma SuccessfulElasticUpdateIsEnsure(c: Ctx, r: Run, s: Service, nodes: seq<string>, isIP: string -> bool)
    requires WorldOK(c.env, r.world) && r.out.Done? && ElasticService(c, s, nodes)
    requires ElbTheorems.UsableIfThere(r.world, LoadBalancerName(s))
    ensures var f, f' := UpdateService(c, r, s, nodes, isIP), EnsureService(c, r, s, nodes, isIP);
            f.status.Ok? && f'.status.Ok? ==> SameEnd(f, f')
  {
    if UpdateService(c, r, s, nodes, isIP).status.Ok? && EnsureService(c, r, s, nodes, isIP).status.Ok? {
      LookRun(c, r, s, isIP);
      EnsuredElasticIs(c, r, s, nodes, isIP);
      EnsuredElasticIs(c, Exec(c, r, Look(s)), s, nodes, isIP);
    }
  }

  lemma EnsuredElasticIs(c: Ctx, r: Run, s: Service, nodes: seq<string>, isIP: string -> bool)
    requires WorldOK(c.env, r.world) && r.out.Done? && ElasticService(c, s, nodes)
    requires ElbTheorems.UsableIfThere(r.world, LoadBalancerName(s)) && EnsureService(c, r, s, nodes, isIP).status.Ok?
    ensures var name, instances, f := LoadBalancerName(s), Described(c.env, nodes), EnsureService(c, r, s, nodes, isIP);
            && instances != [] && BuildElastic(name, instances, s).Ok? && BuildElastic(name, instances, s).value != []
            && f.run.world == ElbTheorems.Settled(c.env, r.world, name, Meant(c.env, nodes),
                                                  BuildElastic(name, instances, s).value)
            && f.status == Ok(if name in r.world.elb then r.world.elb[name].vip else c.env.vipOf(name))
  {
    var r1, name, instances := Exec(c, r, LookAt(nodes)), LoadBalancerName(s), Described(c.env, nodes);
    LookFindsNodes(c, r, nodes);
    ElasticIsReady(c, r1, s, nodes, isIP);
    ElbTheorems.EnsureRun(c, r1, name, Meant(c.env, nodes), BuildElastic(name, instances, s).value);
  }
}
